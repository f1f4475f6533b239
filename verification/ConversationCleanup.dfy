/**
 Deleting a provider conversation and replacing the session that owned it. Every irreversible
 deletion is latched by a durable receipt before it is made; a crash may come between any two steps.

 Request hashes are taken to be injective, so a receipt keeps the payload itself.
 */
module ConversationCleanup {
  import opened Wrappers

  type ConversationId = nat
  type SessionId = nat

  /** The caller's identity for a request; all methods share one table of receipts. */
  datatype Key = Key(client: nat, request: nat)

  datatype Status = Attempted | Complete

  datatype ErrorCode = DeletionUnknown | DeletionRejected

  /** The generation whose conversation is to go. */
  datatype Owner = Owner(session: SessionId, generation: nat, conversation: ConversationId)

  datatype Payload = Payload(owner: Owner, options: nat)

  datatype Receipt = Receipt(payload: Payload, status: Status, deleted: bool, error: Option<ErrorCode>)

  /** What one `deleteOnce` answered, if its answer was ever seen. */
  datatype Answer = Confirmed | Rejected | Threw

  datatype Call = Call(conversation: ConversationId, answer: Option<Answer>)

  /** Where the one deletion admitted for a conversation is; `key` names the receipt it writes. */
  datatype Flow =
    | Verified(key: Key, payload: Payload, prior: bool)
    | Recorded(key: Key, payload: Payload)
    | Called(key: Key, payload: Payload, index: nat)

  datatype Outcome = NotAttempted | ConfirmedGone | Refused | Uncertain | Preserved

  /** The recorded result of a replacement; `pending` is the deletion it may still confirm. */
  datatype Replacement = Replacement(input: nat, successor: SessionId, owner: Option<Owner>, outcome: Outcome,
                                     pending: Option<Key>)

  /**
   `drafts` holds what a replacement in progress has found out about its deletion and not recorded yet.
   `gone` is history: the conversations the provider confirmed deleted or showed as already deleted.
   */
  datatype State = State(
    deletions: map<Key, Receipt>, replacements: map<Key, Replacement>, flows: map<ConversationId, Flow>,
        drafts: map<Key, Replacement>,
    calls: seq<Call>, gone: set<ConversationId>)

  const Start := State(map[], map[], map[], map[], [], {})

  /** The condition `findConversationDeletion` puts on a receipt. */
  predicate Latches(r: Receipt, c: ConversationId) {
    r.payload.owner.conversation == c && (r.status.Attempted? || r.deleted)
  }

  predicate Latched(s: State, c: ConversationId) {
    exists k :: k in s.deletions && Latches(s.deletions[k], c)
  }

  ghost function FindDeletion(s: State, c: ConversationId): (r: Option<Key>)
    ensures r.Some? ==> r.value in s.deletions && Latches(s.deletions[r.value], c)
    ensures r.None? ==> !Latched(s, c)
  {
    if Latched(s, c) then var k :| k in s.deletions && Latches(s.deletions[k], c); Some(k) else None
  }

  datatype Event =
    | Begin(key: Key, payload: Payload, ready: bool)
    | OpenFailed(conversation: ConversationId)
    | FoundDeleted(conversation: ConversationId)
    | FoundPresent(conversation: ConversationId)
    | DeleteOnce(conversation: ConversationId)
    | Answered(conversation: ConversationId, answer: Answer)
    | Classify(key: Key, input: nat, previous: Option<Owner>, successor: SessionId, deletion: Key)
    | Replace(key: Key)
    | Preserve(key: Key, input: nat, owner: Owner, successor: SessionId)
    | ReplayReplacement(key: Key, input: nat)
    | Crash

  /** The receipt a new deletion continues: its own attempted one, else any that latches the conversation. */
  ghost function Prior(s: State, key: Key, c: ConversationId): Option<Key> {
    if key in s.deletions then Some(key) else FindDeletion(s, c)
  }

  /**
   `ready` stands for the checks of the session, its unresolved work and its idle pages. A complete
   receipt is answered from what it recorded; one of another generation is refused.
   */
  ghost function StepBegin(s: State, key: Key, payload: Payload, ready: bool): State {
    var c := payload.owner.conversation;
    if c in s.flows || !ready || key in s.replacements || (key in s.deletions && s.deletions[key].payload != payload)
    then s
    else
      var prior := Prior(s, key, c);
      if prior.None? then s.(flows := s.flows[c := Verified(key, payload, false)])
      else if s.deletions[prior.value].payload.owner != payload.owner || s.deletions[prior.value].status.Complete?
          then s
      else s.(flows := s.flows[c := Verified(prior.value, s.deletions[prior.value].payload, true)])
  }

  function Ended(s: State, c: ConversationId): State {
    s.(flows := s.flows - {c})
  }

  /** `record` refuses an identity that belongs to another operation. */
  predicate MayRecord(s: State, key: Key, payload: Payload) {
    key !in s.replacements && (key in s.deletions ==> s.deletions[key].payload == payload)
  }

  function Record(s: State, key: Key, r: Receipt): State {
    if MayRecord(s, key, r.payload) then s.(deletions := s.deletions[key := r]) else s
  }

  function RecordDeleted(s: State, f: Flow): State {
    Record(s.(gone := s.gone + {f.payload.owner.conversation}), f.key, Receipt(f.payload, Complete, true, None))
  }

  /** How a destructive replacement classifies what its deletion left behind, and what it may still confirm. */
  ghost function Classified(s: State, owner: Owner, deletion: Key): (Outcome, Option<Key>) {
    var found := Prior(s, deletion, owner.conversation);
    if found.None? then (NotAttempted, None)
    else
      var r := s.deletions[found.value];
      if r.payload.owner != owner then (Uncertain, None)
      else if r.status.Complete? && r.deleted && r.error.None? then (ConfirmedGone, None)
      else if r.status.Complete? && r.error == Some(DeletionRejected) then (Refused, None)
      else (Uncertain, if found.value == deletion && r.status.Attempted? then Some(deletion) else None)
  }

  ghost function Step(s: State, e: Event): State {
    match e
    case Begin(key, payload, ready) => StepBegin(s, key, payload, ready)
    case OpenFailed(c) => if c in s.flows && s.flows[c].Verified? then Ended(s, c) else s
    case FoundDeleted(c) => if c in s.flows && s.flows[c].Verified? then Ended(RecordDeleted(s, s.flows[c]), c) else s
    case FoundPresent(c) => if c in s.flows && s.flows[c].Verified? then StepPresent(s, c) else s
    case DeleteOnce(c) =>
      if !(c in s.flows && s.flows[c].Recorded?) then s
      else s.(calls := s.calls + [Call(c, None)],
              flows := s.flows[c := Called(s.flows[c].key, s.flows[c].payload, |s.calls|)])
    case Answered(c, answer) => if c in s.flows && s.flows[c].Called? then StepAnswered(s, c, answer) else s
    case Classify(key, input, previous, successor, deletion) =>
      if key in s.replacements || key in s.deletions then s
      else
        var (outcome, pending) := if previous.None? then (NotAttempted, None)
            else Classified(s, previous.value, deletion);
        s.(drafts := s.drafts[key := Replacement(input, successor, previous, outcome, pending)])
    case Replace(key) =>
      if key !in s.drafts || key in s.replacements || key in s.deletions then s
      else s.(replacements := s.replacements[key := s.drafts[key]], drafts := s.drafts - {key})
    case Preserve(key, input, owner, successor) =>
      if key in s.replacements || key in s.deletions || Latched(s, owner.conversation) then s
      else s.(replacements := s.replacements[key := Replacement(input, successor, Some(owner), Preserved, None)])
    case ReplayReplacement(key, input) =>
      if key in s.replacements && s.replacements[key].input == input then StepReplay(s, key) else s
    case Crash => s.(flows := map[], drafts := map[])
  }

  /**
   The conversation is still there: only a deletion nobody attempted yet goes on, and it records its attempt first.
   */
  function StepPresent(s: State, c: ConversationId): State
    requires c in s.flows && s.flows[c].Verified?
  {
    var f := s.flows[c];
    if f.prior || !MayRecord(s, f.key, f.payload) then Ended(s, c)
    else Record(s, f.key, Receipt(f.payload, Attempted, false,
                                  Some(DeletionUnknown))).(flows := s.flows[c := Recorded(f.key, f.payload)])
  }

  /** The answer is history; what it leads to is recorded with it, unless a crash comes first. */
  function StepAnswered(s: State, c: ConversationId, answer: Answer): State
    requires c in s.flows && s.flows[c].Called?
  {
    var f := s.flows[c];
    var heard := if f.index < |s.calls|
        then s.(calls := s.calls[f.index := s.calls[f.index].(answer := Some(answer))]) else s;
    match answer
    case Confirmed => Ended(RecordDeleted(heard, f), c)
    case Rejected => Ended(Record(heard, f.key, Receipt(f.payload, Complete, false, Some(DeletionRejected))), c)
    case Threw => Ended(heard, c)
  }

  /** Replaying resumes only the confirmation of its own attempted deletion. */
  function StepReplay(s: State, key: Key): State
    requires key in s.replacements
  {
    var r := s.replacements[key];
    if !(r.outcome.Uncertain? && r.pending.Some? && r.pending.value in s.deletions && r.owner.Some?) then s
    else
      var d := s.deletions[r.pending.value];
      if d.payload.owner == r.owner.value && d.status.Complete? && d.deleted
      then s.(replacements := s.replacements[key := r.(outcome := ConfirmedGone, pending := None)])
      else s
  }

  ghost function Exec(s: State, run: seq<Event>): State
    decreases |run|
  {
    if run == [] then s else Exec(Step(s, run[0]), run[1..])
  }

  // ---------------------------------------------------------------- the invariant

  predicate Refusedly(call: Call) { call.answer == Some(Rejected) }

  /** Every call for the conversation but the one at `index` was refused. */
  ghost predicate OthersRefused(s: State, c: ConversationId, index: int) {
    forall i :: 0 <= i < |s.calls| && i != index && s.calls[i].conversation == c ==> Refusedly(s.calls[i])
  }

  ghost predicate FlowFits(s: State, c: ConversationId, f: Flow) {
    && f.payload.owner.conversation == c
    && (f.Verified? && !f.prior ==> !Latched(s, c))
    && (f.Verified? && f.prior ==> f.key in s.deletions && s.deletions[f.key].payload == f.payload)
    && (f.Recorded? || f.Called? ==>
        f.key in s.deletions && s.deletions[f.key].payload == f.payload && s.deletions[f.key].status.Attempted?
            && f.key !in s.replacements)
    && (f.Recorded? ==> OthersRefused(s, c, -1))
    && (f.Called? ==> f.index < |s.calls| && s.calls[f.index] == Call(c, None) && OthersRefused(s, c, f.index))
  }

  ghost predicate FlowsFit(s: State) { forall c <- s.flows :: FlowFits(s, c, s.flows[c]) }

  ghost predicate CallsFit(s: State) {
    && (forall i, j :: 0 <= i < j < |s.calls| && s.calls[i].conversation == s.calls[j].conversation ==>
        Refusedly(s.calls[i]))
    && (forall i :: 0 <= i < |s.calls| && !Refusedly(s.calls[i]) ==> Latched(s, s.calls[i].conversation))
  }

  /** What is called confirmed was confirmed, or shown as already deleted. */
  predicate TellsTruth(s: State, r: Replacement) {
    r.outcome.ConfirmedGone? ==> r.owner.Some? && r.owner.value.conversation in s.gone
  }

  ghost predicate ResultsFit(s: State) {
    && (forall k <- s.deletions :: s.deletions[k].deleted ==>
        s.deletions[k].payload.owner.conversation in s.gone && s.deletions[k].status.Complete?)
    && (forall k <- s.replacements :: TellsTruth(s, s.replacements[k]))
    && (forall k <- s.drafts :: TellsTruth(s, s.drafts[k]))
  }

  ghost predicate Inv(s: State) { FlowsFit(s) && CallsFit(s) && ResultsFit(s) }

  /**
   One receipt written by its own conversation's flow; whatever was latched for another conversation stays latched.
   */
  lemma RecordKeeps(s: State, key: Key, r: Receipt, d: ConversationId)
    requires Latched(s, d) && d != r.payload.owner.conversation
    ensures Latched(Record(s, key, r), d)
  {
    var k :| k in s.deletions && Latches(s.deletions[k], d);
    var after := Record(s, key, r);
    assert k in after.deletions && Latches(after.deletions[k], d);
  }

  lemma RecordUnlatched(s: State, key: Key, r: Receipt, d: ConversationId)
    requires !Latched(s, d) && d != r.payload.owner.conversation
    ensures !Latched(Record(s, key, r), d)
  {
    var after := Record(s, key, r);
    forall k | k in after.deletions
      ensures !Latches(after.deletions[k], d)
    {
      if k in s.deletions { assert !Latches(s.deletions[k], d); }
    }
  }

  /** What was latched, called and recorded does not depend on the operations in progress. */
  lemma FlowsAloneKeepInv(s: State, flows: map<ConversationId, Flow>)
    requires Inv(s) && forall c <- flows :: FlowFits(s.(flows := flows), c, flows[c])
    ensures Inv(s.(flows := flows))
  {
    hide FlowFits;
    assert forall d: ConversationId :: Latched(s.(flows := flows), d) == Latched(s, d);
  }

  lemma FlowStaysFitting(s: State, flows: map<ConversationId, Flow>, c: ConversationId, f: Flow)
    requires FlowFits(s, c, f)
    ensures FlowFits(s.(flows := flows), c, f)
  {
    assert Latched(s.(flows := flows), c) == Latched(s, c);
  }

  lemma BeginKeepsInv(s: State, key: Key, payload: Payload, ready: bool)
    requires Inv(s)
    ensures Inv(StepBegin(s, key, payload, ready))
  {
    var after := StepBegin(s, key, payload, ready);
    var c := payload.owner.conversation;
    if after != s {
      forall d | d in after.flows ensures FlowFits(s.(flows := after.flows), d, after.flows[d]) {
        if d == c { BegunFits(s, key, payload); } else { FlowStaysFitting(s, after.flows, d, s.flows[d]); }
      }
      FlowsAloneKeepInv(s, after.flows);
    }
  }

  lemma BegunFits(s: State, key: Key, payload: Payload)
    requires StepBegin(s, key, payload, true) != s
    ensures var after, c := StepBegin(s, key, payload, true), payload.owner.conversation;
            c in after.flows && FlowFits(s.(flows := after.flows), c, after.flows[c])
  {
    var after, c := StepBegin(s, key, payload, true), payload.owner.conversation;
    assert Latched(s.(flows := after.flows), c) == Latched(s, c);
  }

  lemma PresentKeepsInv(s: State, c: ConversationId)
    requires Inv(s) && c in s.flows && s.flows[c].Verified?
    ensures Inv(StepPresent(s, c))
  {
    var f := s.flows[c];
    var after := StepPresent(s, c);
    assert FlowFits(s, c, f);
    if f.prior || !MayRecord(s, f.key, f.payload) {
      EndedKeepsInv(s, c);
    } else {
      var r := Receipt(f.payload, Attempted, false, Some(DeletionUnknown));
      assert Latches(after.deletions[f.key], c);
      forall d | d in after.flows ensures FlowFits(after, d, after.flows[d]) {
        if d != c {
          assert FlowFits(s, d, s.flows[d]);
          if !Latched(s, d) { RecordUnlatched(s, f.key, r, d); }
        }
      }
      forall i | 0 <= i < |after.calls| && !Refusedly(after.calls[i])
        ensures Latched(after, after.calls[i].conversation)
      {
        if after.calls[i].conversation != c { RecordKeeps(s, f.key, r, after.calls[i].conversation); }
      }
    }
  }

  lemma EndedKeepsInv(s: State, c: ConversationId)
    requires Inv(s)
    ensures Inv(Ended(s, c))
  {
    var after := Ended(s, c);
    forall d | d in after.flows ensures FlowFits(after, d, after.flows[d]) { assert FlowFits(s, d, s.flows[d]); }
    assert forall d: ConversationId :: Latched(after, d) == Latched(s, d);
  }

  /** A final receipt for a conversation whose flow has ended. */
  lemma FinalKeepsInv(s: State, key: Key, gone: set<ConversationId>, r: Receipt)
    requires Inv(s) && r.payload.owner.conversation !in s.flows && r.status.Complete? && s.gone <= gone
    requires if r.deleted then r.payload.owner.conversation in gone
             else OthersRefused(s, r.payload.owner.conversation, -1)
    ensures Inv(Record(s.(gone := gone), key, r))
  {
    hide FlowFits, Refusedly, MayRecord;
    var after := Record(s.(gone := gone), key, r);
    forall d | d in after.flows ensures FlowFits(after, d, after.flows[d]) { FinalKeepsFlow(s, key, gone, r, d); }
    FinalKeepsCalls(s, key, gone, r);
    FinalKeepsResults(s, key, gone, r);
  }

  lemma FinalKeepsFlow(s: State, key: Key, gone: set<ConversationId>, r: Receipt, d: ConversationId)
    requires FlowsFit(s) && r.payload.owner.conversation !in s.flows && r.status.Complete? && d in s.flows
    ensures FlowFits(Record(s.(gone := gone), key, r), d, s.flows[d])
  {
    assert FlowFits(s, d, s.flows[d]);
    if !Latched(s, d) { RecordUnlatched(s.(gone := gone), key, r, d); }
  }

  lemma FinalKeepsCalls(s: State, key: Key, gone: set<ConversationId>, r: Receipt)
    requires CallsFit(s) && r.status.Complete?
    requires r.deleted || OthersRefused(s, r.payload.owner.conversation, -1)
    ensures CallsFit(Record(s.(gone := gone), key, r))
  {
    var c, t := r.payload.owner.conversation, s.(gone := gone);
    var after := Record(t, key, r);
    forall i | 0 <= i < |after.calls| && !Refusedly(after.calls[i])
      ensures Latched(after, after.calls[i].conversation)
    {
      var d := s.calls[i].conversation;
      assert Latched(t, d);
      if d != c { RecordKeeps(t, key, r, d); } else { FinalLatches(t, key, r); }
    }
  }

  lemma FinalKeepsResults(s: State, key: Key, gone: set<ConversationId>, r: Receipt)
    requires ResultsFit(s) && r.status.Complete? && s.gone <= gone
             && (r.deleted ==> r.payload.owner.conversation in gone)
    ensures ResultsFit(Record(s.(gone := gone), key, r))
  {}

  lemma FinalLatches(s: State, key: Key, r: Receipt)
    requires r.deleted && Latched(s, r.payload.owner.conversation)
    ensures Latched(Record(s, key, r), r.payload.owner.conversation)
  {
    var c, after := r.payload.owner.conversation, Record(s, key, r);
    if MayRecord(s, key, r.payload) {
      assert Latches(after.deletions[key], c);
    } else {
      var k :| k in s.deletions && Latches(s.deletions[k], c);
      assert Latches(after.deletions[k], c);
    }
  }

  lemma AnsweredKeepsInv(s: State, c: ConversationId, answer: Answer)
    requires Inv(s) && c in s.flows && s.flows[c].Called?
    ensures Inv(StepAnswered(s, c, answer))
  {
    var f := s.flows[c];
    assert FlowFits(s, c, f);
    HeardKeepsInv(s, c, answer);
    var heard := Ended(s.(calls := s.calls[f.index := s.calls[f.index].(answer := Some(answer))]), c);
    if answer.Confirmed? {
      FinalKeepsInv(heard, f.key, heard.gone + {c}, Receipt(f.payload, Complete, true, None));
    } else if answer.Rejected? {
      FinalKeepsInv(heard, f.key, heard.gone, Receipt(f.payload, Complete, false, Some(DeletionRejected)));
    }
  }

  lemma HeardKeepsInv(s: State, c: ConversationId, answer: Answer)
    requires Inv(s) && c in s.flows && s.flows[c].Called? && s.flows[c].index < |s.calls|
    ensures Inv(Ended(s.(calls := s.calls[s.flows[c].index := s.calls[s.flows[c].index].(answer := Some(answer))]), c))
    ensures answer.Rejected? ==>
              var call := s.calls[s.flows[c].index].(answer := Some(answer));
              OthersRefused(s.(calls := s.calls[s.flows[c].index := call]), c, -1)
  {
    var f := s.flows[c];
    assert FlowFits(s, c, f);
    var after := Ended(s.(calls := s.calls[f.index := s.calls[f.index].(answer := Some(answer))]), c);
    assert Latches(s.deletions[f.key], c);
    assert forall d: ConversationId :: Latched(after, d) == Latched(s, d);
    forall d | d in after.flows ensures FlowFits(after, d, after.flows[d]) { assert FlowFits(s, d, s.flows[d]); }
    forall i, j | 0 <= i < j < |after.calls| && after.calls[i].conversation == after.calls[j].conversation
      ensures Refusedly(after.calls[i])
    {
      assert Refusedly(s.calls[i]);
    }
  }

  lemma CallKeepsInv(s: State, c: ConversationId)
    requires Inv(s) && c in s.flows && s.flows[c].Recorded?
    ensures Inv(Step(s, DeleteOnce(c)))
  {
    hide FlowFits, Refusedly;
    var f, after := s.flows[c], Step(s, DeleteOnce(c));
    assert FlowFits(s, c, f);
    forall d | d in after.flows ensures FlowFits(after, d, after.flows[d]) { CallKeepsFlow(s, c, d); }
    CallKeepsCalls(s, c);
  }

  lemma CallKeepsFlow(s: State, c: ConversationId, d: ConversationId)
    requires FlowsFit(s) && c in s.flows && s.flows[c].Recorded? && d in s.flows
    ensures var after := Step(s, DeleteOnce(c)); FlowFits(after, d, after.flows[d])
  {
    var after := Step(s, DeleteOnce(c));
    assert FlowFits(s, d, s.flows[d]);
    assert Latched(after, d) == Latched(s, d);
  }

  lemma CallKeepsCalls(s: State, c: ConversationId)
    requires CallsFit(s) && FlowsFit(s) && c in s.flows && s.flows[c].Recorded?
    ensures CallsFit(Step(s, DeleteOnce(c)))
  {
    var after := Step(s, DeleteOnce(c));
    assert FlowFits(s, c, s.flows[c]);
    assert Latches(s.deletions[s.flows[c].key], c);
    assert forall d: ConversationId :: Latched(after, d) == Latched(s, d);
  }

  /** Recording a replacement under an unused identity, or confirming one, leaves deletions and calls alone. */
  lemma ReplacementKeepsInv(s: State, after: State)
    requires Inv(s) && after == s.(replacements := after.replacements, drafts := after.drafts)
    requires forall k <- after.replacements :: k in s.replacements || k !in s.deletions
    requires (forall k <- after.replacements :: TellsTruth(s, after.replacements[k])) && forall k <- after.drafts ::
             TellsTruth(s, after.drafts[k])
    ensures Inv(after)
  {
    assert forall d: ConversationId :: Latched(after, d) == Latched(s, d);
    forall d | d in after.flows ensures FlowFits(after, d, after.flows[d]) { assert FlowFits(s, d, s.flows[d]); }
  }

  lemma ClassifiedTellsTruth(s: State, owner: Owner, deletion: Key, input: nat, successor: SessionId)
    requires ResultsFit(s)
    ensures var (outcome, pending) := Classified(s, owner, deletion);
            TellsTruth(s, Replacement(input, successor, Some(owner), outcome, pending))
  {}

  lemma ReplacementsKeepInv(s: State, e: Event)
    requires Inv(s) && (e.Classify? || e.Replace? || e.Preserve? || e.ReplayReplacement?)
    ensures Inv(Step(s, e))
  {
    hide FlowsFit, CallsFit, Classified;
    if e.Classify? && e.previous.Some? { ClassifiedTellsTruth(s, e.previous.value, e.deletion, e.input, e.successor); }
    ReplacementKeepsInv(s, Step(s, e));
  }

  lemma StepKeepsInv(s: State, e: Event)
    requires Inv(s)
    ensures Inv(Step(s, e))
  {
    match e
    case Begin(key, payload, ready) => BeginKeepsInv(s, key, payload, ready);
    case OpenFailed(c) => EndedKeepsInv(s, c);
    case FoundDeleted(c) =>
      if c in s.flows && s.flows[c].Verified? {
        assert FlowFits(s, c, s.flows[c]);
        EndedKeepsInv(s, c);
        FinalKeepsInv(Ended(s, c), s.flows[c].key, s.gone + {c}, Receipt(s.flows[c].payload, Complete, true, None));
      }
    case FoundPresent(c) => if c in s.flows && s.flows[c].Verified? { PresentKeepsInv(s, c); }
    case DeleteOnce(c) => if c in s.flows && s.flows[c].Recorded? { CallKeepsInv(s, c); }
    case Answered(c, answer) => if c in s.flows && s.flows[c].Called? { AnsweredKeepsInv(s, c, answer); }
    case Crash => FlowsAloneKeepInv(s, map[]); ReplacementKeepsInv(s.(flows := map[]), Step(s, e));
    case _ => ReplacementsKeepInv(s, e);
  }

  lemma {:induction false} RunKeepsInv(s: State, run: seq<Event>)
    requires Inv(s)
    ensures Inv(Exec(s, run))
    decreases |run|
  {
    if run != [] {
      StepKeepsInv(s, run[0]);
      RunKeepsInv(Step(s, run[0]), run[1..]);
    }
  }

  lemma {:induction false} Reachable(run: seq<Event>)
    ensures Inv(Exec(Start, run))
  {
    RunKeepsInv(Start, run);
  }

  // ---------------------------------------------------------------- what is promised

  /** The provider is asked to delete a conversation again only after it refused every earlier request to. */
  lemma {:induction false} DeletedAtMostOnceUnlessRefused(run: seq<Event>, i: nat, j: nat)
    requires var calls := Exec(Start, run).calls; i < j < |calls| && calls[i].conversation == calls[j].conversation
    ensures Exec(Start, run).calls[i].answer == Some(Rejected)
  {
    Reachable(run);
    assert Refusedly(Exec(Start, run).calls[i]);
  }

  /**
   Exactly when: a new request of any client goes on to the deletion if and only if no receipt latches the
   conversation.
   */
  lemma {:induction false} AttemptedExactlyWhenUnlatched(run: seq<Event>, key: Key, payload: Payload)
    requires var s := Exec(Start, run);
             key !in s.deletions && key !in s.replacements && payload.owner.conversation !in s.flows
    ensures var s, c := Exec(Start, run), payload.owner.conversation;
            var t := Step(Step(s, Begin(key, payload, true)), FoundPresent(c));
            (c in t.flows && t.flows[c].Recorded?) <==> !Latched(s, c)
  {}

  /** A recorded deletion, and a replacement that calls its cleanup confirmed, imply that the provider said so. */
  lemma {:induction false} RecordedDeletionIsReal(run: seq<Event>, k: Key)
    ensures var s := Exec(Start, run);
            && (k in s.deletions && s.deletions[k].deleted ==> s.deletions[k].payload.owner.conversation in s.gone)
            && (k in s.replacements && s.replacements[k].outcome.ConfirmedGone? ==>
                  s.replacements[k].owner.Some? && s.replacements[k].owner.value.conversation in s.gone)
  {
    Reachable(run);
  }

  /**
   A replacement once recorded names one successor for good, and its cleanup moves only from uncertain to confirmed.
   */
  ghost predicate ReplacementContinues(a: Replacement, b: Replacement) {
    && b.successor == a.successor && b.owner == a.owner && b.input == a.input
    && (b.outcome == a.outcome || (a.outcome.Uncertain? && b.outcome.ConfirmedGone?))
        && (!a.outcome.Uncertain? ==> b == a)
  }

  lemma ReplacementStep(s: State, e: Event, k: Key)
    requires k in s.replacements
    ensures k in Step(s, e).replacements && ReplacementContinues(s.replacements[k], Step(s, e).replacements[k])
  {}

  lemma {:induction false} ReplayedReplacementKeepsItsSuccessor(s: State, run: seq<Event>, k: Key)
    requires k in s.replacements
    ensures k in Exec(s, run).replacements && ReplacementContinues(s.replacements[k], Exec(s, run).replacements[k])
    decreases |run|
  {
    if run != [] {
      ReplacementStep(s, run[0], k);
      ReplayedReplacementKeepsItsSuccessor(Step(s, run[0]), run[1..], k);
    }
  }

  /**
   A preserving replacement is recorded exactly when no deletion of its conversation is latched, so every
   earlier call for it was refused; and however often it is replayed it stays preserved, with nothing to confirm.
   */
  lemma {:induction false} PreservingNeverDeletes(run: seq<Event>, e: Event, more: seq<Event>)
    requires e.Preserve? && e.key !in Exec(Start, run).replacements && e.key !in Exec(Start, run).deletions
    ensures var s := Exec(Start, run); var t := Step(s, e);
            && (e.key in t.replacements <==> !Latched(s, e.owner.conversation))
            && (e.key in t.replacements ==>
                  && (forall i :: 0 <= i < |s.calls| && s.calls[i].conversation == e.owner.conversation ==>
                      Refusedly(s.calls[i]))
                  && t.calls == s.calls && e.key in Exec(t, more).replacements
                  && Exec(t, more).replacements[e.key]
                      == Replacement(e.input, e.successor, Some(e.owner), Preserved, None))
  {
    hide Inv, FlowFits, FlowsFit, ResultsFit;
    Reachable(run);
    CallsOfInv(Exec(Start, run));
    var t := Step(Exec(Start, run), e);
    if e.key in t.replacements { ReplayedReplacementKeepsItsSuccessor(t, more, e.key); }
  }

  lemma CallsOfInv(s: State)
    requires Inv(s)
    ensures CallsFit(s)
  {}

  function AfterRefusal(payload: Payload): State {
    State(map[Key(0, 0) := Receipt(payload, Complete, false, Some(DeletionRejected))], map[], map[], map[],
          [Call(payload.owner.conversation, Some(Rejected))], {})
  }

  lemma FirstIsRefused(payload: Payload)
    ensures var c := payload.owner.conversation;
            Step(Step(Step(Step(Start, Begin(Key(0, 0), payload, true)), FoundPresent(c)), DeleteOnce(c)),
                 Answered(c, Rejected)) == AfterRefusal(payload)
  {
    var c := payload.owner.conversation;
    var s1 := Step(Start, Begin(Key(0, 0), payload, true));
    assert s1.flows == map[c := Verified(Key(0, 0), payload, false)];
    var s3 := Step(Step(s1, FoundPresent(c)), DeleteOnce(c));
    assert s3.calls == [Call(c, None)] && s3.flows == map[c := Called(Key(0, 0), payload, 0)];
  }

  lemma SecondIsAsked(payload: Payload)
    ensures var c := payload.owner.conversation;
            Step(Step(Step(AfterRefusal(payload), Begin(Key(0, 1), payload, true)), FoundPresent(c)),
                 DeleteOnce(c)).calls == [Call(c, Some(Rejected)), Call(c, None)]
  {
    var c, s4 := payload.owner.conversation, AfterRefusal(payload);
    assert !Latched(s4, c);
    var s5 := Step(s4, Begin(Key(0, 1), payload, true));
    assert s5.flows == map[c := Verified(Key(0, 1), payload, false)];
  }

  /** So "at most once" is not what holds: after a refusal, another request identity deletes again. */
  lemma {:induction false} RefusedIsAskedAgain(payload: Payload)
    ensures var c := payload.owner.conversation;
            var run := [Begin(Key(0, 0), payload, true), FoundPresent(c), DeleteOnce(c), Answered(c, Rejected),
                        Begin(Key(0, 1), payload, true), FoundPresent(c), DeleteOnce(c)];
            Exec(Start, run).calls == [Call(c, Some(Rejected)), Call(c, None)]
  {
    hide Step, AfterRefusal;
    var c := payload.owner.conversation;
    FirstIsRefused(payload);
    SecondIsAsked(payload);
    Unroll(Start, [Begin(Key(0, 0), payload, true), FoundPresent(c), DeleteOnce(c), Answered(c, Rejected),
                   Begin(Key(0, 1), payload, true), FoundPresent(c), DeleteOnce(c)]);
  }

  lemma Unroll(s: State, r: seq<Event>)
    requires |r| == 7
    ensures Exec(s, r) == Step(Step(Step(Step(Step(Step(Step(s, r[0]), r[1]), r[2]), r[3]), r[4]), r[5]), r[6])
  {
    hide Step;
    assert r[1..][0] == r[1] && r[1..][1..] == r[2..] && r[2..][1..] == r[3..] && r[3..][1..] == r[4..];
    assert r[4..][1..] == r[5..] && r[5..][1..] == r[6..] && r[6..][1..] == [];
    var s1 := Step(s, r[0]); var s2 := Step(s1, r[1]); var s3 := Step(s2, r[2]); var s4 := Step(s3, r[3]);
    var s5 := Step(s4, r[4]); var s6 := Step(s5, r[5]); var s7 := Step(s6, r[6]);
    assert Exec(s6, r[6..]) == Exec(s7, []);
    assert Exec(s5, r[5..]) == Exec(s6, r[6..]);
    assert Exec(s4, r[4..]) == Exec(s5, r[5..]);
    assert Exec(s3, r[3..]) == Exec(s4, r[4..]);
    assert Exec(s2, r[2..]) == Exec(s3, r[3..]);
    assert Exec(s1, r[1..]) == Exec(s2, r[2..]);
  }

  // ---------------------------------------------------------------- the service itself

  datatype Opened = Unopened | AlreadyDeleted | StillPresent

  /** How a call of `delete` ended; `Unresolved` repeats an attempt whose outcome is unknown. */
  datatype Reply = PayloadChanged | FromReceipt(receipt: Receipt) | SessionMismatch | OtherGeneration | NotReady
      | Unresolved | Confirming | Asked(answer: Answer)

  class CleanupService {
    var deletions: map<Key, Receipt>
    var replacements: map<Key, Replacement>
    /** The provider's history. */
    ghost var calls: seq<Call>

    ghost predicate LatchedHere(c: ConversationId)
      reads this
    {
      exists k :: k in deletions && Latches(deletions[k], c)
    }

    /** `findConversationDeletion`, over the stored receipts. */
    method FindConversationDeletion(c: ConversationId) returns (found: Option<Key>)
      ensures found.Some? ==> found.value in deletions && Latches(deletions[found.value], c)
      ensures found.None? ==> !LatchedHere(c)
    {
      var todo := deletions.Keys;
      found := None;
      while todo != {} && found.None?
        invariant todo <= deletions.Keys
        invariant found.Some? ==> found.value in deletions && Latches(deletions[found.value], c)
        invariant found.None? ==> forall k <- deletions :: k !in todo ==> !Latches(deletions[k], c)
        decreases |todo|
      {
        var k :| k in todo;
        todo := todo - {k};
        if Latches(deletions[k], c) { found := Some(k); }
      }
    }

    /**
     `delete`, from its receipt to its recorded outcome. `current` is the durable generation and
     conversation of the session, `ready` the checks of its work and its pages. The checks come in this
     order: the request's own receipt, the session, a receipt of any other request, then the work. It
     reaches `deleteOnce` exactly when all pass, no receipt is there and the conversation still is.
     */
    method Delete(key: Key, payload: Payload, current: Option<Owner>, ready: bool, opening: Opened, answer: Answer)
        returns (reply: Reply, prior: Option<Key>)
      requires key !in replacements
      modifies `deletions, `calls
      ensures prior.Some? ==>
                prior.value in old(deletions) && (if key in old(deletions) then prior.value == key
                                                  else Latches(old(deletions)[prior.value], payload.owner.conversation))
      ensures prior.None? ==>
                key !in old(deletions) && (reply == SessionMismatch || !old(LatchedHere(payload.owner.conversation)))
      ensures reply == PayloadChanged <==> key in old(deletions) && old(deletions)[key].payload != payload
      ensures key in old(deletions) ==>
                var r := old(deletions)[key];
                r.payload == payload && r.status.Complete? ==> reply == FromReceipt(r)
      ensures reply == SessionMismatch <==>
                current != Some(payload.owner) && (key in old(deletions) ==>
                                                   old(deletions)[key].payload == payload
                                                       && !old(deletions)[key].status.Complete?)
      ensures !reply.PayloadChanged? && !reply.SessionMismatch? && prior.Some? && key !in old(deletions) ==>
                (reply == OtherGeneration <==> old(deletions)[prior.value].payload.owner != payload.owner)
                && (old(deletions)[prior.value].payload.owner == payload.owner
                    && old(deletions)[prior.value].status.Complete? ==>
                        reply == FromReceipt(old(deletions)[prior.value]))
      ensures (current == Some(payload.owner)
               && (key in old(deletions) ==> old(deletions)[key].payload == payload
                                             && old(deletions)[key].status.Attempted?)
               && (prior.Some? && key !in old(deletions) ==>
                     old(deletions)[prior.value].payload.owner == payload.owner
                     && old(deletions)[prior.value].status.Attempted?))
              <==> reply == (if !ready || opening.Unopened? then NotReady
                             else if opening.AlreadyDeleted? then Confirming
                             else if prior.Some? then Unresolved
                             else Asked(answer))
      ensures reply.Asked? <==>
                current == Some(payload.owner) && ready && opening.StillPresent? && key !in old(deletions)
                && !old(LatchedHere(payload.owner.conversation))
      ensures calls == old(calls) + (if reply.Asked? then [Call(payload.owner.conversation, Some(answer))] else [])
      ensures reply.Asked? ==>
                var error := match answer case Confirmed => None case Rejected => Some(DeletionRejected)
                                          case Threw => Some(DeletionUnknown);
                var status := if answer.Threw? then Attempted else Complete;
                deletions == old(deletions)[key := Receipt(payload, status, answer.Confirmed?, error)]
      ensures reply == Confirming <==>
                (&& current == Some(payload.owner) && ready && opening.AlreadyDeleted?
                 && (key in old(deletions) ==> old(deletions)[key].payload == payload)
                 && (prior.Some? ==>
                     old(deletions)[prior.value].payload.owner == payload.owner
                         && old(deletions)[prior.value].status.Attempted?))
      ensures reply == Confirming ==>
                deletions == old(deletions)[prior.Or(key) := Receipt(if prior.Some?
                    then old(deletions)[prior.value].payload else payload, Complete, true, None)]
      ensures !reply.Asked? && !reply.Confirming? ==> deletions == old(deletions)
    {
      var c := payload.owner.conversation;
      prior := None;
      if key in deletions {
        prior := Some(key);
        if deletions[key].payload != payload { return PayloadChanged, prior; }
        if deletions[key].status.Complete? { return FromReceipt(deletions[key]), prior; }
      }
      if current != Some(payload.owner) { return SessionMismatch, prior; }
      if prior.None? {
        prior := FindConversationDeletion(c);
        if prior.Some? {
          if deletions[prior.value].payload.owner != payload.owner { return OtherGeneration, prior; }
          if deletions[prior.value].status.Complete? { return FromReceipt(deletions[prior.value]), prior; }
        }
      }
      if !ready { return NotReady, prior; }
      match opening {
        case Unopened => return NotReady, prior;
        case AlreadyDeleted =>
          var recorded := if prior.Some? then deletions[prior.value].payload else payload;
          deletions := deletions[prior.Or(key) := Receipt(recorded, Complete, true, None)];
          return Confirming, prior;
        case StillPresent =>
          if prior.Some? { return Unresolved, prior; }
          deletions := deletions[key := Receipt(payload, Attempted, false, Some(DeletionUnknown))];
          calls := calls + [Call(c, Some(answer))];
          if answer.Rejected? {
            deletions := deletions[key := Receipt(payload, Complete, false, Some(DeletionRejected))];
          } else if answer.Confirmed? {
            deletions := deletions[key := Receipt(payload, Complete, true, None)];
          }
          return Asked(answer), prior;
      }
    }
  }
}
