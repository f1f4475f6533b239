/**
 What the receipts of conversation cleanup tell, in every run: what the provider answered, and what a replacement
 says of the deletion that came before it.
 */
module CleanupReceipts {
  import opened Wrappers
  import opened ConversationCleanup

  /** The provider refused to delete the conversation. */
  ghost predicate WasRefused(s: State, c: ConversationId) {
    exists i :: 0 <= i < |s.calls| && s.calls[i] == Call(c, Some(Rejected))
  }

  /** An attempt has no outcome yet; a complete receipt says deleted, or that the provider refused. */
  ghost predicate Tells(s: State, r: Receipt) {
    match r.status
    case Attempted => !r.deleted && r.error == Some(DeletionUnknown)
    case Complete =>
      if r.deleted then r.error.None?
      else r.error == Some(DeletionRejected) && WasRefused(s, r.payload.owner.conversation)
  }

  ghost predicate AllTell(s: State) { forall k <- s.deletions :: Tells(s, s.deletions[k]) }

  /** Answered calls stay, and no call is withdrawn. */
  ghost predicate CallsStay(s: State, t: State) {
    |s.calls| <= |t.calls| && forall i :: 0 <= i < |s.calls| && s.calls[i].answer.Some? ==> t.calls[i] == s.calls[i]
  }

  lemma StepKeepsCalls(s: State, e: Event)
    requires FlowsFit(s)
    ensures CallsStay(s, Step(s, e))
  {
    if e.Answered? && e.conversation in s.flows { assert FlowFits(s, e.conversation, s.flows[e.conversation]); }
  }

  /** A step writes at most one receipt, and one that tells the truth. */
  lemma StepWritesTruth(s: State, e: Event, k: Key)
    requires FlowsFit(s) && k in Step(s, e).deletions
    requires k in s.deletions ==> Step(s, e).deletions[k] != s.deletions[k]
    ensures Tells(Step(s, e), Step(s, e).deletions[k])
  {
    var t := Step(s, e);
    if e.Answered? {
      var f := s.flows[e.conversation];
      assert FlowFits(s, e.conversation, f);
      if e.answer.Rejected? { assert t.calls[f.index] == Call(f.payload.owner.conversation, Some(Rejected)); }
    }
  }

  lemma RefusalStays(s: State, t: State, c: ConversationId)
    requires CallsStay(s, t) && WasRefused(s, c)
    ensures WasRefused(t, c)
  {
    var i :| 0 <= i < |s.calls| && s.calls[i] == Call(c, Some(Rejected));
    assert t.calls[i] == s.calls[i];
  }

  lemma StepKeepsTelling(s: State, e: Event)
    requires FlowsFit(s) && AllTell(s)
    ensures AllTell(Step(s, e))
  {
    hide Step, FlowsFit, CallsStay, WasRefused;
    var t := Step(s, e);
    StepKeepsCalls(s, e);
    forall k | k in t.deletions ensures Tells(t, t.deletions[k]) {
      if k in s.deletions && t.deletions[k] == s.deletions[k] {
        assert Tells(s, s.deletions[k]);
        if WasRefused(s, s.deletions[k].payload.owner.conversation) {
          RefusalStays(s, t, s.deletions[k].payload.owner.conversation);
        }
      } else {
        StepWritesTruth(s, e, k);
      }
    }
  }

  lemma {:induction false} RunKeepsTelling(s: State, run: seq<Event>)
    requires Inv(s) && AllTell(s)
    ensures AllTell(Exec(s, run))
    decreases |run|
  {
    hide Step, AllTell, FlowsFit, CallsFit, ResultsFit;
    if run != [] {
      StepKeepsTelling(s, run[0]);
      StepKeepsInv(s, run[0]);
      RunKeepsTelling(Step(s, run[0]), run[1..]);
    }
  }

  /** A complete receipt, in every run, says exactly whether the conversation was deleted; else the provider refused. */
  lemma {:induction false} ReceiptTells(run: seq<Event>, k: Key)
    requires k in Exec(Start, run).deletions
    ensures Tells(Exec(Start, run), Exec(Start, run).deletions[k])
  {
    RunKeepsTelling(Start, run);
  }

  /** What a replacement records of the deletion before it, when it finds this receipt. */
  function Said(r: Receipt, owner: Owner): Outcome {
    if r.payload.owner != owner || r.status.Attempted? then Uncertain
    else if r.deleted then ConfirmedGone
    else Refused
  }

  /**
   A destructive replacement says that nothing was attempted exactly when there is no receipt of its deletion and none
   that latches the conversation; else what its own receipt says, or one that latches the conversation. It has
   something left to confirm exactly when its own deletion is the one without an outcome.
   */
  lemma {:induction false} ReplacementTellsExactly(run: seq<Event>, key: Key, input: nat, previous: Option<Owner>,
                                                   successor: SessionId, deletion: Key)
    requires var s := Exec(Start, run); key !in s.replacements && key !in s.deletions
    ensures var s := Exec(Start, run);
            var after := Step(s, Classify(key, input, previous, successor, deletion));
            && key in after.drafts
            && var r := after.drafts[key];
               && (r.input, r.successor, r.owner) == (input, successor, previous)
               && (r.outcome.NotAttempted? <==>
                     previous.None? || (deletion !in s.deletions && !Latched(s, previous.value.conversation)))
               && (!r.outcome.NotAttempted? && deletion in s.deletions ==>
                     r.outcome == Said(s.deletions[deletion], previous.value))
               && (!r.outcome.NotAttempted? && deletion !in s.deletions ==>
                     exists k <- s.deletions ::
                       Latches(s.deletions[k], previous.value.conversation)
                       && r.outcome == Said(s.deletions[k], previous.value))
               && r.pending == if previous.Some? && deletion in s.deletions
                                  && s.deletions[deletion].payload.owner == previous.value
                                  && s.deletions[deletion].status.Attempted? then Some(deletion) else None
  {
    hide Inv, AllTell;
    StartTells();
    RunKeepsTelling(Start, run);
    var s := Exec(Start, run);
    if previous.Some? {
      var found := Prior(s, deletion, previous.value.conversation);
      FoundLatches(s, previous.value.conversation);
      if found.Some? { assert Tells(s, s.deletions[found.value]) by { TellsOne(s, found.value); } }
    }
  }

  lemma StartTells()
    ensures Inv(Start) && AllTell(Start)
  {}

  lemma FoundLatches(s: State, c: ConversationId)
    ensures FindDeletion(s, c).Some? <==> Latched(s, c)
    ensures FindDeletion(s, c).Some? ==>
              FindDeletion(s, c).value in s.deletions && Latches(s.deletions[FindDeletion(s, c).value], c)
  {}

  lemma TellsOne(s: State, k: Key)
    requires AllTell(s) && k in s.deletions
    ensures Tells(s, s.deletions[k])
  {}

  /** Replaying a replacement confirms its cleanup exactly when the deletion it waited for was recorded as done. */
  lemma ReplayConfirmsExactlyWhen(s: State, key: Key, input: nat)
    requires key in s.replacements
    ensures var r := s.replacements[key];
            var done := && r.input == input && r.outcome.Uncertain? && r.owner.Some? && r.pending.Some?
                        && r.pending.value in s.deletions && s.deletions[r.pending.value].payload.owner == r.owner.value
                        && s.deletions[r.pending.value].status.Complete? && s.deletions[r.pending.value].deleted;
            Step(s, ReplayReplacement(key, input)) ==
              if !done then s
              else s.(replacements := s.replacements[key := r.(outcome := ConfirmedGone, pending := None)])
  {}

  /** The deletion is let in with this receipt. */
  ghost predicate Enters(s: State, after: State, key: Key, payload: Payload, prior: bool) {
    after == s.(flows := s.flows[payload.owner.conversation := Verified(key, payload, prior)])
  }

  /**
   A deletion is let in to look at its conversation exactly when no other one is there, the session is ready and the
   identity is not a replacement's; and its own receipt, if it has one, is for the same payload and without an
   outcome, or the conversation is not latched, or a latching receipt of the same owner has no outcome.
   */
  lemma EntersExactlyWhen(s: State, key: Key, payload: Payload, ready: bool)
    ensures var c := payload.owner.conversation;
            var after := Step(s, Begin(key, payload, ready));
            if c in s.flows || !ready || key in s.replacements then after == s
            else if key in s.deletions then
              if s.deletions[key].payload == payload && s.deletions[key].status.Attempted?
              then Enters(s, after, key, payload, true) else after == s
            else if !Latched(s, c) then Enters(s, after, key, payload, false)
            else
              exists k <- s.deletions ::
                Latches(s.deletions[k], c) &&
                if s.deletions[k].payload.owner == payload.owner && s.deletions[k].status.Attempted?
                then Enters(s, after, k, s.deletions[k].payload, true) else after == s
  {
    FoundLatches(s, payload.owner.conversation);
    var c := payload.owner.conversation;
    if key !in s.deletions && Latched(s, c) {
      var k := FindDeletion(s, c).value;
      assert Latches(s.deletions[k], c);
    }
  }
}
