/**
 Stopping a generation: the gesture is recorded before it is made, and its receipt is completed only
 together with the generation it cancelled. A crash may come between any two steps.
 */
module StopService {
  import opened Wrappers

  type SessionId = nat

  datatype Key = Key(client: nat, request: nat)

  /** The generation a stop is for. */
  datatype Target = Target(session: SessionId, generation: nat)

  datatype Status = Attempted | Complete

  datatype Receipt = Receipt(target: Target, status: Status)

  /**
   A session and its current generation: whether it has ended, whether it has ended for good, and whether
   its end could be undone, because a request that was never sent may be replayed and approved again.
   */
  datatype Session = Session(current: nat, terminal: bool, over: bool, revocable: bool)

  const Fresh := Session(0, false, false, false)

  /** A stop of such a generation is final. */
  predicate Lasting(s: Session) { !s.revocable }

  /** A confirmed stop. */
  function Ended(s: Session): Session { s.(terminal := true, over := s.over || Lasting(s)) }

  /** What the rest of the core may do to a session whose actor is not busy with a stop. */
  predicate Moves(a: Session, b: Session) {
    && (b.over ==> b.terminal)
    && (if b.current != a.current then b.current == a.current + 1 else a.over ==> b.over)
  }

  /**
   What it may do while the session's actor is busy with a stop: nothing but retire a session whose prompt was not
   sent.
   */
  predicate Cut(a: Session, b: Session) { b == a || b == a.(terminal := true, over := true, revocable := false) }

  datatype Flow = Opened(key: Key, target: Target) | Recorded(key: Key, target: Target)
      | Gesturing(key: Key, target: Target, index: nat)

  /** `lasting` is whether the stop was final when the gesture was made. */
  datatype Gesture = Gesture(target: Target, lasting: bool, confirmed: bool)

  /**
   `flows` holds the operation each session's actor is running. `gestures` and `known` are history:
   the gestures made, and the session identities ever drawn.
   */
  datatype State = State(sessions: map<SessionId, Session>, receipts: map<Key, Receipt>, flows: map<SessionId, Flow>,
                         gestures: seq<Gesture>, known: set<SessionId>)

  const Start := State(map[], map[], map[], [], {})

  datatype Event =
    | Begin(key: Key, session: SessionId, expected: Option<nat>)
    | Unavailable(session: SessionId)
    | Available(session: SessionId)
    | StopOnce(session: SessionId)
    | Answered(session: SessionId, stopped: bool)
    | Others(after: map<SessionId, Session>)
    | Crash

  /** `hasUnconfirmedStop`. */
  predicate Unconfirmed(receipts: map<Key, Receipt>, t: Target) {
    exists k :: k in receipts && receipts[k] == Receipt(t, Attempted)
  }

  /** The request is still being served: requests with one identity are served one after the other. */
  predicate Busy(s: State, key: Key) {
    exists sid :: sid in s.flows && s.flows[sid].key == key
  }

  /** A repeated request is answered from its receipt; a generation that has ended needs no gesture. */
  function StepBegin(s: State, key: Key, sid: SessionId, expected: Option<nat>): State {
    if key in s.receipts || Busy(s, key) || sid !in s.sessions || sid in s.flows then s
    else
      var t := Target(sid, s.sessions[sid].current);
      if expected.Some? && expected.value != t.generation then s
      else if s.sessions[sid].terminal then s.(receipts := s.receipts[key := Receipt(t, Complete)])
      else if t.generation == 0 || Unconfirmed(s.receipts, t) then s
      else s.(flows := s.flows[sid := Opened(key, t)])
  }

  /** A step of the rest of the core, which may create, change and delete several sessions. */
  predicate Allowed(s: State, after: map<SessionId, Session>) {
    forall sid <- after ::
      if sid !in s.sessions then sid !in s.known && after[sid] == Fresh
      else if sid in s.flows then Cut(s.sessions[sid], after[sid])
      else Moves(s.sessions[sid], after[sid])
  }

  function Step(s: State, e: Event): State {
    match e
    case Begin(key, sid, expected) => StepBegin(s, key, sid, expected)
    case Unavailable(sid) => if sid in s.flows && s.flows[sid].Opened? then StepUnavailable(s, sid) else s
    case Available(sid) => if sid in s.flows && s.flows[sid].Opened? then StepAvailable(s, sid) else s
    case StopOnce(sid) => if sid in s.flows && s.flows[sid].Recorded? then StepStopOnce(s, sid) else s
    case Answered(sid, stopped) =>
      if sid in s.flows && s.flows[sid].Gesturing? then StepAnswered(s, sid, stopped) else s
    case Others(after) => if Allowed(s, after) then s.(sessions := after, known := s.known + after.Keys) else s
    case Crash => s.(flows := map[])
  }

  /** No stop control: the receipt is written only if the generation ended meanwhile. */
  function StepUnavailable(s: State, sid: SessionId): State
    requires sid in s.flows && s.flows[sid].Opened?
  {
    var f := s.flows[sid];
    var idle := s.(flows := s.flows - {sid});
    if sid in s.sessions && s.sessions[sid].terminal && f.key !in s.receipts
    then idle.(receipts := s.receipts[f.key := Receipt(f.target, Complete)])
    else idle
  }

  function StepAvailable(s: State, sid: SessionId): State
    requires sid in s.flows && s.flows[sid].Opened?
  {
    var f := s.flows[sid];
    if f.key in s.receipts then s.(flows := s.flows - {sid})
    else s.(receipts := s.receipts[f.key := Receipt(f.target, Attempted)],
            flows := s.flows[sid := Recorded(f.key, f.target)])
  }

  function StepStopOnce(s: State, sid: SessionId): State
    requires sid in s.flows && s.flows[sid].Recorded?
  {
    var f := s.flows[sid];
    s.(gestures := s.gestures + [Gesture(f.target, sid in s.sessions ==> Lasting(s.sessions[sid]), false)],
       flows := s.flows[sid := Gesturing(f.key, f.target, |s.gestures|)])
  }

  /** The gesture's generation is still current and its receipt still attempted. */
  predicate MayComplete(s: State, sid: SessionId) {
    && sid in s.flows && s.flows[sid].Gesturing? && s.flows[sid].index < |s.gestures|
    && sid in s.sessions && s.sessions[sid].current == s.flows[sid].target.generation
    && s.flows[sid].key in s.receipts && s.receipts[s.flows[sid].key].status.Attempted?
  }

  /** `#completeStop`, or an unknown outcome that leaves the attempted receipt as it is. */
  function StepAnswered(s: State, sid: SessionId, stopped: bool): State
    requires sid in s.flows && s.flows[sid].Gesturing?
  {
    var f := s.flows[sid];
    var idle := s.(flows := s.flows - {sid});
    if !stopped || !MayComplete(s, sid) then idle
    else idle.(sessions := s.sessions[sid := Ended(s.sessions[sid])],
               receipts := s.receipts[f.key := Receipt(f.target, Complete)],
               gestures := s.gestures[f.index := s.gestures[f.index].(confirmed := true)])
  }

  function Exec(s: State, run: seq<Event>): State
    decreases |run|
  {
    if run == [] then s else Exec(Step(s, run[0]), run[1..])
  }

  // ---------------------------------------------------------------- the invariant

  /** Every gesture for the target but the one at `index` was a confirmed stop that was not final. */
  ghost predicate Free(s: State, t: Target, index: int) {
    forall i :: 0 <= i < |s.gestures| && i != index && s.gestures[i].target == t ==>
        s.gestures[i].confirmed && !s.gestures[i].lasting
  }

  ghost predicate FlowFits(s: State, sid: SessionId, f: Flow) {
    && f.target.session == sid && sid in s.known && f.target.generation > 0
    && (sid in s.sessions ==> s.sessions[sid].current == f.target.generation)
    && (f.Opened? ==> f.key !in s.receipts && !Unconfirmed(s.receipts, f.target) && Free(s, f.target, -1))
    && (!f.Opened? ==> f.key in s.receipts && s.receipts[f.key] == Receipt(f.target, Attempted))
    && (f.Recorded? ==> Free(s, f.target, -1))
    && (f.Gesturing? ==>
          && f.index < |s.gestures| && Free(s, f.target, f.index)
          && var g := s.gestures[f.index];
             g.target == f.target && !g.confirmed && (sid in s.sessions ==> (g.lasting ==> Lasting(s.sessions[sid]))))
  }

  /** An unconfirmed gesture left its receipt behind; a confirmed one that was final left its generation over. */
  ghost predicate GestureFits(s: State, g: Gesture) {
    && g.target.session in s.known
    && (!g.confirmed ==> Unconfirmed(s.receipts, g.target))
    && (g.target.session in s.sessions ==>
          var session := s.sessions[g.target.session];
          && g.target.generation <= session.current
          && (g.confirmed && g.lasting && g.target.generation == session.current ==> session.over))
  }

  ghost predicate FlowsFit(s: State) {
    && (forall sid <- s.flows :: FlowFits(s, sid, s.flows[sid]))
    && (forall k, l :: k in s.flows && l in s.flows && s.flows[k].key == s.flows[l].key ==> k == l)
  }

  ghost predicate GesturesFit(s: State) {
    && (forall g <- s.gestures :: GestureFits(s, g))
    && (forall i, j :: 0 <= i < j < |s.gestures| && s.gestures[i].target == s.gestures[j].target ==>
        s.gestures[i].confirmed && !s.gestures[i].lasting)
  }

  ghost predicate SessionsFit(s: State) {
    s.sessions.Keys <= s.known && forall sid <- s.sessions :: s.sessions[sid].over ==> s.sessions[sid].terminal
  }

  ghost predicate Inv(s: State) { FlowsFit(s) && GesturesFit(s) && SessionsFit(s) }

  /** A receipt written for its own target leaves what is unconfirmed for another target as it was. */
  lemma ReceiptKeeps(receipts: map<Key, Receipt>, key: Key, r: Receipt, t: Target)
    requires t != r.target && (key in receipts ==> receipts[key].target == r.target)
    ensures Unconfirmed(receipts[key := r], t) == Unconfirmed(receipts, t)
  {
    var after := receipts[key := r];
    if Unconfirmed(receipts, t) {
      var k :| k in receipts && receipts[k] == Receipt(t, Attempted);
      assert after[k] == Receipt(t, Attempted);
    }
    if Unconfirmed(after, t) {
      var k :| k in after && after[k] == Receipt(t, Attempted);
      assert receipts[k] == Receipt(t, Attempted);
    }
  }

  lemma CompletedKeeps(receipts: map<Key, Receipt>, key: Key, target: Target, t: Target)
    requires key !in receipts
    ensures Unconfirmed(receipts[key := Receipt(target, Complete)], t) == Unconfirmed(receipts, t)
  {
    var after := receipts[key := Receipt(target, Complete)];
    if Unconfirmed(receipts, t) {
      var k :| k in receipts && receipts[k] == Receipt(t, Attempted);
      assert after[k] == Receipt(t, Attempted);
    }
    if Unconfirmed(after, t) {
      var k :| k in after && after[k] == Receipt(t, Attempted);
      assert receipts[k] == Receipt(t, Attempted);
    }
  }

  lemma BeginKeepsInv(s: State, key: Key, sid: SessionId, expected: Option<nat>)
    requires Inv(s)
    ensures Inv(StepBegin(s, key, sid, expected))
  {
    var after := StepBegin(s, key, sid, expected);
    if after.receipts != s.receipts {
      var t := Target(sid, s.sessions[sid].current);
      forall u: Target
        ensures Unconfirmed(after.receipts, u) == Unconfirmed(s.receipts, u)
      {
        CompletedKeeps(s.receipts, key, t, u);
      }
      forall i | i in after.flows ensures FlowFits(after, i, after.flows[i]) { assert FlowFits(s, i, s.flows[i]); }
      forall g | g in after.gestures ensures GestureFits(after, g) { assert GestureFits(s, g); }
    } else if after != s {
      var t := Target(sid, s.sessions[sid].current);
      forall i | 0 <= i < |s.gestures| && s.gestures[i].target == t
        ensures s.gestures[i].confirmed && !s.gestures[i].lasting
      {
        assert s.gestures[i] in s.gestures && GestureFits(s, s.gestures[i]);
      }
      forall i | i in after.flows
        ensures FlowFits(after, i, after.flows[i])
      {
        if i != sid { assert FlowFits(s, i, s.flows[i]); }
      }
      forall g | g in after.gestures ensures GestureFits(after, g) { assert GestureFits(s, g); }
    }
  }

  lemma UnavailableKeepsInv(s: State, sid: SessionId)
    requires Inv(s) && sid in s.flows && s.flows[sid].Opened?
    ensures Inv(StepUnavailable(s, sid))
  {
    var f, after := s.flows[sid], StepUnavailable(s, sid);
    if f.key !in s.receipts {
      forall u: Target
        ensures Unconfirmed(after.receipts, u) == Unconfirmed(s.receipts, u)
      {
        CompletedKeeps(s.receipts, f.key, f.target, u);
      }
    }
    forall i | i in after.flows
      ensures FlowFits(after, i, after.flows[i])
    {
      assert FlowFits(s, i, s.flows[i]) && FlowFits(s, sid, f);
    }
    forall g | g in after.gestures ensures GestureFits(after, g) { assert GestureFits(s, g); }
  }

  lemma AvailableKeepsInv(s: State, sid: SessionId)
    requires Inv(s) && sid in s.flows && s.flows[sid].Opened?
    ensures Inv(StepAvailable(s, sid))
  {
    var f, after := s.flows[sid], StepAvailable(s, sid);
    assert FlowFits(s, sid, f);
    var r := Receipt(f.target, Attempted);
    forall i | i in after.flows ensures FlowFits(after, i, after.flows[i]) {
      if i != sid {
        assert FlowFits(s, i, s.flows[i]);
        ReceiptKeeps(s.receipts, f.key, r, s.flows[i].target);
      }
    }
    forall g | g in after.gestures ensures GestureFits(after, g) {
      assert GestureFits(s, g);
      if g.target != f.target { ReceiptKeeps(s.receipts, f.key, r, g.target); }
    }
  }

  lemma StopOnceKeepsInv(s: State, sid: SessionId)
    requires Inv(s) && sid in s.flows && s.flows[sid].Recorded?
    ensures Inv(StepStopOnce(s, sid))
  {
    var f, after := s.flows[sid], StepStopOnce(s, sid);
    assert FlowFits(s, sid, f);
    forall i | i in after.flows
      ensures FlowFits(after, i, after.flows[i])
    {
      if i != sid { assert FlowFits(s, i, s.flows[i]); }
    }
    forall g | g in after.gestures ensures GestureFits(after, g) {
      if g in s.gestures {
        assert GestureFits(s, g);
      } else {
        assert s.receipts[f.key] == Receipt(f.target, Attempted);
      }
    }
  }

  lemma AnsweredKeepsInv(s: State, sid: SessionId, stopped: bool)
    requires Inv(s) && sid in s.flows && s.flows[sid].Gesturing?
    ensures Inv(StepAnswered(s, sid, stopped))
  {
    hide FlowFits, GestureFits;
    var f, after := s.flows[sid], StepAnswered(s, sid, stopped);
    forall i | i in after.flows ensures FlowFits(after, i, after.flows[i]) { AnsweredKeepsFlow(s, sid, stopped, i); }
    forall i: nat | i < |after.gestures|
      ensures GestureFits(after, after.gestures[i])
    {
      AnsweredKeepsGesture(s, sid, stopped, i);
    }
    assert FlowFits(s, sid, f);
  }

  lemma AnsweredKeepsFlow(s: State, sid: SessionId, stopped: bool, i: SessionId)
    requires FlowsFit(s) && sid in s.flows && s.flows[sid].Gesturing? && i in s.flows && i != sid
    ensures FlowFits(StepAnswered(s, sid, stopped), i, s.flows[i])
  {
    assert FlowFits(s, sid, s.flows[sid]) && FlowFits(s, i, s.flows[i]);
    ReceiptKeeps(s.receipts, s.flows[sid].key, Receipt(s.flows[sid].target, Complete), s.flows[i].target);
  }

  lemma AnsweredKeepsGesture(s: State, sid: SessionId, stopped: bool, i: nat)
    requires FlowsFit(s) && GesturesFit(s) && sid in s.flows && s.flows[sid].Gesturing? && i < |s.gestures|
    ensures GestureFits(StepAnswered(s, sid, stopped), StepAnswered(s, sid, stopped).gestures[i])
  {
    var f := s.flows[sid];
    assert FlowFits(s, sid, f);
    assert s.gestures[i] in s.gestures && GestureFits(s, s.gestures[i]);
    if s.gestures[i].target != f.target {
      ReceiptKeeps(s.receipts, f.key, Receipt(f.target, Complete), s.gestures[i].target);
    }
  }

  lemma OthersKeepInv(s: State, after: map<SessionId, Session>)
    requires Inv(s) && Allowed(s, after)
    ensures Inv(Step(s, Others(after)))
  {
    var t := Step(s, Others(after));
    forall i | i in t.flows ensures FlowFits(t, i, t.flows[i]) { assert FlowFits(s, i, s.flows[i]); }
    forall g | g in t.gestures ensures GestureFits(t, g) { assert GestureFits(s, g); }
  }

  lemma CrashKeepsInv(s: State)
    requires Inv(s)
    ensures Inv(Step(s, Crash))
  {
    forall g | g in s.gestures ensures GestureFits(Step(s, Crash), g) { assert GestureFits(s, g); }
  }

  lemma StepKeepsInv(s: State, e: Event)
    requires Inv(s)
    ensures Inv(Step(s, e))
  {
    hide Inv;
    match e
    case Begin(key, sid, expected) => BeginKeepsInv(s, key, sid, expected);
    case Unavailable(sid) => if sid in s.flows && s.flows[sid].Opened? { UnavailableKeepsInv(s, sid); }
    case Available(sid) => if sid in s.flows && s.flows[sid].Opened? { AvailableKeepsInv(s, sid); }
    case StopOnce(sid) => if sid in s.flows && s.flows[sid].Recorded? { StopOnceKeepsInv(s, sid); }
    case Answered(sid, stopped) => if sid in s.flows && s.flows[sid].Gesturing? { AnsweredKeepsInv(s, sid, stopped); }
    case Others(after) => if Allowed(s, after) { OthersKeepInv(s, after); }
    case Crash => CrashKeepsInv(s);
  }

  lemma {:induction false} RunKeepsInv(s: State, run: seq<Event>)
    requires Inv(s)
    ensures Inv(Exec(s, run))
    decreases |run|
  {
    if run != [] {
      StepKeepsInv(s, run[0]);
      RunKeepsInv(Step(s, run[0]), run[1..]);
    }
  }

  lemma {:induction false} ExecConcat(s: State, a: seq<Event>, b: seq<Event>)
    ensures Exec(s, a + b) == Exec(Exec(s, a), b)
    decreases |a|
  {
    if a == [] {
      assert a + b == b;
    } else {
      assert (a + b)[0] == a[0] && (a + b)[1..] == a[1..] + b;
      ExecConcat(Step(s, a[0]), a[1..], b);
    }
  }

  // ---------------------------------------------------------------- what is promised

  /**
   The gesture runs at most once per generation: only a confirmed stop that could have been undone when it
   was asked for is ever followed by another gesture.
   */
  lemma {:induction false} StoppedAtMostOnce(run: seq<Event>, i: nat, j: nat)
    requires var g := Exec(Start, run).gestures; i < j < |g| && g[i].target == g[j].target
    ensures var g := Exec(Start, run).gestures; g[i].confirmed && !g[i].lasting
  {
    RunKeepsInv(Start, run);
  }

  /** Where no answer confirms a stop, the gesture runs at most once per generation, whatever the generation is. */
  lemma {:induction false} UnconfirmedMeansOnce(run: seq<Event>, i: nat, j: nat)
    requires forall k :: 0 <= k < |run| ==> !(run[k].Answered? && run[k].stopped)
    requires i < j < |Exec(Start, run).gestures|
    ensures Exec(Start, run).gestures[i].target != Exec(Start, run).gestures[j].target
  {
    RunKeepsInv(Start, run);
    NothingConfirmed(Start, run);
    var g := Exec(Start, run).gestures[i];
    assert g in Exec(Start, run).gestures;
  }

  lemma {:induction false} NothingConfirmed(s: State, run: seq<Event>)
    requires forall k :: 0 <= k < |run| ==> !(run[k].Answered? && run[k].stopped)
    requires forall g <- s.gestures :: !g.confirmed
    ensures forall g <- Exec(s, run).gestures :: !g.confirmed
    decreases |run|
  {
    if run != [] {
      assert forall g <- Step(s, run[0]).gestures :: !g.confirmed;
      NothingConfirmed(Step(s, run[0]), run[1..]);
    }
  }

  /**
   A new request reaches the gesture if and only if it names no other generation, the generation is live and no stop of
   it is unconfirmed; its attempt is then recorded first. Otherwise a request for a generation that has ended is
   recorded as complete, and any other one leaves no receipt.
   */
  lemma {:induction false} GesturedExactlyWhenLive(run: seq<Event>, key: Key, sid: SessionId, expected: Option<nat>)
    requires var s := Exec(Start, run); key !in s.receipts && !Busy(s, key) && sid in s.sessions && sid !in s.flows
    ensures var s := Exec(Start, run);
            var was, target := s.sessions[sid], Target(sid, s.sessions[sid].current);
            var named := expected.None? || expected.value == was.current;
            var recorded := Step(Step(s, Begin(key, sid, expected)), Available(sid));
            var t := Step(recorded, StopOnce(sid));
            && (|t.gestures| == |s.gestures| + 1 <==>
                  named && !was.terminal && was.current > 0 && !Unconfirmed(s.receipts, target))
            && (if |t.gestures| == |s.gestures| + 1 then
                  && t.gestures[..|s.gestures|] == s.gestures && t.gestures[|s.gestures|].target == target
                  && recorded.receipts == t.receipts == s.receipts[key := Receipt(target, Attempted)]
                else
                  && t.gestures == s.gestures
                  && t.receipts == if named && was.terminal then s.receipts[key := Receipt(target, Complete)]
                                   else s.receipts)
            && t.sessions == s.sessions
  {}

  /**
   The answer to a gesture completes its receipt and cancels its generation if and only if it confirms the stop of the
   session's current generation; otherwise the receipt stays attempted and the session as it is.
   */
  lemma {:induction false} CompletedExactlyWhenConfirmed(run: seq<Event>, sid: SessionId, stopped: bool)
    requires var s := Exec(Start, run); sid in s.flows && s.flows[sid].Gesturing?
    ensures var s := Exec(Start, run);
            var f, t := s.flows[sid], Step(s, Answered(sid, stopped));
            && t.flows == s.flows - {sid} && f.key in s.receipts
            && if stopped && sid in s.sessions && s.sessions[sid].current == f.target.generation then
                 && t.receipts == s.receipts[f.key := Receipt(f.target, Complete)]
                 && t.sessions == s.sessions[sid := Ended(s.sessions[sid])]
               else
                 t.receipts == s.receipts && t.sessions == s.sessions
  {
    RunKeepsInv(Start, run);
    var s := Exec(Start, run);
    assert FlowFits(s, sid, s.flows[sid]);
  }

  /** Without a control to press, a receipt is written if and only if the generation ended while it was looked for. */
  lemma {:induction false} UnavailableRecordsExactlyEnded(run: seq<Event>, sid: SessionId)
    requires var s := Exec(Start, run); sid in s.flows && s.flows[sid].Opened?
    ensures var s := Exec(Start, run);
            var f, t := s.flows[sid], Step(s, Unavailable(sid));
            && t.flows == s.flows - {sid} && t.gestures == s.gestures && t.sessions == s.sessions
            && t.receipts == if sid in s.sessions && s.sessions[sid].terminal && f.key !in s.receipts
                             then s.receipts[f.key := Receipt(f.target, Complete)] else s.receipts
  {}

  /** No operation is for the generation, and none ever will be. */
  ghost predicate Blocked(s: State, t: Target) {
    && t.session in s.known && (t.session in s.flows ==> s.flows[t.session].target != t)
    && (Unconfirmed(s.receipts, t) ||
        (t.session in s.sessions ==> var x := s.sessions[t.session];
         t.generation < x.current || (t.generation == x.current && x.over)))
  }

  lemma StopStaysBlocked(s: State, e: Event, t: Target)
    requires Inv(s) && Blocked(s, t) && (e.Unavailable? || e.Available? || e.StopOnce? || e.Answered?)
    ensures Blocked(Step(s, e), t) && |s.gestures| <= |Step(s, e).gestures|
    ensures forall i :: |s.gestures| <= i < |Step(s, e).gestures| ==> Step(s, e).gestures[i].target != t
  {
    if e.session in s.flows {
      var f := s.flows[e.session];
      assert FlowFits(s, e.session, f);
      ReceiptKeeps(s.receipts, f.key, Receipt(f.target, Attempted), t) by { assert f.target != t; }
      ReceiptKeeps(s.receipts, f.key, Receipt(f.target, Complete), t);
    }
  }

  lemma OtherStaysBlocked(s: State, e: Event, t: Target)
    requires Inv(s) && Blocked(s, t) && !(e.Unavailable? || e.Available? || e.StopOnce? || e.Answered?)
    ensures Blocked(Step(s, e), t) && Step(s, e).gestures == s.gestures
  {
    var after := Step(s, e);
    if e.Begin? && after.receipts != s.receipts {
      CompletedKeeps(s.receipts, e.key, Target(e.session, s.sessions[e.session].current), t);
    }
  }

  lemma {:induction false} RunStaysBlocked(s: State, run: seq<Event>, t: Target)
    requires Inv(s) && Blocked(s, t)
    ensures |s.gestures| <= |Exec(s, run).gestures|
    ensures forall i :: |s.gestures| <= i < |Exec(s, run).gestures| ==> Exec(s, run).gestures[i].target != t
    decreases |run|
  {
    hide Inv, Blocked, Step;
    if run != [] {
      var next := Step(s, run[0]);
      StepKeepsInv(s, run[0]);
      if run[0].Unavailable? || run[0].Available? || run[0].StopOnce? || run[0].Answered? {
        StopStaysBlocked(s, run[0], t);
      } else {
        OtherStaysBlocked(s, run[0], t);
      }
      RunStaysBlocked(next, run[1..], t);
      TargetsStay(next, run[1..]);
    }
  }

  lemma {:induction false} TargetsStay(s: State, run: seq<Event>)
    ensures |s.gestures| <= |Exec(s, run).gestures|
    ensures forall i :: 0 <= i < |s.gestures| ==> Exec(s, run).gestures[i].target == s.gestures[i].target
    decreases |run|
  {
    if run != [] {
      assert forall i :: 0 <= i < |s.gestures| ==> Step(s, run[0]).gestures[i].target == s.gestures[i].target;
      TargetsStay(Step(s, run[0]), run[1..]);
    }
  }

  /** A generation whose stop is unconfirmed, or that has ended for good, is never gestured at again. */
  lemma {:induction false} NeverGesturedAgain(run: seq<Event>, more: seq<Event>, sid: SessionId)
    requires var s := Exec(Start, run);
             && sid in s.sessions && sid !in s.flows
             && (Unconfirmed(s.receipts, Target(sid, s.sessions[sid].current)) || s.sessions[sid].over)
    ensures var s, u := Exec(Start, run), Exec(Exec(Start, run), more);
            && |s.gestures| <= |u.gestures|
            && forall i :: |s.gestures| <= i < |u.gestures| ==>
                u.gestures[i].target != Target(sid, s.sessions[sid].current)
  {
    hide Inv, Step, Blocked, Unconfirmed;
    RunKeepsInv(Start, run);
    IsBlocked(Exec(Start, run), sid);
    RunStaysBlocked(Exec(Start, run), more, Target(sid, Exec(Start, run).sessions[sid].current));
  }

  lemma IsBlocked(s: State, sid: SessionId)
    requires Inv(s) && sid in s.sessions && sid !in s.flows
    requires Unconfirmed(s.receipts, Target(sid, s.sessions[sid].current)) || s.sessions[sid].over
    ensures Blocked(s, Target(sid, s.sessions[sid].current))
  {}

  /** An attempted receipt becomes complete only in the step that cancels the generation it is for. */
  lemma {:induction false} CompletedOnlyWithCancellation(run: seq<Event>, e: Event, k: Key)
    requires var s := Exec(Start, run); k in s.receipts && s.receipts[k].status.Attempted?
    ensures var s := Exec(Start, run); var t := Step(s, e);
            && k in t.receipts && t.receipts[k].target == s.receipts[k].target
            && (t.receipts[k].status.Complete? ==>
                  var target := s.receipts[k].target;
                  && e == Answered(target.session, true) && target.session in s.sessions
                  && s.sessions[target.session].current == target.generation
                  && target.session in t.sessions && t.sessions[target.session] == Ended(s.sessions[target.session]))
  {
    RunKeepsInv(Start, run);
    var s := Exec(Start, run);
    if e.Answered? && e.session in s.flows { assert FlowFits(s, e.session, s.flows[e.session]); }
    if e.Available? && e.session in s.flows { assert FlowFits(s, e.session, s.flows[e.session]); }
  }

  // ---------------------------------------------------------------- the service itself

  datatype Outcome = NotAttempted | AlreadyEnded | Stopped | Unknown | Overtaken

  class Service {
    var sessions: map<SessionId, Session>
    var receipts: map<Key, Receipt>
    /** The provider's history. */
    ghost var gestures: seq<Target>

    method HasUnconfirmedStop(t: Target) returns (found: bool)
      ensures found == Unconfirmed(receipts, t)
    {
      var todo := receipts.Keys;
      found := false;
      while todo != {} && !found
        invariant todo <= receipts.Keys
        invariant found ==> Unconfirmed(receipts, t)
        invariant !found ==> forall k <- receipts :: k !in todo ==> receipts[k] != Receipt(t, Attempted)
        decreases |todo|
      {
        var k :| k in todo;
        todo := todo - {k};
        if receipts[k] == Receipt(t, Attempted) { found := true; }
      }
    }

    /** What the rest of the core did to the session while the stop waited for the page. */
    method Await(sid: SessionId, found: Option<Session>)
      modifies `sessions
      ensures sessions == Found(old(sessions), sid, found)
    {
      sessions := if found.Some? then sessions[sid := found.value] else sessions - {sid};
    }

    /**
     `#stopLocked` for a new request identity. The adapter's answers and what the session has become
     when `prepare` and `stopOnce` return are arguments.
     */
    method StopLocked(key: Key, sid: SessionId, expected: Option<nat>, available: bool, prepared: Option<Session>,
                      stopped: bool, completed: Option<Session>)
      returns (outcome: Option<Outcome>)
      requires key !in receipts && sid in sessions
      modifies this
      ensures var was := old(sessions)[sid];
              var t := Target(sid, was.current);
              var asked := (expected.Some? ==> expected.value == was.current) && !was.terminal && was.current > 0
                  && !Unconfirmed(old(receipts), t);
              var recorded := completed.Some? && completed.value.current == was.current && stopped;
              && gestures == old(gestures) + (if asked && available then [t] else [])
              && (asked && available ==>
                    && outcome == Some(if recorded then Stopped else if stopped then Overtaken else Unknown)
                    && receipts == old(receipts)[key := Receipt(t, if recorded then Complete else Attempted)]
                    && sessions
                        == Found(old(sessions), sid, if recorded then Some(Ended(completed.value)) else completed))
              && (asked && !available ==>
                    && outcome == (if prepared.None? then None
                                   else Some(if prepared.value.terminal then AlreadyEnded else NotAttempted))
                    && receipts == (if outcome == Some(AlreadyEnded)
                                    then old(receipts)[key := Receipt(Target(sid, prepared.value.current), Complete)]
                                        else old(receipts))
                    && sessions == Found(old(sessions), sid, prepared))
              && (!asked ==>
                    && outcome == (if was.terminal && (expected.Some? ==> expected.value == was.current)
                                   then Some(AlreadyEnded) else None)
                    && receipts == (if outcome.Some? then old(receipts)[key := Receipt(t, Complete)] else old(receipts))
                    && sessions == old(sessions))
    {
      var current := sessions[sid];
      var t := Target(sid, current.current);
      if expected.Some? && expected.value != t.generation { return None; }
      if current.terminal {
        receipts := receipts[key := Receipt(t, Complete)];
        return Some(AlreadyEnded);
      }
      if t.generation <= 0 { return None; }
      var unconfirmed := HasUnconfirmedStop(t);
      if unconfirmed { return None; }
      if !available {
        Await(sid, prepared);
        if sid !in sessions { return None; }
        var refreshed := sessions[sid];
        if !refreshed.terminal { return Some(NotAttempted); }
        receipts := receipts[key := Receipt(Target(sid, refreshed.current), Complete)];
        return Some(AlreadyEnded);
      }
      receipts := receipts[key := Receipt(t, Attempted)];
      gestures := gestures + [t];
      Await(sid, completed);
      if !stopped { return Some(Unknown); }
      if sid !in sessions || sessions[sid].current != t.generation { return Some(Overtaken); }
      sessions := sessions[sid := Ended(sessions[sid])];
      receipts := receipts[key := Receipt(t, Complete)];
      return Some(Stopped);
    }
  }

  function Found(sessions: map<SessionId, Session>, sid: SessionId, found: Option<Session>): map<SessionId, Session> {
    if found.Some? then sessions[sid := found.value] else sessions - {sid}
  }
}
