/**
 The stop service and the submission service as one machine: a session's actor runs an operation of
 either, and a confirmed stop is recorded in the submission service's own tables.
 */
module StopRuns {
  import opened Wrappers
  import opened Storage
  import opened Submission
  import opened SubmissionInvariants
  import opened SubmissionTransactions
  import opened SubmissionSafety
  import opened SubmissionTheorems
  import opened SubmissionFinality
  import opened SubmissionRevival
  import opened StopRefinement
  import Runs = SubmissionRuns
  import Stops = StopService

  /** `core` is the submission service; the other fields are those of the stop service. */
  datatype State = State(core: Runs.State, receipts: map<Stops.Key, Stops.Receipt>, flows: map<SessionId, Stops.Flow>,
                         gestures: seq<Stops.Gesture>, known: set<SessionId>)

  const Start := State(Runs.Start, map[], map[], [], {})

  datatype Event = Core(core: Runs.Event) | Stop(stop: Stops.Event)

  /** What the stop service sees. */
  ghost function Seen(s: State): Stops.State {
    Stops.State(map sid | sid in s.core.db.sessions :: View(s.core, sid), s.receipts, s.flows, s.gestures, s.known)
  }

  /** An operation waits for its session's actor; identities of sessions are never drawn twice. */
  ghost predicate Admits(s: State, e: Runs.Event) {
    && !(e.Act? && e.op.Stop?) && (e.NewSession? ==> e.sid !in s.known)
    && (Runs.ActorOf(s.core, e).Some? ==> Runs.ActorOf(s.core, e).value !in s.flows)
  }

  ghost function StepCore(s: State, e: Runs.Event): State {
    if !Admits(s, e) then s
    else
      var core := Runs.Step(s.core, e);
      s.(core := core, known := s.known + core.db.sessions.Keys, flows := if e.Crash? then map[] else s.flows)
  }

  predicate MayTake(s: State, e: Stops.Event) {
    s.core.phase.Running? && s.core.turn.None? && !e.Others? && !e.Crash? && (e.Begin? ==> e.session !in s.core.flows)
  }

  /** The answer confirms a stop that can still be recorded. */
  ghost predicate Completes(s: State, e: Stops.Event) {
    e.Answered? && e.stopped && Stops.MayComplete(Seen(s), e.session)
  }

  ghost function StepStop(s: State, e: Stops.Event): State {
    if !MayTake(s, e) then s
    else
      var t := Stops.Step(Seen(s), e);
      var core := if !Completes(s, e) then s.core
                  else Runs.Step(s.core, Runs.Act(Runs.Stop(e.session, s.core.db.sessions[e.session].current)));
      s.(core := core, receipts := t.receipts, flows := t.flows, gestures := t.gestures)
  }

  ghost function Step(s: State, e: Event): State {
    match e
    case Core(c) => StepCore(s, c)
    case Stop(c) => StepStop(s, c)
  }

  ghost function Exec(s: State, run: seq<Event>): State
    decreases |run|
  {
    if run == [] then s else Exec(Step(s, run[0]), run[1..])
  }

  // ---------------------------------------------------------------- what the stop service sees is a run of its own

  ghost predicate CoreFits(s: Runs.State) { Inv(s) && OriginalsFit(s.db) && Settled(s.db) }

  /** A session's actor is never in an operation of both services. */
  ghost predicate Fits(s: State) {
    && CoreFits(s.core) && Stops.Inv(Seen(s))
    && s.core.db.sessions.Keys <= s.known
    && (s.flows != map[] ==> s.core.phase.Running?)
    && (forall sid <- s.flows :: sid !in s.core.flows)
  }

  lemma CoreKeepsFit(s: Runs.State, e: Runs.Event)
    requires CoreFits(s)
    ensures CoreFits(Runs.Step(s, e))
  {
    hide Inv, OriginalsFit, Settled, Runs.Step;
    StepKeepsInv(s, e);
    StepKeepsOriginals(s, e);
    StepStaysSettled(s, e);
  }

  lemma SessionAllowed(s: State, e: Runs.Event, sid: SessionId)
    requires Fits(s) && Admits(s, e) && !e.Crash? && sid in Runs.Step(s.core, e).db.sessions
    ensures var b := View(Runs.Step(s.core, e), sid);
            if sid !in s.core.db.sessions then sid !in s.known && b == Stops.Fresh
            else if sid in s.flows then Stops.Cut(View(s.core, sid), b)
            else Stops.Moves(View(s.core, sid), b)
  {
    hide Inv, Runs.Step, View, OriginalsFit, Settled, Runs.ActorOf;
    if sid !in s.core.db.sessions {
      OnlyCreated(s.core, e, sid);
      StepKeepsInv(s.core, e);
      NewIsFresh(Runs.Step(s.core, e), sid);
    } else if sid in s.flows {
      HeldIsCurrent(s, sid);
      OnlyRetiredMeanwhile(s.core, e, sid);
    } else {
      SessionMovesAsAssumed(s.core, e, sid);
    }
  }

  lemma HeldIsCurrent(s: State, sid: SessionId)
    requires Fits(s) && sid in s.flows && sid in s.core.db.sessions
    ensures Held(s.core, sid) && s.core.db.sessions[sid].current == s.flows[sid].target.generation > 0
  {
    hide CoreFits, Stops.GesturesFit, Stops.SessionsFit;
    assert Stops.FlowFits(Seen(s), sid, s.flows[sid]);
  }

  lemma OthersIsOneStep(a: Stops.State, after: map<SessionId, Stops.Session>)
    ensures Stops.Exec(a, [Stops.Others(after)]) == Stops.Step(a, Stops.Others(after))
    ensures Stops.Exec(a, [Stops.Crash, Stops.Others(after)])
            == Stops.Step(Stops.Step(a, Stops.Crash), Stops.Others(after))
  {
    hide Stops.Step;
    var last := Stops.Others(after);
    assert [Stops.Crash, last][1..] == [last] && [last][1..] == [];
    assert Stops.Exec(Stops.Step(a, last), []) == Stops.Step(a, last);
    var b := Stops.Step(a, Stops.Crash);
    assert Stops.Exec(Stops.Step(b, last), []) == Stops.Step(b, last);
    assert Stops.Exec(b, [last]) == Stops.Step(b, last);
  }

  lemma CoreRefines(s: State, e: Runs.Event)
    requires Fits(s) && Admits(s, e) && !e.Crash?
    ensures Seen(StepCore(s, e)) == Stops.Step(Seen(s), Stops.Others(Seen(StepCore(s, e)).sessions))
  {
    hide Fits, View, Stops.Moves, Stops.Cut, Runs.Step, Admits;
    var after := Seen(StepCore(s, e)).sessions;
    assert after.Keys == StepCore(s, e).core.db.sessions.Keys;
    forall sid | sid in after
      ensures if sid !in Seen(s).sessions then sid !in s.known && after[sid] == Stops.Fresh
              else if sid in s.flows then Stops.Cut(Seen(s).sessions[sid], after[sid])
              else Stops.Moves(Seen(s).sessions[sid], after[sid])
    {
      SessionAllowed(s, e, sid);
    }
    assert Stops.Allowed(Seen(s), after);
  }

  lemma CrashRefines(s: State)
    requires Fits(s)
    ensures Seen(StepCore(s, Runs.Crash))
            == Stops.Step(Stops.Step(Seen(s), Stops.Crash), Stops.Others(Seen(StepCore(s, Runs.Crash)).sessions))
  {
    hide Fits, Runs.Step, View, Stops.Moves, Stops.Cut;
    var after := Seen(StepCore(s, Runs.Crash)).sessions;
    CrashKeepsSessions(s.core);
    forall sid | sid in after ensures Stops.Moves(Seen(s).sessions[sid], after[sid]) { CrashMoves(s, sid); }
    assert Stops.Allowed(Stops.Step(Seen(s), Stops.Crash), after);
  }

  lemma CrashKeepsSessions(s: Runs.State)
    ensures Runs.Step(s, Runs.Crash).db == s.db
  {}

  lemma CrashMoves(s: State, sid: SessionId)
    requires Fits(s) && sid in s.core.db.sessions
    ensures sid in Runs.Step(s.core, Runs.Crash).db.sessions
    ensures Stops.Moves(View(s.core, sid), View(Runs.Step(s.core, Runs.Crash), sid))
  {
    hide Inv, View, Stops.Inv, Stops.Moves;
    SessionMovesAsAssumed(s.core, Runs.Crash, sid);
  }

  /** A step of the stop service changes a session only where it records a confirmed stop. */
  lemma StopRefines(s: State, e: Stops.Event)
    requires Fits(s) && MayTake(s, e)
    ensures Seen(StepStop(s, e)) == Stops.Step(Seen(s), e) && Fits(StepStop(s, e))
  {
    hide CoreFits, View, Stops.Inv, Runs.Step, Stops.Lasting, Stops.Ended;
    var t := StepStop(s, e);
    if Completes(s, e) {
      CompletionRecords(s, e.session);
      assert Seen(t).sessions == Stops.Step(Seen(s), e).sessions;
    }
    Stops.StepKeepsInv(Seen(s), e);
  }

  lemma CompletionRecords(s: State, sid: SessionId)
    requires Fits(s) && s.core.phase.Running? && s.core.turn.None? && Stops.MayComplete(Seen(s), sid)
    ensures var t := Runs.Step(s.core, Runs.Act(Runs.Stop(sid, s.core.db.sessions[sid].current)));
            && CoreFits(t) && t.phase == s.core.phase && t.turn == s.core.turn && t.flows == s.core.flows
            && t.db.sessions.Keys == s.core.db.sessions.Keys
            && forall i <- t.db.sessions :: View(t, i) == if i == sid then Stops.Ended(View(s.core, i))
                else View(s.core, i)
  {
    hide CoreFits, Runs.Step, View, Stops.Inv;
    HeldIsCurrent(s, sid);
    RecordedStop(s.core, sid);
  }

  lemma RecordedStop(s: Runs.State, sid: SessionId)
    requires CoreFits(s) && Runs.Idle(s, sid) && sid in s.db.sessions && s.db.sessions[sid].current > 0
    ensures var t := Runs.Step(s, Runs.Act(Runs.Stop(sid, s.db.sessions[sid].current)));
            && CoreFits(t) && t.phase == s.phase && t.turn == s.turn && t.flows == s.flows
            && t.db.sessions.Keys == s.db.sessions.Keys
            && forall i <- t.db.sessions :: View(t, i) == if i == sid then Stops.Ended(View(s, i)) else View(s, i)
  {
    hide CoreFits, Runs.Step, View, CompleteStop, Inv, SameFor;
    var op := Runs.Stop(sid, s.db.sessions[sid].current);
    var t := Runs.Step(s, Runs.Act(op));
    FitsInv(s);
    CoreKeepsFit(s, Runs.Act(op));
    FitsInv(t);
    ActsWhenIdle(s, op);
    StopIsRecorded(s, sid);
    StopKeepsKeys(s.db, sid, s.db.sessions[sid].current);
    forall i | i in t.db.sessions && i != sid ensures View(t, i) == View(s, i) {
      ActSpares(s, op, i);
      SameView(s, t, i);
    }
  }

  lemma FitsInv(s: Runs.State)
    requires CoreFits(s)
    ensures Inv(s)
  {}

  lemma StopKeepsKeys(db: Db, sid: SessionId, gen: nat)
    requires sid in db.sessions
    ensures CompleteStop(db, sid, gen).Some? ==> CompleteStop(db, sid, gen).value.sessions.Keys == db.sessions.Keys
  {}
  lemma CoreKeepsFits(s: State, e: Runs.Event)
    requires Fits(s) && Admits(s, e) && Stops.Inv(Seen(StepCore(s, e)))
    ensures Fits(StepCore(s, e))
  {
    hide CoreFits, Runs.Step, View, Stops.Inv, Runs.ActorOf;
    var t := StepCore(s, e);
    CoreKeepsFit(s.core, e);
    if !e.Crash? {
      forall sid | sid in t.flows
        ensures sid !in t.core.flows && t.core.phase.Running?
      {
        StaysOutOfFlows(s.core, e, sid);
      }
    }
  }

  /** One step of the machine is, for the stop service, a few steps of its own. */
  lemma StepRefines(s: State, e: Event) returns (run: seq<Stops.Event>)
    requires Fits(s)
    ensures Fits(Step(s, e)) && Seen(Step(s, e)) == Stops.Exec(Seen(s), run)
  {
    hide Fits, Stops.Step, Stops.Inv, StepStop, StepCore, Admits;
    SeenFits(s);
    var t := Step(s, e);
    NothingSeen(s);
    match e
    case Core(c) =>
      StepCoreRefused(s, c);
      if !Admits(s, c) { return []; }
      OthersIsOneStep(Seen(s), Seen(t).sessions);
      run := if c.Crash? then [Stops.Crash, Stops.Others(Seen(t).sessions)] else [Stops.Others(Seen(t).sessions)];
      if c.Crash? { CrashRefines(s); } else { CoreRefines(s, c); }
      Stops.RunKeepsInv(Seen(s), run);
      CoreKeepsFits(s, c);
    case Stop(c) =>
      StepStopRefused(s, c);
      if !MayTake(s, c) { return []; }
      StopRefines(s, c);
      run := [c];
      assert run[1..] == [] && Stops.Exec(Stops.Step(Seen(s), c), []) == Stops.Step(Seen(s), c);
  }

  lemma NothingSeen(s: State)
    ensures Stops.Exec(Seen(s), []) == Seen(s)
  {}

  lemma SeenFits(s: State)
    requires Fits(s)
    ensures Stops.Inv(Seen(s)) && CoreFits(s.core) && Inv(s.core)
  {}

  lemma StepCoreRefused(s: State, e: Runs.Event)
    ensures !Admits(s, e) ==> StepCore(s, e) == s
  {}

  lemma StepStopRefused(s: State, e: Stops.Event)
    ensures !MayTake(s, e) ==> StepStop(s, e) == s
  {}

  /** What the stop service sees of a run is a run of the stop service. */
  lemma {:induction false} RunRefines(s: State, run: seq<Event>) returns (seen: seq<Stops.Event>)
    requires Fits(s)
    ensures Fits(Exec(s, run)) && Seen(Exec(s, run)) == Stops.Exec(Seen(s), seen)
    decreases |run|
  {
    hide Fits, Step, Seen;
    if run == [] {
      NothingSeen(s);
      return [];
    }
    var first := StepRefines(s, run[0]);
    var rest := RunRefines(Step(s, run[0]), run[1..]);
    Stops.ExecConcat(Seen(s), first, rest);
    seen := first + rest;
  }

  lemma StartFits()
    ensures Fits(Start) && Seen(Start) == Stops.Start
  {
    StartIsConsistent();
    StartIsSettled();
  }

  // ---------------------------------------------------------------- what is promised

  /**
   The gesture runs at most once per generation: only a confirmed stop that could have been undone when it
   was asked for is ever followed by another gesture.
   */
  lemma {:induction false} StoppedAtMostOnce(run: seq<Event>, i: nat, j: nat)
    requires var g := Exec(Start, run).gestures; i < j < |g| && g[i].target == g[j].target
    ensures var g := Exec(Start, run).gestures; g[i].confirmed && !g[i].lasting
  {
    hide Fits, Step;
    StartFits();
    var seen := RunRefines(Start, run);
    Stops.StoppedAtMostOnce(seen, i, j);
  }

  /** No resumption waits, and every gesture was made for a stop that nothing could undo. */
  ghost predicate Calm(s: State) { s.core.waiting == {} && forall g <- s.gestures :: g.lasting }

  lemma StepStaysCalm(s: State, e: Event)
    requires Calm(s) && !(e.Core? && e.core.AskReplay?)
    ensures Calm(Step(s, e))
  {
    hide Runs.Step, OverNow;
    match e
    case Core(c) => NobodyStartsWaiting(s.core, c);
    case Stop(c) =>
      if Completes(s, c) {
        NobodyStartsWaiting(s.core, Runs.Act(Runs.Stop(c.session, s.core.db.sessions[c.session].current)));
      }
  }

  lemma {:induction false} RunStaysCalm(s: State, run: seq<Event>)
    requires Calm(s) && forall k :: 0 <= k < |run| ==> !(run[k].Core? && run[k].core.AskReplay?)
    ensures Calm(Exec(s, run))
    decreases |run|
  {
    hide Step, Calm;
    if run != [] {
      StepStaysCalm(s, run[0]);
      RunStaysCalm(Step(s, run[0]), run[1..]);
    }
  }

  /** Unless a resumption waits for the actor of its session, the gesture runs at most once per generation. */
  lemma {:induction false} OnceUnlessAsked(run: seq<Event>, i: nat, j: nat)
    requires forall k :: 0 <= k < |run| ==> !(run[k].Core? && run[k].core.AskReplay?)
    requires i < j < |Exec(Start, run).gestures|
    ensures Exec(Start, run).gestures[i].target != Exec(Start, run).gestures[j].target
  {
    hide Step;
    RunStaysCalm(Start, run);
    assert Exec(Start, run).gestures[i] in Exec(Start, run).gestures;
    if Exec(Start, run).gestures[i].target == Exec(Start, run).gestures[j].target { StoppedAtMostOnce(run, i, j); }
  }

  /** The run makes a gesture for the generation. */
  ghost predicate Gestures(s: State, run: seq<Event>, t: Stops.Target) {
    exists i :: |s.gestures| <= i < |Exec(s, run).gestures| && Exec(s, run).gestures[i].target == t
  }

  /** Neither an unconfirmed stop nor an end for good is ever followed by another gesture. */
  lemma NeverAgain(s: State, more: seq<Event>, sid: SessionId)
    requires Fits(s) && sid in s.core.db.sessions && sid !in s.flows
    requires var t := Stops.Target(sid, s.core.db.sessions[sid].current);
             Stops.Unconfirmed(s.receipts, t) || OverNow(s.core, sid)
    ensures !Gestures(s, more, Stops.Target(sid, s.core.db.sessions[sid].current))
  {
    hide Fits, Step, OverNow, Stops.Inv, Stops.Unconfirmed, Stops.Blocked;
    SeenFits(s);
    var seen := RunRefines(s, more);
    Stops.IsBlocked(Seen(s), sid);
    Stops.RunStaysBlocked(Seen(s), seen, Stops.Target(sid, s.core.db.sessions[sid].current));
  }

  function Lift(run: seq<Runs.Event>): (r: seq<Event>)
    ensures |r| == |run| && forall i :: 0 <= i < |r| ==> r[i] == Core(run[i])
  {
    seq(|run|, i requires 0 <= i < |run| => Core(run[i]))
  }

  lemma {:induction false} ExecConcat(s: State, a: seq<Event>, b: seq<Event>)
    ensures Exec(s, a + b) == Exec(Exec(s, a), b)
    decreases |a|
  {
    hide Step;
    if a == [] {
      assert a + b == b;
    } else {
      assert (a + b)[0] == a[0] && (a + b)[1..] == a[1..] + b;
      ExecConcat(Step(s, a[0]), a[1..], b);
    }
  }

  /** A run of one session is admitted while no stop of that session is in progress. */
  lemma {:induction false} LiftedRun(s: State, run: seq<Runs.Event>, sid: SessionId)
    requires Alone(s.core, run, sid) && sid !in s.flows
    ensures var t := Exec(s, Lift(run));
            && t.core == Runs.Exec(s.core, run) && t.receipts == s.receipts && t.gestures == s.gestures
            && forall i <- t.flows :: i in s.flows && t.flows[i] == s.flows[i]
    decreases |run|
  {
    hide Runs.Step, Runs.ActorOf;
    if run != [] {
      var e := Core(run[0]);
      assert Step(s, e) == StepCore(s, run[0]) && Admits(s, run[0]);
      LiftedRun(Step(s, e), run[1..], sid);
      assert Lift(run)[1..] == Lift(run[1..]);
    }
  }

  function Asking(key: Stops.Key, sid: SessionId): seq<Event> {
    [Stop(Stops.Begin(key, sid, None)), Stop(Stops.Available(sid)), Stop(Stops.StopOnce(sid))]
  }

  lemma ExecThreeStops(s: State, a: Event, b: Event, c: Event)
    ensures Exec(s, [a, b, c]) == Step(Step(Step(s, a), b), c)
  {
    hide Step;
    assert [a, b, c][1..] == [b, c] && [b, c][1..] == [c] && [c][1..] == [];
    assert Exec(Step(Step(Step(s, a), b), c), []) == Step(Step(Step(s, a), b), c);
    assert Exec(Step(Step(s, a), b), [c]) == Step(Step(Step(s, a), b), c);
    assert Exec(Step(s, a), [b, c]) == Step(Step(Step(s, a), b), c);
  }

  /** A request for a live generation, with no earlier stop of it unconfirmed, makes the gesture. */
  lemma AsksLive(s: State, key: Stops.Key, sid: SessionId)
    requires sid in s.core.db.sessions && sid !in s.flows && Runs.Idle(s.core, sid)
             && s.core.db.sessions[sid].current > 0
    requires key !in s.receipts && !Stops.Busy(Seen(s), key) && !Terminal(s.core.db, sid)
    requires !Stops.Unconfirmed(s.receipts, Stops.Target(sid, s.core.db.sessions[sid].current))
    ensures var t := Exec(s, Asking(key, sid));
            var target := Stops.Target(sid, s.core.db.sessions[sid].current);
            && t.core == s.core && t.receipts == s.receipts[key := Stops.Receipt(target, Stops.Attempted)]
            && t.gestures == s.gestures + [Stops.Gesture(target, Stops.Lasting(View(s.core, sid)), false)]
            && t.flows == s.flows[sid := Stops.Gesturing(key, target, |s.gestures|)] && t.known == s.known
  {
    hide View, Step, Exec, Stops.Unconfirmed, Stops.Lasting, Stops.Busy;
    var r := Asking(key, sid);
    var target := Stops.Target(sid, s.core.db.sessions[sid].current);
    var opening, recorded := Stops.Opened(key, target), Stops.Recorded(key, target);
    var s1 := s.(flows := s.flows[sid := opening]);
    var s2 := s1.(receipts := s1.receipts[key := Stops.Receipt(target, Stops.Attempted)],
                  flows := s1.flows[sid := recorded]);
    ExecThreeStops(s, r[0], r[1], r[2]);
    Opens(s, key, sid);
    Records(s1, key, sid, target);
    Presses(s2, key, sid, target);
    assert s.flows[sid := opening][sid := recorded] == s.flows[sid := recorded];
    var gesturing := Stops.Gesturing(key, target, |s.gestures|);
    assert s.flows[sid := recorded][sid := gesturing] == s.flows[sid := gesturing];
  }

  lemma Opens(s: State, key: Stops.Key, sid: SessionId)
    requires sid in s.core.db.sessions && sid !in s.flows && Runs.Idle(s.core, sid)
             && s.core.db.sessions[sid].current > 0
    requires key !in s.receipts && !Stops.Busy(Seen(s), key) && !Terminal(s.core.db, sid)
    requires !Stops.Unconfirmed(s.receipts, Stops.Target(sid, s.core.db.sessions[sid].current))
    ensures var target := Stops.Target(sid, s.core.db.sessions[sid].current);
            Step(s, Stop(Stops.Begin(key, sid, None))) == s.(flows := s.flows[sid := Stops.Opened(key, target)])
  {
    hide View, Runs.Step, Stops.Unconfirmed;
    TerminalSeen(s, sid);
  }

  lemma Records(s: State, key: Stops.Key, sid: SessionId, target: Stops.Target)
    requires s.core.phase.Running? && s.core.turn.None? && sid in s.flows && s.flows[sid] == Stops.Opened(key, target)
    requires key !in s.receipts
    ensures Step(s, Stop(Stops.Available(sid)))
            == s.(receipts := s.receipts[key := Stops.Receipt(target, Stops.Attempted)],
                  flows := s.flows[sid := Stops.Recorded(key, target)])
  {
    hide View, Runs.Step;
  }

  lemma Presses(s: State, key: Stops.Key, sid: SessionId, target: Stops.Target)
    requires s.core.phase.Running? && s.core.turn.None? && sid in s.flows && s.flows[sid] == Stops.Recorded(key, target)
    requires sid in s.core.db.sessions
    ensures Step(s, Stop(Stops.StopOnce(sid)))
            == s.(gestures := s.gestures + [Stops.Gesture(target, Stops.Lasting(View(s.core, sid)), false)],
                  flows := s.flows[sid := Stops.Gesturing(key, target, |s.gestures|)])
  {
    hide View, Runs.Step, Stops.Lasting;
  }

  lemma TerminalSeen(s: State, sid: SessionId)
    requires sid in s.core.db.sessions
    ensures View(s.core, sid).current == s.core.db.sessions[sid].current
            && View(s.core, sid).terminal == Terminal(s.core.db, sid)
  {}

  // ---------------------------------------------------------------- exactly when it is gestured at again

  lemma FreshNumber(used: set<nat>) returns (n: nat)
    ensures n !in used && forall i <- used :: i < n
    decreases used
  {
    if used == {} { return 0; }
    var i :| i in used;
    var m := FreshNumber(used - {i});
    n := if m <= i then i + 1 else m;
    assert forall j <- used :: j == i || j in used - {i};
  }

  lemma FreshKey(s: State) returns (key: Stops.Key)
    ensures key !in s.receipts && !Stops.Busy(Seen(s), key)
  {
    var n := FreshNumber((set k | k in s.receipts :: k.request)
                         + (set sid | sid in s.flows :: s.flows[sid].key.request));
    key := Stops.Key(0, n);
  }

  lemma RevivedRow(s: Runs.State, more: seq<Runs.Event>, oid: OutboxId)
    requires Inv(s) && Revives(s, more, oid)
    ensures var t := Runs.Exec(s, more);
            && oid in t.db.outbox && t.db.outbox[oid].session == s.db.outbox[oid].session
            && t.db.outbox[oid].generation == s.db.outbox[oid].generation
            && MayStop(t, oid) && !Terminal(t.db, t.db.outbox[oid].session) && t.db.outbox[oid].generation > 0
  {
    hide Consistent, Covered, FlowsFit, CallsFit, ReservationsFit, PhaseFits, Runs.Exec, Alone;
    RunKeepsInv(s, more);
    var t := Runs.Exec(s, more);
    assert RowMoves(s.db.outbox[oid], t.db.outbox[oid]);
    RowIsOk(t, oid);
  }

  lemma RowIsOk(s: Runs.State, oid: OutboxId)
    requires Inv(s) && oid in s.db.outbox
    ensures RowOk(s.db, oid) && s.db.outbox[oid].generation > 0
  {
    hide Covered, FlowsFit, CallsFit, ReservationsFit, PhaseFits;
    RowFacts(s.db, oid);
  }

  lemma GesturesAgain(s: State, oid: OutboxId)
    requires Fits(s) && MayStop(s.core, oid) && s.core.db.outbox[oid].session !in s.flows
    requires Live(s.core.db, oid) || Revivable(s.core, oid)
    requires var row := s.core.db.outbox[oid]; !Stops.Unconfirmed(s.receipts, Stops.Target(row.session, row.generation))
    ensures var row := s.core.db.outbox[oid];
            exists more :: Gestures(s, more, Stops.Target(row.session, row.generation))
  {
    hide Inv, Fits, Live, Revivable, Revives, Exec, Runs.Exec, Stops.Unconfirmed, Stops.Lasting, View, OriginalsFit,
      Settled, Asking;
    var row := s.core.db.outbox[oid];
    SeenFits(s);
    var newId := FreshNumber(s.core.used);
    if Live(s.core.db, oid) { RevivesAtOnce(s.core, oid); } else { RevivableRevives(s.core, oid, newId); }
    var more: seq<Runs.Event> :| Revives(s.core, more, oid);
    RevivedRow(s.core, more, oid);
    RevivesIsAlone(s.core, more, oid);
    LiftedRun(s, more, row.session);
    var key := FreshKey(s);
    var t := Exec(s, Lift(more));
    AsksLive(t, key, row.session);
    ExecConcat(s, Lift(more), Asking(key, row.session));
    assert Exec(s, Lift(more) + Asking(key, row.session)).gestures[|s.gestures|].target
           == Stops.Target(row.session, row.generation);
    assert Gestures(s, Lift(more) + Asking(key, row.session), Stops.Target(row.session, row.generation));
  }

  lemma RevivesIsAlone(s: Runs.State, more: seq<Runs.Event>, oid: OutboxId)
    requires Revives(s, more, oid)
    ensures oid in s.db.outbox && Alone(s, more, s.db.outbox[oid].session)
  {}

  lemma EndedIsOver(s: State, oid: OutboxId)
    requires Fits(s) && MayStop(s.core, oid) && !Live(s.core.db, oid) && !Revivable(s.core, oid)
    ensures s.core.db.outbox[oid].session in s.core.db.sessions && OverNow(s.core, s.core.db.outbox[oid].session)
  {
    hide Consistent, Covered, FlowsFit, CallsFit, ReservationsFit, PhaseFits, Revivable, Finished, OriginalsFit,
      Stops.Inv;
    SettledRow(s.core.db, oid);
    EndedIsFinished(s.core, oid);
    CurrentRowIs(s.core.db, s.core.db.outbox[oid].session, oid);
  }

  /**
   Exactly when the current generation of an idle session can be gestured at, now or in any later run: no
   earlier stop of it is unconfirmed, and it is live or has ended in one of the ways that may revive it.
   */
  lemma {:induction false} GesturedAgainExactlyWhen(run: seq<Event>, oid: OutboxId)
    requires var s := Exec(Start, run); MayStop(s.core, oid) && s.core.db.outbox[oid].session !in s.flows
    ensures var s := Exec(Start, run);
            var row := s.core.db.outbox[oid];
            var t := Stops.Target(row.session, row.generation);
            (exists more: seq<Event> :: Gestures(s, more, t))
            <==> !Stops.Unconfirmed(s.receipts, t) && (Live(s.core.db, oid) || Revivable(s.core, oid))
  {
    hide Fits, Step, Live, Revivable, Gestures, Stops.Unconfirmed, OverNow;
    var s := Exec(Start, run);
    var row := s.core.db.outbox[oid];
    var t := Stops.Target(row.session, row.generation);
    StartFits();
    var _ := RunRefines(Start, run);
    if !Stops.Unconfirmed(s.receipts, t) && (Live(s.core.db, oid) || Revivable(s.core, oid)) {
      GesturesAgain(s, oid);
    } else {
      if !Live(s.core.db, oid) && !Revivable(s.core, oid) { EndedIsOver(s, oid); }
      forall more: seq<Event> ensures !Gestures(s, more, t) { NeverAgain(s, more, row.session); }
    }
  }
}
