/**
 Two gestures at one generation do happen: an authorized successor is stopped before it was sent, a
 resumption that waited behind the stop and a repeated authorization undo the stop, and it is stopped again.
 */
module StopWitness {
  import opened Wrappers
  import opened Storage
  import opened Submission
  import opened SubmissionInvariants
  import opened SubmissionTransactions
  import opened SubmissionSafety
  import opened SubmissionTheorems
  import opened SubmissionFinality
  import opened SubmissionRevival
  import opened SubmissionWitness
  import opened StopRefinement
  import opened StopRuns
  import Runs = SubmissionRuns
  import Stops = StopService

  /** The core creates no session and records no stop. */
  predicate Plainly(e: Runs.Event) { !e.NewSession? && !(e.Act? && e.op.Stop?) }

  /** While no stop is in progress the core goes on as it would by itself. */
  lemma {:induction false} GoesOn(s: State, run: seq<Runs.Event>)
    requires s.flows == map[] && forall e <- run :: Plainly(e)
    ensures var t := StopRuns.Exec(s, Lift(run));
            t.core == Runs.Exec(s.core, run) && t.receipts == s.receipts && t.gestures == s.gestures && t.flows == map[]
    decreases |run|
  {
    hide Runs.Step, Runs.ActorOf;
    if run != [] {
      var e := Core(run[0]);
      assert Plainly(run[0]) by { assert run[0] in run; }
      assert StopRuns.Step(s, e) == StepCore(s, run[0]) && Admits(s, run[0]);
      GoesOn(StopRuns.Step(s, e), run[1..]);
      assert Lift(run)[1..] == Lift(run[1..]);
    }
  }

  lemma LiftConcat(a: seq<Runs.Event>, b: seq<Runs.Event>)
    ensures Lift(a + b) == Lift(a) + Lift(b)
  {}

  /** The core's run up to the second approval of the successor, but for startup and the session. */
  function Requesting(request: Request, second: Request): seq<Runs.Event> {
    Losing(request)[1..] + [Runs.AuthorizeSuccessor(0, Resend, second, 0, false), Runs.Approved(0, 1)] + Failing
        + Queueing(second)
  }

  lemma QueuedIs(request: Request, second: Request)
    ensures Queued(request, second) == Startup + ([Runs.NewSession(0, None)] + Requesting(request, second))
  {
    hide Failing, Queueing, Startup;
    assert Losing(request) == [Runs.NewSession(0, None)] + Losing(request)[1..];
  }

  lemma RequestsPlainly(request: Request, second: Request)
    ensures forall e <- Requesting(request, second) :: Plainly(e)
  {
    forall e | e in Requesting(request, second) ensures Plainly(e) {
      assert e in Losing(request)[1..]
             || e in [Runs.AuthorizeSuccessor(0, Resend, second, 0, false), Runs.Approved(0, 1)]
             || e in Failing || e in Queueing(second);
    }
  }

  lemma Creates(s: State)
    requires s.flows == map[] && s.known == {}
    ensures var created := [Runs.NewSession(0, None)];
            var t := StopRuns.Exec(s, Lift(created));
            t.core == Runs.Exec(s.core, created) && t.receipts == s.receipts && t.gestures == s.gestures
                && t.flows == map[]
  {
    hide Runs.Step, Runs.Exec;
    var created := [Runs.NewSession(0, None)];
    assert Runs.ActorOf(s.core, created[0]).None?;
    assert Admits(s, created[0]);
    OneCoreStep(s, created[0]);
    SubmissionTheorems.ExecLast(s.core, [], created[0]);
    ExecNothing(s.core);
    assert [] + created == created;
  }

  lemma Reaches(request: Request, second: Request)
    ensures var t := StopRuns.Exec(StopRuns.Start, Lift(Queued(request, second)));
            && t.core == Runs.Exec(Runs.Start, Queued(request, second))
            && t.receipts == map[] && t.gestures == [] && t.flows == map[]
  {
    hide Runs.Step, Runs.Exec, StopRuns.Exec, Lift, Requesting, Queued;
    var created := [Runs.NewSession(0, None)];
    var rest := Requesting(request, second);
    QueuedIs(request, second);
    LiftConcat(Startup, created + rest);
    LiftConcat(created, rest);
    StopRuns.ExecConcat(StopRuns.Start, Lift(Startup), Lift(created) + Lift(rest));
    SubmissionTheorems.ExecConcat(Runs.Start, Startup, created + rest);
    SubmissionTheorems.ExecConcat(Runs.Exec(Runs.Start, Startup), created, rest);
    GoesOn(StopRuns.Start, Startup);
    var s := StopRuns.Exec(StopRuns.Start, Lift(Startup));
    StopRuns.ExecConcat(s, Lift(created), Lift(rest));
    StartupKnowsNothing();
    Creates(s);
    RequestsPlainly(request, second);
    GoesOn(StopRuns.Exec(s, Lift(created)), rest);
  }

  lemma OneCoreStep(s: State, e: Runs.Event)
    ensures StopRuns.Exec(s, Lift([e])) == StepCore(s, e)
  {
    hide Runs.Step, StepCore;
    assert Lift([e]) == [Core(e)] && [Core(e)][1..] == [];
    assert StopRuns.Exec(StepCore(s, e), []) == StepCore(s, e);
  }

  lemma StartupKnowsNothing()
    ensures StopRuns.Exec(StopRuns.Start, Lift(Startup)).known == {}
  {
    hide Runs.Exec;
    assert Lift(Startup) == [Core(Runs.PassEnd), Core(Runs.PassEnd), Core(Runs.PassEnd), Core(Runs.PassEnd)];
    PassesKnowNothing(StopRuns.Start, Lift(Startup));
  }

  lemma {:induction false} PassesKnowNothing(s: State, run: seq<Event>)
    requires s.known == {} && s.core.db == EmptyDb && forall i :: 0 <= i < |run| ==> run[i] == Core(Runs.PassEnd)
    ensures StopRuns.Exec(s, run).known == {}
    decreases |run|
  {
    if run != [] {
      PassEndKnowsNothing(s);
      PassesKnowNothing(StopRuns.Step(s, run[0]), run[1..]);
    }
  }

  lemma PassEndKnowsNothing(s: State)
    requires s.known == {} && s.core.db == EmptyDb
    ensures var t := StopRuns.Step(s, Core(Runs.PassEnd)); t.known == {} && t.core.db == EmptyDb
  {}

  // ---------------------------------------------------------------- stopped, reopened, stopped again

  const Successor := Stops.Target(0, 2)

  /** The successor waits for its caller, live and never sent. */
  ghost predicate Ready(s: State) {
    && Fits(s) && s.flows == map[] && MayStop(s.core, 1) && Live(s.core.db, 1)
    && s.core.db.outbox[1].session == 0 && s.core.db.outbox[1].generation == 2
  }

  lemma ReadyIsLive(s: State)
    requires Ready(s)
    ensures 0 in s.core.db.sessions && s.core.db.sessions[0].current == 2 && !Terminal(s.core.db, 0) && Inv(s.core)
    ensures Stops.Lasting(View(s.core, 0)) == Ends(s.core, 1)
  {
    hide Covered, FlowsFit, CallsFit, ReservationsFit, PhaseFits, OriginalsFit, Settled, Stops.Inv, RowsOk,
      SessionsOk, GenerationsOk, Distinct;
    RowFacts(s.core.db, 1);
    CurrentRowIs(s.core.db, 0, 1);
  }

  lemma Asks(s: State, key: Stops.Key)
    requires Ready(s) && key !in s.receipts && !Stops.Unconfirmed(s.receipts, Successor)
    ensures var t := StopRuns.Exec(s, Asking(key, 0));
            && Fits(t) && t.core == s.core && t.receipts == s.receipts[key := Stops.Receipt(Successor, Stops.Attempted)]
            && t.gestures == s.gestures + [Stops.Gesture(Successor, Ends(s.core, 1), false)]
            && t.flows == map[0 := Stops.Gesturing(key, Successor, |s.gestures|)]
  {
    hide Fits, View, Stops.Lasting, Live, Stops.Unconfirmed, StopRuns.Exec, Ends;
    ReadyIsLive(s);
    AsksLive(s, key, 0);
    var _ := RunRefines(s, Asking(key, 0));
  }

  /** The confirmed stop is recorded. */
  lemma Answers(s: State, key: Stops.Key)
    requires Fits(s) && MayStop(s.core, 1) && s.core.db.outbox[1].session == 0 && s.core.db.outbox[1].generation == 2
    requires key in s.receipts && s.receipts[key] == Stops.Receipt(Successor, Stops.Attempted) && |s.gestures| > 0
    requires s.flows == map[0 := Stops.Gesturing(key, Successor, |s.gestures| - 1)]
    ensures var t := StopRuns.Step(s, Stop(Stops.Answered(0, true)));
            && Fits(t) && t.core == Runs.Step(s.core, Stopping(s.core.db, 1)) && t.flows == map[]
            && t.receipts == s.receipts[key := Stops.Receipt(Successor, Stops.Complete)]
            && t.gestures == s.gestures[|s.gestures| - 1 := s.gestures[|s.gestures| - 1].(confirmed := true)]
  {
    hide Fits, View, Runs.Step;
    var e := Stops.Answered(0, true);
    var view := View(s.core, 0);
    assert view.current == 2 by { TerminalSeen(s, 0); }
    assert Stops.MayComplete(Seen(s), 0);
    StopRefines(s, e);
  }

  /** The core's state when the first stop was asked for. */
  ghost predicate Waiting(was: Runs.State, second: Request) {
    && CoreFits(was) && was.used == {0, 1, 2} && was.waiting == {1} && MayStop(was, 1) && !Ends(was, 1)
    && Live(was.db, 1)
    && var row := was.db.outbox[1];
       row.session == 0 && row.generation == 2 && row.request == second && row.payload.authorized == Some(Key0)
  }

  lemma WaitingRow(was: Runs.State, second: Request)
    requires Waiting(was, second)
    ensures MayStop(was, 1) && !Ends(was, 1) && was.db.outbox[1].session == 0 && was.db.outbox[1].generation == 2
            && was.db.outbox[1].request == second
  {}

  /** The first stop was confirmed and recorded. */
  ghost predicate Once(s: State, was: Runs.State, second: Request, a: Stops.Key) {
    && Waiting(was, second) && Fits(s) && s.flows == map[]
    && (MayStop(was, 1) ==> s.core == Runs.Step(was, Stopping(was.db, 1)))
    && s.receipts == map[a := Stops.Receipt(Successor, Stops.Complete)]
    && s.gestures == [Stops.Gesture(Successor, false, true)]
  }

  /** The caller finds the page again and repeats the authorization. */
  function Reauthorized(second: Request): seq<Runs.Event> {
    [Runs.Act(Runs.PageState(0, Some(0), Fresh, 0, None, false)),
     Runs.AuthorizeSuccessor(0, Resend, Request(second.client, 0), 0, false), Runs.Approved(0, 3)]
  }

  /** The waiting resumption has replayed the request before. */
  function Repeating(second: Request): seq<Runs.Event> { [Runs.Replayed(1)] + Reauthorized(second) }

  lemma RevivingIs(s: Runs.State, was: Runs.State, second: Request)
    requires Waiting(was, second) && s.db.outbox == was.db.outbox
    ensures 1 in s.db.outbox && Reviving(s.db, 1, Key0, 3) == Repeating(second)
  {
    hide CoreFits, Live, MayBeApproved;
    assert Reapproving(s.db, 1, Key0, 3) == Reauthorized(second);
  }

  /** It is live again, and nothing could undo another stop. */
  lemma Reopens(s: State, was: Runs.State, second: Request, a: Stops.Key)
    requires Once(s, was, second, a)
    ensures var t := StopRuns.Exec(s, Lift(Repeating(second)));
            Ready(t) && Ends(t.core, 1) && t.receipts == s.receipts && t.gestures == s.gestures
  {
    hide Runs.Step, Waits, Live, Inv, OriginalsFit, Settled, Alone, Runs.Exec, StopRuns.Exec, Reviving, Repeating,
      Stops.Inv, Stopping, MayBeApproved;
    StopLeavesWaiting(was, 1);
    WaitsFor(s.core, 1, Key0);
    RevivingIs(s.core, was, second);
    SuccessorRevives(s.core, 1, Key0, 3);
    LiftedRun(s, Repeating(second), 0);
    RevivedRow(s.core, Repeating(second), 1);
    NobodyWaitsAnyLonger(s.core, second);
    var _ := RunRefines(s, Lift(Repeating(second)));
    assert StopRuns.Exec(s, Lift(Repeating(second))).flows == map[];
  }

  lemma NobodyWaitsAnyLonger(s: Runs.State, second: Request)
    requires Waits(s, 1, Key0) && 1 in s.db.outbox && !s.db.outbox[1].state.FailedPreSubmit? && s.waiting == {1}
    ensures Runs.Exec(s, Repeating(second)).waiting == {}
  {
    hide Runs.Step, Runs.Exec, Waits, Ripe, Inv;
    Replays(s, 1, Key0);
    SubmissionTheorems.ExecConcat(s, [Runs.Replayed(1)], Reauthorized(second));
    SubmissionTheorems.ExecLast(s, [], Runs.Replayed(1));
    ExecNothing(s);
    assert [] + [Runs.Replayed(1)] == [Runs.Replayed(1)];
    NobodyWaits(Runs.Step(s, Runs.Replayed(1)), Reauthorized(second));
  }

  function StoppingOnce(request: Request, second: Request, a: Stops.Key): seq<Event> {
    Lift(Queued(request, second)) + (Asking(a, 0) + [Stop(Stops.Answered(0, true))])
  }

  lemma ReachesWaiting(request: Request, second: Request)
    requires second != request && second.client == request.client
    ensures var s := StopRuns.Exec(StopRuns.Start, Lift(Queued(request, second)));
            && Ready(s) && Waiting(s.core, second) && s.core == Runs.Exec(Runs.Start, Queued(request, second))
            && s.receipts == map[] && s.gestures == []
  {
    hide StopRuns.Exec, Fits, Runs.Exec, Queued, Live, AwaitsDecision, CoreFits, Ends, MayStop;
    Reaches(request, second);
    QueuesUp(request, second);
    StartFits();
    var _ := RunRefines(StopRuns.Start, Lift(Queued(request, second)));
    SeenFits(StopRuns.Exec(StopRuns.Start, Lift(Queued(request, second))));
    SecondMayStop(Runs.Exec(Runs.Start, Queued(request, second)), second);
  }

  lemma StopsWaiting(s: State, second: Request, a: Stops.Key)
    requires Ready(s) && Waiting(s.core, second) && s.receipts == map[] && s.gestures == []
    ensures Once(StopRuns.Exec(s, Asking(a, 0) + [Stop(Stops.Answered(0, true))]), s.core, second, a)
  {
    hide StopRuns.Exec, StopRuns.Step, Fits, Runs.Step, Stops.Unconfirmed, CoreFits, Ready, Waiting, Ends;
    WaitingRow(s.core, second);
    NoneUnconfirmed(s.receipts);
    Asks(s, a);
    var t := StopRuns.Exec(s, Asking(a, 0));
    Answers(t, a);
    StopRuns.ExecConcat(s, Asking(a, 0), [Stop(Stops.Answered(0, true))]);
    OneStep(t, Stop(Stops.Answered(0, true)));
  }

  lemma StopsOnce(request: Request, second: Request, a: Stops.Key)
    requires second != request && second.client == request.client
    ensures Once(StopRuns.Exec(StopRuns.Start, StoppingOnce(request, second, a)),
                 Runs.Exec(Runs.Start, Queued(request, second)),
                 second, a)
  {
    hide StopRuns.Exec, Runs.Exec, Once, Ready, Waiting;
    ReachesWaiting(request, second);
    StopsWaiting(StopRuns.Exec(StopRuns.Start, Lift(Queued(request, second))), second, a);
    StopRuns.ExecConcat(StopRuns.Start, Lift(Queued(request, second)), Asking(a, 0) + [Stop(Stops.Answered(0, true))]);
  }

  lemma StopsAgain(s: State, was: Runs.State, second: Request, a: Stops.Key, b: Stops.Key)
    requires Once(s, was, second, a) && a != b
    ensures StopRuns.Exec(s, Lift(Repeating(second)) + Asking(b, 0)).gestures
            == [Stops.Gesture(Successor, false, true), Stops.Gesture(Successor, true, false)]
  {
    hide StopRuns.Exec, Fits, Runs.Step, Stops.Unconfirmed, Waiting, Ready, Ends;
    Reopens(s, was, second, a);
    var t := StopRuns.Exec(s, Lift(Repeating(second)));
    NoneUnconfirmed(t.receipts);
    Asks(t, b);
    StopRuns.ExecConcat(s, Lift(Repeating(second)), Asking(b, 0));
  }

  /**
   A concrete run with two gestures at one generation: the first stop is confirmed and undone by a
   resumption that waited behind it and a repeated authorization.
   */
  lemma {:induction false} UnsentSuccessorIsStoppedAgain(request: Request, second: Request, a: Stops.Key, b: Stops.Key)
    requires second != request && second.client == request.client && a != b
    ensures var run := StoppingOnce(request, second, a) + (Lift(Repeating(second)) + Asking(b, 0));
            StopRuns.Exec(StopRuns.Start, run).gestures
            == [Stops.Gesture(Successor, false, true), Stops.Gesture(Successor, true, false)]
  {
    hide StopRuns.Exec, Runs.Exec, Once;
    StopsOnce(request, second, a);
    var s := StopRuns.Exec(StopRuns.Start, StoppingOnce(request, second, a));
    StopsAgain(s, Runs.Exec(Runs.Start, Queued(request, second)), second, a, b);
    StopRuns.ExecConcat(StopRuns.Start, StoppingOnce(request, second, a), Lift(Repeating(second)) + Asking(b, 0));
  }

  lemma NoneUnconfirmed(receipts: map<Stops.Key, Stops.Receipt>)
    requires forall k <- receipts :: receipts[k].status.Complete?
    ensures forall t :: !Stops.Unconfirmed(receipts, t)
  {}

  lemma OneStep(s: State, e: Event)
    ensures StopRuns.Exec(s, [e]) == StopRuns.Step(s, e)
  {
    hide StopRuns.Step;
    assert [e][1..] == [] && StopRuns.Exec(StopRuns.Step(s, e), []) == StopRuns.Step(s, e);
  }
}
