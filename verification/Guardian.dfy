/**
 The frozen handover: a parent, a guardian it forked and the core, in every interleaving of their
 steps with the clock, time-outs, failures and the parent's death. Only the guardian signals the core.
 */
module Guardian {
  import opened Wrappers

  /** `Stopping` has a stop signal pending: its threads may still run. */
  datatype Core = Running | Stopping | Stopped | Killed | Died

  datatype GuardianAt = Checking | Waiting | Listening | Killing | Replying | Leaving | Gone

  datatype ParentAt = AwaitingFreeze | Guarding | Passed | AwaitingReply | Committed | Failed | Closed

  datatype Byte = F | K

  /**
   The three processes and their two channels. `steps` counts the core's steps; `stepsAtFreeze`,
   `stepsAtGuard` and `killedAt` are history.
   */
  datatype State = State(
    core: Core, steps: nat, now: int, deadline: int,
    guardian: GuardianAt, stopped: bool, committed: bool, childOpen: bool,
    parent: ParentAt, parentOpen: bool,
    toParent: seq<Byte>, toGuardian: seq<Byte>,
    stepsAtFreeze: Option<nat>, stepsAtGuard: Option<nat>, commandAt: Option<int>)

  ghost predicate IsStart(s: State) {
    && (s.core.Running? || s.core.Died?) && s.guardian.Checking? && !s.stopped && !s.committed && s.childOpen
    && s.parent.AwaitingFreeze? && s.parentOpen && s.toParent == [] && s.toGuardian == []
    && s.stepsAtFreeze.None? && s.stepsAtGuard.None? && s.commandAt.None?
  }

  datatype Event =
    | Tick(millis: nat)
    | CoreStep
    | CoreSettles
    | CoreDies
    | GuardianStops(lifetimeMatches: bool)
    | GuardianPolls
    | GuardianReceives
    | GuardianTimesOut
    | GuardianKills
    | GuardianReplies
    | GuardianFails
    | GuardianLeaves
    | ParentSeesFreeze
    | ParentGuards(passes: bool)
    | ParentCommits
    | ParentSeesReply
    | ParentGivesUp
    | ParentCloses

  predicate Alive(c: Core) { !c.Killed? && !c.Died? }

  function Step(s: State, e: Event): State {
    match e
    case Tick(millis) => s.(now := s.now + millis)
    case CoreStep => if s.core.Running? || s.core.Stopping? then s.(steps := s.steps + 1) else s
    case CoreSettles => if s.core.Stopping? then s.(core := Stopped) else s
    case CoreDies => if Alive(s.core) then s.(core := Died) else s
    case GuardianStops(matches) =>
      if !s.guardian.Checking? then s
      else if !matches || !s.core.Running? then s.(guardian := Leaving)
      else s.(core := Stopping, stopped := true, guardian := Waiting)
    case GuardianPolls =>
      if !s.guardian.Waiting? then s
      else if s.now >= s.deadline then s.(guardian := Leaving)
      else if !s.core.Stopped? then s
      else if !s.parentOpen then s.(guardian := Leaving)
      else s.(toParent := s.toParent + [F], guardian := Listening, stepsAtFreeze := Some(s.steps))
    case GuardianReceives =>
      if !s.guardian.Listening? || (s.toGuardian == [] && s.parentOpen) then s
      else if s.toGuardian == [] then s.(guardian := Leaving)
      else if s.now < s.deadline && s.core.Stopped?
          then s.(toGuardian := s.toGuardian[1..], guardian := Killing, commandAt := Some(s.now))
      else s.(toGuardian := s.toGuardian[1..], guardian := Leaving)
    case GuardianTimesOut => if s.guardian.Listening? && s.now >= s.deadline then s.(guardian := Leaving) else s
    case GuardianKills =>
      if !s.guardian.Killing? then s
      else if !Alive(s.core) then s.(guardian := Leaving)
      else s.(core := Killed, committed := true, guardian := Replying)
    case GuardianReplies =>
      if !s.guardian.Replying? then s
      else if !s.parentOpen then s.(guardian := Leaving)
      else s.(toParent := s.toParent + [K], guardian := Leaving)
    case GuardianFails => if s.guardian.Waiting? || s.guardian.Listening? then s.(guardian := Leaving) else s
    case GuardianLeaves =>
      if !s.guardian.Leaving? then s
      else s.(core := if s.stopped && !s.committed && Alive(s.core) then Running
              else s.core, guardian := Gone, childOpen := false)
    case ParentSeesFreeze =>
      if !s.parent.AwaitingFreeze? then s
      else if s.toParent != []
          then s.(toParent := s.toParent[1..], parent := if s.toParent[0].F? then Guarding else Failed)
      else if !s.childOpen then s.(parent := Failed)
      else s
    case ParentGuards(passes) =>
      if !s.parent.Guarding? then s
      else if passes then s.(parent := Passed, stepsAtGuard := Some(s.steps))
      else s.(parent := Failed)
    case ParentCommits =>
      if !s.parent.Passed? then s
      else if s.childOpen then s.(toGuardian := s.toGuardian + [K], parent := AwaitingReply)
      else s.(parent := if Alive(s.core) then Failed else Committed)
    case ParentSeesReply =>
      if !s.parent.AwaitingReply? then s
      else if s.toParent != []
          then s.(toParent := s.toParent[1..], parent := if s.toParent[0].K? || !Alive(s.core) then Committed
                  else Failed)
      else if !s.childOpen then s.(parent := if Alive(s.core) then Failed else Committed)
      else s
    case ParentGivesUp =>
      if s.parent.AwaitingFreeze? then s.(parent := Failed)
      else if s.parent.AwaitingReply? then s.(parent := if Alive(s.core) then Failed else Committed)
      else s
    case ParentCloses => s.(parent := if s.parent.Committed? then Committed else Closed, parentOpen := false)
  }

  function Exec(s: State, run: seq<Event>): State
    decreases |run|
  {
    if run == [] then s else Exec(Step(s, run[0]), run[1..])
  }

  /**
   While the guardian holds the core, the core is frozen where it froze, and the guard can only have looked at it
   there.
   */
  ghost predicate Inv(s: State) {
    && (s.committed <==> s.core.Killed?)
    && (s.guardian.Checking? ==> !s.stopped)
    && (s.guardian in {Waiting, Listening, Killing, Replying} ==> s.stopped)
    && (!s.stopped ==> s.core.Running? || s.core.Died?)
    && (s.guardian.Waiting? ==> s.stepsAtFreeze.None? && !s.core.Running?)
    && (s.guardian in {Checking, Waiting} ==> s.stepsAtFreeze.None? && s.toParent == [])
    && (s.guardian in {Listening, Killing} ==> (s.core.Stopped? || s.core.Died?) && s.stepsAtFreeze == Some(s.steps))
    && (s.guardian in {Killing, Replying} ==>
        s.stepsAtGuard.Some? && s.commandAt.Some? && s.commandAt.value < s.deadline)
    && (s.guardian in {Replying} ==> s.core.Killed?)
    && (s.guardian in {Checking, Waiting, Listening, Killing} ==> !s.committed)
    && (s.guardian.Gone? ==> s.core in {Running, Killed, Died} && !s.childOpen) && (!s.guardian.Gone? ==> s.childOpen)
    && (s.stepsAtFreeze.None? ==>
        s.toParent == [] && s.parent in {AwaitingFreeze, Failed, Closed} && s.stepsAtGuard.None? && s.toGuardian == [])
    && (s.stepsAtGuard.None? ==> s.toGuardian == [] && s.parent !in {Passed, AwaitingReply, Committed})
    && (s.stepsAtGuard.Some? && s.guardian in {Listening, Killing} ==> s.stepsAtGuard == Some(s.steps))
    && (s.core.Killed? ==> s.stepsAtGuard == Some(s.steps) && s.commandAt.Some? && s.commandAt.value < s.deadline)
    && (K in s.toParent ==> s.core.Killed?)
    && (s.parent.Committed? ==> !Alive(s.core))
    && (s.parent.AwaitingFreeze? ==> s.stepsAtGuard.None?)
  }

  predicate OfGuardian(e: Event) {
    e.GuardianStops? || e.GuardianPolls? || e.GuardianReceives? || e.GuardianTimesOut? || e.GuardianKills?
        || e.GuardianReplies?
    || e.GuardianFails? || e.GuardianLeaves?
  }

  lemma GuardianKeepsInv(s: State, e: Event)
    requires Inv(s) && OfGuardian(e)
    ensures Inv(Step(s, e)) && Step(s, e).deadline == s.deadline
  {}

  predicate OfParent(e: Event) {
    e.ParentSeesFreeze? || e.ParentGuards? || e.ParentCommits? || e.ParentSeesReply? || e.ParentGivesUp?
        || e.ParentCloses?
  }

  lemma GuardKeepsInv(s: State, passes: bool)
    requires Inv(s)
    ensures Inv(Step(s, ParentGuards(passes))) && Step(s, ParentGuards(passes)).deadline == s.deadline
  {}

  lemma CommandKeepsInv(s: State)
    requires Inv(s)
    ensures Inv(Step(s, ParentCommits)) && Step(s, ParentCommits).deadline == s.deadline
  {}

  lemma ParentLeavesKeepsInv(s: State, e: Event)
    requires Inv(s) && (e.ParentGivesUp? || e.ParentCloses?)
    ensures Inv(Step(s, e)) && Step(s, e).deadline == s.deadline
  {}

  lemma ReceptionKeepsInv(s: State, e: Event)
    requires Inv(s) && (e.ParentSeesFreeze? || e.ParentSeesReply?)
    ensures Inv(Step(s, e)) && Step(s, e).deadline == s.deadline
  {
    if s.toParent != [] { assert forall b <- s.toParent[1..] :: b in s.toParent; }
  }

  lemma OthersKeepInv(s: State, e: Event)
    requires Inv(s) && !OfGuardian(e) && !OfParent(e)
    ensures Inv(Step(s, e)) && Step(s, e).deadline == s.deadline
  {}

  lemma StepKeepsInv(s: State, e: Event)
    requires Inv(s)
    ensures Inv(Step(s, e)) && Step(s, e).deadline == s.deadline
  {
    hide Inv, Step;
    if OfGuardian(e) {
      GuardianKeepsInv(s, e);
    } else if e.ParentSeesFreeze? || e.ParentSeesReply? {
      ReceptionKeepsInv(s, e);
    } else if e.ParentGuards? {
      GuardKeepsInv(s, e.passes);
    } else if e.ParentCommits? {
      CommandKeepsInv(s);
    } else if OfParent(e) {
      ParentLeavesKeepsInv(s, e);
    } else {
      OthersKeepInv(s, e);
    }
  }

  lemma {:induction false} RunKeepsInv(s: State, run: seq<Event>)
    requires Inv(s)
    ensures Inv(Exec(s, run)) && Exec(s, run).deadline == s.deadline
    decreases |run|
  {
    if run != [] {
      StepKeepsInv(s, run[0]);
      RunKeepsInv(Step(s, run[0]), run[1..]);
    }
  }

  lemma {:induction false} StartKeepsInv(s: State, run: seq<Event>)
    requires IsStart(s)
    ensures Inv(Exec(s, run)) && Exec(s, run).deadline == s.deadline
  {
    RunKeepsInv(s, run);
  }

  // ---------------------------------------------------------------- what the fence promises

  /**
   When the guardian has run to its end, the core is not left stopped: it runs, was killed by the guardian or died by
   itself.
   */
  lemma {:induction false} NeverLeftFrozen(s: State, run: seq<Event>)
    requires IsStart(s) && Exec(s, run).guardian.Gone?
    ensures Exec(s, run).core in {Running, Killed, Died}
  {
    StartKeepsInv(s, run);
  }

  /**
   The core is killed only on a command that came before the deadline, after the guard passed, and it took no step
   since the guard looked.
   */
  lemma {:induction false} KilledOnlyUnderGuard(s: State, run: seq<Event>)
    requires IsStart(s) && Exec(s, run).core.Killed?
    ensures var t := Exec(s, run);
            && t.stepsAtGuard == Some(t.steps)
            && t.commandAt.Some? && t.commandAt.value < s.deadline
  {
    StartKeepsInv(s, run);
  }

  /** `commit()` returns normally only when the old core is gone. */
  lemma {:induction false} CommittedMeansGone(s: State, run: seq<Event>)
    requires IsStart(s) && Exec(s, run).parent.Committed?
    ensures !Alive(Exec(s, run).core)
  {
    StartKeepsInv(s, run);
  }

  /** Without a passed guard the guardian never kills, whatever else happens. */
  lemma {:induction false} NoGuardNoKill(s: State, run: seq<Event>)
    requires IsStart(s) && forall k :: 0 <= k < |run| ==> run[k] != ParentGuards(true)
    ensures !Exec(s, run).core.Killed?
  {
    StartKeepsInv(s, run);
    NoGuard(s, run);
  }

  lemma {:induction false} NoGuard(s: State, run: seq<Event>)
    requires s.stepsAtGuard.None? && forall k :: 0 <= k < |run| ==> run[k] != ParentGuards(true)
    ensures Exec(s, run).stepsAtGuard.None?
    decreases |run|
  {
    hide Step;
    if run != [] {
      NoGuardStep(s, run[0]);
      NoGuard(Step(s, run[0]), run[1..]);
    }
  }

  lemma NoGuardStep(s: State, e: Event)
    requires s.stepsAtGuard.None? && e != ParentGuards(true)
    ensures Step(s, e).stepsAtGuard.None?
  {}

  /** What the guardian alone does once the deadline has passed, wherever it is. */
  const WAY_OUT: seq<Event> := [GuardianPolls, GuardianTimesOut, GuardianKills, GuardianReplies, GuardianLeaves]

  lemma ExecFive(s: State, a: Event, b: Event, c: Event, d: Event, e: Event)
    ensures Exec(s, [a, b, c, d, e]) == Step(Step(Step(Step(Step(s, a), b), c), d), e)
  {
    hide Step;
    assert [a, b, c, d, e][1..] == [b, c, d, e] && [b, c, d, e][1..] == [c, d, e] && [c, d, e][1..] == [d, e]
           && [d, e][1..] == [e] && [e][1..] == [];
    var t := Step(Step(Step(Step(Step(s, a), b), c), d), e);
    assert Exec(t, []) == t;
    assert Exec(Step(Step(Step(Step(s, a), b), c), d), [e]) == t;
    assert Exec(Step(Step(Step(s, a), b), c), [d, e]) == t;
    assert Exec(Step(Step(s, a), b), [c, d, e]) == t;
    assert Exec(Step(s, a), [b, c, d, e]) == t;
  }

  lemma LeavesWaiting(s: State)
    requires s.now >= s.deadline && !s.guardian.Checking?
    ensures var t := Step(Step(s, GuardianPolls), GuardianTimesOut);
            !t.guardian.Checking? && !t.guardian.Waiting? && !t.guardian.Listening?
  {}

  lemma FinishesAndLeaves(s: State)
    requires !s.guardian.Checking? && !s.guardian.Waiting? && !s.guardian.Listening?
    ensures Step(Step(Step(s, GuardianKills), GuardianReplies), GuardianLeaves).guardian.Gone?
  {}

  /** Past the deadline the guardian needs nobody: its own next steps end with the core resumed, killed or dead. */
  lemma {:induction false} GuardianAlwaysEnds(s: State, run: seq<Event>)
    requires IsStart(s) && Exec(s, run).now >= s.deadline && !Exec(s, run).guardian.Checking?
    ensures var t := Exec(Exec(s, run), WAY_OUT); t.guardian.Gone? && t.core in {Running, Killed, Died}
  {
    hide Step, Inv;
    StartKeepsInv(s, run);
    var t := Exec(s, run);
    RunKeepsInv(t, WAY_OUT);
    ExecFive(t, GuardianPolls, GuardianTimesOut, GuardianKills, GuardianReplies, GuardianLeaves);
    LeavesWaiting(t);
    FinishesAndLeaves(Step(Step(t, GuardianPolls), GuardianTimesOut));
    GoneMeansReleased(Exec(t, WAY_OUT));
  }

  lemma GoneMeansReleased(s: State)
    requires Inv(s) && s.guardian.Gone?
    ensures s.core in {Running, Killed, Died}
  {}

  /** In every run the commit returns normally exactly when the core is gone by the time its answer is read. */
  lemma {:induction false} CommitTellsExactly(s: State, run: seq<Event>, e: Event)
    requires IsStart(s) && Exec(s, run).parent.AwaitingReply?
    requires e == ParentGivesUp || (e == ParentSeesReply && (Exec(s, run).toParent != [] || !Exec(s, run).childOpen))
    ensures var t := Exec(s, run);
            Step(t, e).parent == if Alive(t.core) then Failed else Committed
  {
    StartKeepsInv(s, run);
  }

  /** A parent that goes away without a command leaves a core that runs again, however far the guardian had come. */
  lemma {:induction false} AbandonedCoreRuns(s: State, run: seq<Event>)
    requires IsStart(s)
    requires var t := Exec(s, run); t.guardian.Listening? && t.toGuardian == []
    ensures var t := Exec(s, run);
            var left := Step(Step(Step(t, ParentCloses), GuardianReceives), GuardianLeaves);
            left.guardian.Gone? && left.core == if t.core.Died? then Died else Running
  {
    StartKeepsInv(s, run);
  }

  // ---------------------------------------------------------------- the undisturbed handover

  /** Freeze, guard, command, kill and reply, with nobody in between. */
  function Handover(matches: bool, passes: bool): seq<Event> {
    [GuardianStops(matches), CoreSettles, GuardianPolls, ParentSeesFreeze, ParentGuards(passes)] +
    [ParentCommits, GuardianReceives, GuardianKills, GuardianReplies, ParentSeesReply]
  }

  lemma {:induction false} ExecConcat(s: State, a: seq<Event>, b: seq<Event>)
    ensures Exec(s, a + b) == Exec(Exec(s, a), b)
    decreases |a|
  {
    hide Step;
    if a == [] {
      assert a + b == b;
    } else {
      assert (a + b)[0] == a[0] && (a + b)[1..] == a[1..] + b;
      ExecConcat(Step(s, a[0]), a[1..], b);
    }
  }

  /** The guard has looked at the frozen core, and the guardian listens. */
  predicate LookedAt(s: State, t: State) {
    && t.guardian.Listening? && t.parent.Passed? && t.core.Stopped? && t.stopped && !t.committed
    && t.childOpen && t.parentOpen && t.toParent == [] && t.toGuardian == []
    && t.now == s.now && t.deadline == s.deadline
  }

  lemma FreezesExactlyWhen(s: State, matches: bool, passes: bool)
    requires IsStart(s)
    ensures var t := Step(Step(Step(Step(Step(s, GuardianStops(matches)), CoreSettles), GuardianPolls),
                               ParentSeesFreeze), ParentGuards(passes));
            if matches && s.core.Running? && s.now < s.deadline && passes then LookedAt(s, t)
            else !t.parent.Passed? && !t.parent.AwaitingReply? && !t.guardian.Killing? && !t.guardian.Replying?
                 && !t.parent.Committed? && t.toGuardian == [] && !t.core.Killed?
  {}

  lemma CommitsWhenLookedAt(s: State, t: State)
    requires LookedAt(s, t)
    ensures var u := Step(Step(Step(Step(Step(t, ParentCommits), GuardianReceives), GuardianKills), GuardianReplies),
                          ParentSeesReply);
            s.now < s.deadline ==> u.parent.Committed? && u.core.Killed?
  {}

  lemma NothingToCommit(t: State)
    requires !t.parent.Passed? && !t.parent.AwaitingReply? && !t.guardian.Killing? && !t.guardian.Replying?
             && !t.parent.Committed? && t.toGuardian == [] && !t.core.Killed?
    ensures var u := Step(Step(Step(Step(Step(t, ParentCommits), GuardianReceives), GuardianKills), GuardianReplies),
                          ParentSeesReply);
            !u.parent.Committed? && !u.core.Killed?
  {}

  /**
   With nobody in between, the old core is killed and the commit returns exactly when it was the core the updater
   meant, ran, was frozen before the deadline and the guard passed.
   */
  lemma {:induction false} HandsOverExactlyWhen(s: State, matches: bool, passes: bool)
    requires IsStart(s)
    ensures var t := Exec(s, Handover(matches, passes));
            && (t.parent.Committed? <==> matches && s.core.Running? && s.now < s.deadline && passes)
            && (t.core.Killed? <==> t.parent.Committed?)
  {
    hide Step, Exec, IsStart, LookedAt;
    var a := [GuardianStops(matches), CoreSettles, GuardianPolls, ParentSeesFreeze, ParentGuards(passes)];
    var b := [ParentCommits, GuardianReceives, GuardianKills, GuardianReplies, ParentSeesReply];
    ExecConcat(s, a, b);
    ExecFive(s, GuardianStops(matches), CoreSettles, GuardianPolls, ParentSeesFreeze, ParentGuards(passes));
    FreezesExactlyWhen(s, matches, passes);
    var t := Exec(s, a);
    ExecFive(t, ParentCommits, GuardianReceives, GuardianKills, GuardianReplies, ParentSeesReply);
    if matches && s.core.Running? && s.now < s.deadline && passes {
      CommitsWhenLookedAt(s, t);
    } else {
      NothingToCommit(t);
    }
  }
}
