/**
 The handover lease: admission of operations, draining, readiness, expiry and the terminal commit,
 in every interleaving of calls, timers, polling and the clock.
 */
module MaintenanceRuns {
  import opened Wrappers

  type Token = nat
  type TimerId = nat
  type OperationId = nat
  type CallId = nat

  datatype Phase = Running | Draining | Ready

  /** A pending timer; `lease` is history: the lease it was set for. */
  datatype Timer = Timer(due: int, lease: Token)

  /** The fields of the core's maintenance object. */
  datatype Gate = Gate(phase: Phase, token: Option<Token>, expiresAt: Option<int>, timer: Option<TimerId>,
                       active: int, waitsAborted: bool)

  /** One `prepare` call between two polls. */
  datatype Preparation = Preparation(token: Token, deadline: int)

  /**
   The process: the gate, the event loop's timers, the operations and `prepare` calls in progress and
   the clock. `issued` holds every token drawn, `started` every operation admitted and `callbacks` the
   passive callbacks that ran since readiness was last established; `exited` is set by the commit.
   */
  datatype Process = Process(
    gate: Gate, timers: map<TimerId, Timer>, drawn: nat, now: int,
    running: set<OperationId>, started: set<OperationId>, polling: map<CallId, Preparation>,
    issued: set<Token>, callbacks: nat, exited: bool)

  const Boot := Process(Gate(Running, None, None, None, 0, false), map[], 0, 0, {}, {}, map[], {}, 0, false)

  predicate Paused(g: Gate) { !g.phase.Running? }

  /** `clearTimeout(this.#timer)`. */
  function Cleared(timers: map<TimerId, Timer>, timer: Option<TimerId>): map<TimerId, Timer> {
    if timer.Some? then timers - {timer.value} else timers
  }

  /** `resume()`. */
  function Resumed(p: Process): Process {
    p.(timers := Cleared(p.timers, p.gate.timer),
       gate := p.gate.(token := None, expiresAt := None, phase := Running, waitsAborted := false))
  }

  /** `setTimeout(() => this.resume(), delay)`. */
  function Armed(p: Process, lease: Token, delay: int): Process {
    p.(timers := p.timers[p.drawn := Timer(p.now + delay, lease)], drawn := p.drawn + 1,
       gate := p.gate.(timer := Some(p.drawn), expiresAt := Some(p.now + delay)))
  }

  /** Readiness is established anew: no callback has run since. */
  function Judged(p: Process, idle: bool): Process {
    if p.gate.active == 0 && idle then p.(gate := p.gate.(phase := Ready), callbacks := 0)
    else p.(gate := p.gate.(phase := Draining))
  }

  // ---------------------------------------------------------------- operations

  /** `enter`: admission, refused while paused. */
  function Enter(p: Process, op: OperationId): Process {
    if Paused(p.gate) || op in p.started then p
    else p.(gate := p.gate.(active := p.gate.active + 1), running := p.running + {op}, started := p.started + {op})
  }

  /** The release function `enter` returned, effective once. */
  function Release(p: Process, op: OperationId): Process {
    if op !in p.running then p
    else p.(gate := p.gate.(active := p.gate.active - 1), running := p.running - {op})
  }

  function Callback(p: Process): Process {
    (if p.gate.phase.Ready? then Resumed(p) else p).(callbacks := p.callbacks + 1)
  }

  /** `quiesce`, with the token it draws when the caller brings none. */
  function Quiesce(p: Process, token: Option<Token>, newToken: Token, idle: bool): Process {
    if token.None? then
      if Paused(p.gate) || newToken in p.issued then p
      else
        var q := p.(gate := p.gate.(token := Some(newToken), phase := Draining, waitsAborted := true),
                    issued := p.issued + {newToken});
        Judged(Armed(q.(timers := Cleared(q.timers, q.gate.timer)), newToken, 30_000), idle)
    else if p.gate.token != token || !Paused(p.gate) then p
    else Judged(Armed(p.(timers := Cleared(p.timers, p.gate.timer)), token.value, 30_000), idle)
  }

  /** `prepare` up to its first poll. */
  function BeginPrepare(p: Process, call: CallId, newToken: Token, drain: int, lease: int): Process {
    if !(1 <= drain <= 10_000 && 100 <= lease <= 60_000) || Paused(p.gate) || newToken in p.issued
        || call in p.polling then p
    else
      var q := p.(gate := p.gate.(token := Some(newToken), phase := Draining, waitsAborted := true),
                  issued := p.issued + {newToken});
      var deadline := if p.now + drain < p.now + lease then p.now + drain else p.now + lease;
      Armed(q, newToken, lease).(polling := p.polling[call := Preparation(newToken, deadline)])
  }

  /** One turn of the `prepare` loop. */
  function Poll(p: Process, call: CallId, idle: bool): Process {
    if call !in p.polling then p
    else
      var own := p.polling[call];
      var done := p.(polling := p.polling - {call});
      if p.gate.token != Some(own.token) then done
      else if p.now >= own.deadline then Resumed(done)
      else if p.gate.active == 0 && idle then done.(gate := p.gate.(phase := Ready), callbacks := 0)
      else p
  }

  function Fire(p: Process, timer: TimerId): Process {
    if timer !in p.timers || p.now < p.timers[timer].due then p
    else Resumed(p.(timers := p.timers - {timer}))
  }

  function Resume(p: Process, token: Token): Process {
    if p.gate.token != Some(token) then p else Resumed(p)
  }

  predicate MayCommit(p: Process, token: Token, idle: bool) {
    p.gate.token == Some(token) && p.gate.phase.Ready? && p.gate.expiresAt.Some? && p.now < p.gate.expiresAt.value
        && p.gate.active == 0 && idle
  }

  function Commit(p: Process, token: Token, idle: bool): Process {
    if MayCommit(p, token, idle) then p.(exited := true)
    else if p.gate.token == Some(token) then Resumed(p)
    else p
  }

  // ---------------------------------------------------------------- runs

  datatype Event =
    | Tick(millis: nat)
    | Entered(op: OperationId)
    | Released(op: OperationId)
    | CalledBack
    | Quiesced(renewing: Option<Token>, newToken: Token, idle: bool)
    | PrepareBegan(call: CallId, newToken: Token, drain: int, lease: int)
    | Polled(call: CallId, idle: bool)
    | TimerFired(timer: TimerId)
    | ResumeCalled(token: Token)
    | CommitCalled(token: Token, idle: bool)

  /** Nothing happens after the process has exited. */
  function Step(p: Process, e: Event): Process {
    if p.exited then p
    else match e
      case Tick(millis) => p.(now := p.now + millis)
      case Entered(op) => Enter(p, op)
      case Released(op) => Release(p, op)
      case CalledBack => Callback(p)
      case Quiesced(token, newToken, idle) => Quiesce(p, token, newToken, idle)
      case PrepareBegan(call, newToken, drain, lease) => BeginPrepare(p, call, newToken, drain, lease)
      case Polled(call, idle) => Poll(p, call, idle)
      case TimerFired(timer) => Fire(p, timer)
      case ResumeCalled(token) => Resume(p, token)
      case CommitCalled(token, idle) => Commit(p, token, idle)
  }

  function Exec(p: Process, run: seq<Event>): Process
    decreases |run|
  {
    if run == [] then p else Exec(Step(p, run[0]), run[1..])
  }

  /**
   Paused means: a token, an expiry, aborted read waits and exactly one pending timer, set for this
   lease and due at its expiry. Ready means that nothing is running and no callback has run since.
   */
  ghost predicate Inv(p: Process) {
    var g := p.gate;
    && (Paused(g) <==> g.token.Some?) && (Paused(g) <==> g.expiresAt.Some?) && (Paused(g) <==> g.waitsAborted)
    && (Paused(g) ==> g.timer.Some? && p.timers == map[g.timer.value := Timer(g.expiresAt.value, g.token.value)])
    && (!Paused(g) ==> p.timers == map[])
    && (g.timer.Some? ==> g.timer.value < p.drawn) && (forall t <- p.timers :: t < p.drawn)
    && g.active == |p.running| && p.running <= p.started
    && (g.phase.Ready? ==> p.running == {} && p.callbacks == 0)
    && (g.token.Some? ==> g.token.value in p.issued)
    && (forall c <- p.polling :: p.polling[c].token in p.issued)
  }

  lemma EnterKeepsInv(p: Process, op: OperationId)
    requires Inv(p)
    ensures Inv(Enter(p, op))
  {
    if op !in p.started { assert |p.running + {op}| == |p.running| + 1; }
  }

  lemma LeaseKeepsInv(p: Process, token: Option<Token>, newToken: Token, idle: bool, call: CallId, drain: int,
                      lease: int)
    requires Inv(p)
    ensures Inv(Quiesce(p, token, newToken, idle)) && Inv(BeginPrepare(p, call, newToken, drain, lease))
  {}

  lemma EndKeepsInv(p: Process, call: CallId, timer: TimerId, token: Token, idle: bool)
    requires Inv(p)
    ensures Inv(Fire(p, timer)) && Inv(Resume(p, token)) && Inv(Commit(p, token, idle)) && Inv(Callback(p))
  {}

  lemma PollKeepsInv(p: Process, call: CallId, idle: bool)
    requires Inv(p)
    ensures Inv(Poll(p, call, idle))
  {}

  lemma ReleaseKeepsInv(p: Process, op: OperationId)
    requires Inv(p)
    ensures Inv(Release(p, op))
  {}

  lemma StepKeepsInv(p: Process, e: Event)
    requires Inv(p)
    ensures Inv(Step(p, e))
  {
    hide Enter, Release, Callback, Quiesce, BeginPrepare, Poll, Fire, Resume, Commit;
    match e
    case Tick(_) =>
    case Entered(op) => EnterKeepsInv(p, op);
    case Released(op) => ReleaseKeepsInv(p, op);
    case CalledBack => EndKeepsInv(p, 0, 0, 0, false);
    case Quiesced(token, newToken, idle) => LeaseKeepsInv(p, token, newToken, idle, 0, 0, 0);
    case PrepareBegan(call, newToken, drain, lease) => LeaseKeepsInv(p, None, newToken, false, call, drain, lease);
    case Polled(call, idle) => PollKeepsInv(p, call, idle);
    case TimerFired(timer) => EndKeepsInv(p, 0, timer, 0, false);
    case ResumeCalled(token) => EndKeepsInv(p, 0, 0, token, false);
    case CommitCalled(token, idle) => EndKeepsInv(p, 0, 0, token, idle);
  }

  lemma {:induction false} RunKeepsInv(p: Process, run: seq<Event>)
    requires Inv(p)
    ensures Inv(Exec(p, run))
    decreases |run|
  {
    if run != [] {
      StepKeepsInv(p, run[0]);
      RunKeepsInv(Step(p, run[0]), run[1..]);
    }
  }

  lemma {:induction false} ExecLast(p: Process, run: seq<Event>, e: Event)
    ensures Exec(p, run + [e]) == Step(Exec(p, run), e)
    decreases |run|
  {
    if run == [] {
      assert [e][1..] == [] && Exec(Step(p, e), []) == Step(p, e);
    } else {
      assert (run + [e])[0] == run[0] && (run + [e])[1..] == run[1..] + [e];
      ExecLast(Step(p, run[0]), run[1..], e);
    }
  }

  /**
   A commit that exits leaves no admitted operation behind, holds the live lease it names, and no callback has run
   since readiness.
   */
  lemma {:induction false} ExitIsSafe(run: seq<Event>, e: Event)
    requires !Exec(Boot, run).exited && Exec(Boot, run + [e]).exited
    ensures var p := Exec(Boot, run);
            && e.CommitCalled? && e.idle && p.gate.token == Some(e.token)
            && p.gate.phase.Ready? && p.gate.expiresAt.Some? && p.now < p.gate.expiresAt.value
            && p.running == {} && p.callbacks == 0
            && (exists t <- p.timers :: p.timers[t].lease == e.token && p.now < p.timers[t].due)
  {
    ExecLast(Boot, run, e);
    RunKeepsInv(Boot, run);
    var p := Exec(Boot, run);
    assert p.gate.timer.value in p.timers;
  }

  /** Paused is all-or-nothing at every moment of every run. */
  lemma {:induction false} PausedIsComplete(run: seq<Event>)
    ensures var p := Exec(Boot, run);
            && (Paused(p.gate) <==> p.gate.token.Some?) && (Paused(p.gate) <==> p.gate.expiresAt.Some?)
            && (Paused(p.gate) <==> p.gate.waitsAborted) && (Paused(p.gate) <==> |p.timers| == 1)
            && (!Paused(p.gate) <==> p.timers == map[])
  {
    RunKeepsInv(Boot, run);
  }

  /**
   A lease ends only by its own doing: its own timer, no earlier than its expiry; a resume, a failed
   commit or an expired `prepare` that names it; or a callback that found it ready. No step replaces
   one lease by another.
   */
  lemma {:induction false} LeaseEndsOnlyByItself(run: seq<Event>, e: Event)
    requires Exec(Boot, run).gate.token.Some? && Exec(Boot, run + [e]).gate.token != Exec(Boot, run).gate.token
    ensures var p := Exec(Boot, run);
            var lease := p.gate.token.value;
            && Exec(Boot, run + [e]).gate.token.None?
            && match e
               case TimerFired(timer) =>
                 timer in p.timers && p.timers[timer].lease == lease && p.gate.expiresAt.Some?
                     && p.gate.expiresAt.value <= p.now
               case ResumeCalled(token) => token == lease
               case CommitCalled(token, idle) => token == lease && !MayCommit(p, token, idle)
               case Polled(call, _) =>
                 call in p.polling && p.polling[call].token == lease && p.polling[call].deadline <= p.now
               case CalledBack => p.gate.phase.Ready?
               case _ => false
  {
    ExecLast(Boot, run, e);
    RunKeepsInv(Boot, run);
  }

  /** No operation is admitted while a lease is held. */
  lemma {:induction false} NoAdmissionWhilePaused(run: seq<Event>, e: Event)
    requires Exec(Boot, run + [e]).started != Exec(Boot, run).started
    ensures e.Entered? && !Paused(Exec(Boot, run).gate) && e.op in Exec(Boot, run + [e]).running
  {
    ExecLast(Boot, run, e);
  }
}
