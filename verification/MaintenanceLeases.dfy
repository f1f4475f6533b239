/**
 The life of a handover lease, exactly: when one is granted, renewed, ready and over, what it holds meanwhile, and
 that no pause outlives it.
 */
module MaintenanceLeases {
  import opened Wrappers
  import opened MaintenanceRuns

  /** The lease is held until `expiry`, with one timer that ends it then, and read waits aborted. */
  ghost predicate Holds(p: Process, token: Token, expiry: int) {
    && Paused(p.gate) && p.gate.token == Some(token) && p.gate.expiresAt == Some(expiry) && p.gate.waitsAborted
    && p.gate.timer.Some? && p.timers == map[p.gate.timer.value := Timer(expiry, token)]
  }

  /** Nothing the core does is running. */
  predicate Drained(p: Process, idle: bool) { p.running == {} && idle }

  /** The event asks for a lease while there is none, with bounds the core accepts. */
  ghost predicate Asks(p: Process, e: Event, token: Token) {
    && token !in p.issued
    && match e
       case Quiesced(renewing, newToken, _) => renewing.None? && newToken == token
       case PrepareBegan(call, newToken, drain, lease) =>
         newToken == token && call !in p.polling && 1 <= drain <= 10_000 && 100 <= lease <= 60_000
       case _ => false
  }

  /** How long the lease lasts. */
  function Lifetime(e: Event): int {
    if e.PrepareBegan? then e.lease else 30_000
  }

  /**
   A lease is granted exactly to the call that asks while there is none. It is held for the time asked, and ready
   at once exactly if it was to be judged and nothing runs; nothing that runs is touched.
   */
  lemma GrantedExactlyWhenAsked(p: Process, e: Event, token: Token)
    requires Inv(p) && !p.exited && !Paused(p.gate)
    ensures Step(p, e).gate.token == Some(token) <==> Asks(p, e, token)
    ensures Asks(p, e, token) ==>
              var q := Step(p, e);
              && Holds(q, token, p.now + Lifetime(e)) && q.running == p.running && q.started == p.started
              && (q.gate.phase.Ready? <==> e.Quiesced? && Drained(p, e.idle))
              && (e.PrepareBegan? ==>
                    q.polling == p.polling[e.call := Preparation(token, p.now + if e.drain < e.lease then e.drain
                                                                                 else e.lease)])
  {
    hide Inv;
    NothingRuns(p);
    HasNoTimer(p);
  }

  lemma NothingRuns(p: Process)
    requires Inv(p)
    ensures p.gate.active == 0 <==> p.running == {}
  {}

  lemma HasNoTimer(p: Process)
    requires Inv(p) && !Paused(p.gate)
    ensures p.timers == map[] && p.gate.token.None? && (p.gate.timer.Some? ==> p.gate.timer.value < p.drawn)
  {}

  lemma HasOneTimer(p: Process)
    requires Inv(p) && Paused(p.gate)
    ensures p.gate.token.Some? && p.gate.expiresAt.Some? && Holds(p, p.gate.token.value, p.gate.expiresAt.value)
    ensures p.gate.timer.value < p.drawn
  {}

  /** The event ends the lease. */
  ghost predicate EndsLease(p: Process, e: Event, token: Token)
    requires Paused(p.gate) && p.gate.expiresAt.Some?
  {
    match e
    case TimerFired(timer) => timer in p.timers && p.gate.expiresAt.value <= p.now
    case ResumeCalled(t) => t == token
    case CommitCalled(t, idle) =>
      t == token && !(p.gate.phase.Ready? && p.now < p.gate.expiresAt.value && Drained(p, idle))
    case Polled(call, _) => call in p.polling && p.polling[call].token == token && p.polling[call].deadline <= p.now
    case CalledBack => p.gate.phase.Ready?
    case _ => false
  }

  /** A lease is over exactly by its own timer, a resume, a failed commit, an expired `prepare` or a late callback. */
  lemma EndsExactlyWhen(p: Process, e: Event)
    requires Inv(p) && !p.exited && Paused(p.gate)
    ensures p.gate.token.Some? && p.gate.expiresAt.Some?
    ensures !Paused(Step(p, e).gate) <==> EndsLease(p, e, p.gate.token.value)
    ensures Paused(Step(p, e).gate) ==> Step(p, e).gate.token == p.gate.token
    ensures !Paused(Step(p, e).gate) ==>
              var q := Step(p, e);
              q.timers == map[] && q.gate.token.None? && q.gate.expiresAt.None? && !q.gate.waitsAborted
                  && q.running == p.running
  {
    hide Inv;
    HasOneTimer(p);
    NothingRuns(p);
  }

  /** The event judges the lease: a renewal by its holder, or a turn of its own `prepare` before its deadline. */
  ghost predicate Judges(p: Process, e: Event, token: Token) {
    match e
    case Quiesced(renewing, _, _) => renewing == Some(token)
    case Polled(call, idle) =>
      call in p.polling && p.polling[call].token == token && p.now < p.polling[call].deadline && Drained(p, idle)
    case _ => false
  }

  /**
   While a lease is held it becomes ready, or stops being so, exactly when it is judged; only a renewal moves its
   expiry, to thirty seconds from then.
   */
  lemma JudgedExactlyWhen(p: Process, e: Event)
    requires Inv(p) && !p.exited && Paused(p.gate) && Paused(Step(p, e).gate)
    ensures p.gate.token.Some? && p.gate.expiresAt.Some?
    ensures var q, token := Step(p, e), p.gate.token.value;
            && (q.gate.phase.Ready? <==> if Judges(p, e, token) then Drained(p, e.idle) else p.gate.phase.Ready?)
            && Holds(q, token, if e.Quiesced? && e.renewing == Some(token) then p.now + 30_000
                               else p.gate.expiresAt.value)
  {
    hide Inv;
    HasOneTimer(p);
    NothingRuns(p);
  }

  /** The process exits exactly on a commit of the live, ready lease with nothing running. */
  lemma ExitsExactlyWhen(p: Process, e: Event)
    requires Inv(p) && !p.exited
    ensures Step(p, e).exited <==>
              && e.CommitCalled? && p.gate.token == Some(e.token) && p.gate.phase.Ready?
              && p.gate.expiresAt.Some? && p.now < p.gate.expiresAt.value && Drained(p, e.idle)
  {
    hide Inv;
    NothingRuns(p);
  }

  /** An operation runs exactly from its admission, which is refused while paused, to its own release. */
  lemma RunsUntilReleased(p: Process, e: Event, op: OperationId)
    requires Inv(p) && !p.exited
    ensures op in Step(p, e).running <==>
              (op in p.running && e != Released(op)) || (e == Entered(op) && !Paused(p.gate) && op !in p.started)
    ensures op in Step(p, e).started <==> op in p.started || (e == Entered(op) && !Paused(p.gate))
  {
    hide Inv;
    StartedRuns(p);
  }

  lemma StartedRuns(p: Process)
    requires Inv(p)
    ensures p.running <= p.started
  {}

  /** No pause outlives its lease: once the expiry is reached the pending timer admits operations again. */
  lemma {:induction false} PauseAlwaysEnds(run: seq<Event>, op: OperationId)
    requires var p := Exec(Boot, run); !p.exited && Paused(p.gate) && op !in p.started
    ensures var p := Exec(Boot, run);
            && p.gate.expiresAt.Some? && p.gate.timer.Some?
            && var wait: nat := if p.gate.expiresAt.value > p.now then p.gate.expiresAt.value - p.now else 0;
               op in Exec(p, [Tick(wait), TimerFired(p.gate.timer.value), Entered(op)]).running
  {
    hide Inv, Step, Exec;
    BootKeepsInv();
    RunKeepsInv(Boot, run);
    var p := Exec(Boot, run);
    HasOneTimer(p);
    var wait: nat := if p.gate.expiresAt.value > p.now then p.gate.expiresAt.value - p.now else 0;
    ExecThree(p, Tick(wait), TimerFired(p.gate.timer.value), Entered(op));
    TimerResumes(p, wait, op);
  }

  lemma BootKeepsInv()
    ensures Inv(Boot)
  {}

  lemma ExecThree(p: Process, a: Event, b: Event, c: Event)
    ensures Exec(p, [a, b, c]) == Step(Step(Step(p, a), b), c)
  {
    hide Step;
    assert [a, b, c][1..] == [b, c] && [b, c][1..] == [c] && [c][1..] == [];
    var last := Step(Step(Step(p, a), b), c);
    assert Exec(last, []) == last;
    assert Exec(Step(Step(p, a), b), [c]) == last;
    assert Exec(Step(p, a), [b, c]) == last;
  }

  lemma TimerResumes(p: Process, wait: nat, op: OperationId)
    requires !p.exited && Paused(p.gate) && op !in p.started && p.gate.expiresAt.Some? && p.gate.token.Some?
             && Holds(p, p.gate.token.value, p.gate.expiresAt.value) && p.now + wait >= p.gate.expiresAt.value
    ensures op in Step(Step(Step(p, Tick(wait)), TimerFired(p.gate.timer.value)), Entered(op)).running
  {
    var waited := Step(p, Tick(wait));
    var resumed := Step(waited, TimerFired(p.gate.timer.value));
    assert !Paused(resumed.gate) && !resumed.exited && op !in resumed.started;
  }
}
