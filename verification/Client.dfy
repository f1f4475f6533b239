/**
 The client's transport: one attempt that settles once, and the retry loop around it, composed with
 the core's admission gate. The socket, the core and the clock are the environment.
 */
module Client {
  import opened Wrappers
  import MaintenanceRuns

  datatype Reply = Result | MaintenanceRefusal | OtherError

  /** How one attempt ended; `dispatched` is the detail `requestDispatched` of a transport error. */
  datatype Ending =
    | Replied(reply: Reply)
    | Unavailable(dispatched: bool)
    | ConnectionLost(dispatched: bool)
    | TimedOut(dispatched: bool)
    | Cancelled
    | BadLine

  /** The shared stream of a remote connection, as the attempt finds it. */
  datatype Connection = Local | Remote(ready: bool, failed: bool, destroyed: bool)

  /** The variables of `callTransportOnce`; `writes` counts the request lines put on the socket. */
  datatype Once = Once(remote: bool, ready: bool, dispatched: bool, writes: nat, settled: Option<Ending>)

  datatype Line = Greeting(compatible: bool) | Response(reply: Reply) | Garbage

  datatype SocketEvent = Connected | Received(line: Line) | Failed | Ended | Expired | Aborted

  function Settle(o: Once, ending: Ending): Once {
    if o.settled.Some? then o else o.(settled := Some(ending))
  }

  function Dispatch(o: Once): Once {
    o.(dispatched := true, writes := o.writes + 1)
  }

  function Broken(o: Once): Ending {
    if o.dispatched then ConnectionLost(o.dispatched) else Unavailable(o.dispatched)
  }

  function Begin(c: Connection, aborted: bool): Once {
    var o := Once(c.Remote?, if c.Remote? then c.ready else true, false, 0, None);
    if aborted then Settle(o, Cancelled)
    else if c.Remote? && (c.failed || c.destroyed) then Settle(o, Broken(o))
    else if c.Remote? && c.ready then Dispatch(o)
    else o
  }

  /** A socket delivers nothing to an attempt that has settled, and no data to one that is not connected. */
  function Handle(o: Once, e: SocketEvent): Once {
    if o.settled.Some? then o
    else match e
      case Connected => if o.remote || o.dispatched then o else Dispatch(o)
      case Received(line) =>
        if !o.ready then
          (if line == Greeting(true) then Dispatch(o.(ready := true)) else Settle(o, Unavailable(o.dispatched)))
        else if !o.dispatched then o
        else (match line case Response(reply) => Settle(o, Replied(reply)) case _ => Settle(o, BadLine))
      case Failed => Settle(o, Broken(o))
      case Ended => Settle(o, Broken(o))
      case Expired => Settle(o, TimedOut(o.dispatched))
      case Aborted => Settle(o, Cancelled)
  }

  function After(o: Once, events: seq<SocketEvent>): Once
    decreases |events|
  {
    if events == [] then o else After(Handle(o, events[0]), events[1..])
  }

  ghost predicate OnceOk(o: Once) {
    && (o.dispatched <==> o.writes == 1) && o.writes <= 1
    && (!o.ready ==> o.remote && !o.dispatched)
    && (o.settled.Some? ==>
          match o.settled.value
          case Replied(_) => o.dispatched
          case Unavailable(d) => !d && !o.dispatched
          case ConnectionLost(d) => d && o.dispatched
          case _ => true)
  }

  /** One attempt writes its request at most once, settles once, and reports truly whether it wrote it. */
  lemma {:induction false} AttemptIsTruthful(o: Once, events: seq<SocketEvent>)
    requires OnceOk(o)
    ensures OnceOk(After(o, events)) && o.writes <= After(o, events).writes
    ensures o.settled.Some? ==> After(o, events) == o
    decreases |events|
  {
    if events != [] {
      assert OnceOk(Handle(o, events[0]));
      AttemptIsTruthful(Handle(o, events[0]), events[1..]);
    }
  }

  /** How an event ends an attempt that has written its request, or has not. */
  function EndingOf(o: Once, e: SocketEvent): Option<Ending> {
    var written := o.writes > 0;
    match e
    case Connected => None
    case Received(line) =>
      if o.remote && !o.ready then (if line == Greeting(true) then None else Some(Unavailable(written)))
      else if !written then None
      else if line.Response? then Some(Replied(line.reply)) else Some(BadLine)
    case Failed => Some(if written then ConnectionLost(true) else Unavailable(false))
    case Ended => Some(if written then ConnectionLost(true) else Unavailable(false))
    case Expired => Some(TimedOut(written))
    case Aborted => Some(Cancelled)
  }

  /**
   An attempt ends exactly at the first event that ends it, and writes its request exactly once: when a local stream
   connects, or when a remote one answers with a compatible greeting.
   */
  lemma EndsExactlyWhen(o: Once, e: SocketEvent)
    requires OnceOk(o)
    ensures o.settled.None? ==> Handle(o, e).settled == EndingOf(o, e)
    ensures o.settled.None? ==>
              Handle(o, e).writes == o.writes +
                if o.writes == 0 && ((e == Connected && !o.remote)
                                     || (e == Received(Greeting(true)) && o.remote && !o.ready))
                then 1 else 0
    ensures o.settled.Some? ==> Handle(o, e) == o
  {}

  /** A new attempt writes at once exactly on a shared stream that is ready; an aborted or broken one ends at once. */
  lemma BeginsExactlyWhen(c: Connection, aborted: bool)
    ensures var o := Begin(c, aborted);
            var broken := c.Remote? && (c.failed || c.destroyed);
            && OnceOk(o) && o.remote == c.Remote?
            && (o.writes == 1 <==> !aborted && !broken && c.Remote? && c.ready)
            && o.settled == (if aborted then Some(Cancelled) else if broken then Some(Unavailable(false)) else None)
  {}

  // ---------------------------------------------------------------- the retry loop

  /** The core that read the request line: what it had done before, and the operation the request asks for. */
  datatype Arrival = Arrival(history: seq<MaintenanceRuns.Event>, op: MaintenanceRuns.OperationId)

  /** One attempt: the stream it finds, what the socket delivers, where its line arrived, and the time it ended. */
  datatype Attempt = Attempt(connection: Connection, aborted: bool, events: seq<SocketEvent>,
                             arrival: Option<Arrival>, now: int)

  function Outcome(a: Attempt): Once {
    After(Begin(a.connection, a.aborted), a.events)
  }

  lemma OutcomeIsTruthful(a: Attempt)
    ensures OnceOk(Outcome(a))
  {
    AttemptIsTruthful(Begin(a.connection, a.aborted), a.events);
  }

  /** The core as the request line reaches it, and after it asked the gate to let the operation in. */
  function Reached(a: Arrival): MaintenanceRuns.Process { MaintenanceRuns.Exec(MaintenanceRuns.Boot, a.history) }
  function Asked(a: Arrival): MaintenanceRuns.Process {
    MaintenanceRuns.Exec(MaintenanceRuns.Boot, a.history + [MaintenanceRuns.Entered(a.op)])
  }

  /**
   The operation's body runs: the request joins the operations the core has started, or its method needs no admission.
   */
  predicate BodyStarted(a: Attempt, exempt: bool) {
    a.arrival.Some? && (exempt || (a.arrival.value.op in Asked(a.arrival.value).started
                                   && a.arrival.value.op !in Reached(a.arrival.value).started))
  }

  /** The gate lets a new operation in exactly when no lease is held. */
  lemma {:induction false} AdmittedExactlyWhenNotPaused(a: Arrival)
    requires !Reached(a).exited && a.op !in Reached(a).started
    ensures a.op in Asked(a).started <==> !MaintenanceRuns.Paused(Reached(a).gate)
  {
    MaintenanceRuns.ExecLast(MaintenanceRuns.Boot, a.history, MaintenanceRuns.Entered(a.op));
  }

  /** The body runs exactly if the method needs no admission or no lease is held. */
  lemma {:induction false} BodyStartsExactlyWhen(a: Attempt, exempt: bool)
    requires a.arrival.Some? && !Reached(a.arrival.value).exited
             && a.arrival.value.op !in Reached(a.arrival.value).started
    ensures BodyStarted(a, exempt) <==> exempt || !MaintenanceRuns.Paused(Reached(a.arrival.value).gate)
  {
    AdmittedExactlyWhenNotPaused(a.arrival.value);
  }

  /**
   A core reads only what was written, answers only what it read and is running, draws a new operation
   for every request, and refuses only what its gate did not let in. Methods exempt from the gate are
   never refused by it.
   */
  predicate Honest(a: Attempt, exempt: bool) {
    && (a.arrival.Some? ==>
        Outcome(a).writes == 1 && !Reached(a.arrival.value).exited
            && a.arrival.value.op !in Reached(a.arrival.value).started)
    && (Outcome(a).settled.Some? && Outcome(a).settled.value.Replied? ==> a.arrival.Some?)
    && (Outcome(a).settled == Some(Replied(MaintenanceRefusal)) ==>
        !exempt && a.arrival.value.op !in Asked(a.arrival.value).started)
  }

  function Bodies(attempts: seq<Attempt>, exempt: bool): nat {
    if attempts == [] then 0
    else Bodies(attempts[..|attempts| - 1], exempt) + (if BodyStarted(attempts[|attempts| - 1], exempt) then 1 else 0)
  }

  function Writes(attempts: seq<Attempt>): nat {
    if attempts == [] then 0
    else Writes(attempts[..|attempts| - 1]) + Outcome(attempts[|attempts| - 1]).writes
  }

  function Refusals(attempts: seq<Attempt>): nat {
    if attempts == [] then 0
    else
      var refused := Outcome(attempts[|attempts| - 1]).settled == Some(Replied(MaintenanceRefusal));
      Refusals(attempts[..|attempts| - 1]) + (if refused then 1 else 0)
  }

  /** Every attempt but the last was provably without effect. */
  ghost predicate Harmless(a: Attempt, exempt: bool) {
    && !BodyStarted(a, exempt)
    && (Outcome(a).writes == 1 ==> Outcome(a).settled == Some(Replied(MaintenanceRefusal)))
  }

  /** What the ending of one attempt tells about it. */
  lemma AnswersTruthfully(a: Attempt, exempt: bool)
    requires Honest(a, exempt) && Outcome(a).settled.Some?
    ensures Outcome(a).writes <= 1 && (BodyStarted(a, exempt) ==> Outcome(a).writes == 1)
    ensures Outcome(a).settled == Some(Replied(MaintenanceRefusal)) ==>
              !BodyStarted(a, exempt) && Outcome(a).writes == 1
    ensures Outcome(a).settled == Some(Unavailable(false)) ==> Outcome(a).writes == 0
  {
    OutcomeIsTruthful(a);
  }

  lemma NoAttempts(world: seq<Attempt>, exempt: bool)
    ensures Bodies(world[..0], exempt) == 0 && Writes(world[..0]) == 0 && Refusals(world[..0]) == 0
  {}

  lemma OneMoreAttempt(world: seq<Attempt>, made: nat, exempt: bool)
    requires made < |world|
    ensures Bodies(world[..made + 1], exempt)
            == Bodies(world[..made], exempt) + (if BodyStarted(world[made], exempt) then 1 else 0)
    ensures Writes(world[..made + 1]) == Writes(world[..made]) + Outcome(world[made]).writes
    ensures Refusals(world[..made + 1]) == Refusals(world[..made])
            + (if Outcome(world[made]).settled == Some(Replied(MaintenanceRefusal)) then 1 else 0)
  {
    assert world[..made + 1][..made] == world[..made];
  }

  predicate Refused(a: Attempt) {
    Outcome(a).settled == Some(Replied(MaintenanceRefusal))
  }

  /**
   The ending of attempt `k` allows another one: the gate refused it; or nothing was written, in a waiting read
   or after an earlier refusal; or a waiting read lost its connection.
   */
  ghost predicate Retryable(world: seq<Attempt>, k: nat, readWait: bool)
    requires k < |world|
  {
    var ending := Outcome(world[k]).settled;
    || Refused(world[k])
    || (ending == Some(Unavailable(false)) && (readWait || exists j :: 0 <= j < k && Refused(world[j])))
    || (readWait && ending.Some? && ending.value.ConnectionLost?)
  }

  /** At attempt `k` the time allowed counts from attempt `j`: the latest refusal, or else the first attempt. */
  ghost predicate CountsFrom(world: seq<Attempt>, j: nat, k: nat)
    requires k < |world|
  {
    && j <= k && (j == 0 || Refused(world[j]))
    && forall i :: j < i <= k ==> !Refused(world[i])
  }

  /** After attempt `k` the loop makes another one. */
  ghost predicate GoesOn(world: seq<Attempt>, k: nat, readWait: bool, timeoutMs: int)
    requires k < |world|
  {
    Retryable(world, k, readWait) && exists j: nat :: CountsFrom(world, j, k) && world[k].now < world[j].now + timeoutMs
  }

  /** A request the core refuses while it hands over, and answers a quarter of a second later. */
  function Answering(reply: Reply, history: seq<MaintenanceRuns.Event>, now: int): Attempt {
    Attempt(Local, false, [Connected, Received(Response(reply))], Some(Arrival(history, 0)), now)
  }

  lemma AnswerEnds(reply: Reply, history: seq<MaintenanceRuns.Event>, now: int)
    ensures Outcome(Answering(reply, history, now)).settled == Some(Replied(reply))
    ensures Outcome(Answering(reply, history, now)).writes == 1
  {
    var events := [Connected, Received(Response(reply))];
    assert events[1..] == [Received(Response(reply))] && events[1..][1..] == [];
    var connected := Handle(Begin(Local, false), events[0]);
    assert After(connected, events[1..]) == After(Handle(connected, events[1]), []);
  }

  /** A handover is survived: the refused attempt is repeated, and the answer to the second one is the result. */
  lemma RefusalIsSurvived()
    ensures var world := [Answering(MaintenanceRefusal, [MaintenanceRuns.Quiesced(None, 0, true)], 0),
                          Answering(Result, [], 250)];
            && Honest(world[0], false) && Honest(world[1], false)
            && GoesOn(world, 0, false, 10_000) && !GoesOn(world, 1, false, 10_000)
            && !BodyStarted(world[0], false) && BodyStarted(world[1], false)
  {
    var paused := [MaintenanceRuns.Quiesced(None, 0, true)];
    var world := [Answering(MaintenanceRefusal, paused, 0), Answering(Result, [], 250)];
    AnswerEnds(MaintenanceRefusal, paused, 0);
    AnswerEnds(Result, [], 250);
    assert paused[1..] == [];
    assert Reached(Arrival(paused, 0)) == MaintenanceRuns.Step(MaintenanceRuns.Boot, paused[0]);
    BodyStartsExactlyWhen(world[0], false);
    BodyStartsExactlyWhen(world[1], false);
    assert CountsFrom(world, 0, 0);
  }

  lemma OnlyFrom(world: seq<Attempt>, i: nat, k: nat)
    requires k < |world| && CountsFrom(world, i, k)
    ensures forall j: nat :: CountsFrom(world, j, k) ==> j == i
  {}

  lemma CountsOn(world: seq<Attempt>, j: nat, k: nat)
    requires k < |world| && (k > 0 ==> CountsFrom(world, j, k - 1))
    ensures CountsFrom(world, if k == 0 || Refused(world[k]) then k else j, k)
  {}

  /**
   `callTransport` over the attempts the environment allows. It stops after the first attempt it may not
   repeat, or that ended too late, and reports how that one ended; `ending` is absent while it would go on. However
   many refusals, lost connections and
   reconnects occur, the body of a method that is not a waiting read starts at most once, and its
   request is written once more than it was refused at most: a lost answer is never followed by
   another write.
   */
  method CallTransport(world: seq<Attempt>, readWait: bool, exempt: bool, timeoutMs: int)
      returns (made: nat, ending: Option<Ending>)
    requires forall a <- world :: Honest(a, exempt) && Outcome(a).settled.Some?
    ensures made <= |world| && forall k :: 0 <= k < made - 1 ==> GoesOn(world, k, readWait, timeoutMs)
    ensures ending.None? ==> made == |world| && (made > 0 ==> GoesOn(world, made - 1, readWait, timeoutMs))
    ensures ending.Some? ==> made > 0 && Outcome(world[made - 1]).settled == ending
                             && !GoesOn(world, made - 1, readWait, timeoutMs)
    ensures !readWait ==> Bodies(world[..made], exempt) <= 1
    ensures !readWait ==> Writes(world[..made]) <= Refusals(world[..made]) + 1
    ensures !readWait ==> forall k :: 0 <= k < made - 1 ==> Harmless(world[k], exempt)
  {
    hide Outcome, Honest, BodyStarted, Bodies, Writes, Refusals, CountsFrom;
    var deadline: Option<int> := None;
    var deferred := false;
    ghost var from: nat := 0;
    made := 0;
    NoAttempts(world, exempt);
    while made < |world|
      invariant made <= |world|
      invariant !readWait ==> forall k :: 0 <= k < made ==> Harmless(world[k], exempt)
      invariant !readWait ==> Bodies(world[..made], exempt) == 0 && Writes(world[..made]) == Refusals(world[..made])
      invariant forall k :: 0 <= k < made ==> GoesOn(world, k, readWait, timeoutMs)
      invariant deferred <==> exists j :: 0 <= j < made && Refused(world[j])
      invariant deadline.None? <==> made == 0
      invariant made > 0 ==> from < made
      invariant made > 0 ==> CountsFrom(world, from, made - 1) && deadline == Some(world[from].now + timeoutMs)
    {
      var a := world[made];
      assert a in world && world[..made + 1][..made] == world[..made];
      AnswersTruthfully(a, exempt);
      OneMoreAttempt(world, made, exempt);
      var outcome := Outcome(a).settled.value;
      ghost var before := from;
      from := if made == 0 || Refused(a) then made else from;
      CountsOn(world, before, made);
      made := made + 1;
      if outcome == Replied(Result) { return made, Some(outcome); }
      if outcome == Replied(MaintenanceRefusal) {
        deferred := true;
        deadline := Some(a.now + timeoutMs);
      } else if !((deferred || readWait) && outcome == Unavailable(false)) && !(readWait && outcome.ConnectionLost?) {
        return made, Some(outcome);
      }
      if deadline.None? { deadline := Some(a.now + timeoutMs); }
      if a.now >= deadline.value {
        OnlyFrom(world, from, made - 1);
        return made, Some(outcome);
      }
    }
    return made, None;
  }
}
