/**
 Automatic continuation of failed turns: each one waits out a capped exponential backoff, and the
 whole chain runs against one deadline fixed when it began.
 */
module ContinuationChain {
  import opened Wrappers

  type Ref = nat
  type SessionId = nat

  datatype Continuation = Continuation(root: Ref, failed: Ref, attempt: nat, deadline: int)

  /** A request; `failedAt` is the durable completion time of its reconciled failure. */
  datatype Request = Request(session: SessionId, generation: nat, created: int, continuation: Option<Continuation>,
                             failedAt: Option<int>)

  datatype Session = Session(current: nat, deadline: int)

  /** `configured` holds the requests whose configuration evidence is preserved, `paused` the roots of paused chains. */
  datatype State = State(requests: map<Ref, Request>, sessions: map<SessionId, Session>, configured: set<Ref>,
                         paused: set<Ref>, now: int)

  // ---------------------------------------------------------------- backoff

  function Power(base: nat, exponent: nat): nat {
    if exponent == 0 then 1 else base * Power(base, exponent - 1)
  }

  function Min(a: int, b: int): int { if a < b then a else b }

  /** The delay before the `attempt`-th continuation, in milliseconds. */
  function Backoff(attempt: nat): int
    requires attempt >= 1
  {
    Min(60_000, 1_000 * Power(2, if attempt - 1 < 6 then attempt - 1 else 6))
  }

  /** The delays of the first `n` continuations together. */
  function TotalBackoff(n: nat): int {
    if n == 0 then 0 else TotalBackoff(n - 1) + Backoff(n)
  }

  lemma BackoffValues()
    ensures Backoff(1) == 1_000 && Backoff(2) == 2_000 && Backoff(3) == 4_000 && Backoff(4) == 8_000
            && Backoff(5) == 16_000 && Backoff(6) == 32_000
    ensures forall n: nat :: n >= 7 ==> Backoff(n) == 60_000
  {
    assert Power(2, 1) == 2 && Power(2, 2) == 4 && Power(2, 3) == 8;
    assert Power(2, 4) == 16 && Power(2, 5) == 32 && Power(2, 6) == 64;
  }

  /** From the sixth continuation on, each one costs a full minute more. */
  lemma {:induction false} TotalBackoffGrows(n: nat)
    requires n >= 6
    ensures TotalBackoff(n) == 63_000 + 60_000 * (n - 6)
  {
    BackoffValues();
    if n == 6 {
      assert TotalBackoff(3) == 7_000;
      assert TotalBackoff(5) == 31_000;
    } else {
      TotalBackoffGrows(n - 1);
    }
  }

  // ---------------------------------------------------------------- the chain

  function AttemptOf(r: Request): nat { if r.continuation.Some? then r.continuation.value.attempt else 0 }

  function RootOf(ref: Ref, r: Request): Ref { if r.continuation.Some? then r.continuation.value.root else ref }

  /** The continuation's request identity is derived from the failed request, so one already sent is found again. */
  predicate HasSuccessor(s: State, failed: Ref) {
    exists ref ::
        ref in s.requests && s.requests[ref].continuation.Some? && s.requests[ref].continuation.value.failed == failed
  }

  datatype Event =
    | Tick(millis: nat)
    | Opened(session: SessionId)
    | Sent(ref: Ref, session: SessionId, deadline: int)
    | Failed(ref: Ref)
    | Configured(ref: Ref)
    | Continued(failed: Ref, ref: Ref, verified: bool)

  function Insert(s: State, ref: Ref, sid: SessionId, deadline: int, continuation: Option<Continuation>): State
    requires sid in s.sessions
  {
    var generation := s.sessions[sid].current + 1;
    s.(requests := s.requests[ref := Request(sid, generation, s.now, continuation, None)],
       sessions := s.sessions[sid := Session(generation, deadline)])
  }

  /** The failure is current and reconciled, and its chain is not paused. */
  predicate Eligible(s: State, failed: Ref) {
    && failed in s.requests
    && var r := s.requests[failed];
       r.failedAt.Some? && r.session in s.sessions && s.sessions[r.session].current == r.generation
           && RootOf(failed, r) !in s.paused
  }

  predicate BackedOff(s: State, failed: Ref)
    requires Eligible(s, failed)
  {
    s.now >= s.requests[failed].failedAt.value + Backoff(AttemptOf(s.requests[failed]) + 1)
  }

  predicate InTime(s: State, failed: Ref)
    requires Eligible(s, failed)
  {
    s.now < s.sessions[s.requests[failed].session].deadline
  }

  /** Everything `#continue` checks in the core before it inspects the page and sends. */
  predicate MayContinue(s: State, failed: Ref) {
    Eligible(s, failed) && failed in s.configured && InTime(s, failed) && BackedOff(s, failed)
        && !HasSuccessor(s, failed)
  }

  /**
   Missing evidence, an expired deadline and, after the backoff, a page that does not show the failure pause the
   chain.
   */
  predicate MustPause(s: State, failed: Ref, verified: bool) {
    Eligible(s, failed) && (failed !in s.configured || !InTime(s, failed) || (BackedOff(s, failed) && !verified))
  }

  function StepContinued(s: State, failed: Ref, ref: Ref, verified: bool): State {
    if MustPause(s, failed, verified) then s.(paused := s.paused + {RootOf(failed, s.requests[failed])})
    else if ref in s.requests || !MayContinue(s, failed) then s
    else
      var r := s.requests[failed];
      var deadline := s.sessions[r.session].deadline;
      Insert(s, ref, r.session, deadline, Some(Continuation(RootOf(failed, r), failed, AttemptOf(r) + 1, deadline)))
  }

  function Step(s: State, e: Event): State {
    match e
    case Tick(millis) => s.(now := s.now + millis)
    case Opened(sid) => if sid in s.sessions then s else s.(sessions := s.sessions[sid := Session(0, 0)])
    case Sent(ref, sid, deadline) =>
      if ref in s.requests || sid !in s.sessions then s else Insert(s, ref, sid, deadline, None)
    case Failed(ref) =>
      if ref !in s.requests || s.requests[ref].failedAt.Some? || s.requests[ref].session !in s.sessions
         || s.sessions[s.requests[ref].session].current != s.requests[ref].generation then s
      else s.(requests := s.requests[ref := s.requests[ref].(failedAt := Some(s.now))])
    case Configured(ref) => s.(configured := s.configured + {ref})
    case Continued(failed, ref, verified) => StepContinued(s, failed, ref, verified)
  }

  function Exec(s: State, run: seq<Event>): State
    decreases |run|
  {
    if run == [] then s else Exec(Step(s, run[0]), run[1..])
  }

  const Start := State(map[], map[], {}, {}, 0)

  /**
   A continuation follows the failed turn of the same session, one position further, a backoff later, before the same
   deadline.
   */
  ghost predicate LinkFits(s: State, ref: Ref)
    requires ref in s.requests
  {
    var r := s.requests[ref];
    && r.created <= s.now && (r.failedAt.Some? ==> r.created <= r.failedAt.value <= s.now)
    && (r.session in s.sessions && r.generation <= s.sessions[r.session].current)
    && (r.continuation.Some? && r.generation == s.sessions[r.session].current ==>
        s.sessions[r.session].deadline == r.continuation.value.deadline)
    && (r.continuation.Some? ==>
          var c := r.continuation.value;
          && c.failed in s.requests
          && var p := s.requests[c.failed];
             && p.session == r.session && p.generation + 1 == r.generation
             && c.attempt == AttemptOf(p) + 1 && c.root == RootOf(c.failed, p)
             && (p.continuation.Some? ==> p.continuation.value.deadline == c.deadline)
             && p.failedAt.Some? && r.created >= p.failedAt.value + Backoff(c.attempt) && r.created < c.deadline)
  }

  /** Both continue the same failed request. */
  predicate SameOrigin(a: Request, b: Request) {
    a.continuation.Some? && b.continuation.Some? && a.continuation.value.failed == b.continuation.value.failed
  }

  ghost predicate Inv(s: State) {
    && (forall ref <- s.requests :: LinkFits(s, ref))
    && (forall a, b :: a in s.requests && b in s.requests && SameOrigin(s.requests[a], s.requests[b]) ==> a == b)
  }

  /** A new request, whose link to its predecessor fits, leaves every other link as it was. */
  lemma InsertKeepsInv(s: State, ref: Ref, sid: SessionId, deadline: int, c: Option<Continuation>)
    requires Inv(s) && ref !in s.requests && sid in s.sessions
    requires LinkFits(Insert(s, ref, sid, deadline, c), ref)
    requires c.Some? ==> !HasSuccessor(s, c.value.failed)
    ensures Inv(Insert(s, ref, sid, deadline, c))
  {
    var t := Insert(s, ref, sid, deadline, c);
    forall r | r in t.requests ensures LinkFits(t, r) {
      if r != ref {
        assert LinkFits(s, r);
      }
    }
  }

  lemma ContinuedFits(s: State, failed: Ref, ref: Ref)
    requires Inv(s) && ref !in s.requests && MayContinue(s, failed)
    ensures LinkFits(StepContinued(s, failed, ref, true), ref)
  {
    assert LinkFits(s, failed);
  }

  lemma FailedKeepsInv(s: State, ref: Ref)
    requires Inv(s)
    ensures Inv(Step(s, Failed(ref)))
  {
    var t := Step(s, Failed(ref));
    forall r | r in t.requests ensures LinkFits(t, r) { assert LinkFits(s, r); }
    forall a, b | a in t.requests && b in t.requests && SameOrigin(t.requests[a], t.requests[b]) ensures a == b {
      assert SameOrigin(s.requests[a], s.requests[b]);
    }
  }

  lemma QuietKeepsInv(s: State, e: Event)
    requires Inv(s) && (e.Tick? || e.Opened? || e.Configured?)
    ensures Inv(Step(s, e))
  {
    var t := Step(s, e);
    forall r | r in t.requests ensures LinkFits(t, r) { assert LinkFits(s, r); }
  }

  lemma StepKeepsInv(s: State, e: Event)
    requires Inv(s)
    ensures Inv(Step(s, e))
  {
    match e
    case Tick(_) => QuietKeepsInv(s, e);
    case Opened(_) => QuietKeepsInv(s, e);
    case Failed(ref) => FailedKeepsInv(s, ref);
    case Sent(ref, sid, deadline) =>
      if ref !in s.requests && sid in s.sessions { InsertKeepsInv(s, ref, sid, deadline, None); }
    case Configured(_) => QuietKeepsInv(s, e);
    case Continued(failed, ref, verified) => ContinuedKeepsInv(s, failed, ref, verified);
  }

  lemma ContinuedKeepsInv(s: State, failed: Ref, ref: Ref, verified: bool)
    requires Inv(s)
    ensures Inv(StepContinued(s, failed, ref, verified))
  {
    var t := StepContinued(s, failed, ref, verified);
    if t.requests == s.requests {
      forall r | r in t.requests ensures LinkFits(t, r) { assert LinkFits(s, r); }
    } else {
      var r := s.requests[failed];
      var deadline := s.sessions[r.session].deadline;
      ContinuedFits(s, failed, ref);
      InsertKeepsInv(s, ref, r.session, deadline,
                     Some(Continuation(RootOf(failed, r), failed, AttemptOf(r) + 1, deadline)));
    }
  }

  lemma {:induction false} RunKeepsInv(s: State, run: seq<Event>)
    requires Inv(s)
    ensures Inv(Exec(s, run))
    decreases |run|
  {
    if run != [] {
      StepKeepsInv(s, run[0]);
      RunKeepsInv(Step(s, run[0]), run[1..]);
    }
  }

  /** The chain behind a request, from its root: the requests whose failures it continues, and itself. */
  ghost function Chain(s: State, ref: Ref): (chain: seq<Ref>)
    requires Inv(s) && ref in s.requests
    ensures |chain| > 0 && chain[|chain| - 1] == ref && forall k :: 0 <= k < |chain| ==> chain[k] in s.requests
    decreases s.requests[ref].generation
  {
    assert LinkFits(s, ref);
    if s.requests[ref].continuation.None? then [ref] else Chain(s, s.requests[ref].continuation.value.failed) + [ref]
  }

  /**
   Along the chain the root and the deadline are constant, the attempt is the position, and the total backoff has
   passed.
   */
  lemma {:induction false} ChainFits(s: State, ref: Ref)
    requires Inv(s) && ref in s.requests
    ensures var chain := Chain(s, ref);
            && s.requests[chain[0]].continuation.None?
            && (forall k :: 0 <= k < |chain| ==>
                RootOf(chain[k], s.requests[chain[k]]) == chain[0] && AttemptOf(s.requests[chain[k]]) == k)
            && (forall k :: 0 < k < |chain| ==>
                s.requests[chain[k]].continuation.Some?
                    && s.requests[chain[k]].continuation.value.failed == chain[k - 1])
            && (forall k :: 0 < k < |chain| ==>
                s.requests[chain[k]].continuation.value.deadline
                    == s.requests[chain[|chain| - 1]].continuation.Or(Continuation(0, 0, 0, 0)).deadline)
            && TotalBackoff(|chain| - 1) <= s.requests[ref].created - s.requests[chain[0]].created
    decreases s.requests[ref].generation
  {
    assert LinkFits(s, ref);
    if s.requests[ref].continuation.Some? {
      var failed := s.requests[ref].continuation.value.failed;
      ChainFits(s, failed);
      assert LinkFits(s, failed);
    }
  }

  // ---------------------------------------------------------------- what is promised

  /**
   A chain of n continuations started before its deadline, and its backoffs together are shorter than what was left
   then.
   */
  lemma {:induction false} ChainIsBounded(run: seq<Event>, ref: Ref)
    requires ref in Exec(Start, run).requests && Exec(Start, run).requests[ref].continuation.Some?
    ensures var s := Exec(Start, run);
            var c := s.requests[ref].continuation.value;
            && c.root in s.requests
            && TotalBackoff(c.attempt) < c.deadline - s.requests[c.root].created
            && (c.attempt >= 6 ==> 63_000 + 60_000 * (c.attempt - 6) < c.deadline - s.requests[c.root].created)
  {
    RunKeepsInv(Start, run);
    var s := Exec(Start, run);
    ChainFits(s, ref);
    var chain := Chain(s, ref);
    assert LinkFits(s, ref);
    assert AttemptOf(s.requests[chain[|chain| - 1]]) == |chain| - 1;
    if s.requests[ref].continuation.value.attempt >= 6 {
      TotalBackoffGrows(s.requests[ref].continuation.value.attempt);
    }
  }

  /** However often it is observed or restarted, a failed request is continued automatically at most once. */
  lemma {:induction false} OneSuccessor(run: seq<Event>, a: Ref, b: Ref)
    requires var s := Exec(Start, run); a in s.requests && b in s.requests
    requires var s := Exec(Start, run); SameOrigin(s.requests[a], s.requests[b])
    ensures a == b
  {
    RunKeepsInv(Start, run);
  }

  /** A paused chain is never continued: whatever happens later, no request is added to it. */
  lemma {:induction false} PausedChainStops(s: State, run: seq<Event>, root: Ref)
    requires root in s.paused
    ensures root in Exec(s, run).paused
    ensures forall ref <- Exec(s, run).requests ::
            Exec(s, run).requests[ref].continuation.Some?
            && Exec(s, run).requests[ref].continuation.value.root == root ==>
              ref in s.requests
    decreases |run|
  {
    hide MayContinue, MustPause, Insert, Exec;
    ExecUnfolds(s, run);
    if run != [] {
      var next := Step(s, run[0]);
      PausedStep(s, run[0], root);
      PausedChainStops(next, run[1..], root);
      forall ref
          | ref in Exec(s, run).requests && Exec(s, run).requests[ref].continuation.Some?
          && Exec(s, run).requests[ref].continuation.value.root == root
        ensures ref in s.requests {
        assert ref in next.requests;
        KeepsContinuation(next, run[1..], ref);
      }
    }
  }

  lemma ExecUnfolds(s: State, run: seq<Event>)
    ensures Exec(s, run) == if run == [] then s else Exec(Step(s, run[0]), run[1..])
  {}

  lemma PausedStep(s: State, e: Event, root: Ref)
    requires root in s.paused
    ensures root in Step(s, e).paused
    ensures forall ref <- Step(s, e).requests ::
              var c := Step(s, e).requests[ref].continuation;
              c.Some? && c.value.root == root ==> ref in s.requests
  {}

  lemma {:induction false} KeepsContinuation(s: State, run: seq<Event>, ref: Ref)
    requires ref in s.requests
    ensures ref in Exec(s, run).requests && Exec(s, run).requests[ref].continuation == s.requests[ref].continuation
    decreases |run|
  {
    if run != [] {
      assert ref in Step(s, run[0]).requests
             && Step(s, run[0]).requests[ref].continuation == s.requests[ref].continuation;
      KeepsContinuation(Step(s, run[0]), run[1..], ref);
    }
  }

  // ---------------------------------------------------------------- when a chain goes on

  /** The request is the current one of its session and has failed. */
  ghost predicate Failing(s: State, failed: Ref) {
    && failed in s.requests && s.requests[failed].failedAt.Some? && s.requests[failed].session in s.sessions
    && s.sessions[s.requests[failed].session].current == s.requests[failed].generation
  }

  /** The failure is of a chain that is not paused, and its backoff has passed. */
  ghost predicate Waited(s: State, failed: Ref)
    requires Failing(s, failed)
  {
    s.requests[failed].failedAt.value + Backoff(AttemptOf(s.requests[failed]) + 1) <= s.now
  }

  /** A request that was continued is no longer the current one of its session. */
  lemma CurrentHasNoSuccessor(s: State, failed: Ref)
    requires Inv(s) && Failing(s, failed)
    ensures !HasSuccessor(s, failed)
  {
    forall ref | ref in s.requests && s.requests[ref].continuation.Some?
      ensures s.requests[ref].continuation.value.failed != failed
    {
      assert LinkFits(s, ref);
    }
  }

  /**
   In every run a failed request is continued exactly when it is still its session's current one, there is evidence of
   its configuration, its backoff has passed, its deadline has not, its chain is not paused and the page still shows the
   failure. The chain is paused exactly when evidence, deadline or the page speak against it.
   */
  lemma {:induction false} ContinuesExactlyWhen(run: seq<Event>, failed: Ref, ref: Ref, verified: bool)
    requires ref !in Exec(Start, run).requests
    ensures var s := Exec(Start, run);
            var after := Step(s, Continued(failed, ref, verified));
            if !Failing(s, failed) || RootOf(failed, s.requests[failed]) in s.paused then after == s
            else
              var r := s.requests[failed];
              var deadline := s.sessions[r.session].deadline;
              var possible := failed in s.configured && s.now < deadline;
              && (ref in after.requests <==> possible && Waited(s, failed) && verified)
              && (ref in after.requests ==>
                    && after.requests[ref] == Request(r.session, r.generation + 1, s.now,
                         Some(Continuation(RootOf(failed, r), failed, AttemptOf(r) + 1, deadline)), None)
                    && after.sessions == s.sessions[r.session := Session(r.generation + 1, deadline)])
              && after.paused == s.paused + if !possible || (Waited(s, failed) && !verified)
                                            then {RootOf(failed, r)} else {}
  {
    hide Inv;
    RunKeepsInv(Start, run);
    if Failing(Exec(Start, run), failed) { CurrentHasNoSuccessor(Exec(Start, run), failed); }
  }

  /** A failure is recorded exactly once, at its time, for the current request of a session. */
  lemma FailureIsRecordedExactlyWhen(s: State, ref: Ref)
    ensures var t := Step(s, Failed(ref));
            if ref in s.requests && s.requests[ref].failedAt.None? && s.requests[ref].session in s.sessions
               && s.sessions[s.requests[ref].session].current == s.requests[ref].generation
            then t == s.(requests := s.requests[ref := s.requests[ref].(failedAt := Some(s.now))]) && Failing(t, ref)
            else t == s
  {}

  /** A request, its failure and, a second later, its continuation: a chain does go on. */
  lemma {:induction false} ChainGoesOn()
    ensures var t := Exec(Start, [Opened(0), Sent(0, 0, 60_000), Failed(0), Configured(0), Tick(1_000),
                                  Continued(0, 1, true)]);
            1 in t.requests && t.requests[1].continuation == Some(Continuation(0, 0, 1, 60_000))
  {
    var run := [Opened(0), Sent(0, 0, 60_000), Failed(0), Configured(0), Tick(1_000), Continued(0, 1, true)];
    var s2 := Step(Step(Start, run[0]), run[1]);
    var s5 := Step(Step(Step(s2, run[2]), run[3]), run[4]);
    BackoffValues();
    assert s5.requests == map[0 := Request(0, 1, 0, None, Some(0))] && s5.sessions == map[0 := Session(1, 60_000)];
    assert !HasSuccessor(s5, 0);
    ExecSix(Start, run);
  }

  lemma ExecSix(s: State, r: seq<Event>)
    requires |r| == 6
    ensures Exec(s, r) == Step(Step(Step(Step(Step(Step(s, r[0]), r[1]), r[2]), r[3]), r[4]), r[5])
  {
    hide Step;
    assert r[1..][1..] == r[2..] && r[2..][1..] == r[3..] && r[3..][1..] == r[4..] && r[4..][1..] == r[5..]
           && r[5..][1..] == [];
    var s6 := Step(Step(Step(Step(Step(Step(s, r[0]), r[1]), r[2]), r[3]), r[4]), r[5]);
    assert Exec(s6, []) == s6;
    assert Exec(Step(Step(Step(Step(Step(s, r[0]), r[1]), r[2]), r[3]), r[4]), r[5..]) == s6;
    assert Exec(Step(Step(Step(Step(s, r[0]), r[1]), r[2]), r[3]), r[4..]) == s6;
    assert Exec(Step(Step(Step(s, r[0]), r[1]), r[2]), r[3..]) == s6;
    assert Exec(Step(Step(s, r[0]), r[1]), r[2..]) == s6;
    assert Exec(Step(s, r[0]), r[1..]) == s6;
  }

  // ---------------------------------------------------------------- the service itself

  class Recovery {
    var requests: map<Ref, Request>
    var sessions: map<SessionId, Session>
    var configured: set<Ref>
    var paused: set<Ref>

    ghost function At(now: int): State
      reads this
    {
      State(requests, sessions, configured, paused, now)
    }

    /** The `min(attempt - 1, 6)`-th doubling of a second, at most a minute. */
    method BackoffOf(attempt: nat) returns (backoff: int)
      requires attempt >= 1
      ensures backoff == Backoff(attempt)
    {
      var exponent := if attempt - 1 < 6 then attempt - 1 else 6;
      var power := 1;
      for i := 0 to exponent
        invariant power == Power(2, i)
      {
        power := 2 * power;
      }
      return if 60_000 < 1_000 * power then 60_000 else 1_000 * power;
    }

    method FindSuccessor(failed: Ref) returns (found: bool)
      ensures found == HasSuccessor(At(0), failed)
    {
      var todo := requests.Keys;
      while todo != {}
        invariant todo <= requests.Keys
        invariant forall k <- requests :: k !in todo && requests[k].continuation.Some? ==>
                    requests[k].continuation.value.failed != failed
        decreases |todo|
      {
        var k :| k in todo;
        todo := todo - {k};
        if requests[k].continuation.Some? && requests[k].continuation.value.failed == failed { return true; }
      }
      return false;
    }

    /**
     `#continue` once its delay has run out, and the pause its caller records when it throws; `verified`
     is whether the page, inspected again, still shows the failure. It sends, finds the successor it sent
     before, pauses the chain or leaves everything as it is.
     */
    method Continue(failed: Ref, ref: Ref, now: int, verified: bool) returns (sent: bool)
      requires ref !in requests
      modifies this
      ensures sent <==> MayContinue(old(At(now)), failed) && verified
      ensures At(now) == Step(old(At(now)), Continued(failed, ref, verified))
    {
      if failed !in requests { return false; }
      var r := requests[failed];
      var attempt := 1;
      var root := failed;
      if r.continuation.Some? {
        attempt := r.continuation.value.attempt + 1;
        root := r.continuation.value.root;
      }
      if root in paused { return false; }
      if r.failedAt.None? || r.session !in sessions || sessions[r.session].current != r.generation { return false; }
      if failed !in configured || now >= sessions[r.session].deadline {
        paused := paused + {root};
        return false;
      }
      var backoff := BackoffOf(attempt);
      if now < r.failedAt.value + backoff { return false; }
      if !verified {
        paused := paused + {root};
        return false;
      }
      var found := FindSuccessor(failed);
      if found { return false; }
      var deadline := sessions[r.session].deadline;
      var generation := r.generation + 1;
      requests := requests[ref := Request(r.session, generation, now,
                                          Some(Continuation(root, failed, attempt, deadline)), None)];
      sessions := sessions[r.session := Session(generation, deadline)];
      return true;
    }
  }
}
