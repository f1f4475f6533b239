/**
 Which ended generations live again: exactly those that were never sent and whose failed preparation can
 still be reopened, or whose authorization can be repeated.
 */
module SubmissionRevival {
  import opened Wrappers
  import opened Storage
  import opened Submission
  import opened SubmissionInvariants
  import opened SubmissionTransactions
  import opened SubmissionRecovery
  import opened SubmissionMeaning
  import opened SubmissionRuns
  import opened SubmissionSafety
  import opened SubmissionTheorems
  import opened SubmissionFinality

  // ---------------------------------------------------------------- runs of one session

  /** The step waits for no other session's actor, creates and deletes nothing, and records no stop. */
  ghost predicate Joins(s: State, e: Event, sid: SessionId) {
    && !e.NewSession? && !e.EndRole? && !e.EndTeam? && !(e.Act? && e.op.Stop?)
    && (ActorOf(s, e).None? || ActorOf(s, e) == Some(sid))
  }

  ghost predicate Alone(s: State, run: seq<Event>, sid: SessionId)
    decreases |run|
  {
    run != [] ==> Joins(s, run[0], sid) && Alone(Step(s, run[0]), run[1..], sid)
  }

  /** The run makes the row's generation live, and leaves its session idle. */
  ghost predicate Revives(s: State, run: seq<Event>, oid: OutboxId) {
    && oid in s.db.outbox && Alone(s, run, s.db.outbox[oid].session)
    && Live(Exec(s, run).db, oid) && Idle(Exec(s, run), s.db.outbox[oid].session)
  }

  lemma {:induction false} AloneConcat(s: State, a: seq<Event>, b: seq<Event>, sid: SessionId)
    requires Alone(s, a, sid) && Alone(Exec(s, a), b, sid)
    ensures Alone(s, a + b, sid)
    decreases |a|
  {
    hide Step, Joins;
    if a == [] {
      assert a + b == b;
    } else {
      assert (a + b)[0] == a[0] && (a + b)[1..] == a[1..] + b;
      AloneConcat(Step(s, a[0]), a[1..], b, sid);
    }
  }

  lemma {:induction false} AloneSpares(s: State, run: seq<Event>, sid: SessionId)
    requires Alone(s, run, sid)
    ensures Spares(run, sid)
    decreases |run|
  {
    hide Step;
    if run != [] {
      AloneSpares(Step(s, run[0]), run[1..], sid);
      assert forall k :: 0 < k < |run| ==> run[k] == run[1..][k - 1];
    }
  }

  lemma AloneOne(s: State, a: Event, sid: SessionId)
    requires Joins(s, a, sid)
    ensures Alone(s, [a], sid) && Exec(s, [a]) == Step(s, a)
  {
    hide Step, Joins;
    assert Alone(Step(s, a), [], sid) && Exec(Step(s, a), []) == Step(s, a);
    assert [a][1..] == [];
  }

  lemma AloneThree(s: State, a: Event, b: Event, c: Event, sid: SessionId)
    requires Joins(s, a, sid) && Joins(Step(s, a), b, sid) && Joins(Step(Step(s, a), b), c, sid)
    ensures Alone(s, [a, b, c], sid)
  {
    hide Step, Joins;
    AloneOne(s, a, sid);
    AloneOne(Step(s, a), b, sid);
    AloneOne(Step(Step(s, a), b), c, sid);
    AloneConcat(Step(s, a), [b], [c], sid);
    AloneConcat(s, [a], [b] + [c], sid);
    assert [a] + ([b] + [c]) == [a, b, c];
  }

  // ---------------------------------------------------------------- an authorized successor, approved again

  /**
   Its authorization may be repeated: it failed and its session is ready, or it was retired and a
   resumption waits to replay it.
   */
  ghost predicate Waits(s: State, oid: OutboxId, key: Reservation) {
    && Inv(s) && oid in s.db.outbox && Idle(s, s.db.outbox[oid].session) && Reserved(s.db, oid, key)
    && var x := s.db.sessions[s.db.outbox[oid].session];
       if s.db.outbox[oid].state.FailedPreSubmit? then x.state.Ready? else Retired(x.state) && oid in s.waiting
  }

  /** A request of the current generation, never sent, reserved for an original that is still there. */
  ghost predicate Reserved(db: Db, oid: OutboxId, key: Reservation) {
    && oid in db.outbox && Current(db, oid) && !db.outbox[oid].prompt && MayBeApproved(db, oid)
    && db.outbox[oid].payload.authorized == Some(key) && key in db.reservations && db.reservations[key] == oid
    && key.original in db.outbox && db.outbox[key.original].session == db.outbox[oid].session
    && db.outbox[key.original].request.client == db.outbox[oid].request.client
  }

  /** It failed, and its session is ready. */
  ghost predicate Ripe(db: Db, oid: OutboxId, key: Reservation) {
    Reserved(db, oid, key) && db.outbox[oid].state.FailedPreSubmit? && db.sessions[db.outbox[oid].session].state.Ready?
  }

  lemma RipeRow(db: Db, oid: OutboxId, key: Reservation)
    requires Ripe(db, oid, key)
    ensures oid in db.outbox && db.outbox[oid].session in db.sessions && key.original in db.outbox
    ensures db.outbox[key.original].session == db.outbox[oid].session
    ensures db.outbox[key.original].request.client == db.outbox[oid].request.client
  {}

  lemma ReplayRipens(db: Db, oid: OutboxId, key: Reservation)
    requires Consistent(db) && Reserved(db, oid, key) && !db.outbox[oid].state.FailedPreSubmit?
    requires Retired(db.sessions[db.outbox[oid].session].state)
    ensures var r := Replay(db, oid);
            r.Some? && Ripe(r.value, oid, key) && r.value.outbox[oid].session == db.outbox[oid].session
  {
    hide Consistent;
    RowFacts(db, oid);
    if key.original != oid { DistinctRows(db, key.original, oid); }
  }

  lemma PageIsFound(db: Db, oid: OutboxId, key: Reservation)
    requires Consistent(db) && Ripe(db, oid, key)
    ensures var sid, r := db.outbox[oid].session,
            RecordPageState(db, db.outbox[oid].session, Some(0), Fresh, 0, None, false);
            && r.Some? && Ripe(r.value, oid, key) && r.value.outbox == db.outbox
            && sid in r.value.sessions && r.value.sessions[sid].page.Some?
  {
    hide Consistent;
    RowFacts(db, oid);
  }

  lemma ApprovalReopens(db: Db, oid: OutboxId, key: Reservation)
    requires Consistent(db) && Ripe(db, oid, key) && db.sessions[db.outbox[oid].session].page.Some?
    ensures key.original in db.outbox && key in db.reservations && MayApprove(db, key.original, key.route, false)
    ensures var r := ReopenSuccessor(db, key.original, key);
            r.Some? && Live(r.value, oid) && AwaitsDecision(r.value, oid)
  {
    hide Consistent;
    RowFacts(db, oid);
  }

  lemma ExecThree(s: State, a: Event, b: Event, c: Event)
    ensures Exec(s, [a, b, c]) == Step(Step(Step(s, a), b), c)
  {
    hide Step;
    ExecLast(s, [], a);
    ExecLast(s, [a], b);
    ExecLast(s, [a, b], c);
    assert [] + [a] == [a] && [a] + [b] == [a, b] && [a, b] + [c] == [a, b, c];
  }

  lemma Replays(s: State, oid: OutboxId, key: Reservation)
    requires Waits(s, oid, key) && !s.db.outbox[oid].state.FailedPreSubmit?
    ensures var t := Step(s, Replayed(oid));
            && Inv(t) && Ripe(t.db, oid, key) && t.used == s.used && Joins(s, Replayed(oid), s.db.outbox[oid].session)
            && oid in t.db.outbox && t.waiting == s.waiting - {oid}
            && t.db.outbox[oid].session == s.db.outbox[oid].session && Idle(t, s.db.outbox[oid].session)
            && t.db.outbox[oid].request == s.db.outbox[oid].request
  {
    hide Inv, Reserved, Ripe, Replay;
    InvIsConsistent(s);
    ReservedRow(s.db, oid, key);
    ReplayRipens(s.db, oid, key);
    RipeRow(Step(s, Replayed(oid)).db, oid, key);
    StepKeepsInv(s, Replayed(oid));
    SameRequest(s, Replayed(oid), oid);
  }

  lemma ReservedRow(db: Db, oid: OutboxId, key: Reservation)
    requires Reserved(db, oid, key)
    ensures oid in db.outbox && db.outbox[oid].session in db.sessions
  {}

  lemma SameRequest(s: State, e: Event, oid: OutboxId)
    requires Inv(s) && Moves(s, Step(s, e)) && oid in s.db.outbox && oid in Step(s, e).db.outbox
    ensures Step(s, e).db.outbox[oid].request == s.db.outbox[oid].request
  {
    hide Step, Consistent, Covered, FlowsFit, CallsFit, ReservationsFit, PhaseFits;
    assert RowMoves(s.db.outbox[oid], Step(s, e).db.outbox[oid]);
  }

  lemma FindsPage(s: State, oid: OutboxId, key: Reservation)
    requires Inv(s) && Ripe(s.db, oid, key) && oid in s.db.outbox && Idle(s, s.db.outbox[oid].session)
    ensures var sid := s.db.outbox[oid].session;
            var t := Step(s, Act(PageState(sid, Some(0), Fresh, 0, None, false)));
            && Inv(t) && Ripe(t.db, oid, key) && t.db.outbox == s.db.outbox && t.used == s.used && Idle(t, sid)
            && sid in t.db.sessions && t.db.sessions[sid].page.Some?
  {
    hide Inv, Ripe, RecordPageState, Step;
    ActsWhenIdle(s, PageState(s.db.outbox[oid].session, Some(0), Fresh, 0, None, false));
    StepKeepsInv(s, Act(PageState(s.db.outbox[oid].session, Some(0), Fresh, 0, None, false)));
    InvIsConsistent(s);
    PageIsFound(s.db, oid, key);
  }

  lemma Approves(s: State, oid: OutboxId, key: Reservation, newId: OutboxId)
    requires Inv(s) && Ripe(s.db, oid, key) && oid in s.db.outbox && Idle(s, s.db.outbox[oid].session)
             && newId !in s.used
    requires s.db.outbox[oid].session in s.db.sessions && s.db.sessions[s.db.outbox[oid].session].page.Some?
    ensures var sid := s.db.outbox[oid].session;
            var t := Step(Step(s, Reauthorizing(s.db, oid, key)), Approved(sid, newId));
            Live(t.db, oid) && AwaitsDecision(t.db, oid) && Idle(t, sid)
  {
    hide Inv, Ripe, Live, AwaitsDecision, ReopenSuccessor, Step;
    InvIsConsistent(s);
    RipeRow(s.db, oid, key);
    ApprovalReopens(s.db, oid, key);
    var sid := s.db.outbox[oid].session;
    BeginsApproval(s, oid, key);
    ApprovesReserved(Step(s, Reauthorizing(s.db, oid, key)), sid, oid, key, newId);
  }

  lemma BeginsApproval(s: State, oid: OutboxId, key: Reservation)
    requires oid in s.db.outbox && Idle(s, s.db.outbox[oid].session) && key.original in s.db.outbox
    requires MayApprove(s.db, key.original, key.route, false)
             && s.db.outbox[key.original].session == s.db.outbox[oid].session
    requires s.db.outbox[key.original].request.client == s.db.outbox[oid].request.client
    ensures var request := Request(s.db.outbox[oid].request.client, 0);
            Step(s, Reauthorizing(s.db, oid, key))
            == s.(flows := s.flows[s.db.outbox[oid].session := Approving(key.original, key.route, request, 0, false)])
  {
    hide MayApprove;
  }

  lemma ApprovesReserved(s: State, sid: SessionId, oid: OutboxId, key: Reservation, newId: OutboxId)
    requires At(s, sid) && key.original in s.db.outbox && key in s.db.reservations && newId !in s.used
    requires s.flows[sid].Approving? && s.flows[sid].oid == key.original && s.flows[sid].route == key.route
    requires s.db.outbox[key.original].session == sid
             && s.db.outbox[key.original].request.client == s.flows[sid].request.client
    requires ReopenSuccessor(s.db, key.original, key).Some?
    ensures var t := Step(s, Approved(sid, newId));
            && t.db == ReopenSuccessor(s.db, key.original, key).value && Idle(t, sid) && t.phase == s.phase
            && t.turn.None?
            && t.waiting == s.waiting && t.used == s.used + {newId} && t.flows == s.flows - {sid}
  {
    hide ReopenSuccessor;
  }

  function Reauthorizing(db: Db, oid: OutboxId, key: Reservation): Event
    requires oid in db.outbox
  {
    AuthorizeSuccessor(key.original, key.route, Request(db.outbox[oid].request.client, 0), 0, false)
  }

  /** What its caller does: the page is found again and the authorization repeated. */
  function Reapproving(db: Db, oid: OutboxId, key: Reservation, newId: OutboxId): seq<Event>
    requires oid in db.outbox
  {
    [Act(PageState(db.outbox[oid].session, Some(0), Fresh, 0, None, false)), Reauthorizing(db, oid, key),
     Approved(db.outbox[oid].session, newId)]
  }

  lemma RipeRevives(s: State, oid: OutboxId, key: Reservation, newId: OutboxId)
    requires Inv(s) && Ripe(s.db, oid, key) && oid in s.db.outbox && Idle(s, s.db.outbox[oid].session)
             && newId !in s.used
    ensures Revives(s, Reapproving(s.db, oid, key, newId), oid)
    ensures AwaitsDecision(Exec(s, Reapproving(s.db, oid, key, newId)).db, oid)
  {
    hide Inv, Ripe, Step, Live, AwaitsDecision;
    RipeRow(s.db, oid, key);
    var r := Reapproving(s.db, oid, key, newId);
    FindsPage(s, oid, key);
    Approves(Step(s, r[0]), oid, key, newId);
    ExecThree(s, r[0], r[1], r[2]);
    AloneThree(s, r[0], r[1], r[2], s.db.outbox[oid].session);
  }

  /** The whole run: a retired request is replayed first. */
  function Reviving(db: Db, oid: OutboxId, key: Reservation, newId: OutboxId): seq<Event>
    requires oid in db.outbox
  {
    (if db.outbox[oid].state.FailedPreSubmit? then [] else [Replayed(oid)]) + Reapproving(db, oid, key, newId)
  }

  lemma SuccessorRevives(s: State, oid: OutboxId, key: Reservation, newId: OutboxId)
    requires Waits(s, oid, key) && newId !in s.used
    ensures oid in s.db.outbox && Revives(s, Reviving(s.db, oid, key, newId), oid)
    ensures AwaitsDecision(Exec(s, Reviving(s.db, oid, key, newId)).db, oid)
  {
    hide Inv, Ripe, Reserved, Step, Exec, Live, AwaitsDecision, Alone, Joins;
    var sid := s.db.outbox[oid].session;
    if s.db.outbox[oid].state.FailedPreSubmit? {
      WaitsRipe(s, oid, key);
      RipeRevives(s, oid, key, newId);
      assert Reviving(s.db, oid, key, newId) == Reapproving(s.db, oid, key, newId);
    } else {
      var t := Step(s, Replayed(oid));
      Replays(s, oid, key);
      RipeRevives(t, oid, key, newId);
      AloneOne(s, Replayed(oid), sid);
      AloneConcat(s, [Replayed(oid)], Reapproving(t.db, oid, key, newId), sid);
      ExecConcat(s, [Replayed(oid)], Reapproving(t.db, oid, key, newId));
    }
  }

  lemma WaitsRipe(s: State, oid: OutboxId, key: Reservation)
    requires Waits(s, oid, key) && s.db.outbox[oid].state.FailedPreSubmit?
    ensures Ripe(s.db, oid, key)
  {}

  lemma WaitsFor(s: State, oid: OutboxId, key: Reservation)
    requires Waits(s, oid, key)
    ensures oid in s.db.outbox
  {}

  lemma InvIsConsistent(s: State)
    requires Inv(s)
    ensures Consistent(s.db)
  {}

  lemma StartIsConsistent()
    ensures Inv(Start) && OriginalsFit(Start.db)
  {}

  // ---------------------------------------------------------------- nobody waits unless asked

  lemma {:induction false} NobodyWaits(s: State, run: seq<Event>)
    requires s.waiting == {} && forall e <- run :: !e.AskReplay?
    ensures Exec(s, run).waiting == {}
    decreases |run|
  {
    if run != [] {
      NobodyStartsWaiting(s, run[0]) by { assert run[0] in run; }
      NobodyWaits(Step(s, run[0]), run[1..]);
    }
  }

  lemma NobodyStartsWaiting(s: State, e: Event)
    requires s.waiting == {} && !e.AskReplay?
    ensures Step(s, e).waiting == {}
  {
    hide Perform, Replay, PrepareOutbox, PrepareSuccessor, FillComposer, PersistPage, AttemptSubmit,
      CompleteSubmitted, RecordUnknown, FailPreSubmit, RecordPreparationRequired, BeforeRefresh, AfterRefresh,
      CreateSession, RetireRole, DeleteTeam, RestoreRetired, AwaitsDecision, MayApprove, PreSubmitPass,
      DiagnosticsPass, SubmissionPass;
  }

  // ---------------------------------------------------------------- what a stop does not end

  lemma StopLeavesWaiting(s: State, oid: OutboxId)
    requires Inv(s) && OriginalsFit(s.db) && MayStop(s, oid) && !Ends(s, oid)
    ensures var t := Step(s, Stopping(s.db, oid));
            && Waits(t, oid, s.db.outbox[oid].payload.authorized.value) && t.used == s.used
            && t.db.outbox == s.db.outbox
            && t.waiting == s.waiting && t.flows == s.flows && t.phase == s.phase && t.turn == s.turn
  {
    hide Inv, OriginalsFit, Step, Reserved, CompleteStop;
    ActsWhenIdle(s, Stop(s.db.outbox[oid].session, s.db.outbox[oid].generation));
    StepKeepsInv(s, Stopping(s.db, oid));
    StopRetires(s, oid);
  }

  lemma StopRetires(s: State, oid: OutboxId)
    requires Inv(s) && OriginalsFit(s.db) && MayStop(s, oid) && !Ends(s, oid)
    ensures var sid := s.db.outbox[oid].session;
            var r := CompleteStop(s.db, sid, s.db.outbox[oid].generation);
            && r.Some? && r.value.outbox == s.db.outbox && sid in r.value.sessions
            && Retired(r.value.sessions[sid].state)
            && Reserved(r.value, oid, s.db.outbox[oid].payload.authorized.value)
  {
    hide Consistent, Covered, FlowsFit, CallsFit, PhaseFits;
    RowFacts(s.db, oid);
    assert AuthorizationFits(s, oid) && OriginalFits(s.db, oid);
  }

  /**
   Exactly when a stopped generation can become live again while its team exists: it is an authorized
   successor, neither sent nor failed, its session still has its role and a page that can be found, and a
   resumption waits behind the stop.
   */
  lemma {:induction false} StoppedLivesAgainExactlyWhenReplayWaits(run: seq<Event>, oid: OutboxId, newId: OutboxId)
    requires var s := Exec(Start, run); MayStop(s, oid) && newId !in s.used
    ensures var s := Exec(Start, run);
            var row := s.db.outbox[oid];
            (exists more: seq<Event> ::
               Spares(more, row.session) && Live(Exec(Step(s, Stopping(s.db, oid)), more).db, oid))
            <==> !row.prompt && !row.state.FailedPreSubmit? && MayBeApproved(s.db, oid) && oid in s.waiting
  {
    hide Inv, OriginalsFit, Step, Live, Spares, Waits, Revives;
    var s := Exec(Start, run);
    var stopped := Step(s, Stopping(s.db, oid));
    Reachable(run);
    if Ends(s, oid) {
      forall more: seq<Event> | Spares(more, s.db.outbox[oid].session)
        ensures !Live(Exec(stopped, more).db, oid)
      {
        StopIsFinal(run, more, oid);
      }
    } else {
      var key := s.db.outbox[oid].payload.authorized.value;
      StartIsConsistent();
      OriginalsReach(Start, run);
      StopLeavesWaiting(s, oid);
      SuccessorRevives(stopped, oid, key, newId);
      var more := Reviving(stopped.db, oid, key, newId);
      RevivalSpares(stopped, more, oid);
      assert Spares(more, s.db.outbox[oid].session) && Live(Exec(stopped, more).db, oid);
    }
  }

  // ---------------------------------------------------------------- which ended generations live again

  /**
   The generation has ended unsent, and something may make it live again: its failed preparation may be
   reopened, or its authorization repeated.
   */
  ghost predicate Revivable(s: State, oid: OutboxId) {
    && oid in s.db.outbox && Current(s.db, oid) && Terminal(s.db, s.db.outbox[oid].session) && !s.db.outbox[oid].prompt
    && if s.db.outbox[oid].state.FailedPreSubmit? then
         s.db.sessions[s.db.outbox[oid].session].state.Ready? && (MayReopen(s.db, oid) || MayBeApproved(s.db, oid))
       else MayBeApproved(s.db, oid) && oid in s.waiting
  }

  lemma EndedIsFinished(s: State, oid: OutboxId)
    requires Inv(s) && MayStop(s, oid) && Terminal(s.db, s.db.outbox[oid].session)
    requires !Revivable(s, oid) && TellsNoDuplicate(s.db.outbox[oid]) && Explained(s.db, s.db.outbox[oid].session)
    ensures Finished(s, oid, false)
  {
    hide Consistent, Covered, FlowsFit, CallsFit, ReservationsFit, PhaseFits;
    RowFacts(s.db, oid);
  }

  /** The other way round, what is finished is neither live nor revivable. */
  lemma FinishedIsEnded(s: State, oid: OutboxId)
    requires Inv(s) && Finished(s, oid, false) && Current(s.db, oid)
    ensures Terminal(s.db, s.db.outbox[oid].session) && !Revivable(s, oid)
  {
    hide Consistent, Covered, FlowsFit, CallsFit, ReservationsFit, PhaseFits;
    RowFacts(s.db, oid);
  }

  lemma BrowserFailureReopens(db: Db, oid: OutboxId)
    requires Consistent(db) && oid in db.outbox && Current(db, oid) && !db.outbox[oid].prompt
    requires db.outbox[oid].state.FailedPreSubmit? && db.sessions[db.outbox[oid].session].state.Ready?
             && db.outbox[oid].error == Some(BrowserUnavailable) && MayReopen(db, oid)
    ensures var sid := db.outbox[oid].session;
            var r := RecordPageState(db, sid, Some(0), Fresh, 0, None, false);
            && r.Some? && oid in r.value.outbox && r.value.outbox[oid].session == sid
            && var q := InspectPreparation(r.value, oid, true); q.Some? && Live(q.value, oid)
  {
    hide Consistent;
    RowFacts(db, oid);
  }

  /** The page is found again, and the preparation inspected. */
  function Inspecting(oid: OutboxId, sid: SessionId): seq<Event> {
    [Act(PageState(sid, Some(0), Fresh, 0, None, false)), Act(Inspect(oid, true))]
  }

  lemma FindsFailed(s: State, oid: OutboxId)
    requires Inv(s) && MayStop(s, oid) && !s.db.outbox[oid].prompt && s.db.outbox[oid].state.FailedPreSubmit?
    requires s.db.sessions[s.db.outbox[oid].session].state.Ready?
             && s.db.outbox[oid].error == Some(BrowserUnavailable) && MayReopen(s.db, oid)
    ensures var sid := s.db.outbox[oid].session;
            var t := Step(s, Act(PageState(sid, Some(0), Fresh, 0, None, false)));
            && oid in t.db.outbox && t.db.outbox[oid].session == sid && Idle(t, sid)
            && var q := InspectPreparation(t.db, oid, true); q.Some? && Live(q.value, oid)
  {
    hide Inv, Step, Live, InspectPreparation, RecordPageState, MayReopen;
    InvIsConsistent(s);
    BrowserFailureReopens(s.db, oid);
    ActsWhenIdle(s, PageState(s.db.outbox[oid].session, Some(0), Fresh, 0, None, false));
  }

  lemma RevivesFailed(s: State, oid: OutboxId)
    requires Inv(s) && MayStop(s, oid) && !s.db.outbox[oid].prompt && s.db.outbox[oid].state.FailedPreSubmit?
    requires s.db.sessions[s.db.outbox[oid].session].state.Ready?
             && s.db.outbox[oid].error == Some(BrowserUnavailable) && MayReopen(s.db, oid)
    ensures Revives(s, Inspecting(oid, s.db.outbox[oid].session), oid)
  {
    hide Inv, Step, Live, InspectPreparation, MayReopen, Alone, Joins, Exec, Current;
    var sid := s.db.outbox[oid].session;
    var r := Inspecting(oid, sid);
    var t := Step(s, r[0]);
    FindsFailed(s, oid);
    ActsWhenIdle(t, Inspect(oid, true));
    ActsAlone(s, PageState(sid, Some(0), Fresh, 0, None, false), sid);
    ActsAlone(t, Inspect(oid, true), sid);
    AloneOne(s, r[0], sid);
    AloneOne(t, r[1], sid);
    AloneConcat(s, [r[0]], [r[1]], sid);
    ExecConcat(s, [r[0]], [r[1]]);
    assert r == [r[0]] + [r[1]];
  }

  lemma ActsAlone(s: State, op: Operation, sid: SessionId)
    requires Target(s.db, op) == Some(sid) && !op.Stop?
    ensures Joins(s, Act(op), sid)
  {}

  lemma AuthorizedWaits(s: State, oid: OutboxId)
    requires Inv(s) && OriginalsFit(s.db) && MayStop(s, oid) && Revivable(s, oid) && MayBeApproved(s.db, oid)
    ensures Waits(s, oid, s.db.outbox[oid].payload.authorized.value)
  {
    hide Consistent, Covered, FlowsFit, CallsFit, PhaseFits;
    RowFacts(s.db, oid);
    assert AuthorizationFits(s, oid) && OriginalFits(s.db, oid);
  }

  // ---------------------------------------------------------------- reconciled duplicates

  /** Reconciled, reloaded and reopened: the failed preparation of a page that could not be told from a duplicate. */
  function Reloading(oid: OutboxId, sid: SessionId, reconcile: bool): seq<Event> {
    [Act(PageState(sid, Some(0), Fresh, 0, None, reconcile)), BeginRefresh(oid, false), EndRefresh(sid)]
  }

  /** A reload would reopen the failed preparation: the duplicates of its page were reconciled. */
  ghost predicate Reconciled(db: Db, oid: OutboxId) {
    && oid in db.outbox && Current(db, oid) && Reopenable(db, oid) && DuplicateRecovered(db, oid)
    && db.sessions[db.outbox[oid].session].page.Some?
  }

  lemma DuplicatesReconcile(db: Db, oid: OutboxId)
    requires Consistent(db) && oid in db.outbox && Current(db, oid) && !db.outbox[oid].prompt
    requires db.outbox[oid].state.FailedPreSubmit? && db.sessions[db.outbox[oid].session].state.Ready?
    requires db.outbox[oid].error == Some(PageIdentityUnverified) && MayReopen(db, oid)
    ensures var sid := db.outbox[oid].session;
            var r := RecordPageState(db, sid, Some(0), Fresh, 0, None, Comparable(db, sid));
            r.Some? && Reconciled(r.value, oid) && r.value.outbox[oid].session == sid
  {
    hide Consistent;
    RowFacts(db, oid);
  }

  lemma ReconciledReopens(db: Db, oid: OutboxId)
    requires Consistent(db) && Reconciled(db, oid)
    ensures RefreshMayReopen(db, oid, false) && BeforeRefresh(db, oid) == Some(db)
    ensures var r := AfterRefresh(db, oid, true, true); r.Some? && Live(r.value, oid)
  {
    hide Consistent;
    RowFacts(db, oid);
  }

  lemma BeginsRefresh(s: State, oid: OutboxId)
    requires oid in s.db.outbox && Idle(s, s.db.outbox[oid].session) && Reconciled(s.db, oid)
    requires RefreshMayReopen(s.db, oid, false) && BeforeRefresh(s.db, oid) == Some(s.db)
    ensures Step(s, BeginRefresh(oid, false))
            == s.(flows := s.flows[s.db.outbox[oid].session := Refreshing(oid, true, true)])
  {
    hide BeforeRefresh, RefreshMayReopen;
  }

  lemma EndsRefresh(s: State, sid: SessionId, oid: OutboxId)
    requires At(s, sid) && s.flows[sid] == Refreshing(oid, true, true) && oid in s.db.outbox
    ensures var t := Step(s, EndRefresh(sid)); t.db == AfterRefresh(s.db, oid, true, true).Or(s.db) && Idle(t, sid)
  {
    hide AfterRefresh;
  }

  lemma ReconcilesDuplicates(s: State, oid: OutboxId)
    requires Inv(s) && MayStop(s, oid) && !s.db.outbox[oid].prompt && s.db.outbox[oid].state.FailedPreSubmit?
    requires s.db.sessions[s.db.outbox[oid].session].state.Ready?
    requires s.db.outbox[oid].error == Some(PageIdentityUnverified) && MayReopen(s.db, oid)
    ensures var sid := s.db.outbox[oid].session;
            var t := Step(s, Act(PageState(sid, Some(0), Fresh, 0, None, Comparable(s.db, sid))));
            Inv(t) && Reconciled(t.db, oid) && oid in t.db.outbox && t.db.outbox[oid].session == sid && Idle(t, sid)
  {
    hide Inv, Step, Reconciled, RecordPageState;
    var sid := s.db.outbox[oid].session;
    var op := PageState(sid, Some(0), Fresh, 0, None, Comparable(s.db, sid));
    InvIsConsistent(s);
    DuplicatesReconcile(s.db, oid);
    ActsWhenIdle(s, op);
    StepKeepsInv(s, Act(op));
    ReconciledRow(Step(s, Act(op)).db, oid);
  }

  lemma ReloadReopens(s: State, oid: OutboxId)
    requires Inv(s) && oid in s.db.outbox && Idle(s, s.db.outbox[oid].session) && Reconciled(s.db, oid)
    ensures var t := Step(Step(s, BeginRefresh(oid, false)), EndRefresh(s.db.outbox[oid].session));
            Live(t.db, oid) && Idle(t, s.db.outbox[oid].session)
  {
    hide Inv, Step, Live, Reconciled, AfterRefresh, BeforeRefresh, RefreshMayReopen;
    InvIsConsistent(s);
    ReconciledReopens(s.db, oid);
    BeginsRefresh(s, oid);
    EndsRefresh(Step(s, BeginRefresh(oid, false)), s.db.outbox[oid].session, oid);
  }

  lemma RevivesDuplicate(s: State, oid: OutboxId)
    requires Inv(s) && MayStop(s, oid) && !s.db.outbox[oid].prompt && s.db.outbox[oid].state.FailedPreSubmit?
    requires s.db.sessions[s.db.outbox[oid].session].state.Ready?
    requires s.db.outbox[oid].error == Some(PageIdentityUnverified) && MayReopen(s.db, oid)
    ensures var sid := s.db.outbox[oid].session; Revives(s, Reloading(oid, sid, Comparable(s.db, sid)), oid)
  {
    hide Inv, Step, Live, Exec, Reconciled, MayReopen, Alone;
    var sid := s.db.outbox[oid].session;
    var r := Reloading(oid, sid, Comparable(s.db, sid));
    ReconcilesDuplicates(s, oid);
    ReloadReopens(Step(s, r[0]), oid);
    ExecThree(s, r[0], r[1], r[2]);
    AloneThree(s, r[0], r[1], r[2], sid);
  }

  lemma ReconciledRow(db: Db, oid: OutboxId)
    requires Reconciled(db, oid)
    ensures oid in db.outbox
  {}

  // ---------------------------------------------------------------- what holds of failed and of retired sessions

  /** A retired session whose prompt was sent has completed its generation, or startup does not observe it again. */
  ghost predicate Explained(db: Db, sid: SessionId)
    requires sid in db.sessions
  {
    var g := CurrentGeneration(db, sid);
    Retired(db.sessions[sid].state) && g.Some? && g.value.prompt ==> g.value.completed || Dismissed(db, sid)
  }

  ghost predicate Settled(db: Db) {
    && (forall oid <- db.outbox :: TellsNoDuplicate(db.outbox[oid]))
    && (forall sid <- db.sessions :: Explained(db, sid))
  }

  ghost predicate StaysSettled(r: Option<Db>) { r.Some? ==> Settled(r.value) }

  lemma SettledRow(db: Db, oid: OutboxId)
    requires Settled(db) && oid in db.outbox
    ensures TellsNoDuplicate(db.outbox[oid])
    ensures db.outbox[oid].session in db.sessions ==> Explained(db, db.outbox[oid].session)
  {}

  /** An update retires a session only with its generation completed, and marks no retired one as sent. */
  ghost predicate Explains(db: Db, sid: SessionId, u: Update) {
    && (u.session.Some? && Retired(u.session.value) ==> u.completed)
    && (u.session.None? && u.prompt == Some(true) && sid in db.sessions ==>
          CurrentGeneration(db, sid).Some? && CurrentGeneration(db, sid).value.prompt)
  }

  lemma UpdateStaysSettled(db: Db, sid: SessionId, gen: nat, u: Update)
    requires Settled(db) && Explains(db, sid, u)
    ensures StaysSettled(UpdateCurrentGeneration(db, sid, gen, u))
  {
    var r := UpdateCurrentGeneration(db, sid, gen, u);
    if r.Some? {
      forall i | i in r.value.sessions ensures Explained(r.value, i) { assert Explained(db, i); }
    }
  }

  lemma TransitionStaysSettled(db: Db, o: OutboxId, expected: set<SubmissionState>, next: SubmissionState, f: Fields)
    requires Settled(db)
    requires next.FailedPreSubmit? ==>
               f.result.Some? && StoredReason(f.result.value) != Some(DuplicatePagePreparationRecovered)
    ensures StaysSettled(Transition(db, o, expected, next, f))
  {
    var r := Transition(db, o, expected, next, f);
    if r.Some? {
      forall i | i in r.value.sessions ensures Explained(r.value, i) { assert Explained(db, i); }
    }
  }

  lemma PairedStaysSettled(db: Db, o: OutboxId, u: Update, expected: set<SubmissionState>, next: SubmissionState,
                           f: Fields)
    requires Settled(db) && o in db.outbox && Explains(db, db.outbox[o].session, u)
    requires next.FailedPreSubmit? ==>
               f.result.Some? && StoredReason(f.result.value) != Some(DuplicatePagePreparationRecovered)
    ensures StaysSettled(Paired(db, o, u, expected, next, f))
  {
    hide UpdateCurrentGeneration, Transition, Settled, Explains;
    var row := db.outbox[o];
    UpdateStaysSettled(db, row.session, row.generation, u);
    var r := UpdateCurrentGeneration(db, row.session, row.generation, u);
    if r.Some? { TransitionStaysSettled(r.value, o, expected, next, f); }
  }

  lemma SnapshotStaysSettled(db: Db, o: OutboxId, u: Update, expected: set<SubmissionState>, next: SubmissionState,
                             error: Option<ErrorCode>, prompt: bool)
    requires Settled(db) && o in db.outbox && Explains(db, db.outbox[o].session, u)
    requires next.FailedPreSubmit? ==> u.reason.Some? && u.reason.value != Some(DuplicatePagePreparationRecovered)
    ensures StaysSettled(PairedWithSnapshot(db, o, u, expected, next, error, prompt))
  {
    hide Settled, Explains;
    var row := db.outbox[o];
    var r := UpdateCurrentGeneration(db, row.session, row.generation, u);
    if r.Some? {
      SnapshotTells(db, row.session, row.generation, u);
      PairedStaysSettled(db, o, u, expected, next,
                         Fields(Some(SnapshotOf(r.value, row.session)), Some(error), Some(prompt)));
    }
  }

  lemma SnapshotTells(db: Db, sid: SessionId, gen: nat, u: Update)
    requires UpdateCurrentGeneration(db, sid, gen, u).Some?
    ensures sid in UpdateCurrentGeneration(db, sid, gen, u).value.sessions
    ensures u.reason.Some? ==>
              StoredReason(SnapshotOf(UpdateCurrentGeneration(db, sid, gen, u).value, sid)) in {None, u.reason.value}
  {}

  /** All the writes of one request. */
  lemma WritesStaySettled(db: Db, o: OutboxId)
    requires Settled(db) && o in db.outbox
    ensures forall u: Update, expected, next: SubmissionState, f: Fields ::
            Explains(db, db.outbox[o].session, u) && (next.FailedPreSubmit? ==> f.result == Some(NoResult)) ==>
              StaysSettled(Paired(db, o, u, expected, next, f))
    ensures forall u: Update, expected, next: SubmissionState, e, p ::
              Explains(db, db.outbox[o].session, u) && (next.FailedPreSubmit? ==>
                  u.reason.Some? && u.reason.value != Some(DuplicatePagePreparationRecovered)) ==>
                StaysSettled(PairedWithSnapshot(db, o, u, expected, next, e, p))
    ensures forall expected, next: SubmissionState, f: Fields :: !next.FailedPreSubmit? ==>
              StaysSettled(Transition(db, o, expected, next, f))
    ensures StaysSettled(Some(db)) && StaysSettled(None)
  {
    hide Settled, Explains, Paired, PairedWithSnapshot, Transition;
    forall u: Update, expected, next: SubmissionState, f: Fields
      | Explains(db, db.outbox[o].session, u) && (next.FailedPreSubmit? ==> f.result == Some(NoResult))
      ensures StaysSettled(Paired(db, o, u, expected, next, f))
    {
      PairedStaysSettled(db, o, u, expected, next, f);
    }
    forall u: Update, expected, next: SubmissionState, e, p
      | Explains(db, db.outbox[o].session, u)
        && (next.FailedPreSubmit? ==> u.reason.Some? && u.reason.value != Some(DuplicatePagePreparationRecovered))
      ensures StaysSettled(PairedWithSnapshot(db, o, u, expected, next, e, p))
    {
      SnapshotStaysSettled(db, o, u, expected, next, e, p);
    }
    forall expected, next: SubmissionState, f: Fields | !next.FailedPreSubmit?
      ensures StaysSettled(Transition(db, o, expected, next, f))
    {
      TransitionStaysSettled(db, o, expected, next, f);
    }
  }

  lemma UnknownStaysSettled(db: Db, o: OutboxId, reason: Reason)
    requires Consistent(db) && Settled(db) && o in db.outbox
    ensures StaysSettled(RecordUnknown(db, o, reason))
  {
    hide Settled, PairedWithSnapshot, Consistent;
    RowFacts(db, o);
    if Current(db, o) { WritesStaySettled(db, o); } else { StaleIsRefused(db, o); }
  }

  lemma StaleIsRefused(db: Db, o: OutboxId)
    requires o in db.outbox && !Current(db, o)
    ensures forall u: Update, expected, next: SubmissionState, e, p ::
              PairedWithSnapshot(db, o, u, expected, next, e, p) == None
  {}

  lemma FailuresStaySettled(db: Db, o: OutboxId, error: ErrorCode)
    requires Consistent(db) && Settled(db) && o in db.outbox
    ensures StaysSettled(FailPreSubmit(db, o, error)) && StaysSettled(RecordInterrupted(db, o))
    ensures StaysSettled(TerminalizePreparation(db, o, error))
  {
    hide Settled, PairedWithSnapshot, Paired, Consistent, RecordUnknown;
    WritesStaySettled(db, o);
    UnknownStaysSettled(db, o, PreSubmitErrorAfterAttempt);
  }

  lemma PreparationsStaySettled(db: Db, o: OutboxId, page: PageKey, cooldown: bool)
    requires Settled(db) && o in db.outbox
    ensures StaysSettled(PersistPage(db, o, page)) && StaysSettled(FillComposer(db, o, page))
    ensures StaysSettled(AttemptSubmit(db, o, page)) && StaysSettled(RecordPreparationRequired(db, o, cooldown))
  {
    hide Settled, Paired, UpdateCurrentGeneration;
    WritesStaySettled(db, o);
    UpdateStaysSettled(db, db.outbox[o].session, db.outbox[o].generation, NoUpdate.(page := Some(Some(page))));
  }

  lemma AcknowledgementsStaySettled(db: Db, o: OutboxId, page: PageKey, ack: Acknowledgement)
    requires Settled(db) && o in db.outbox
    ensures StaysSettled(CompleteSubmitted(db, o, page, ack)) && StaysSettled(RecoverAcknowledgement(db, o, ack))
  {
    hide Settled, PairedWithSnapshot, MessageKnown;
    WritesStaySettled(db, o);
  }

  lemma DecisionsStaySettled(db: Db, o: OutboxId, recover: bool)
    requires Consistent(db) && Settled(db) && o in db.outbox
    ensures StaysSettled(RecordChoice(db, o)) && StaysSettled(CancelPreparation(db, o))
            && StaysSettled(InspectPreparation(db, o, recover))
    ensures StaysSettled(BeforeRefresh(db, o))
  {
    hide Settled, Paired, Transition, Consistent, AwaitsDecision, Reopenable, TerminalizePreparation;
    FailuresStaySettled(db, o, PreparationCancelled);
    WritesStaySettled(db, o);
  }

  lemma RefreshStaysSettled(db: Db, o: OutboxId, seen: bool, duplicate: bool)
    requires Settled(db) && o in db.outbox
    ensures StaysSettled(AfterRefresh(db, o, seen, duplicate))
  {
    hide Settled, Paired;
    WritesStaySettled(db, o);
  }

  lemma ReplayStaysSettled(db: Db, o: OutboxId)
    requires Consistent(db) && Settled(db) && o in db.outbox
    ensures StaysSettled(Replay(db, o))
  {
    hide Settled, Consistent, AwaitsDecision, RecordUnknown, FailPreSubmit;
    FailuresStaySettled(db, o, SubmissionUnknownError);
    UnknownStaysSettled(db, o, RestartAfterSubmitAttempt);
  }

  lemma PassesStaySettled(db: Db, o: OutboxId)
    requires Consistent(db) && Settled(db) && o in db.outbox
    ensures StaysSettled(PreSubmitPass(db, o)) && StaysSettled(SubmissionPass(db, o))
            && StaysSettled(DiagnosticsPass(db, o))
  {
    hide Settled, Consistent, AwaitsDecision, RecordUnknown, RecordInterrupted, Transition, UpdateCurrentGeneration;
    FailuresStaySettled(db, o, SubmissionUnknownError);
    UnknownStaysSettled(db, o, RestartInconsistent);
    UnknownStaysSettled(db, o, RestartAfterSubmitAttempt);
    WritesStaySettled(db, o);
    UpdatesStaySettled(db, db.outbox[o].session);
  }

  /** All the writes of a session's current generation. */
  lemma UpdatesStaySettled(db: Db, sid: SessionId)
    requires Settled(db)
    ensures forall gen, u :: Explains(db, sid, u) ==> StaysSettled(UpdateCurrentGeneration(db, sid, gen, u))
  {
    hide Settled, Explains, UpdateCurrentGeneration;
    forall gen, u | Explains(db, sid, u) ensures StaysSettled(UpdateCurrentGeneration(db, sid, gen, u)) {
      UpdateStaysSettled(db, sid, gen, u);
    }
  }

  lemma RowOperationStaysSettled(db: Db, op: Operation)
    requires Consistent(db) && Settled(db) && Target(db, op).Some?
    requires op.Choose? || op.Cancel? || op.Inspect? || op.Recover? || op.Continue? || op.Fail?
    ensures StaysSettled(Perform(db, op))
  {
    hide Settled, Consistent, RecordChoice, CancelPreparation, InspectPreparation, RecoverAcknowledgement,
      UpdateCurrentGeneration, Submission.Acknowledged;
    DecisionsStaySettled(db, op.oid, op.Inspect? && op.recoverBrowserFailure);
    if op.Recover? { AcknowledgementsStaySettled(db, op.oid, 0, op.ack); }
    UpdatesStaySettled(db, db.outbox[op.oid].session);
  }

  lemma SessionOperationStaysSettled(db: Db, op: Operation)
    requires Settled(db) && Target(db, op).Some?
    requires op.Follow? || op.Stop? || op.Watch? || op.PageState?
    ensures StaysSettled(Perform(db, op))
  {
    hide Settled, UpdateCurrentGeneration, Comparable;
    UpdatesStaySettled(db, op.sid);
  }

  lemma DismissalStaysSettled(db: Db, op: Operation)
    requires Settled(db) && (op.DeleteConversation? || op.StopTracking?)
    ensures StaysSettled(Perform(db, op))
  {
    var r := Perform(db, op);
    if r.Some? {
      forall i | i in r.value.sessions ensures Explained(r.value, i) { assert Explained(db, i); }
    }
  }

  lemma PerformStaysSettled(db: Db, op: Operation)
    requires Consistent(db) && Settled(db) && Target(db, op).Some?
    ensures StaysSettled(Perform(db, op))
  {
    hide Perform, Settled, Consistent;
    if op.DeleteConversation? || op.StopTracking? {
      DismissalStaysSettled(db, op);
    } else if op.Follow? || op.Stop? || op.Watch? || op.PageState? {
      SessionOperationStaysSettled(db, op);
    } else {
      RowOperationStaysSettled(db, op);
    }
  }

  lemma FlowStepStaysSettled(s: State, e: Event)
    requires Consistent(s.db) && Settled(s.db) && (OfFlow(e) || e.EndRefresh?) && Step(s, e) != s
    ensures Settled(Step(s, e).db)
  {
    hide Consistent, Settled, PersistPage, FillComposer, AttemptSubmit, RecordPreparationRequired, FailPreSubmit,
      CompleteSubmitted, RecordUnknown, AfterRefresh;
    var o := s.flows[e.sid].oid;
    if o in s.db.outbox {
      match e
      case PageOpened(_, page) => PreparationsStaySettled(s.db, o, page, false);
      case ComposerReady(_, page) => PreparationsStaySettled(s.db, o, page, false);
      case RecordAttempt(_, page) => PreparationsStaySettled(s.db, o, page, false);
      case PreparationPaused(_, cooldown) => PreparationsStaySettled(s.db, o, 0, cooldown);
      case PreparationFailed(_, error) => FailuresStaySettled(s.db, o, error);
      case Acknowledged(_, page, ack) =>
        AcknowledgementsStaySettled(s.db, o, page, ack);
        UnknownStaysSettled(s.db, o, SubmitUnacknowledged);
      case Ambiguous(_, reason) => UnknownStaysSettled(s.db, o, reason);
      case EndRefresh(_) => RefreshStaysSettled(s.db, o, s.flows[e.sid].seen, s.flows[e.sid].duplicate);
    }
  }

  lemma PreparedStaysSettled(db: Db, sid: SessionId, request: Request, newId: OutboxId, payload: Payload,
                             original: Option<OutboxId>)
    requires Settled(db)
    ensures StaysSettled(PrepareOutbox(db, sid, request, newId, payload, original))
  {
    hide AcceptsNewGeneration, CanAdvance;
    var r := PrepareOutbox(db, sid, request, newId, payload, original);
    if r.Some? {
      forall i | i in r.value.sessions ensures Explained(r.value, i) { assert i in db.sessions && Explained(db, i); }
    }
  }

  lemma SendStaysSettled(s: State, sid: SessionId, request: Request, newId: OutboxId, payload: Payload)
    requires Consistent(s.db) && Settled(s.db)
    ensures Settled(StepSend(s, sid, request, newId, payload).db)
  {
    hide Consistent, Settled, Replay, PrepareOutbox;
    var existing := Find(s.db, request);
    if existing.Some? { ReplayStaysSettled(s.db, existing.value); }
    PreparedStaysSettled(s.db, sid, request, newId, payload, None);
  }

  lemma SuccessorStaysSettled(db: Db, original: OutboxId, route: Route, request: Request, newId: OutboxId, hash: nat,
                              lost: bool)
    requires Settled(db) && original in db.outbox
    ensures StaysSettled(PrepareSuccessor(db, original, route, request, newId, hash, lost))
  {
    hide Settled, Paired, PrepareOutbox, UnsubmittedFailure, UnresolvedOriginal;
    var key := Reservation(original, route);
    if key in db.reservations {
      if db.reservations[key] in db.outbox { WritesStaySettled(db, db.reservations[key]); }
    } else {
      var payload := Payload(hash, None, Some(key));
      var sid := db.outbox[original].session;
      PreparedStaysSettled(db, sid, request, newId, payload, Some(original));
      var prepared := PrepareOutbox(db, sid, request, newId, payload, Some(original));
      if prepared.Some? {
        NewRowIsThere(db, sid, request, newId, payload, Some(original));
        WritesStaySettled(prepared.value, newId);
        forall d: Db, r | Settled(d) ensures Settled(d.(reservations := r)) { ReservationStaysSettled(d, r); }
      }
    }
  }

  lemma NewRowIsThere(db: Db, sid: SessionId, request: Request, newId: OutboxId, payload: Payload,
                      original: Option<OutboxId>)
    requires PrepareOutbox(db, sid, request, newId, payload, original).Some?
    ensures newId in PrepareOutbox(db, sid, request, newId, payload, original).value.outbox
  {}

  lemma ReservationStaysSettled(db: Db, reservations: map<Reservation, OutboxId>)
    requires Settled(db)
    ensures Settled(db.(reservations := reservations))
  {
    forall i | i in db.sessions ensures Explained(db.(reservations := reservations), i) { assert Explained(db, i); }
  }

  lemma ApprovalStaysSettled(s: State, sid: SessionId, newId: OutboxId)
    requires Settled(s.db)
    ensures Settled(Step(s, Approved(sid, newId)).db)
  {
    hide Settled, PrepareSuccessor;
    if At(s, sid) && s.flows[sid].Approving? && s.flows[sid].oid in s.db.outbox {
      var f := s.flows[sid];
      SuccessorStaysSettled(s.db, f.oid, f.route, f.request, newId, f.hash, f.lostContinuation);
    }
  }

  lemma RetirementStaysSettled(db: Db, sid: SessionId, state: SessionState)
    requires Settled(db) && sid in db.sessions
    ensures Settled(RetireUnsubmitted(db, sid, state))
  {
    forall i | i in db.sessions ensures Explained(RetireUnsubmitted(db, sid, state), i) { assert Explained(db, i); }
  }

  lemma RoutedStaysSettled(db: Db, routed: set<SessionId>, deletions: set<ConversationId>)
    requires Settled(db)
    ensures Settled(db.(routed := routed, deletions := deletions))
  {
    forall i | i in db.sessions
      ensures Explained(db.(routed := routed, deletions := deletions), i)
    {
      assert Explained(db, i);
    }
  }

  lemma CreatedStaysSettled(db: Db, sid: SessionId)
    requires Settled(db) && sid !in db.sessions
    ensures Settled(db.(sessions := db.sessions[sid := Session(Created, ProviderState.Unknown, Unavailable, 0, None,
            None)]))
  {
    var after := db.(sessions := db.sessions[sid := Session(Created, ProviderState.Unknown, Unavailable, 0, None,
        None)]);
    forall i | i in after.sessions ensures Explained(after, i) { assert i != sid ==> Explained(db, i); }
  }

  lemma RoutingStaysSettled(db: Db, sid: SessionId, predecessor: Option<SessionId>)
    requires Settled(db)
    ensures StaysSettled(CreateSession(db, sid, predecessor)) && StaysSettled(RetireRole(db, sid))
  {
    hide Settled, RetireUnsubmitted;
    if sid in db.sessions {
      RetirementStaysSettled(db, sid, Cancelled);
      RoutedStaysSettled(RetireUnsubmitted(db, sid, Cancelled), db.routed - {sid},
                         RetireUnsubmitted(db, sid, Cancelled).deletions);
    } else if CreateSession(db, sid, predecessor).Some? {
      CreationStaysSettled(db, sid, predecessor);
    }
  }

  lemma CreationStaysSettled(db: Db, sid: SessionId, predecessor: Option<SessionId>)
    requires Settled(db) && CreateSession(db, sid, predecessor).Some?
    ensures Settled(CreateSession(db, sid, predecessor).value)
  {
    hide Settled, RetireUnsubmitted;
    var retired := if predecessor.Some? then RetireUnsubmitted(db, predecessor.value, Superseded) else db;
    if predecessor.Some? {
      RetirementStaysSettled(db, predecessor.value, Superseded);
      RetirementAddsNoSession(db, predecessor.value, Superseded);
    }
    CreatedStaysSettled(retired, sid);
    var created := retired.(sessions := retired.sessions[sid := Session(Created, ProviderState.Unknown, Unavailable,
        0, None, None)]);
    RoutedStaysSettled(created, CreateSession(db, sid, predecessor).value.routed, created.deletions);
  }

  lemma RetirementAddsNoSession(db: Db, sid: SessionId, state: SessionState)
    requires sid in db.sessions
    ensures RetireUnsubmitted(db, sid, state).sessions.Keys == db.sessions.Keys
  {}

  lemma RestorationStaysSettled(db: Db, sid: SessionId)
    requires Settled(db)
    ensures StaysSettled(RestoreRetired(db, sid))
  {
    if sid in db.sessions { assert Explained(db, sid); }
  }

  lemma TeamStaysSettled(db: Db, team: set<SessionId>)
    requires Settled(db)
    ensures Settled(DeleteTeam(db, team))
  {
    forall i | i in DeleteTeam(db, team).sessions
      ensures Explained(DeleteTeam(db, team), i)
    {
      assert Explained(db, i);
    }
  }

  lemma StepStaysSettled(s: State, e: Event)
    requires Inv(s) && Settled(s.db)
    ensures Settled(Step(s, e).db)
  {
    hide Inv, Settled, StepSend, StepApproved, Perform, Replay, BeforeRefresh, PreSubmitPass, DiagnosticsPass,
      SubmissionPass, CreateSession, RetireRole, RestoreRetired, DeleteTeam, MayApprove;
    InvIsConsistent(s);
    if Step(s, e).db == s.db {
    } else if OfFlow(e) || e.EndRefresh? {
      FlowStepStaysSettled(s, e);
    } else {
      match e
      case NewSession(sid, predecessor) => RoutingStaysSettled(s.db, sid, predecessor);
      case EndRole(sid) => RoutingStaysSettled(s.db, sid, None);
      case RestoreSession(sid) => RestorationStaysSettled(s.db, sid);
      case DeletionAttempted(c) => RoutedStaysSettled(s.db, s.db.routed, s.db.deletions + {c});
      case EndTeam(team) => TeamStaysSettled(s.db, team);
      case Send(sid, request, newId, payload) => SendStaysSettled(s, sid, request, newId, payload);
      case Approved(sid, newId) => ApprovalStaysSettled(s, sid, newId);
      case Replayed(o) => ReplayStaysSettled(s.db, o);
      case BeginRefresh(o, crash) => DecisionsStaySettled(s.db, o, false);
      case Act(op) => PerformStaysSettled(s.db, op);
      case PassRow(o) => if o in s.db.outbox { PassesStaySettled(s.db, o); } else { NoRowNoPass(s.db, o); }
    }
  }

  lemma NoRowNoPass(db: Db, o: OutboxId)
    requires o !in db.outbox
    ensures PreSubmitPass(db, o).None? && DiagnosticsPass(db, o).None? && SubmissionPass(db, o).None?
  {}

  lemma {:induction false} RunStaysSettled(s: State, run: seq<Event>)
    requires Inv(s) && Settled(s.db)
    ensures Settled(Exec(s, run).db)
    decreases |run|
  {
    hide Inv, Settled, Step;
    if run != [] {
      StepKeepsInv(s, run[0]);
      StepStaysSettled(s, run[0]);
      RunStaysSettled(Step(s, run[0]), run[1..]);
    }
  }

  lemma StartIsSettled()
    ensures Settled(Start.db)
  {}

  // ---------------------------------------------------------------- the exact condition

  /** What may make an ended generation live again does so in some run. */
  lemma RevivableRevives(s: State, oid: OutboxId, newId: OutboxId)
    requires Inv(s) && OriginalsFit(s.db) && MayStop(s, oid) && Revivable(s, oid) && newId !in s.used
    ensures exists more: seq<Event> :: Revives(s, more, oid)
  {
    hide Inv, OriginalsFit, Revives, Waits;
    if MayBeApproved(s.db, oid) {
      AuthorizedWaits(s, oid);
      SuccessorRevives(s, oid, s.db.outbox[oid].payload.authorized.value, newId);
    } else if s.db.outbox[oid].error == Some(BrowserUnavailable) {
      RevivesFailed(s, oid);
    } else {
      RevivesDuplicate(s, oid);
    }
  }

  /** What neither lives nor is revivable is finished, and stays so. */
  lemma EndedStaysDead(s: State, more: seq<Event>, oid: OutboxId)
    requires Inv(s) && Settled(s.db) && MayStop(s, oid) && !Live(s.db, oid) && !Revivable(s, oid)
    requires Spares(more, s.db.outbox[oid].session)
    ensures !Live(Exec(s, more).db, oid)
  {
    hide Inv, Settled, Step, Spares, Revivable, Finished, Moves;
    SettledRow(s.db, oid);
    EndedIsFinished(s, oid);
    RunStaysFinished(s, more, oid, false);
    FinishedStaysDead(s, Exec(s, more), oid, false);
  }

  /**
   Exactly when the current generation of an idle session is live in some later run while its team exists:
   it is live now, or it has ended unsent in one of the ways that leave something to revive it. Then there
   is such a run that no other session takes part in, and that leaves the session idle.
   */
  lemma {:induction false} LivesExactlyWhenLiveOrRevivable(run: seq<Event>, oid: OutboxId, newId: OutboxId)
    requires var s := Exec(Start, run); MayStop(s, oid) && newId !in s.used
    ensures var s := Exec(Start, run);
            (exists more: seq<Event> :: Spares(more, s.db.outbox[oid].session) && Live(Exec(s, more).db, oid))
            <==> Live(s.db, oid) || Revivable(s, oid)
    ensures var s := Exec(Start, run);
            Live(s.db, oid) || Revivable(s, oid) ==> exists more: seq<Event> :: Revives(s, more, oid)
  {
    hide Inv, OriginalsFit, Settled, Exec, Step, Spares, Live, Revivable, MayStop, Revives;
    var s := Exec(Start, run);
    Reachable(run);
    StoppableRow(s, oid);
    if Live(s.db, oid) || Revivable(s, oid) {
      if Live(s.db, oid) {
        RevivesAtOnce(s, oid);
      } else {
        StartIsConsistent();
        OriginalsReach(Start, run);
        RevivableRevives(s, oid, newId);
      }
      var more: seq<Event> :| Revives(s, more, oid);
      RevivalSpares(s, more, oid);
    } else {
      StartIsSettled();
      StartIsConsistent();
      RunStaysSettled(Start, run);
      forall more: seq<Event> | Spares(more, s.db.outbox[oid].session)
        ensures !Live(Exec(s, more).db, oid)
      {
        EndedStaysDead(s, more, oid);
      }
    }
  }

  /** A sent prompt that has ended is never observed again. */
  lemma {:induction false} SentNeverLivesAgain(run: seq<Event>, more: seq<Event>, oid: OutboxId)
    requires var s := Exec(Start, run);
             && MayStop(s, oid) && s.db.outbox[oid].prompt && Terminal(s.db, s.db.outbox[oid].session)
             && Spares(more, s.db.outbox[oid].session)
    ensures !Live(Exec(Exec(Start, run), more).db, oid)
  {
    hide Inv, Settled, Exec, Step, Spares;
    Reachable(run);
    StartIsSettled();
    StartIsConsistent();
    RunStaysSettled(Start, run);
    EndedStaysDead(Exec(Start, run), more, oid);
  }

  /** In a store written by this service alone, startup finds no retired session to observe again. */
  lemma {:induction false} NothingToRestore(run: seq<Event>, sid: SessionId)
    ensures RestoreRetired(Exec(Start, run).db, sid).None?
  {
    hide Inv, Exec, Step;
    var db := Exec(Start, run).db;
    Reachable(run);
    StartIsSettled();
    StartIsConsistent();
    RunStaysSettled(Start, run);
    if sid in db.sessions { assert Explained(db, sid); }
  }

  lemma StoppableRow(s: State, oid: OutboxId)
    requires MayStop(s, oid)
    ensures oid in s.db.outbox
  {}

  lemma RevivesAtOnce(s: State, oid: OutboxId)
    requires MayStop(s, oid) && Live(s.db, oid)
    ensures Revives(s, [], oid)
  {
    assert Exec(s, []) == s;
  }

  lemma RevivalSpares(s: State, more: seq<Event>, oid: OutboxId)
    requires Revives(s, more, oid)
    ensures oid in s.db.outbox && Spares(more, s.db.outbox[oid].session) && Live(Exec(s, more).db, oid)
  {
    hide Step, Live;
    AloneSpares(s, more, s.db.outbox[oid].session);
  }
}
