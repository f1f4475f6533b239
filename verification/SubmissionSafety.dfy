/**
 What holds at every moment of every run, crashes included.
 */
module SubmissionSafety {
  import opened Wrappers
  import opened Storage
  import opened Submission
  import opened SubmissionInvariants
  import opened SubmissionTransactions
  import opened SubmissionRecovery
  import opened SubmissionRuns

  // ---------------------------------------------------------------- the invariant

  /** The operation in progress and its durable row are at the same stage. */
  ghost predicate StageFits(s: State, sid: SessionId, f: Flow) {
    && (f.oid in s.db.outbox ==>
          var row := s.db.outbox[f.oid];
          && row.session == sid
          && (f.Opening? || f.Preparing? ==> row.state.Prepared?)
          && (f.Filled? ==> row.state.ComposerFilled?)
          && (f.Attempted? || f.Dispatched? ==> row.state.SubmitAttempted?))
    && (f.Filled? || f.Attempted? ==> s.turn == Some(sid) && f.oid in s.db.outbox)
    && (f.Filled? || f.Attempted? ==> forall c <- s.calls :: c.oid != f.oid)
    && f.oid in s.used
  }

  ghost predicate FlowsFit(s: State) {
    && (forall sid <- s.flows :: StageFits(s, sid, s.flows[sid]))
    && (s.flows != map[] ==> s.phase.Running?)
    && (s.turn.Some? ==> s.turn.value in s.flows && (s.flows[s.turn.value].Filled? || s.flows[s.turn.value].Attempted?))
  }

  /** Every call was made for one row, which can no longer be taken back. */
  ghost predicate CallFits(s: State, c: Call) {
    && c.oid in s.used
    && (c.oid in s.db.outbox ==> s.db.outbox[c.oid].request == c.request && Irrevocable(s.db.outbox[c.oid].state))
  }

  ghost predicate CallsFit(s: State) {
    && (forall c <- s.calls :: CallFits(s, c))
    && (forall i, j :: 0 <= i < j < |s.calls| ==>
          s.calls[i].oid != s.calls[j].oid
              && (s.calls[i].request == s.calls[j].request ==> s.calls[i].oid !in s.db.outbox))
  }

  ghost predicate ReservationFits(s: State, k: Reservation)
    requires k in s.db.reservations
  {
    && k.original in s.used && s.db.reservations[k] in s.used
    && (k.original in s.db.outbox ==>
          var row := s.db.outbox[k.original];
          row.session in s.db.sessions && s.db.sessions[row.session].current > row.generation)
  }

  ghost predicate AuthorizationFits(s: State, oid: OutboxId)
    requires oid in s.db.outbox
  {
    var a := s.db.outbox[oid].payload.authorized;
    a.Some? ==> a.value in s.db.reservations && s.db.reservations[a.value] == oid
  }

  ghost predicate ReservationsFit(s: State) {
    && (forall k <- s.db.reservations :: ReservationFits(s, k))
    && (forall j, k :: j in s.db.reservations && k in s.db.reservations && j.original == k.original ==> j == k)
    && (forall oid <- s.db.outbox :: AuthorizationFits(s, oid))
  }

  /** How far startup has come. */
  ghost predicate PhaseFits(s: State) {
    match s.phase
    case Restoring => true
    case PreSubmit(todo) => todo <= s.db.outbox.Keys && AllPreSubmitDone(s.db, todo)
    case Diagnostics(todo) => todo <= s.db.outbox.Keys && AllPreSubmitDone(s.db, {}) && AllDiagnosticsDone(s.db, todo)
    case Interrupted(todo) =>
      todo <= s.db.outbox.Keys && AllPreSubmitDone(s.db, {}) && AllDiagnosticsDone(s.db, {})
          && AllSubmissionDone(s.db, todo)
    case Running => true
  }

  ghost predicate Inv(s: State) {
    Consistent(s.db) && Covered(s.db) && s.db.outbox.Keys <= s.used && FlowsFit(s) && CallsFit(s)
        && ReservationsFit(s) && PhaseFits(s)
  }

  /** What a row may become: the same request, and never back from an attempt. */
  ghost predicate RowMoves(row: Outbox, after: Outbox) {
    && after.request == row.request && after.session == row.session
    && after.generation == row.generation && after.payload == row.payload
    && (Irrevocable(row.state) ==> Irrevocable(after.state))
    && (row.state == SubmissionState.Submitted ==> after.state == SubmissionState.Submitted)
  }

  lemma MovesThenMoves(a: State, b: State, c: State)
    requires Moves(a, b) && Moves(b, c)
    ensures Moves(a, c)
  {}

  /**
   What time does to the history: identifiers, calls and reservations are never withdrawn, and a deleted row stays
   deleted.
   */
  ghost predicate Moves(s: State, after: State) {
    && s.used <= after.used && s.calls <= after.calls
    && (forall oid <- after.db.outbox :: oid in s.used ==>
        oid in s.db.outbox && RowMoves(s.db.outbox[oid], after.db.outbox[oid]))
    && (forall k <- s.db.reservations :: k in after.db.reservations && after.db.reservations[k] == s.db.reservations[k])
  }

  ghost predicate KeepsRows(s: State, after: State) { s.db.outbox.Keys <= after.db.outbox.Keys }

  ghost predicate Next(s: State, after: State) {
    Inv(after) && Moves(s, after) && KeepsRows(s, after)
  }

  lemma NoMove(s: State)
    requires Inv(s)
    ensures Next(s, s)
  {}

  // ---------------------------------------------------------------- writing one session's rows

  /** The tables changed as one session's transaction changes them; nothing else in the state did. */
  ghost predicate Wrote1(s: State, after: State, sid: SessionId) {
    && Consistent(after.db) && Advances(s.db, after.db, sid)
    && after.calls == s.calls && after.used == s.used
  }

  lemma UnchangedWrites(s: State, sid: SessionId)
    requires Inv(s)
    ensures Wrote1(s, s, sid)
  {}

  lemma CallsKept(s: State, after: State, sid: SessionId)
    requires Inv(s) && Wrote1(s, after, sid)
    ensures CallsFit(after)
  {
    forall c | c in after.calls ensures CallFits(after, c) {
      assert CallFits(s, c);
      if c.oid in s.db.outbox { assert RowAdvances(s.db.outbox[c.oid], after.db.outbox[c.oid], sid); }
    }
  }

  lemma ReservationsKept(s: State, after: State, sid: SessionId)
    requires Inv(s) && Wrote1(s, after, sid)
    ensures ReservationsFit(after)
  {
    forall k | k in after.db.reservations ensures ReservationFits(after, k) {
      assert ReservationFits(s, k);
      if k.original in s.db.outbox { assert RowAdvances(s.db.outbox[k.original], after.db.outbox[k.original], sid); }
    }
    forall oid | oid in after.db.outbox ensures AuthorizationFits(after, oid) {
      assert AuthorizationFits(s, oid) && RowAdvances(s.db.outbox[oid], after.db.outbox[oid], sid);
    }
  }

  /** The flows of other sessions do not notice. */
  lemma OtherFlowsKept(s: State, after: State, sid: SessionId, other: SessionId)
    requires Inv(s) && Wrote1(s, after, sid) && other in s.flows && other != sid
    requires after.turn == s.turn || (s.turn.None? || s.turn == Some(sid))
    ensures StageFits(after, other, s.flows[other])
  {
    var f := s.flows[other];
    assert StageFits(s, other, f);
    if f.oid in s.db.outbox { assert RowAdvances(s.db.outbox[f.oid], after.db.outbox[f.oid], sid); }
  }

  /** A transaction of `sid` whose own flow, if it still has one, fits the new rows. */
  lemma WriteKeepsInv(s: State, after: State, sid: SessionId)
    requires Inv(s) && Wrote1(s, after, sid)
    requires s.phase.Running? && after.phase == s.phase && (s.turn.None? || s.turn == Some(sid))
    requires after.turn == None || after.turn == Some(sid)
    requires after.flows - {sid} == s.flows - {sid}
    requires sid in after.flows ==> StageFits(after, sid, after.flows[sid])
    requires after.turn.Some? ==> sid in after.flows && (after.flows[sid].Filled? || after.flows[sid].Attempted?)
    ensures Next(s, after)
  {
    CallsKept(s, after, sid);
    ReservationsKept(s, after, sid);
    CoveredKept(s.db, after.db, sid);
    WriteMoves(s, after, sid);
    forall other | other in after.flows ensures StageFits(after, other, after.flows[other]) {
      if other != sid {
        assert other in s.flows - {sid} && other in after.flows - {sid};
        assert (after.flows - {sid})[other] == (s.flows - {sid})[other];
        OtherFlowsKept(s, after, sid, other);
      }
    }
  }

  lemma WriteMoves(s: State, after: State, sid: SessionId)
    requires s.db.outbox.Keys <= s.used && Wrote1(s, after, sid)
    ensures Moves(s, after)
  {
    forall oid | oid in after.db.outbox ensures RowMoves(s.db.outbox[oid], after.db.outbox[oid]) {
      assert RowAdvances(s.db.outbox[oid], after.db.outbox[oid], sid);
    }
  }

  lemma EndedKeepsInv(s: State, sid: SessionId, r: Option<Db>)
    requires Inv(s) && At(s, sid) && Sound(s.db, r, sid)
    ensures Next(s, Ended(s, sid, r))
  {
    var after := Ended(s, sid, r);
    assert after.flows - {sid} == s.flows - {sid};
    UnchangedWrites(s, sid);
    WriteKeepsInv(s, after, sid);
  }

  // ---------------------------------------------------------------- idle operations

  lemma PerformSound(db: Db, op: Operation)
    requires Consistent(db) && Target(db, op).Some?
    ensures Sound(db, Perform(db, op), Target(db, op).value)
  {
    hide Consistent, RecordChoice, CancelPreparation, InspectPreparation, RecoverAcknowledgement, PrepareContinuation,
      ReconcileFailure, Replay, ReconcileFollowup, CompleteStop, Observe, RecordPageState, RetireDeleted,
      RetireObservation;
    match op
    case Choose(oid) => PreparationSound(db, oid);
    case Cancel(oid) => PreparationSound(db, oid);
    case Inspect(oid, b) => InspectPreparationSound(db, oid, b);
    case Recover(oid, ack) => RecoverAcknowledgementSound(db, oid, ack);
    case Continue(oid) => PrepareContinuationSound(db, oid);
    case Fail(oid, timeout) => ReconcileFailureSound(db, oid, timeout);
    case Follow(sid, tracking) => ReconcileFollowupSound(db, sid, tracking);
    case Stop(sid, gen) => CompleteStopSound(db, sid, gen);
    case Watch(sid, gen, o) => ObserveSound(db, sid, gen, o);
    case PageState(sid, page, transport, code, error, dup) =>
      RecordPageStateSound(db, sid, page, transport, code, error, dup);
    case DeleteConversation(sid, keepRole) => RetireDeletedSound(db, sid, keepRole);
    case StopTracking(sid) => TrackingSound(db, sid);
  }

  lemma IdleWriteKeepsInv(s: State, sid: SessionId, r: Option<Db>)
    requires Inv(s) && Idle(s, sid) && Sound(s.db, r, sid)
    ensures Next(s, Wrote(s, r))
  {
    UnchangedWrites(s, sid);
    WriteKeepsInv(s, Wrote(s, r), sid);
  }

  /** A write to sessions, routing or receipts that leaves every request row alone. */
  lemma OutboxUntouchedKeepsInv(s: State, db: Db)
    requires Inv(s) && Consistent(db) && db.outbox == s.db.outbox && db.generations.Keys == s.db.generations.Keys
             && db.reservations == s.db.reservations
    requires s.db.sessions.Keys <= db.sessions.Keys && forall i <- s.db.sessions ::
             db.sessions[i].current == s.db.sessions[i].current
    requires s.phase.Running? || s.phase.Restoring?
    ensures Next(s, s.(db := db))
  {
    hide Consistent;
    var after := s.(db := db);
    forall k | k in db.generations ensures HasRow(db, k) { assert HasRow(s.db, k); }
    forall c | c in after.calls ensures CallFits(after, c) { assert CallFits(s, c); }
    forall k | k in db.reservations ensures ReservationFits(after, k) { assert ReservationFits(s, k); }
    forall oid | oid in db.outbox ensures AuthorizationFits(after, oid) { assert AuthorizationFits(s, oid); }
    forall sid | sid in after.flows
      ensures StageFits(after, sid, after.flows[sid])
    {
      assert StageFits(s, sid, s.flows[sid]);
    }
  }

  lemma NewSessionKeepsInv(s: State, sid: SessionId, predecessor: Option<SessionId>)
    requires Inv(s) && s.phase.Running? && CreateSession(s.db, sid, predecessor).Some?
    ensures Next(s, s.(db := CreateSession(s.db, sid, predecessor).value))
  {
    hide Next, Consistent, Covered, FlowsFit, CallsFit, ReservationsFit, PhaseFits;
    CreateSessionKeeps(s.db, sid, predecessor);
    OutboxUntouchedKeepsInv(s, CreateSession(s.db, sid, predecessor).value);
  }

  lemma EndRoleKeepsInv(s: State, sid: SessionId)
    requires Inv(s) && s.phase.Running? && RetireRole(s.db, sid).Some?
    ensures Next(s, s.(db := RetireRole(s.db, sid).value))
  {
    hide Next, Consistent, Covered, FlowsFit, CallsFit, ReservationsFit, PhaseFits;
    RetireRoleSound(s.db, sid);
    OutboxUntouchedKeepsInv(s, RetireRole(s.db, sid).value);
  }

  lemma DeletionAttemptedKeepsInv(s: State, deletions: set<ConversationId>)
    requires Inv(s) && s.phase.Running?
    ensures Next(s, s.(db := s.db.(deletions := deletions)))
  {
    hide Next, Consistent, Covered, FlowsFit, CallsFit, ReservationsFit, PhaseFits;
    DeletionIsIrrelevant(s.db, deletions);
    OutboxUntouchedKeepsInv(s, s.db.(deletions := deletions));
  }

  lemma RestoreSessionKeepsInv(s: State, sid: SessionId)
    requires Inv(s) && s.phase.Restoring? && RestoreRetired(s.db, sid).Some?
    ensures Next(s, s.(db := RestoreRetired(s.db, sid).value))
  {
    hide Next, Consistent, Covered, FlowsFit, CallsFit, ReservationsFit, PhaseFits;
    TrackingSound(s.db, sid);
    OutboxUntouchedKeepsInv(s, RestoreRetired(s.db, sid).value);
  }

  lemma RowHasSession(db: Db, oid: OutboxId)
    requires oid in db.outbox && RowOk(db, oid)
    ensures db.outbox[oid].session in db.sessions
  {}

  lemma EndTeamKeepsInv(s: State, team: set<SessionId>)
    requires Inv(s) && s.phase.Running? && s.turn.None?
    ensures Inv(s.(db := DeleteTeam(s.db, team))) && Moves(s, s.(db := DeleteTeam(s.db, team)))
  {
    hide Consistent, Covered, RowOk;
    DeleteTeamKeeps(s.db, team);
    DeleteTeamCovers(s.db, team);
    var after := s.(db := DeleteTeam(s.db, team));
    forall c | c in after.calls ensures CallFits(after, c) { assert CallFits(s, c); }
    forall k | k in after.db.reservations ensures ReservationFits(after, k) {
      assert ReservationFits(s, k);
      if k.original in after.db.outbox { RowFacts(after.db, k.original); RowHasSession(after.db, k.original); }
    }
    forall oid | oid in after.db.outbox ensures AuthorizationFits(after, oid) { assert AuthorizationFits(s, oid); }
    forall sid | sid in after.flows
      ensures StageFits(after, sid, after.flows[sid])
    {
      assert StageFits(s, sid, s.flows[sid]);
    }
  }

  // ---------------------------------------------------------------- new rows

  /** A new row with an identifier never drawn before. */
  lemma AddedKeepsInv(s: State, after: State, sid: SessionId, newId: OutboxId, request: Request, payload: Payload)
    requires Inv(s) && Idle(s, sid) && newId !in s.used && Consistent(after.db)
             && Adds(s.db, after.db, sid, newId, request, payload)
    requires after.calls == s.calls && after.used == s.used + {newId} && after.turn == s.turn && after.phase == s.phase
    requires after.flows == s.flows || after.flows == s.flows[sid := Opening(newId)]
    requires if payload.authorized.None? then after.db.reservations == s.db.reservations
             else Reserves(s.db, after.db, sid, newId, payload.authorized.value)
    ensures Next(s, after)
  {
    hide Consistent, Covered, CallsFit, FlowsFit, ReservationsFit;
    AddedCovers(s.db, after.db, sid, newId, request, payload);
    AddedKeepsCalls(s, after, sid, newId, request, payload);
    AddedKeepsFlows(s, after, sid, newId, request, payload);
    if payload.authorized.None? { AddedKeepsReservations(s, after, sid, newId, request, payload); }
    else { AddedReserves(s, after, sid, newId, request, payload, payload.authorized.value); }
  }

  /** The reservation is new for its original, whose generation has just been left. */
  ghost predicate Reserves(db: Db, after: Db, sid: SessionId, newId: OutboxId, k: Reservation) {
    && k.original in db.outbox && db.outbox[k.original].session == sid && sid in db.sessions
    && db.outbox[k.original].generation == db.sessions[sid].current
    && k !in db.reservations && after.reservations == db.reservations[k := newId]
  }

  lemma AddedKeepsCalls(s: State, after: State, sid: SessionId, newId: OutboxId, request: Request, payload: Payload)
    requires Inv(s) && newId !in s.used && Adds(s.db, after.db, sid, newId, request, payload)
    requires after.calls == s.calls && after.used == s.used + {newId}
    ensures CallsFit(after)
  {
    forall c | c in after.calls ensures CallFits(after, c) { assert CallFits(s, c); }
    forall i, j | 0 <= i < j < |after.calls|
      ensures after.calls[i].oid != after.calls[j].oid
              && (after.calls[i].request == after.calls[j].request ==> after.calls[i].oid !in after.db.outbox) {
      assert s.calls[i] in s.calls && CallFits(s, s.calls[i]);
    }
  }

  lemma AddedKeepsFlows(s: State, after: State, sid: SessionId, newId: OutboxId, request: Request, payload: Payload)
    requires Inv(s) && Idle(s, sid) && newId !in s.used && Adds(s.db, after.db, sid, newId, request, payload)
    requires after.calls == s.calls && after.used == s.used + {newId} && after.turn == s.turn && after.phase == s.phase
    requires after.flows == s.flows || after.flows == s.flows[sid := Opening(newId)]
    ensures FlowsFit(after)
  {
    forall i | i in after.flows ensures StageFits(after, i, after.flows[i]) {
      if i in s.flows && i != sid { assert StageFits(s, i, s.flows[i]); }
    }
  }

  lemma AddedKeepsReservations(s: State, after: State, sid: SessionId, newId: OutboxId, request: Request,
                               payload: Payload)
    requires Inv(s) && newId !in s.used && Adds(s.db, after.db, sid, newId, request, payload)
             && after.used == s.used + {newId}
    requires after.db.reservations == s.db.reservations && payload.authorized.None?
    ensures ReservationsFit(after)
  {
    forall k | k in after.db.reservations ensures ReservationFits(after, k) { assert ReservationFits(s, k); }
    forall oid | oid in after.db.outbox
      ensures AuthorizationFits(after, oid)
    {
      if oid in s.db.outbox { assert AuthorizationFits(s, oid); }
    }
  }

  lemma AddedReserves(s: State, after: State, sid: SessionId, newId: OutboxId, request: Request, payload: Payload,
                      k: Reservation)
    requires Inv(s) && newId !in s.used && Adds(s.db, after.db, sid, newId, request, payload)
             && after.used == s.used + {newId}
    requires Reserves(s.db, after.db, sid, newId, k) && payload.authorized == Some(k)
    ensures ReservationsFit(after)
  {
    hide Consistent, Covered, CallsFit, FlowsFit, StageFits;
    forall j | j in after.db.reservations
      ensures ReservationFits(after, j)
    {
      ReservedFits(s, after, sid, newId, request, payload, k, j);
    }
    forall j | j in s.db.reservations ensures j.original != k.original { assert ReservationFits(s, j); }
    forall oid | oid in after.db.outbox
      ensures AuthorizationFits(after, oid)
    {
      ReservedAuthorizes(s, after, sid, newId, request, payload, k, oid);
    }
  }

  lemma ReservedFits(s: State, after: State, sid: SessionId, newId: OutboxId, request: Request, payload: Payload,
                     k: Reservation, j: Reservation)
    requires s.db.outbox.Keys <= s.used && ReservationsFit(s) && newId !in s.used
    requires Adds(s.db, after.db, sid, newId, request, payload) && after.used == s.used + {newId}
    requires Reserves(s.db, after.db, sid, newId, k) && j in after.db.reservations
    ensures ReservationFits(after, j)
  {
    if j != k { assert ReservationFits(s, j); }
  }

  lemma ReservedAuthorizes(s: State, after: State, sid: SessionId, newId: OutboxId, request: Request,
                           payload: Payload, k: Reservation, oid: OutboxId)
    requires ReservationsFit(s) && Adds(s.db, after.db, sid, newId, request, payload)
    requires Reserves(s.db, after.db, sid, newId, k) && payload.authorized == Some(k) && oid in after.db.outbox
    ensures AuthorizationFits(after, oid)
  {
    if oid in s.db.outbox { assert AuthorizationFits(s, oid); }
  }

  lemma SendKeepsInv(s: State, sid: SessionId, request: Request, newId: OutboxId, payload: Payload)
    requires Inv(s)
    ensures Next(s, StepSend(s, sid, request, newId, payload))
  {
    hide Covered, Moves, CallsFit, ReservationsFit, StageFits;
    var after := StepSend(s, sid, request, newId, payload);
    NoMove(s);
    var existing := Find(s.db, request);
    if after != s {
      if existing.Some? {
        ReplaySound(s.db, existing.value);
        IdleWriteKeepsInv(s, s.db.outbox[existing.value].session, Replay(s.db, existing.value));
      } else {
        AcceptedIsSettled(s.db, sid, payload);
        PrepareOutboxKeeps(s.db, sid, request, newId, payload, None);
        AddedKeepsInv(s, after, sid, newId, request, payload);
      }
    }
  }

  lemma AuthorizeKeepsInv(s: State, original: OutboxId, route: Route, request: Request, hash: nat, lost: bool)
    requires Inv(s)
    ensures Next(s, StepAuthorize(s, original, route, request, hash, lost))
  {
    hide Consistent, Covered, Moves, CallsFit, ReservationsFit, MayApprove;
    var after := StepAuthorize(s, original, route, request, hash, lost);
    NoMove(s);
    if after != s {
      var sid := s.db.outbox[original].session;
      UnchangedWrites(s, sid);
      WriteKeepsInv(s, after, sid);
    }
  }

  lemma ApprovedKeepsInv(s: State, original: OutboxId, route: Route, request: Request, newId: OutboxId, hash: nat,
                         lost: bool)
    requires Inv(s)
    ensures Next(s, StepApproved(s, original, route, request, newId, hash, lost))
  {
    hide Consistent, Covered, Moves, CallsFit, ReservationsFit, StageFits;
    var after := StepApproved(s, original, route, request, newId, hash, lost);
    NoMove(s);
    var key := Reservation(original, route);
    if after != s {
      var sid := s.db.outbox[original].session;
      if key in s.db.reservations {
        ReopenSuccessorSound(s.db, original, key);
        IdleWriteKeepsInv(s, sid, ReopenSuccessor(s.db, original, key));
        DrawnKeepsInv(s.(db := after.db), newId);
        MovesThenMoves(s, s.(db := after.db), after);
      } else {
        PrepareSuccessorKeeps(s.db, original, route, request, newId, hash, lost);
        assert Reserves(s.db, after.db, sid, newId, key);
        AddedKeepsInv(s, after, sid, newId, request, Payload(hash, None, Some(key)));
      }
    }
  }

  lemma EndApprovalKeepsInv(s: State, sid: SessionId, newId: OutboxId)
    requires Inv(s) && At(s, sid) && s.flows[sid].Approving?
    ensures Next(s, Step(s, Approved(sid, newId)))
  {
    hide Inv, Moves, StepApproved;
    var f := s.flows[sid];
    var t := Ended(s, sid, None);
    EndedKeepsInv(s, sid, None);
    ApprovedKeepsInv(t, f.oid, f.route, f.request, newId, f.hash, f.lostContinuation);
    MovesThenMoves(s, t, StepApproved(t, f.oid, f.route, f.request, newId, f.hash, f.lostContinuation));
  }

  lemma AskReplayKeepsInv(s: State, oid: OutboxId)
    requires Inv(s)
    ensures Next(s, StepAskReplay(s, oid))
  {
    hide Inv, Moves;
    NoMove(s);
    WaitingIsIrrelevant(s, s.waiting + {oid});
  }

  lemma DrawnKeepsInv(s: State, newId: OutboxId)
    requires Inv(s)
    ensures Next(s, s.(used := s.used + {newId}))
  {
    hide Consistent, Covered;
    var after := s.(used := s.used + {newId});
    forall c | c in after.calls ensures CallFits(after, c) { assert CallFits(s, c); }
    forall k | k in after.db.reservations ensures ReservationFits(after, k) { assert ReservationFits(s, k); }
    forall oid | oid in after.db.outbox ensures AuthorizationFits(after, oid) { assert AuthorizationFits(s, oid); }
    forall sid | sid in after.flows
      ensures StageFits(after, sid, after.flows[sid])
    {
      assert StageFits(s, sid, s.flows[sid]);
    }
  }

  // ---------------------------------------------------------------- the submission, stage by stage

  lemma ResumeKeepsInv(s: State, oid: OutboxId)
    requires Inv(s)
    ensures Next(s, StepResume(s, oid))
  {
    hide Consistent, Covered, Moves, Replay, CallsFit, ReservationsFit;
    var after := StepResume(s, oid);
    NoMove(s);
    if after != s {
      var sid := s.db.outbox[oid].session;
      UnchangedWrites(s, sid);
      WriteKeepsInv(s, after, sid);
    }
  }

  lemma WaitingIsIrrelevant(s: State, waiting: set<OutboxId>)
    requires Inv(s)
    ensures Next(s, s.(waiting := waiting))
  {
    hide Consistent, Covered;
    var after := s.(waiting := waiting);
    forall c | c in after.calls ensures CallFits(after, c) { assert CallFits(s, c); }
    forall k | k in after.db.reservations ensures ReservationFits(after, k) { assert ReservationFits(s, k); }
    forall oid | oid in after.db.outbox ensures AuthorizationFits(after, oid) { assert AuthorizationFits(s, oid); }
    forall sid | sid in after.flows
      ensures StageFits(after, sid, after.flows[sid])
    {
      assert StageFits(s, sid, s.flows[sid]);
    }
  }

  lemma ReplayedKeepsInv(s: State, oid: OutboxId)
    requires Inv(s)
    ensures Next(s, StepReplayed(s, oid))
  {
    hide Inv, Moves, Replay;
    NoMove(s);
    if StepReplayed(s, oid) != s {
      var t := s.(waiting := s.waiting - {oid});
      WaitingIsIrrelevant(s, t.waiting);
      assert Consistent(s.db) by { IsConsistent(s); }
      ReplaySound(s.db, oid);
      IdleWriteKeepsInv(t, s.db.outbox[oid].session, Replay(s.db, oid));
      MovesThenMoves(s, t, StepReplayed(s, oid));
    }
  }

  lemma IsConsistent(s: State)
    requires Inv(s)
    ensures Consistent(s.db)
  {}

  lemma OpenedKeepsInv(s: State, sid: SessionId, page: PageKey)
    requires Inv(s)
    ensures Next(s, StepOpened(s, sid, page))
  {
    hide Consistent, Covered, Moves, PersistPage, ReservationsFit, CallsFit;
    var after := StepOpened(s, sid, page);
    NoMove(s);
    if after != s {
      var oid := s.flows[sid].oid;
      assert StageFits(s, sid, s.flows[sid]);
      if sid !in after.flows {
        EndedKeepsInv(s, sid, None);
      } else {
        PersistPageSound(s.db, oid, page);
        assert after.flows - {sid} == s.flows - {sid};
        WriteKeepsInv(s, after, sid);
      }
    }
  }

  lemma ComposerKeepsInv(s: State, sid: SessionId, page: PageKey)
    requires Inv(s)
    ensures Next(s, StepComposer(s, sid, page))
  {
    hide Consistent, Covered, Moves, FillComposer, ReservationsFit;
    var after := StepComposer(s, sid, page);
    NoMove(s);
    if after != s {
      var oid := s.flows[sid].oid;
      assert StageFits(s, sid, s.flows[sid]);
      if sid !in after.flows {
        EndedKeepsInv(s, sid, None);
      } else {
        FillComposerSound(s.db, oid, page);
        forall c | c in s.calls ensures c.oid != oid { assert CallFits(s, c); }
        assert after.flows - {sid} == s.flows - {sid};
        WriteKeepsInv(s, after, sid);
      }
    }
  }

  lemma AttemptKeepsInv(s: State, sid: SessionId, page: PageKey)
    requires Inv(s)
    ensures Next(s, StepAttempt(s, sid, page))
  {
    hide Consistent, Covered, Moves, AttemptSubmit, ReservationsFit, CallsFit;
    var after := StepAttempt(s, sid, page);
    NoMove(s);
    if after != s {
      var oid := s.flows[sid].oid;
      assert StageFits(s, sid, s.flows[sid]);
      if sid !in after.flows {
        EndedKeepsInv(s, sid, None);
      } else {
        AttemptSubmitSound(s.db, oid, page);
        AttemptedFits(s, after, sid, oid);
        WriteKeepsInv(s, after, sid);
      }
    }
  }

  lemma AttemptedFits(s: State, after: State, sid: SessionId, oid: OutboxId)
    requires sid in s.flows && s.flows[sid] == Filled(oid) && StageFits(s, sid, s.flows[sid])
             && Advances(s.db, after.db, sid) && after.used == s.used && after.calls == s.calls
    requires after.flows == s.flows[sid := Attempted(oid)] && after.turn == s.turn
             && after.db.outbox[oid].state.SubmitAttempted?
    ensures after.flows - {sid} == s.flows - {sid} && StageFits(after, sid, after.flows[sid])
  {
    assert RowAdvances(s.db.outbox[oid], after.db.outbox[oid], sid);
  }

  /**
   The irreversible call: its row was attempted durably, and no earlier call was for it or for its request's live row.
   */
  lemma CallKeepsInv(s: State, sid: SessionId)
    requires Inv(s)
    ensures Next(s, StepCall(s, sid))
  {
    hide Consistent, Covered;
    var after := StepCall(s, sid);
    NoMove(s);
    if after != s {
      var oid := s.flows[sid].oid;
      assert StageFits(s, sid, s.flows[sid]);
      forall i | i in after.flows
        ensures StageFits(after, i, after.flows[i])
      {
        if i != sid { assert StageFits(s, i, s.flows[i]); }
      }
      forall c | c in after.calls ensures CallFits(after, c) { if c in s.calls { assert CallFits(s, c); } }
      CallIsNew(s, after, sid);
      forall k | k in after.db.reservations ensures ReservationFits(after, k) { assert ReservationFits(s, k); }
      forall o | o in after.db.outbox ensures AuthorizationFits(after, o) { assert AuthorizationFits(s, o); }
    }
  }

  lemma CallIsNew(s: State, after: State, sid: SessionId)
    requires Inv(s) && after == StepCall(s, sid) && after != s
    ensures forall i, j :: 0 <= i < j < |after.calls| ==>
              after.calls[i].oid != after.calls[j].oid
                  && (after.calls[i].request == after.calls[j].request ==> after.calls[i].oid !in after.db.outbox)
  {
    hide Consistent, Covered, FlowsFit, CallsFit, ReservationsFit, PhaseFits;
    var oid := s.flows[sid].oid;
    AttemptedWasNotCalled(s, sid);
    assert after.db == s.db && after.calls == s.calls + [Call(oid, s.db.outbox[oid].request)];
    forall i, j | 0 <= i < j < |after.calls|
      ensures after.calls[i].oid != after.calls[j].oid
              && (after.calls[i].request == after.calls[j].request ==> after.calls[i].oid !in after.db.outbox) {
      if j == |s.calls| { CalledBefore(s, oid, i); } else { CalledTwice(s, i, j); }
    }
  }

  lemma AttemptedWasNotCalled(s: State, sid: SessionId)
    requires FlowsFit(s) && sid in s.flows && s.flows[sid].Attempted?
    ensures s.flows[sid].oid in s.db.outbox && forall c <- s.calls :: c.oid != s.flows[sid].oid
  {
    assert StageFits(s, sid, s.flows[sid]);
  }

  /** An earlier call for the request of a row that is there was for a row that is gone. */
  lemma CalledBefore(s: State, oid: OutboxId, i: nat)
    requires CallsFit(s) && Consistent(s.db) && oid in s.db.outbox && i < |s.calls| && forall c <- s.calls ::
             c.oid != oid
    ensures s.calls[i].oid != oid && (s.calls[i].request == s.db.outbox[oid].request ==> s.calls[i].oid !in s.db.outbox)
  {
    var c := s.calls[i];
    assert c in s.calls && CallFits(s, c);
    if c.oid in s.db.outbox { OneRowPerRequest(s.db, c.oid, oid); }
  }

  lemma CalledTwice(s: State, i: nat, j: nat)
    requires CallsFit(s) && i < j < |s.calls|
    ensures s.calls[i].oid != s.calls[j].oid
            && (s.calls[i].request == s.calls[j].request ==> s.calls[i].oid !in s.db.outbox)
  {}

  lemma OneRowPerRequest(db: Db, a: OutboxId, b: OutboxId)
    requires Distinct(db) && a in db.outbox && b in db.outbox && a != b
    ensures db.outbox[a].request != db.outbox[b].request
  {
    assert !SameOwner(db.outbox[a], db.outbox[b]);
  }

  lemma PausedKeepsInv(s: State, sid: SessionId, cooldown: bool)
    requires Inv(s) && At(s, sid) && (s.flows[sid].Opening? || s.flows[sid].Preparing?)
             && s.flows[sid].oid in s.db.outbox
    ensures Next(s, Ended(s, sid, RecordPreparationRequired(s.db, s.flows[sid].oid, cooldown)))
  {
    assert StageFits(s, sid, s.flows[sid]);
    RecordPreparationRequiredSound(s.db, s.flows[sid].oid, cooldown);
    EndedKeepsInv(s, sid, RecordPreparationRequired(s.db, s.flows[sid].oid, cooldown));
  }

  lemma FailedKeepsInv(s: State, sid: SessionId, error: ErrorCode)
    requires Inv(s) && At(s, sid) && (s.flows[sid].Opening? || s.flows[sid].Preparing?)
             && s.flows[sid].oid in s.db.outbox
    ensures Next(s, Ended(s, sid, FailPreSubmit(s.db, s.flows[sid].oid, error)))
  {
    assert StageFits(s, sid, s.flows[sid]);
    FailPreSubmitSound(s.db, s.flows[sid].oid, error);
    EndedKeepsInv(s, sid, FailPreSubmit(s.db, s.flows[sid].oid, error));
  }

  lemma RefreshedKeepsInv(s: State, sid: SessionId)
    requires Inv(s) && At(s, sid) && s.flows[sid].Refreshing? && s.flows[sid].oid in s.db.outbox
    ensures Next(s, Ended(s, sid, AfterRefresh(s.db, s.flows[sid].oid, s.flows[sid].seen, s.flows[sid].duplicate)))
  {
    assert StageFits(s, sid, s.flows[sid]);
    AfterRefreshSound(s.db, s.flows[sid].oid, s.flows[sid].seen, s.flows[sid].duplicate);
    EndedKeepsInv(s, sid, AfterRefresh(s.db, s.flows[sid].oid, s.flows[sid].seen, s.flows[sid].duplicate));
  }

  lemma CompletedKeepsInv(s: State, sid: SessionId, page: PageKey, ack: Acknowledgement)
    requires Inv(s) && At(s, sid) && s.flows[sid].Dispatched? && s.flows[sid].oid in s.db.outbox
    ensures Next(s, Ended(s, sid, CompleteSubmitted(s.db, s.flows[sid].oid, page, ack)))
  {
    assert StageFits(s, sid, s.flows[sid]);
    CompleteSubmittedSound(s.db, s.flows[sid].oid, page, ack);
    EndedKeepsInv(s, sid, CompleteSubmitted(s.db, s.flows[sid].oid, page, ack));
  }

  lemma AmbiguousKeepsInv(s: State, sid: SessionId, reason: Reason)
    requires Inv(s) && At(s, sid) && s.flows[sid].Dispatched? && s.flows[sid].oid in s.db.outbox
    ensures Next(s, Ended(s, sid, RecordUnknown(s.db, s.flows[sid].oid, reason)))
  {
    assert StageFits(s, sid, s.flows[sid]);
    RecordUnknownSound(s.db, s.flows[sid].oid, reason);
    EndedKeepsInv(s, sid, RecordUnknown(s.db, s.flows[sid].oid, reason));
  }

  lemma PreparationKeepsInv(s: State, e: Event)
    requires Inv(s) && (e.PreparationPaused? || e.PreparationFailed? || e.EndRefresh?)
    requires Step(s, e) != s
    ensures Next(s, Step(s, e))
  {
    hide Inv, Moves, FailPreSubmit, RecordPreparationRequired, AfterRefresh;
    if s.flows[e.sid].oid !in s.db.outbox {
      EndedKeepsInv(s, e.sid, None);
    } else {
      match e
      case PreparationPaused(sid, cooldown) => PausedKeepsInv(s, sid, cooldown);
      case PreparationFailed(sid, error) => FailedKeepsInv(s, sid, error);
      case EndRefresh(sid) => RefreshedKeepsInv(s, sid);
    }
  }

  lemma OutcomeKeepsInv(s: State, e: Event)
    requires Inv(s) && (e.Acknowledged? || e.Ambiguous? || e.Aborted?)
    requires Step(s, e) != s
    ensures Next(s, Step(s, e))
  {
    hide Inv, Moves, RecordUnknown, CompleteSubmitted;
    if e.Aborted? || s.flows[e.sid].oid !in s.db.outbox {
      EndedKeepsInv(s, e.sid, None);
    } else {
      match e
      case Acknowledged(sid, page, ack) =>
        CompletedKeepsInv(s, sid, page, ack);
        AmbiguousKeepsInv(s, sid, SubmitUnacknowledged);
      case Ambiguous(sid, reason) => AmbiguousKeepsInv(s, sid, reason);
    }
  }

  lemma BeginRefreshKeepsInv(s: State, oid: OutboxId, crash: bool)
    requires Inv(s)
    ensures Next(s, StepBeginRefresh(s, oid, crash))
  {
    hide Consistent, Covered, Moves, CallsFit, ReservationsFit, BeforeRefresh, RefreshMayReopen, DuplicateRecovered;
    var after := StepBeginRefresh(s, oid, crash);
    NoMove(s);
    if after != s {
      var sid := s.db.outbox[oid].session;
      BeforeRefreshSound(s.db, oid);
      RefreshingFits(s, after, oid);
      WriteKeepsInv(s, after, sid);
    }
  }

  lemma RefreshingFits(s: State, after: State, oid: OutboxId)
    requires s.db.outbox.Keys <= s.used && oid in s.db.outbox && Advances(s.db, after.db, s.db.outbox[oid].session)
             && after.used == s.used
    requires exists seen, duplicate ::
             after.flows == s.flows[s.db.outbox[oid].session := Refreshing(oid, seen, duplicate)]
    ensures var sid := s.db.outbox[oid].session;
            after.flows - {sid} == s.flows - {sid} && StageFits(after, sid, after.flows[sid])
  {
    assert RowAdvances(s.db.outbox[oid], after.db.outbox[oid], s.db.outbox[oid].session);
  }

  // ---------------------------------------------------------------- startup

  lemma PassRowKeepsInv(s: State, oid: OutboxId)
    requires Inv(s)
    ensures Next(s, StepPassRow(s, oid))
  {
    hide Consistent, Covered, Moves, CallsFit, ReservationsFit, StageFits;
    NoMove(s);
    var after := StepPassRow(s, oid);
    if after != s {
      PassRowWrites(s, oid);
      CallsKept(s, after, s.db.outbox[oid].session);
      ReservationsKept(s, after, s.db.outbox[oid].session);
      CoveredKept(s.db, after.db, s.db.outbox[oid].session);
      WriteMoves(s, after, s.db.outbox[oid].session);
    }
  }

  lemma PassRowWrites(s: State, oid: OutboxId)
    requires Consistent(s.db) && PhaseFits(s) && StepPassRow(s, oid) != s
    ensures var after := StepPassRow(s, oid);
            && oid in s.db.outbox && Wrote1(s, after, s.db.outbox[oid].session) && PhaseFits(after)
            && after.flows == s.flows && after.turn == s.turn && !s.phase.Running?
  {
    match s.phase
    case PreSubmit(todo) => PreSubmitPassSettles(s.db, oid); PreSubmitPassProgress(s.db, oid, todo);
    case Diagnostics(todo) => DiagnosticsPassSettles(s.db, oid); DiagnosticsPassProgress(s.db, oid, todo);
    case Interrupted(todo) => SubmissionPassSettles(s.db, oid); SubmissionPassProgress(s.db, oid, todo);
  }

  lemma DoneOutsideList(db: Db)
    ensures AllPreSubmitDone(db, Listed(db, {Prepared, ComposerFilled}))
    ensures AllDiagnosticsDone(db, Listed(db, {FailedPreSubmit, SubmissionUnknown}))
    ensures AllSubmissionDone(db, Listed(db, {SubmitAttempted}))
  {}

  lemma PhaseIsIrrelevant(s: State, phase: Phase)
    requires Inv(s) && !s.phase.Running? && PhaseFits(s.(phase := phase))
    ensures Next(s, s.(phase := phase))
  {
    hide Consistent, Covered, PhaseFits;
    var after := s.(phase := phase);
    forall c | c in after.calls ensures CallFits(after, c) { assert CallFits(s, c); }
    forall k | k in after.db.reservations ensures ReservationFits(after, k) { assert ReservationFits(s, k); }
    forall o | o in after.db.outbox ensures AuthorizationFits(after, o) { assert AuthorizationFits(s, o); }
  }

  lemma PassEndKeepsInv(s: State)
    requires Inv(s)
    ensures Next(s, StepPassEnd(s))
  {
    hide Next, Consistent, Covered, FlowsFit, CallsFit, ReservationsFit, PreSubmitDone, DiagnosticsDone;
    var after := StepPassEnd(s);
    NoMove(s);
    if after != s {
      DoneOutsideList(s.db);
      PhaseIsIrrelevant(s, after.phase);
    }
  }

  lemma CrashKeepsInv(s: State)
    requires Inv(s)
    ensures Next(s, Step(s, Crash))
  {
    hide Consistent, Covered;
    var after := Step(s, Crash);
    forall c | c in after.calls ensures CallFits(after, c) { assert CallFits(s, c); }
    forall k | k in after.db.reservations ensures ReservationFits(after, k) { assert ReservationFits(s, k); }
    forall o | o in after.db.outbox ensures AuthorizationFits(after, o) { assert AuthorizationFits(s, o); }
  }

  // ---------------------------------------------------------------- every step, every run

  lemma ActKeepsInv(s: State, op: Operation)
    requires Inv(s) && Target(s.db, op).Some? && Idle(s, Target(s.db, op).value)
    ensures Next(s, Wrote(s, Perform(s.db, op)))
  {
    PerformSound(s.db, op);
    IdleWriteKeepsInv(s, Target(s.db, op).value, Perform(s.db, op));
  }

  lemma StepKeepsInv(s: State, e: Event)
    requires Inv(s)
    ensures Inv(Step(s, e)) && Moves(s, Step(s, e)) && (!e.EndTeam? ==> KeepsRows(s, Step(s, e)))
  {
    hide Inv, Moves, KeepsRows, Perform, CreateSession, RetireRole, RestoreRetired, DeleteTeam;
    NoMove(s);
    match e
    case NewSession(sid, predecessor) =>
      if s.phase.Running? && CreateSession(s.db, sid, predecessor).Some? { NewSessionKeepsInv(s, sid, predecessor); }
    case EndRole(sid) => if s.phase.Running? && RetireRole(s.db, sid).Some? { EndRoleKeepsInv(s, sid); }
    case DeletionAttempted(c) => if s.phase.Running? { DeletionAttemptedKeepsInv(s, s.db.deletions + {c}); }
    case RestoreSession(sid) =>
      if s.phase.Restoring? && RestoreRetired(s.db, sid).Some? { RestoreSessionKeepsInv(s, sid); }
    case EndTeam(team) => if s.phase.Running? && s.turn.None? { EndTeamKeepsInv(s, team); }
    case Send(sid, request, newId, payload) => SendKeepsInv(s, sid, request, newId, payload);
    case AuthorizeSuccessor(original, route, request, hash, lost) =>
      AuthorizeKeepsInv(s, original, route, request, hash, lost);
    case Approved(sid, newId) => if Step(s, e) != s { EndApprovalKeepsInv(s, sid, newId); }
    case Resume(oid) => ResumeKeepsInv(s, oid);
    case AskReplay(oid) => AskReplayKeepsInv(s, oid);
    case Replayed(oid) => ReplayedKeepsInv(s, oid);
    case PageOpened(sid, page) => OpenedKeepsInv(s, sid, page);
    case ComposerReady(sid, page) => ComposerKeepsInv(s, sid, page);
    case RecordAttempt(sid, page) => AttemptKeepsInv(s, sid, page);
    case CallSubmitOnce(sid) => CallKeepsInv(s, sid);
    case PreparationPaused(_, _) => if Step(s, e) != s { PreparationKeepsInv(s, e); }
    case PreparationFailed(_, _) => if Step(s, e) != s { PreparationKeepsInv(s, e); }
    case Aborted(_) => if Step(s, e) != s { OutcomeKeepsInv(s, e); }
    case EndRefresh(_) => if Step(s, e) != s { PreparationKeepsInv(s, e); }
    case Acknowledged(_, _, _) => if Step(s, e) != s { OutcomeKeepsInv(s, e); }
    case Ambiguous(_, _) => if Step(s, e) != s { OutcomeKeepsInv(s, e); }
    case BeginRefresh(oid, crash) => BeginRefreshKeepsInv(s, oid, crash);
    case Act(op) => if Target(s.db, op).Some? && Idle(s, Target(s.db, op).value) { ActKeepsInv(s, op); }
    case Crash => CrashKeepsInv(s);
    case PassRow(oid) => PassRowKeepsInv(s, oid);
    case PassEnd => PassEndKeepsInv(s);
  }

  lemma {:induction false} RunKeepsInv(s: State, run: seq<Event>)
    requires Inv(s)
    ensures Inv(Exec(s, run)) && Moves(s, Exec(s, run))
    decreases |run|
  {
    NoMove(s);
    if run != [] {
      var next := Step(s, run[0]);
      StepKeepsInv(s, run[0]);
      RunKeepsInv(next, run[1..]);
      MovesThenMoves(s, next, Exec(next, run[1..]));
    }
  }
}
