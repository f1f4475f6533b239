/**
 Every durable transaction keeps the tables consistent and moves only its own session's rows.
 */
module SubmissionTransactions {
  import opened Wrappers
  import opened Storage
  import opened Submission
  import opened SubmissionInvariants

  lemma RowFacts(db: Db, oid: OutboxId)
    requires Consistent(db) && oid in db.outbox
    ensures RowOk(db, oid) && SessionOk(db, db.outbox[oid].session)
    ensures GenerationOk(db, GenKey(db.outbox[oid].session, db.outbox[oid].generation))
  {
    assert RowOk(db, oid);
  }

  // ---------------------------------------------------------------- the row and its generation together

  lemma FillComposerSound(db: Db, oid: OutboxId, page: PageKey)
    requires Consistent(db) && oid in db.outbox
    ensures Sound(db, FillComposer(db, oid, page), db.outbox[oid].session)
    ensures var r := FillComposer(db, oid, page); r.Some? ==> r.value.outbox[oid].state.ComposerFilled?
  {
    hide Consistent, Advances;
    RowFacts(db, oid);
    PairedSound(db, oid,
      NoUpdate.(state := Some(ComposerFilled), page := Some(Some(page)), provider := Some(ProviderState.Pending),
                transport := Some(Fresh)),
      {Prepared}, ComposerFilled, Fields(Some(NoResult), Some(None), Some(false)));
  }

  lemma AttemptSubmitSound(db: Db, oid: OutboxId, page: PageKey)
    requires Consistent(db) && oid in db.outbox
    ensures Sound(db, AttemptSubmit(db, oid, page), db.outbox[oid].session)
    ensures var r := AttemptSubmit(db, oid, page); r.Some? ==>
              r.value.outbox[oid].state.SubmitAttempted? && db.outbox[oid].state.ComposerFilled?
  {
    hide Consistent, Advances;
    RowFacts(db, oid);
    PairedSound(db, oid,
      NoUpdate.(state := Some(SubmitAttempted), session := Some(Submitting), provider := Some(ProviderState.Pending),
                transport := Some(Fresh),
                page := Some(Some(page)), prompt := Some(true), reason := Some(None), error := Some(None)),
      {ComposerFilled}, SubmitAttempted, Fields(None, None, Some(true)));
  }

  lemma CompleteSubmittedSound(db: Db, oid: OutboxId, page: PageKey, ack: Acknowledgement)
    requires Consistent(db) && oid in db.outbox
    ensures Sound(db, CompleteSubmitted(db, oid, page, ack), db.outbox[oid].session)
  {
    hide Consistent;
    RowFacts(db, oid);
    PairedWithSnapshotSound(db, oid,
      NoUpdate.(session := Some(SessionState.Submitted), provider := Some(Generating), transport := Some(Fresh),
                state := Some(SubmissionState.Submitted),
                conversation := Some(Some(ack.conversation)), page := Some(Some(page)),
                    ids := Some((Some(ack.message), ack.turn)),
                prompt := Some(true), reason := Some(None), error := Some(None)),
      {SubmitAttempted}, SubmissionState.Submitted, None, true);
  }

  /** Recording an ambiguous outcome is only ever done once the attempt is durable. */
  lemma RecordUnknownSound(db: Db, oid: OutboxId, reason: Reason)
    requires Consistent(db) && oid in db.outbox && Irrevocable(db.outbox[oid].state)
    ensures Sound(db, RecordUnknown(db, oid, reason), db.outbox[oid].session)
  {
    hide Consistent;
    RowFacts(db, oid);
    var row := db.outbox[oid];
    var lifecycle := if IsTerminalState(db.sessions[row.session].state) then NoUpdate
                     else NoUpdate.(session := Some(Observing), provider := Some(ProviderState.Unknown),
                                    transport := Some(Unavailable));
    var u := lifecycle.(state := Some(SubmissionUnknown), reason := Some(Some(reason)),
                        error := Some(Some(SubmissionUnknownError)), prompt := Some(true));
    var expected := {Prepared, ComposerFilled, SubmitAttempted, SubmissionUnknown};
    assert RecordUnknown(db, oid, reason)
           == PairedWithSnapshot(db, oid, u, expected, SubmissionUnknown, Some(SubmissionUnknownError), true);
    if RecordUnknown(db, oid, reason).Some? { UnknownIsGood(db, oid, u); }
    PairedWithSnapshotSound(db, oid, u, expected, SubmissionUnknown, Some(SubmissionUnknownError), true);
  }

  lemma UnknownIsGood(db: Db, oid: OutboxId, u: Update)
    requires oid in db.outbox && RowOk(db, oid) && SessionOk(db, db.outbox[oid].session)
    requires GenerationOk(db, GenKey(db.outbox[oid].session, db.outbox[oid].generation))
    requires var row := db.outbox[oid];
             row.state in {SubmitAttempted, SubmissionUnknown} && db.sessions[row.session].current == row.generation
    requires u == NoUpdate.(session := u.session, provider := u.provider, transport := u.transport,
                            state := Some(SubmissionUnknown), reason := u.reason, error := u.error,
                                prompt := Some(true))
    requires u.session == (if IsTerminalState(db.sessions[db.outbox[oid].session].state) then None else Some(Observing))
    ensures forall stored ::
            GoodPair(db, oid, u, SubmissionUnknown,
                     Fields(Some(stored), Some(Some(SubmissionUnknownError)), Some(true)))
  {}

  lemma FailPreSubmitSound(db: Db, oid: OutboxId, error: ErrorCode)
    requires Consistent(db) && oid in db.outbox
    ensures Sound(db, FailPreSubmit(db, oid, error), db.outbox[oid].session)
  {
    var row := db.outbox[oid];
    if row.state == SubmissionState.Submitted {
    } else if row.state.SubmitAttempted? || row.state.SubmissionUnknown? {
      RecordUnknownSound(db, oid, PreSubmitErrorAfterAttempt);
    } else {
      FailureSound(db, oid, PreSubmitFailure, error, {Prepared, ComposerFilled, FailedPreSubmit});
    }
  }

  lemma FailureSound(db: Db, oid: OutboxId, reason: Reason, error: ErrorCode, expected: set<SubmissionState>)
    requires Consistent(db) && oid in db.outbox && expected <= {Prepared, ComposerFilled, FailedPreSubmit}
    ensures Sound(db, PairedWithSnapshot(db, oid,
        NoUpdate.(session := Some(Ready), provider := Some(ProviderState.Error), transport := Some(Unavailable),
                  state := Some(FailedPreSubmit),
                  reason := Some(Some(reason)), error := Some(Some(error)), prompt := Some(false)),
        expected, FailedPreSubmit, Some(error), false), db.outbox[oid].session)
  {
    var u := NoUpdate.(session := Some(Ready), provider := Some(ProviderState.Error), transport := Some(Unavailable),
                       state := Some(FailedPreSubmit),
                       reason := Some(Some(reason)), error := Some(Some(error)), prompt := Some(false));
    RowFacts(db, oid);
    if PairedWithSnapshot(db, oid, u, expected, FailedPreSubmit, Some(error), false).Some? {
      FailureIsGood(db, oid, reason, error);
    }
    PairedWithSnapshotSound(db, oid, u, expected, FailedPreSubmit, Some(error), false);
  }

  lemma FailureIsGood(db: Db, oid: OutboxId, reason: Reason, error: ErrorCode)
    requires oid in db.outbox && RowOk(db, oid)
             && GenerationOk(db, GenKey(db.outbox[oid].session, db.outbox[oid].generation))
    requires !Irrevocable(db.outbox[oid].state)
             && db.sessions[db.outbox[oid].session].current == db.outbox[oid].generation
    ensures forall stored :: GoodPair(db, oid,
        NoUpdate.(session := Some(Ready), provider := Some(ProviderState.Error), transport := Some(Unavailable),
                  state := Some(FailedPreSubmit),
                  reason := Some(Some(reason)), error := Some(Some(error)), prompt := Some(false)),
        FailedPreSubmit, Fields(Some(stored), Some(Some(error)), Some(false)))
  {}

  lemma RecordInterruptedSound(db: Db, oid: OutboxId)
    requires Consistent(db) && oid in db.outbox
    ensures Sound(db, RecordInterrupted(db, oid), db.outbox[oid].session)
  {
    FailureSound(db, oid, RestartPreSubmitInterrupted, BrowserUnavailable, {Prepared, ComposerFilled});
  }

  lemma RecordPreparationRequiredSound(db: Db, oid: OutboxId, cooldown: bool)
    requires Consistent(db) && oid in db.outbox
    ensures Sound(db, RecordPreparationRequired(db, oid, cooldown), db.outbox[oid].session)
  {
    hide Consistent, Advances;
    RowFacts(db, oid);
    PairedSound(db, oid,
      NoUpdate.(state := Some(Prepared), provider := Some(ProviderState.Pending), transport := Some(Fresh),
                reason := Some(Some(if cooldown then AccountCooldown else AgentPreparationRequired)),
                error := Some(Some(PreparationRequired)), prompt := Some(false)),
      {Prepared}, Prepared, Fields(Some(PendingPreparation(false)), Some(Some(PreparationRequired)), Some(false)));
  }

  lemma TerminalizePreparationSound(db: Db, oid: OutboxId, error: ErrorCode)
    requires Consistent(db) && oid in db.outbox
    ensures Sound(db, TerminalizePreparation(db, oid, error), db.outbox[oid].session)
  {
    hide Consistent, Advances;
    RowFacts(db, oid);
    PairedSound(db, oid,
      NoUpdate.(session := Some(Ready), provider := Some(ProviderState.Error), transport := Some(Unavailable),
                state := Some(FailedPreSubmit),
                reason := Some(Some(PreparationCancelledByCaller)), error := Some(Some(error)), prompt := Some(false)),
      {Prepared}, FailedPreSubmit, Fields(Some(NoResult), Some(Some(error)), Some(false)));
  }

  lemma ReopenSound(db: Db, oid: OutboxId, reason: Reason, provider: ProviderState, transport: Transport, inspect: bool)
    requires Consistent(db) && oid in db.outbox
    ensures Sound(db, Reopen(db, oid, reason, provider, transport, inspect), db.outbox[oid].session)
  {
    hide Consistent, Advances;
    RowFacts(db, oid);
    PairedSound(db, oid,
      NoUpdate.(session := Some(Submitting), provider := Some(provider), transport := Some(transport),
                state := Some(Prepared),
                reason := Some(Some(reason)), error := Some(Some(PreparationRequired)), prompt := Some(false)),
      {FailedPreSubmit}, Prepared,
          Fields(Some(PendingPreparation(inspect)), Some(Some(PreparationRequired)), Some(false)));
  }

  lemma RecoverAcknowledgementSound(db: Db, oid: OutboxId, ack: Acknowledgement)
    requires Consistent(db) && oid in db.outbox
    ensures Sound(db, RecoverAcknowledgement(db, oid, ack), db.outbox[oid].session)
  {
    hide Consistent;
    RowFacts(db, oid);
    PairedWithSnapshotSound(db, oid,
      NoUpdate.(session := Some(SessionState.Submitted), provider := Some(Generating), transport := Some(Fresh),
                state := Some(SubmissionState.Submitted),
                conversation := Some(Some(ack.conversation)), ids := Some((Some(ack.message), ack.turn)),
                    prompt := Some(true),
                reason := Some(Some(AcknowledgementRecovered)), error := Some(None)),
      {SubmissionUnknown}, SubmissionState.Submitted, None, true);
  }

  lemma ReplaySound(db: Db, oid: OutboxId)
    requires Consistent(db) && oid in db.outbox
    ensures Sound(db, Replay(db, oid), db.outbox[oid].session)
  {
    if db.outbox[oid].state.SubmitAttempted? { RecordUnknownSound(db, oid, RestartAfterSubmitAttempt); }
    FailPreSubmitSound(db, oid, SubmissionUnknownError);
    UnchangedIsSound(db, db.outbox[oid].session);
  }

  lemma ReopenSuccessorSound(db: Db, original: OutboxId, key: Reservation)
    requires Consistent(db) && original in db.outbox && key in db.reservations
    ensures Sound(db, ReopenSuccessor(db, original, key), db.outbox[original].session)
  {
    UnchangedIsSound(db, db.outbox[original].session);
    if db.reservations[key] in db.outbox {
      ReopenSound(db, db.reservations[key], AuthorizedResendPrepared, ProviderState.Unknown, Unavailable, true);
    }
  }

  // ---------------------------------------------------------------- the row alone

  lemma TransitionSound(db: Db, oid: OutboxId, f: Fields)
    requires Consistent(db) && oid in db.outbox && (f.prompt == None || f.prompt == Some(false))
    ensures Sound(db, Transition(db, oid, {Prepared}, Prepared, f), db.outbox[oid].session)
  {
    RowFacts(db, oid);
    if db.outbox[oid].state.Prepared? { RowWriteKeeps(db, oid, UpdatedRow(db.outbox[oid], Prepared, f)); }
  }

  lemma PreparationSound(db: Db, oid: OutboxId)
    requires Consistent(db) && oid in db.outbox
    ensures Sound(db, RecordChoice(db, oid), db.outbox[oid].session)
    ensures Sound(db, CancelPreparation(db, oid), db.outbox[oid].session)
  {
    TransitionSound(db, oid, Fields(Some(PendingPreparation(false)), Some(Some(PreparationRequired)), Some(false)));
    TerminalizePreparationSound(db, oid, PreparationCancelled);
  }

  lemma BeforeRefreshSound(db: Db, oid: OutboxId)
    requires Consistent(db) && oid in db.outbox
    ensures Sound(db, BeforeRefresh(db, oid), db.outbox[oid].session)
  {
    UnchangedIsSound(db, db.outbox[oid].session);
    TransitionSound(db, oid, Fields(Some(PendingPreparation(true)), None, None));
  }

  lemma InspectPreparationSound(db: Db, oid: OutboxId, recover: bool)
    requires Consistent(db) && oid in db.outbox
    ensures Sound(db, InspectPreparation(db, oid, recover), db.outbox[oid].session)
  {
    UnchangedIsSound(db, db.outbox[oid].session);
    TransitionSound(db, oid, Fields(Some(PendingPreparation(false)), Some(Some(PreparationRequired)), Some(false)));
    ReopenSound(db, oid, BrowserPreparationRecovered, ProviderState.Pending, Fresh, false);
  }

  lemma AfterRefreshSound(db: Db, oid: OutboxId, seen: bool, duplicate: bool)
    requires Consistent(db) && oid in db.outbox
    ensures Sound(db, AfterRefresh(db, oid, seen, duplicate), db.outbox[oid].session)
  {
    UnchangedIsSound(db, db.outbox[oid].session);
    ReopenSound(db, oid, if duplicate then DuplicatePagePreparationRecovered
                else CrashedPagePreparationRecovered, ProviderState.Pending, Fresh, true);
  }

  // ---------------------------------------------------------------- the session and its generation

  ghost predicate GoodUpdate(db: Db, sid: SessionId, u: Update) {
    && sid in db.sessions
    && var g := CurrentGeneration(db, sid);
       MayWriteSession(db, sid, UpdatedSession(db.sessions[sid], u),
                       if TouchesGeneration(u) && g.Some? then Some(UpdatedGeneration(g.value, u)) else g)
  }

  lemma UpdateSound(db: Db, sid: SessionId, gen: nat, u: Update)
    requires Consistent(db)
    requires UpdateCurrentGeneration(db, sid, gen, u).Some? ==> GoodUpdate(db, sid, u)
    ensures Sound(db, UpdateCurrentGeneration(db, sid, gen, u), sid)
  {
    var r := UpdateCurrentGeneration(db, sid, gen, u);
    if r.Some? {
      var g := CurrentGeneration(db, sid);
      var s, after := UpdatedSession(db.sessions[sid], u), if TouchesGeneration(u) && g.Some?
          then Some(UpdatedGeneration(g.value, u)) else g;
      assert r.value.generations == WriteSession(db, sid, s, after).generations;
      assert r.value == WriteSession(db, sid, s, after);
      SessionWriteKeeps(db, sid, s, after);
    }
  }

  lemma SessionFacts(db: Db, sid: SessionId)
    requires Consistent(db) && sid in db.sessions
    ensures SessionOk(db, sid)
    ensures CurrentKey(db, sid) in db.generations ==> GenerationOk(db, CurrentKey(db, sid))
  {}

  lemma PersistPageSound(db: Db, oid: OutboxId, page: PageKey)
    requires Consistent(db) && oid in db.outbox
    ensures Sound(db, PersistPage(db, oid, page), db.outbox[oid].session)
    ensures var r := PersistPage(db, oid, page); r.Some? ==> r.value.outbox == db.outbox
  {
    var sid := db.outbox[oid].session;
    if sid in db.sessions { SessionFacts(db, sid); }
    UpdateSound(db, sid, db.outbox[oid].generation, NoUpdate.(page := Some(Some(page))));
  }

  lemma PrepareContinuationSound(db: Db, oid: OutboxId)
    requires Consistent(db) && oid in db.outbox
    ensures Sound(db, PrepareContinuation(db, oid), db.outbox[oid].session)
  {
    hide Consistent;
    var row := db.outbox[oid];
    UnchangedIsSound(db, row.session);
    if row.session in db.sessions { SessionFacts(db, row.session); }
    UpdateSound(db, row.session, row.generation,
      NoUpdate.(session := Some(Cancelled), provider := Some(ProviderState.Unknown), completed := true,
                error := Some(None),
                reason := Some(Some(ApprovedContinuationPrepared))));
  }

  lemma ReconcileFollowupSound(db: Db, sid: SessionId, recoveryTracking: bool)
    requires Consistent(db)
    ensures Sound(db, ReconcileFollowup(db, sid, recoveryTracking), sid)
  {
    hide Consistent, Advances;
    if sid in db.sessions {
      SessionFacts(db, sid);
      UpdateSound(db, sid, db.sessions[sid].current,
        NoUpdate.(session := Some(Cancelled), provider := Some(ProviderState.Unknown), transport := Some(Fresh),
                  completed := true,
                  error := Some(None), reason := Some(Some(ManualFollowupReconciled))));
    }
  }

  lemma ReconcileFailureSound(db: Db, oid: OutboxId, timeout: bool)
    requires Consistent(db) && oid in db.outbox
    ensures Sound(db, ReconcileFailure(db, oid, timeout), db.outbox[oid].session)
  {
    hide Consistent, Advances;
    var row := db.outbox[oid];
    if row.session in db.sessions { SessionFacts(db, row.session); }
    if ReconcileFailure(db, oid, timeout).Some? {
      UpdateSound(db, row.session, row.generation,
        NoUpdate.(session := Some(Failed), provider := Some(ProviderState.Error), transport := Some(Fresh),
                  completed := true,
                  error := Some(Some(ExecutionFailed)),
                  reason := Some(Some(if timeout then MessageTimeoutReconciled else ThinkingFailedReconciled))));
    }
  }

  lemma CompleteStopSound(db: Db, sid: SessionId, gen: nat)
    requires Consistent(db)
    ensures Sound(db, CompleteStop(db, sid, gen), sid)
  {
    hide Consistent, Advances;
    if sid in db.sessions { SessionFacts(db, sid); }
    UpdateSound(db, sid, gen,
      NoUpdate.(session := Some(Cancelled), provider := Some(Stopped), transport := Some(Fresh), completed := true,
                reason := Some(Some(ExplicitStop)), error := Some(Some(ResponseStopped))));
  }

  lemma ObserveSound(db: Db, sid: SessionId, gen: nat, o: Observation)
    requires Consistent(db)
    ensures Sound(db, Observe(db, sid, gen, o), sid)
  {
    if sid in db.sessions { SessionFacts(db, sid); }
    if GenKey(sid, gen) in db.generations { assert GenerationOk(db, GenKey(sid, gen)); }
    match o
    case Progress(provider, transport, code, error) =>
      if Observe(db, sid, gen, o).Some? {
        UpdateSound(db, sid, gen,
                    NoUpdate.(session := Some(Observing), provider := Some(provider), transport := Some(transport),
                                            reason := Some(Some(OtherReason(code))), error := Some(error)));
      }
    case Final(response) =>
      if Observe(db, sid, gen, o).Some? {
        UpdateSound(db, sid, gen, NoUpdate.(session := Some(SessionState.Complete),
                                            provider := Some(ProviderState.Complete), transport := Some(Fresh),
                                            answer := Some(response), completed := true,
                                                reason := Some(Some(DomQuietStableFinal)), error := Some(None)));
      }
  }

  lemma RecordPageStateSound(db: Db, sid: SessionId, page: Option<PageKey>, transport: Transport, code: nat,
                             error: Option<ErrorCode>, dup: bool)
    requires Consistent(db)
    ensures Sound(db, RecordPageState(db, sid, page, transport, code, error, dup), sid)
  {
    hide Consistent;
    if sid in db.sessions && CurrentGeneration(db, sid).Some? && (dup ==> Comparable(db, sid)) {
      SessionFacts(db, sid);
      var g := CurrentGeneration(db, sid).value;
      var preserve := g.state.SubmissionUnknown? || (!g.prompt && g.error.Some?);
      var keep := Terminal(db, sid) || (preserve && error.None?);
      var reason := if dup then Some(DuplicatePagePreparationRecovered) else if keep then g.reason
          else Some(OtherReason(code));
      var told := if dup then None else if keep then g.error else error;
      UpdateSound(db, sid, db.sessions[sid].current,
        NoUpdate.(page := Some(page), transport := Some(transport), reason := Some(reason), error := Some(told)));
    }
  }

  /** A session row rewritten, its generation and its routing aside. */
  lemma RetirementSound(db: Db, sid: SessionId, s: Session, routed: set<SessionId>, dismissed: set<Dismissal>)
    requires Consistent(db) && sid in db.sessions
    requires MayWriteSession(db, sid, s, CurrentGeneration(db, sid))
    ensures Sound(db, Some(db.(sessions := db.sessions[sid := s], routed := routed, dismissed := dismissed)), sid)
  {
    var g := CurrentGeneration(db, sid);
    SessionWriteKeeps(db, sid, s, g);
    var written := WriteSession(db, sid, s, g);
    assert written.generations == db.generations;
    RoutingIsIrrelevant(written, routed, dismissed);
    assert written.(routed := routed, dismissed := dismissed)
           == db.(sessions := db.sessions[sid := s], routed := routed, dismissed := dismissed);
  }

  lemma RoutingIsIrrelevant(db: Db, routed: set<SessionId>, dismissed: set<Dismissal>)
    requires Consistent(db)
    ensures Consistent(db.(routed := routed, dismissed := dismissed))
  {
    var after := db.(routed := routed, dismissed := dismissed);
    forall o | o in after.outbox ensures RowOk(after, o) { assert RowOk(db, o); }
    forall i | i in after.sessions ensures SessionOk(after, i) { assert SessionOk(db, i); }
    forall k | k in after.generations ensures GenerationOk(after, k) { assert GenerationOk(db, k); }
  }

  lemma RetireRoleSound(db: Db, sid: SessionId)
    requires Consistent(db) && sid in db.sessions
    ensures Sound(db, RetireRole(db, sid), sid)
  {
    hide Consistent;
    SessionFacts(db, sid);
    var s := RetireUnsubmitted(db, sid, Cancelled).sessions[sid];
    assert RetireRole(db, sid).value.sessions == db.sessions[sid := s];
    RetirementSound(db, sid, s, db.routed - {sid}, db.dismissed);
  }

  lemma RetireDeletedSound(db: Db, sid: SessionId, keepRole: bool)
    requires Consistent(db)
    ensures Sound(db, RetireDeleted(db, sid, keepRole), sid)
  {
    if sid in db.sessions {
      SessionFacts(db, sid);
      RetirementSound(db, sid, db.sessions[sid].(state := Superseded),
                      if keepRole then db.routed else db.routed - {sid}, db.dismissed + {ConversationGone(sid)});
    }
  }

  lemma TrackingSound(db: Db, sid: SessionId)
    requires Consistent(db)
    ensures Sound(db, RetireObservation(db, sid), sid) && Sound(db, RestoreRetired(db, sid), sid)
  {
    if sid in db.sessions {
      SessionFacts(db, sid);
      if RetireObservation(db, sid).Some? {
        RetirementSound(db, sid, db.sessions[sid].(state := Cancelled), db.routed,
                        db.dismissed + {TrackingGone(CurrentKey(db, sid))});
      }
      if RestoreRetired(db, sid).Some? {
        RetirementSound(db, sid, db.sessions[sid].(state := Observing), db.routed, db.dismissed);
      }
    }
  }

  // ---------------------------------------------------------------- new and deleted rows

  /** A committed preparation adds one row, for the session's next generation. */
  ghost predicate Adds(db: Db, after: Db, sid: SessionId, newId: OutboxId, request: Request, payload: Payload) {
    && sid in db.sessions && after.sessions.Keys == db.sessions.Keys
    && after.sessions[sid].current == db.sessions[sid].current + 1
    && (forall i <- db.sessions :: i != sid ==> after.sessions[i] == db.sessions[i])
    && newId !in db.outbox && after.outbox.Keys == db.outbox.Keys + {newId}
    && after.generations.Keys == db.generations.Keys + {GenKey(sid, after.sessions[sid].current)}
    && (forall o <- db.outbox :: after.outbox[o] == db.outbox[o])
    && var row := after.outbox[newId];
       row.state.Prepared? && row.session == sid && row.request == request && row.payload == payload
           && row.generation == after.sessions[sid].current
  }

  ghost predicate CurrentSettled(db: Db, sid: SessionId) {
    sid in db.sessions && var g := CurrentGeneration(db, sid); g.Some? ==> !Unsettled(g.value.state)
  }

  /** Every session the busy check lets through has settled its current generation. */
  lemma AcceptedIsSettled(db: Db, sid: SessionId, payload: Payload)
    requires Consistent(db) && sid in db.sessions
    requires AcceptsNewGeneration(db, sid, payload) && CanAdvance(db.sessions[sid].state, CurrentGeneration(db, sid))
    ensures CurrentSettled(db, sid)
  {
    SessionFacts(db, sid);
  }

  lemma OriginalIsSettled(db: Db, original: OutboxId, route: Route, lost: bool)
    requires original in db.outbox && UnresolvedOriginal(db, original, route, lost)
    requires db.sessions[db.outbox[original].session].current == db.outbox[original].generation
    ensures CurrentSettled(db, db.outbox[original].session)
  {}

  lemma PrepareOutboxKeeps(db: Db, sid: SessionId, request: Request, newId: OutboxId, payload: Payload,
                           original: Option<OutboxId>)
    requires Consistent(db) && PrepareOutbox(db, sid, request, newId, payload, original).Some?
             && CurrentSettled(db, sid)
    ensures var after := PrepareOutbox(db, sid, request, newId, payload, original).value;
            Consistent(after) && Adds(db, after, sid, newId, request, payload)
                && after.reservations == db.reservations && after.deletions == db.deletions
  {
    var after := PrepareOutbox(db, sid, request, newId, payload, original).value;
    assert RowsOk(after) by {
      forall o | o in after.outbox ensures RowOk(after, o) {
        if o in db.outbox { PreparedKeepsRow(db, sid, request, newId, payload, original, o); }
      }
    }
    assert SessionsOk(after) by {
      forall i | i in after.sessions
        ensures SessionOk(after, i)
      {
        PreparedKeepsSession(db, sid, request, newId, payload, original, i);
      }
    }
    assert GenerationsOk(after) by {
      forall k | k in after.generations
        ensures GenerationOk(after, k)
      {
        if k in db.generations { assert GenerationOk(db, k); }
      }
    }
    PreparedIsDistinct(db, sid, request, newId, payload, original);
    PreparedAdds(db, sid, request, newId, payload, original);
  }

  lemma PreparedAdds(db: Db, sid: SessionId, request: Request, newId: OutboxId, payload: Payload,
                     original: Option<OutboxId>)
    requires PrepareOutbox(db, sid, request, newId, payload, original).Some?
    ensures var after := PrepareOutbox(db, sid, request, newId, payload, original).value;
            Adds(db, after, sid, newId, request, payload) && after.reservations == db.reservations
                && after.deletions == db.deletions
  {}

  lemma PreparedKeepsSession(db: Db, sid: SessionId, request: Request, newId: OutboxId, payload: Payload,
                             original: Option<OutboxId>, i: SessionId)
    requires SessionsOk(db) && PrepareOutbox(db, sid, request, newId, payload, original).Some? && i in db.sessions
    ensures SessionOk(PrepareOutbox(db, sid, request, newId, payload, original).value, i)
  {
    assert SessionOk(db, i);
  }

  lemma PreparedIsDistinct(db: Db, sid: SessionId, request: Request, newId: OutboxId, payload: Payload,
                           original: Option<OutboxId>)
    requires RowsOk(db) && Distinct(db) && PrepareOutbox(db, sid, request, newId, payload, original).Some?
    ensures Distinct(PrepareOutbox(db, sid, request, newId, payload, original).value)
  {
    var after := PrepareOutbox(db, sid, request, newId, payload, original).value;
    forall a, b | a in after.outbox && b in after.outbox && SameOwner(after.outbox[a], after.outbox[b]) ensures a == b {
      if a in db.outbox { assert RowOk(db, a); }
      if b in db.outbox { assert RowOk(db, b); }
      if a in db.outbox && b in db.outbox { assert SameOwner(db.outbox[a], db.outbox[b]); }
    }
  }

  lemma PreparedKeepsRow(db: Db, sid: SessionId, request: Request, newId: OutboxId, payload: Payload,
                         original: Option<OutboxId>, o: OutboxId)
    requires RowsOk(db) && PrepareOutbox(db, sid, request, newId, payload, original).Some? && CurrentSettled(db, sid)
             && o in db.outbox
    ensures RowOk(PrepareOutbox(db, sid, request, newId, payload, original).value, o)
  {
    assert RowOk(db, o);
  }

  /** The successor row is prepared for its caller's decision and the reservation names it. */
  lemma PrepareSuccessorKeeps(db: Db, original: OutboxId, route: Route, request: Request, newId: OutboxId, hash: nat,
                              lost: bool)
    requires Consistent(db) && original in db.outbox && Reservation(original, route) !in db.reservations
    requires PrepareSuccessor(db, original, route, request, newId, hash, lost).Some?
    ensures var after := PrepareSuccessor(db, original, route, request, newId, hash, lost).value;
            var row, key := db.outbox[original], Reservation(original, route);
            && Consistent(after) && after.deletions == db.deletions
            && row.session in db.sessions && row.generation == db.sessions[row.session].current
            && Adds(db, after, row.session, newId, request, Payload(hash, None, Some(key)))
            && after.reservations == db.reservations[key := newId]
  {
    var row, key := db.outbox[original], Reservation(original, route);
    var payload := Payload(hash, None, Some(key));
    OriginalIsSettled(db, original, route, lost);
    PrepareOutboxKeeps(db, row.session, request, newId, payload, Some(original));
    var d := PrepareOutbox(db, row.session, request, newId, payload, Some(original)).value;
    var after := PrepareSuccessor(db, original, route, request, newId, hash, lost).value;
    MarkPreparedSound(d, newId);
    MarkPreparedMarksOne(d, newId);
    ReservationIsIrrelevant(MarkPrepared(d, newId).value, after.reservations);
  }

  function MarkPrepared(db: Db, oid: OutboxId): Option<Db>
    requires oid in db.outbox
  {
    Paired(db, oid, NoUpdate.(reason := Some(Some(AuthorizedResendPrepared)), error := Some(Some(PreparationRequired))),
           {Prepared}, Prepared, Fields(Some(PendingPreparation(false)), Some(Some(PreparationRequired)), Some(false)))
  }

  lemma MarkPreparedSound(db: Db, oid: OutboxId)
    requires Consistent(db) && oid in db.outbox
    ensures Sound(db, MarkPrepared(db, oid), db.outbox[oid].session)
  {
    RowFacts(db, oid);
    PairedSound(db, oid,
                NoUpdate.(reason := Some(Some(AuthorizedResendPrepared)), error := Some(Some(PreparationRequired))),
           {Prepared}, Prepared, Fields(Some(PendingPreparation(false)), Some(Some(PreparationRequired)), Some(false)));
  }

  lemma MarkPreparedMarksOne(db: Db, oid: OutboxId)
    requires oid in db.outbox && MarkPrepared(db, oid).Some?
    ensures var after := MarkPrepared(db, oid).value;
            after.outbox[oid].state.Prepared? && (forall o <- db.outbox :: o != oid ==> after.outbox[o] == db.outbox[o])
            && (forall i <- db.sessions :: after.sessions[i] == db.sessions[i])
  {}

  lemma ReservationIsIrrelevant(db: Db, reservations: map<Reservation, OutboxId>)
    requires Consistent(db)
    ensures Consistent(db.(reservations := reservations))
  {
    var after := db.(reservations := reservations);
    forall o | o in after.outbox ensures RowOk(after, o) { assert RowOk(db, o); }
    forall i | i in after.sessions ensures SessionOk(after, i) { assert SessionOk(db, i); }
    forall k | k in after.generations ensures GenerationOk(after, k) { assert GenerationOk(db, k); }
  }

  lemma DeletionIsIrrelevant(db: Db, deletions: set<ConversationId>)
    requires Consistent(db)
    ensures Consistent(db.(deletions := deletions))
  {
    var after := db.(deletions := deletions);
    forall o | o in after.outbox ensures RowOk(after, o) { assert RowOk(db, o); }
    forall i | i in after.sessions ensures SessionOk(after, i) { assert SessionOk(db, i); }
    forall k | k in after.generations ensures GenerationOk(after, k) { assert GenerationOk(db, k); }
  }

  lemma CreateSessionKeeps(db: Db, sid: SessionId, predecessor: Option<SessionId>)
    requires Consistent(db) && CreateSession(db, sid, predecessor).Some?
    ensures var after := CreateSession(db, sid, predecessor).value;
            && Consistent(after) && after.outbox == db.outbox && after.generations == db.generations
            && after.reservations == db.reservations && after.deletions == db.deletions
            && after.sessions.Keys == db.sessions.Keys + {sid}
            && (forall i <- db.sessions :: after.sessions[i].current == db.sessions[i].current)
  {
    var after := CreateSession(db, sid, predecessor).value;
    CreatedTables(db, sid, predecessor);
    assert RowsOk(after) by {
      forall o | o in after.outbox ensures RowOk(after, o) { CreatedKeepsRow(db, sid, predecessor, o); }
    }
    assert SessionsOk(after) by {
      forall i | i in after.sessions ensures SessionOk(after, i) { CreatedKeepsSession(db, sid, predecessor, i); }
    }
    assert GenerationsOk(after) by {
      forall k | k in after.generations
        ensures GenerationOk(after, k)
      {
        CreatedKeepsGeneration(db, sid, predecessor, k);
      }
    }
    assert Distinct(after);
  }

  lemma CreatedTables(db: Db, sid: SessionId, predecessor: Option<SessionId>)
    requires CreateSession(db, sid, predecessor).Some?
    ensures var after := CreateSession(db, sid, predecessor).value;
            && after.outbox == db.outbox && after.generations == db.generations
            && after.reservations == db.reservations && after.deletions == db.deletions
            && after.sessions.Keys == db.sessions.Keys + {sid}
            && (forall i <- db.sessions :: after.sessions[i].current == db.sessions[i].current)
  {}

  lemma CreatedKeepsGeneration(db: Db, sid: SessionId, predecessor: Option<SessionId>, k: GenKey)
    requires GenerationsOk(db) && CreateSession(db, sid, predecessor).Some? && k in db.generations
    ensures GenerationOk(CreateSession(db, sid, predecessor).value, k)
  {
    CreatedTables(db, sid, predecessor);
    assert GenerationOk(db, k);
  }

  lemma CreatedKeepsRow(db: Db, sid: SessionId, predecessor: Option<SessionId>, o: OutboxId)
    requires RowsOk(db) && CreateSession(db, sid, predecessor).Some? && o in db.outbox
    ensures RowOk(CreateSession(db, sid, predecessor).value, o)
  {
    assert RowOk(db, o);
  }

  lemma CreatedKeepsSession(db: Db, sid: SessionId, predecessor: Option<SessionId>, i: SessionId)
    requires SessionsOk(db) && GenerationsOk(db) && CreateSession(db, sid, predecessor).Some?
    requires i in CreateSession(db, sid, predecessor).value.sessions
    ensures SessionOk(CreateSession(db, sid, predecessor).value, i)
  {
    if i in db.sessions {
      assert SessionOk(db, i);
    } else {
      assert GenKey(sid, 0) in db.generations ==> GenerationOk(db, GenKey(sid, 0));
    }
  }

  lemma DeleteTeamKeeps(db: Db, team: set<SessionId>)
    requires Consistent(db)
    ensures var after := DeleteTeam(db, team);
            && Consistent(after) && after.reservations == db.reservations && after.deletions == db.deletions
            && after.outbox.Keys <= db.outbox.Keys && (forall o <- after.outbox :: after.outbox[o] == db.outbox[o])
            && (forall i <- after.sessions :: i in db.sessions && after.sessions[i] == db.sessions[i])
  {
    var after := DeleteTeam(db, team);
    assert RowsOk(after) by {
      forall o | o in after.outbox ensures RowOk(after, o) { assert RowOk(db, o); }
    }
    assert SessionsOk(after) by {
      forall i | i in after.sessions ensures SessionOk(after, i) { assert SessionOk(db, i); }
    }
    assert GenerationsOk(after) by {
      forall k | k in after.generations ensures GenerationOk(after, k) { assert GenerationOk(db, k); }
    }
  }

  lemma DeleteTeamCovers(db: Db, team: set<SessionId>)
    requires Covered(db)
    ensures Covered(DeleteTeam(db, team))
  {
    var after := DeleteTeam(db, team);
    forall k | k in after.generations ensures HasRow(after, k) {
      assert HasRow(db, k);
      var oid :| oid in db.outbox && Owns(db.outbox[oid], k);
      assert oid in after.outbox;
    }
  }

  lemma AddedCovers(db: Db, after: Db, sid: SessionId, newId: OutboxId, request: Request, payload: Payload)
    requires Covered(db) && Adds(db, after, sid, newId, request, payload)
    ensures Covered(after)
  {
    forall k | k in after.generations ensures HasRow(after, k) {
      if k in db.generations {
        assert HasRow(db, k);
        var oid :| oid in db.outbox && Owns(db.outbox[oid], k);
        assert oid in after.outbox && Owns(after.outbox[oid], k);
      } else {
        assert Owns(after.outbox[newId], k);
      }
    }
  }
}
