/**
 What ends a generation for good, and that nothing takes such an end back: no later step of the service, of
 its observers, of routing or of startup.
 */
module SubmissionFinality {
  import opened Wrappers
  import opened Storage
  import opened Submission
  import opened SubmissionInvariants
  import opened SubmissionTransactions
  import opened SubmissionMeaning
  import opened SubmissionRuns
  import opened SubmissionSafety
  import opened SubmissionTheorems

  predicate Retired(s: SessionState) { s.Cancelled? || s.Superseded? }

  /**
   The failed preparation of a ready session may be reopened: it failed for want of a browser, or for a
   page that could not be told from a duplicate, and the duplicates were or can still be reconciled.
   */
  predicate MayReopen(db: Db, oid: OutboxId)
    requires oid in db.outbox && db.outbox[oid].session in db.sessions
  {
    var row := db.outbox[oid];
    var g := CurrentGeneration(db, row.session);
    && PageFound(db, row.session)
    && (|| row.error == Some(BrowserUnavailable)
        || (row.error == Some(PageIdentityUnverified) &&
            (Comparable(db, row.session) || (g.Some? && g.value.reason == Some(DuplicatePagePreparationRecovered)))))
  }

  /**
   It is an authorized successor, its session still has its role and its page can be found: its
   authorization may be repeated.
   */
  predicate MayBeApproved(db: Db, oid: OutboxId)
    requires oid in db.outbox
  {
    var sid := db.outbox[oid].session;
    db.outbox[oid].payload.authorized.Some? && sid in db.routed && sid in db.sessions && PageFound(db, sid)
  }

  /**
   While the generation is current nothing makes it live again. Its prompt was sent, it has ended, and it is
   completed or startup does not observe it again. Or it was never sent, and was retired or failed with
   nothing left to reopen it; `asked` is whether a resumption waits to replay it, which turns a retired
   preparation into a failed one. `shut` adds that its session takes no other request either.
   */
  ghost predicate Over(db: Db, oid: OutboxId, shut: bool, asked: bool)
    requires oid in db.outbox
  {
    var row := db.outbox[oid];
    var k := GenKey(row.session, row.generation);
    && row.session in db.sessions && k in db.generations && row.generation <= db.sessions[row.session].current
    && var s, g := db.sessions[row.session], db.generations[k];
       if row.prompt then
         && (s.current == row.generation ==> IsTerminalState(s.state) && (g.completed || Dismissed(db, row.session)))
         && (shut ==> s.current == row.generation && Retired(s.state)
                      && g.reason != Some(ManualFollowupReconciled) && g.reason != Some(ApprovedContinuationPrepared))
       else
         s.current == row.generation ==>
           if row.state.FailedPreSubmit? then
             IsTerminalState(s.state)
             || (s.state.Ready? && !MayReopen(db, oid) && TellsNoDuplicate(row) && !MayBeApproved(db, oid))
           else IsTerminalState(s.state) && !(MayBeApproved(db, oid) && asked)
  }

  /** The snapshot stored with a failed request never tells of reconciled duplicates. */
  predicate TellsNoDuplicate(row: Outbox) {
    row.state.FailedPreSubmit? ==> StoredReason(row.result) != Some(DuplicatePagePreparationRecovered)
  }

  ghost predicate Keeps(r: Option<Db>, oid: OutboxId, shut: bool, asked: bool) {
    r.Some? ==> oid in r.value.outbox && Over(r.value, oid, shut, asked)
  }

  lemma OverIsTerminal(db: Db, oid: OutboxId, shut: bool, asked: bool)
    requires Consistent(db) && oid in db.outbox && Over(db, oid, shut, asked) && Current(db, oid)
    ensures Terminal(db, db.outbox[oid].session) && (shut && db.outbox[oid].prompt ==> Busy(db, db.outbox[oid].session))
  {
    RowFacts(db, oid);
  }

  // ---------------------------------------------------------------- writes of another request

  /** Nothing was written but the row, its session and its generation, which is the session's current one. */
  ghost predicate Touches(db: Db, after: Db, o: OutboxId) {
    && o in db.outbox && o in after.outbox && Current(db, o)
    && var sid := db.outbox[o].session;
       var k := GenKey(sid, db.outbox[o].generation);
       && sid in after.sessions && after.sessions == db.sessions[sid := after.sessions[sid]]
       && after.sessions[sid].current == db.sessions[sid].current
       && (if k in after.generations then after.generations == db.generations[k := after.generations[k]]
           else after.generations == db.generations)
       && after.outbox == db.outbox[o := after.outbox[o]]
       && after.routed == db.routed && after.dismissed == db.dismissed
  }

  lemma OtherRowKeeps(db: Db, after: Db, o: OutboxId, oid: OutboxId, shut: bool, asked: bool)
    requires oid in db.outbox && Over(db, oid, shut, asked) && Touches(db, after, o) && o != oid
    requires db.outbox[o].session != db.outbox[oid].session || db.outbox[o].generation != db.outbox[oid].generation
    ensures Keeps(Some(after), oid, shut, asked)
  {}

  lemma PairedTouches(db: Db, o: OutboxId, u: Update, expected: set<SubmissionState>, next: SubmissionState, f: Fields)
    requires o in db.outbox
    ensures var r := Paired(db, o, u, expected, next, f); r.Some? ==> Touches(db, r.value, o)
  {}

  lemma SnapshotTouches(db: Db, o: OutboxId, u: Update, expected: set<SubmissionState>, next: SubmissionState,
                        error: Option<ErrorCode>, prompt: bool)
    requires o in db.outbox
    ensures var r := PairedWithSnapshot(db, o, u, expected, next, error, prompt); r.Some? ==> Touches(db, r.value, o)
  {}

  lemma PreparationTouches(db: Db, o: OutboxId, page: PageKey, cooldown: bool)
    requires o in db.outbox
    ensures FillComposer(db, o, page).Some? ==> Touches(db, FillComposer(db, o, page).value, o)
    ensures AttemptSubmit(db, o, page).Some? ==> Touches(db, AttemptSubmit(db, o, page).value, o)
    ensures RecordPreparationRequired(db, o, cooldown).Some? ==>
              Touches(db, RecordPreparationRequired(db, o, cooldown).value, o)
  {
    hide Touches, Paired, Current;
    forall u, expected, next, f
      ensures var r := Paired(db, o, u, expected, next, f); r.Some? ==> Touches(db, r.value, o)
    {
      PairedTouches(db, o, u, expected, next, f);
    }
  }

  lemma OutcomeTouches(db: Db, o: OutboxId, page: PageKey, error: ErrorCode, reason: Reason, ack: Acknowledgement)
    requires o in db.outbox
    ensures CompleteSubmitted(db, o, page, ack).Some? ==> Touches(db, CompleteSubmitted(db, o, page, ack).value, o)
    ensures RecordUnknown(db, o, reason).Some? ==> Touches(db, RecordUnknown(db, o, reason).value, o)
    ensures FailPreSubmit(db, o, error).Some? ==> Touches(db, FailPreSubmit(db, o, error).value, o)
  {
    hide Touches, PairedWithSnapshot, Current;
    forall u, expected, next, e, p
      ensures var r := PairedWithSnapshot(db, o, u, expected, next, e, p); r.Some? ==> Touches(db, r.value, o)
    {
      SnapshotTouches(db, o, u, expected, next, e, p);
    }
  }

  lemma PageTouches(db: Db, o: OutboxId, page: PageKey)
    requires o in db.outbox && PersistPage(db, o, page).Some?
    ensures Touches(db, PersistPage(db, o, page).value, o)
  {}

  /** A reopening of any request but this one, or a refused one of this one. */
  lemma ReopenKeeps(db: Db, o: OutboxId, oid: OutboxId, reason: Reason, provider: ProviderState, transport: Transport,
                    inspect: bool, shut: bool, asked: bool)
    requires Consistent(db) && oid in db.outbox && Over(db, oid, shut, asked) && o in db.outbox && o != oid
    ensures Keeps(Reopen(db, o, reason, provider, transport, inspect), oid, shut, asked)
  {
    var r := Reopen(db, o, reason, provider, transport, inspect);
    assert !SameOwner(db.outbox[o], db.outbox[oid]);
    if r.Some? {
      PairedTouches(db, o,
        NoUpdate.(session := Some(Submitting), provider := Some(provider), transport := Some(transport),
                  state := Some(Prepared),
                  reason := Some(Some(reason)), error := Some(Some(PreparationRequired)), prompt := Some(false)),
        {FailedPreSubmit}, Prepared,
            Fields(Some(PendingPreparation(inspect)), Some(Some(PreparationRequired)), Some(false)));
      OtherRowKeeps(db, r.value, o, oid, shut, asked);
    }
  }

  // ---------------------------------------------------------------- the operations of an idle session

  lemma ReplayKeeps(db: Db, o: OutboxId, oid: OutboxId, shut: bool, asked: bool)
    requires Consistent(db) && oid in db.outbox && Over(db, oid, shut, asked) && o in db.outbox
    requires o == oid && db.outbox[o].payload.authorized.Some? ==> asked
    ensures Keeps(Replay(db, o), oid, shut, asked)
  {
    hide Consistent;
    RowFacts(db, oid);
    if o != oid {
      DistinctRows(db, o, oid);
      OutcomeTouches(db, o, 0, SubmissionUnknownError, RestartAfterSubmitAttempt, Acknowledgement(0, 0, None));
      hide Touches, FailPreSubmit, RecordUnknown;
      if Replay(db, o).Some? && Replay(db, o).value != db {
        OtherRowKeeps(db, Replay(db, o).value, o, oid, shut, asked);
      }
    }
  }

  lemma DistinctRows(db: Db, o: OutboxId, oid: OutboxId)
    requires Consistent(db) && o in db.outbox && oid in db.outbox && o != oid
    ensures db.outbox[o].session != db.outbox[oid].session || db.outbox[o].generation != db.outbox[oid].generation
  {
    assert !SameOwner(db.outbox[o], db.outbox[oid]);
  }

  lemma DecisionKeeps(db: Db, o: OutboxId, oid: OutboxId, shut: bool, asked: bool)
    requires Consistent(db) && oid in db.outbox && Over(db, oid, shut, asked) && o in db.outbox
    ensures Keeps(RecordChoice(db, o), oid, shut, asked) && Keeps(CancelPreparation(db, o), oid, shut, asked)
  {
    hide Consistent;
    RowFacts(db, oid);
    if o != oid { DistinctRows(db, o, oid); }
  }

  lemma InspectionKeepsOwn(db: Db, oid: OutboxId, recover: bool, shut: bool, asked: bool)
    requires Consistent(db) && oid in db.outbox && Over(db, oid, shut, asked)
    ensures Keeps(InspectPreparation(db, oid, recover), oid, shut, asked)
  {
    hide Consistent, Reopen;
    RowFacts(db, oid);
  }

  lemma InspectionKeeps(db: Db, o: OutboxId, oid: OutboxId, recover: bool, shut: bool, asked: bool)
    requires Consistent(db) && oid in db.outbox && Over(db, oid, shut, asked) && o in db.outbox
    ensures Keeps(InspectPreparation(db, o, recover), oid, shut, asked)
  {
    hide Consistent, Reopen, AwaitsDecision, Reopenable, Over;
    if o == oid {
      InspectionKeepsOwn(db, oid, recover, shut, asked);
    } else {
      ReopenKeeps(db, o, oid, BrowserPreparationRecovered, ProviderState.Pending, Fresh, false, shut, asked);
      MarkedKeeps(db, o, oid, shut, asked);
    }
  }

  lemma MarkedKeeps(db: Db, o: OutboxId, oid: OutboxId, shut: bool, asked: bool)
    requires oid in db.outbox && Over(db, oid, shut, asked) && o != oid
    ensures forall expected, next, f :: Keeps(Transition(db, o, expected, next, f), oid, shut, asked)
    ensures Keeps(Some(db), oid, shut, asked) && Keeps(None, oid, shut, asked)
  {}

  lemma RecoveryKeeps(db: Db, o: OutboxId, oid: OutboxId, ack: Acknowledgement, shut: bool, asked: bool)
    requires Consistent(db) && oid in db.outbox && Over(db, oid, shut, asked) && o in db.outbox
    ensures Keeps(RecoverAcknowledgement(db, o, ack), oid, shut, asked)
  {
    hide Consistent;
    RowFacts(db, oid);
    RowFacts(db, o);
    if o != oid { DistinctRows(db, o, oid); }
  }

  lemma ContinuationKeeps(db: Db, o: OutboxId, oid: OutboxId, shut: bool, asked: bool)
    requires Consistent(db) && oid in db.outbox && Over(db, oid, shut, asked) && o in db.outbox
    ensures Keeps(PrepareContinuation(db, o), oid, shut, asked)
  {
    hide Consistent;
    RowFacts(db, oid);
    RowFacts(db, o);
    if o != oid { DistinctRows(db, o, oid); }
  }

  lemma FailureKeeps(db: Db, o: OutboxId, oid: OutboxId, timeout: bool, shut: bool, asked: bool)
    requires Consistent(db) && oid in db.outbox && Over(db, oid, shut, asked) && o in db.outbox
    ensures Keeps(ReconcileFailure(db, o, timeout), oid, shut, asked)
  {
    hide Consistent;
    RowFacts(db, oid);
    RowFacts(db, o);
    if o != oid { DistinctRows(db, o, oid); }
  }

  lemma FollowupKeeps(db: Db, sid: SessionId, oid: OutboxId, tracking: bool, shut: bool, asked: bool)
    requires Consistent(db) && oid in db.outbox && Over(db, oid, shut, asked)
    ensures Keeps(ReconcileFollowup(db, sid, tracking), oid, shut, asked)
  {
    hide Consistent;
    RowFacts(db, oid);
  }

  lemma StopKeeps(db: Db, sid: SessionId, gen: nat, oid: OutboxId, shut: bool, asked: bool)
    requires Consistent(db) && oid in db.outbox && Over(db, oid, shut, asked)
    ensures Keeps(CompleteStop(db, sid, gen), oid, shut, asked)
  {
    hide Consistent;
    RowFacts(db, oid);
  }

  lemma ObservationKeeps(db: Db, sid: SessionId, gen: nat, oid: OutboxId, o: Observation, shut: bool, asked: bool)
    requires Consistent(db) && oid in db.outbox && Over(db, oid, shut, asked)
    ensures Keeps(Observe(db, sid, gen, o), oid, shut, asked)
  {
    hide Consistent;
    RowFacts(db, oid);
  }

  lemma PageStateKeeps(db: Db, sid: SessionId, oid: OutboxId, page: Option<PageKey>, transport: Transport, code: nat,
                       error: Option<ErrorCode>, dup: bool, shut: bool, asked: bool)
    requires Consistent(db) && oid in db.outbox && Over(db, oid, shut, asked)
    ensures Keeps(RecordPageState(db, sid, page, transport, code, error, dup), oid, shut, asked)
  {
    hide Consistent;
    RowFacts(db, oid);
  }

  lemma RetirementKeeps(db: Db, sid: SessionId, oid: OutboxId, keepRole: bool, shut: bool, asked: bool)
    requires Consistent(db) && oid in db.outbox && Over(db, oid, shut, asked)
    ensures Keeps(RetireDeleted(db, sid, keepRole), oid, shut, asked)
            && Keeps(RetireObservation(db, sid), oid, shut, asked)
            && Keeps(RestoreRetired(db, sid), oid, shut, asked)
  {
    hide Consistent;
    RowFacts(db, oid);
  }

  lemma RoutingKeeps(db: Db, sid: SessionId, oid: OutboxId, predecessor: Option<SessionId>, shut: bool, asked: bool)
    requires Consistent(db) && oid in db.outbox && Over(db, oid, shut, asked)
    ensures Keeps(RetireRole(db, sid), oid, shut, asked) && Keeps(CreateSession(db, sid, predecessor), oid, shut, asked)
  {
    hide Consistent;
    RowFacts(db, oid);
  }

  lemma PreSubmitPassKeepsOwn(db: Db, oid: OutboxId, shut: bool, asked: bool)
    requires Consistent(db) && oid in db.outbox && Over(db, oid, shut, asked)
    ensures Keeps(PreSubmitPass(db, oid), oid, shut, asked)
  {
    hide Consistent;
    RowFacts(db, oid);
  }

  lemma PreSubmitPassKeeps(db: Db, o: OutboxId, oid: OutboxId, shut: bool, asked: bool)
    requires Consistent(db) && oid in db.outbox && Over(db, oid, shut, asked) && o in db.outbox
    ensures Keeps(PreSubmitPass(db, o), oid, shut, asked)
  {
    hide Consistent, RecordUnknown, RecordInterrupted, AwaitsDecision, Over, Touches;
    if o == oid {
      PreSubmitPassKeepsOwn(db, oid, shut, asked);
    } else {
      DistinctRows(db, o, oid);
      OutcomeTouches(db, o, 0, BrowserUnavailable, RestartInconsistent, Acknowledgement(0, 0, None));
      InterruptionTouches(db, o);
      var r := PreSubmitPass(db, o);
      if r.Some? && r.value != db && Current(db, o) {
        MarkTouches(db, o);
        OtherRowKeeps(db, r.value, o, oid, shut, asked);
      }
    }
  }

  lemma InterruptionTouches(db: Db, o: OutboxId)
    requires o in db.outbox
    ensures RecordInterrupted(db, o).Some? ==> Touches(db, RecordInterrupted(db, o).value, o)
  {
    hide Touches, PairedWithSnapshot, Current;
    forall u, expected, next, e, p
      ensures var r := PairedWithSnapshot(db, o, u, expected, next, e, p); r.Some? ==> Touches(db, r.value, o)
    {
      SnapshotTouches(db, o, u, expected, next, e, p);
    }
  }

  lemma MarkTouches(db: Db, o: OutboxId)
    requires o in db.outbox && Current(db, o)
    ensures var r := Transition(db, o, {Prepared}, Prepared,
                                Fields(Some(PendingPreparation(true)), Some(Some(PreparationRequired)), Some(false)));
            r.Some? ==> Touches(db, r.value, o)
  {}

  lemma SubmissionPassKeeps(db: Db, o: OutboxId, oid: OutboxId, shut: bool, asked: bool)
    requires Consistent(db) && oid in db.outbox && Over(db, oid, shut, asked) && o in db.outbox
    ensures Keeps(SubmissionPass(db, o), oid, shut, asked)
  {
    hide Consistent;
    RowFacts(db, oid);
    if o != oid { DistinctRows(db, o, oid); }
  }

  lemma DiagnosticsKeepsOwn(db: Db, oid: OutboxId, shut: bool, asked: bool)
    requires Consistent(db) && oid in db.outbox && Over(db, oid, shut, asked)
    ensures Keeps(DiagnosticsPass(db, oid), oid, shut, asked)
  {
    hide Consistent;
    RowFacts(db, oid);
  }

  /** Another row's diagnosis is told in its own generation. */
  lemma UpdateKeepsOther(db: Db, o: OutboxId, oid: OutboxId, u: Update, shut: bool, asked: bool)
    requires oid in db.outbox && Over(db, oid, shut, asked) && o in db.outbox
    requires db.outbox[o].session != db.outbox[oid].session || db.outbox[o].generation != db.outbox[oid].generation
    ensures Keeps(UpdateCurrentGeneration(db, db.outbox[o].session, db.outbox[o].generation, u), oid, shut, asked)
  {}

  lemma DiagnosticsKeeps(db: Db, o: OutboxId, oid: OutboxId, shut: bool, asked: bool)
    requires Consistent(db) && oid in db.outbox && Over(db, oid, shut, asked) && o in db.outbox
    ensures Keeps(DiagnosticsPass(db, o), oid, shut, asked)
  {
    hide Consistent, Over, UpdateCurrentGeneration;
    if o == oid {
      DiagnosticsKeepsOwn(db, oid, shut, asked);
    } else {
      DistinctRows(db, o, oid);
      forall u
        ensures Keeps(UpdateCurrentGeneration(db, db.outbox[o].session, db.outbox[o].generation, u), oid, shut, asked)
      {
        UpdateKeepsOther(db, o, oid, u, shut, asked);
      }
    }
  }

  lemma PerformKeeps(db: Db, op: Operation, oid: OutboxId, shut: bool, asked: bool)
    requires Consistent(db) && oid in db.outbox && Over(db, oid, shut, asked) && Target(db, op).Some?
    ensures Keeps(Perform(db, op), oid, shut, asked)
  {
    hide Consistent, Over, Keeps, RecordChoice, CancelPreparation, InspectPreparation, RecoverAcknowledgement,
      PrepareContinuation, ReconcileFailure, ReconcileFollowup, CompleteStop, Observe, RecordPageState, RetireDeleted,
      RetireObservation;
    match op
    case Choose(o) => DecisionKeeps(db, o, oid, shut, asked);
    case Cancel(o) => DecisionKeeps(db, o, oid, shut, asked);
    case Inspect(o, b) => InspectionKeeps(db, o, oid, b, shut, asked);
    case Recover(o, ack) => RecoveryKeeps(db, o, oid, ack, shut, asked);
    case Continue(o) => ContinuationKeeps(db, o, oid, shut, asked);
    case Fail(o, timeout) => FailureKeeps(db, o, oid, timeout, shut, asked);
    case Follow(sid, tracking) => FollowupKeeps(db, sid, oid, tracking, shut, asked);
    case Stop(sid, gen) => StopKeeps(db, sid, gen, oid, shut, asked);
    case Watch(sid, gen, o) => ObservationKeeps(db, sid, gen, oid, o, shut, asked);
    case PageState(sid, page, transport, code, error, dup) =>
      PageStateKeeps(db, sid, oid, page, transport, code, error, dup, shut, asked);
    case DeleteConversation(sid, keepRole) => RetirementKeeps(db, sid, oid, keepRole, shut, asked);
    case StopTracking(sid) => RetirementKeeps(db, sid, oid, false, shut, asked);
  }

  // ---------------------------------------------------------------- every step

  /** A reload that reopens nothing, or the approval of another request. */
  predicate Harmless(f: Flow, row: Outbox) {
    (f.Refreshing? && !f.seen) || (f.Approving? && row.payload.authorized != Some(Reservation(f.oid, f.route)))
  }

  /** The generation is over, and no operation of its session in progress makes it live again. */
  ghost predicate Finished(s: State, oid: OutboxId, shut: bool) {
    && oid in s.db.outbox && Over(s.db, oid, shut, oid in s.waiting)
    && var sid := s.db.outbox[oid].session;
       Current(s.db, oid) && sid in s.flows ==> Harmless(s.flows[sid], s.db.outbox[oid])
  }

  /** The tables were written by an operation that ends at once, and the other flows went on as they were. */
  lemma WrittenStaysFinished(s: State, after: State, sid: SessionId, oid: OutboxId, shut: bool)
    requires Finished(s, oid, shut) && oid in after.db.outbox && Over(after.db, oid, shut, oid in after.waiting)
    requires after.db.outbox[oid].session == s.db.outbox[oid].session
             && after.db.outbox[oid].generation == s.db.outbox[oid].generation
             && after.db.outbox[oid].payload == s.db.outbox[oid].payload
    requires s.db.sessions[s.db.outbox[oid].session].current <= after.db.sessions[s.db.outbox[oid].session].current
    requires after.flows - {sid} == s.flows - {sid}
    requires sid in after.flows && Current(after.db, oid) && s.db.outbox[oid].session == sid ==>
               Harmless(after.flows[sid], after.db.outbox[oid])
    ensures Finished(after, oid, shut)
  {
    var own := s.db.outbox[oid].session;
    if own in after.flows && own != sid {
      assert own in after.flows - {sid} && (after.flows - {sid})[own] == (s.flows - {sid})[own];
    }
  }

  /** The submission in progress is of another generation. */
  lemma FlowStaysFinished(s: State, after: State, sid: SessionId, oid: OutboxId, shut: bool)
    requires Inv(s) && Finished(s, oid, shut) && At(s, sid) && !s.flows[sid].Refreshing? && !s.flows[sid].Approving?
    requires after.db == s.db || Touches(s.db, after.db, s.flows[sid].oid)
    requires after.flows - {sid} == s.flows - {sid} && after.waiting == s.waiting
    ensures Finished(after, oid, shut)
  {
    hide Consistent, Covered, CallsFit, ReservationsFit, PhaseFits;
    var o := s.flows[sid].oid;
    assert StageFits(s, sid, s.flows[sid]);
    if after.db != s.db {
      DistinctRows(s.db, o, oid) by { assert o != oid; }
      OtherRowKeeps(s.db, after.db, o, oid, shut, oid in s.waiting);
    }
    WrittenStaysFinished(s, after, sid, oid, shut);
  }

  predicate OfFlow(e: Event) {
    e.PageOpened? || e.ComposerReady? || e.RecordAttempt? || e.PreparationPaused? || e.PreparationFailed?
        || e.Acknowledged? || e.Ambiguous?
  }

  /** Each of them writes its own request, or nothing. */
  lemma FlowStepTouches(s: State, e: Event)
    requires OfFlow(e) && Step(s, e) != s
    ensures At(s, e.sid) && !s.flows[e.sid].Refreshing? && !s.flows[e.sid].Approving?
    ensures Step(s, e).flows - {e.sid} == s.flows - {e.sid} && Step(s, e).waiting == s.waiting
    ensures Step(s, e).db == s.db || Touches(s.db, Step(s, e).db, s.flows[e.sid].oid)
  {
    hide Touches, PersistPage, FillComposer, AttemptSubmit, RecordPreparationRequired, FailPreSubmit,
      CompleteSubmitted, RecordUnknown, StepSend, StepAuthorize, StepApproved, StepResume, StepAskReplay,
      StepReplayed, StepCall, StepBeginRefresh, StepPassRow, StepPassEnd, Perform, AfterRefresh, Replay;
    var o := s.flows[e.sid].oid;
    if o in s.db.outbox {
      match e
      case PageOpened(_, page) => if PersistPage(s.db, o, page).Some? { PageTouches(s.db, o, page); }
      case ComposerReady(_, page) => PreparationTouches(s.db, o, page, false);
      case RecordAttempt(_, page) => PreparationTouches(s.db, o, page, false);
      case PreparationPaused(_, cooldown) => PreparationTouches(s.db, o, 0, cooldown);
      case PreparationFailed(_, error) =>
        OutcomeTouches(s.db, o, 0, error, SubmitUnacknowledged, Acknowledgement(0, 0, None));
      case Acknowledged(_, page, ack) =>
        OutcomeTouches(s.db, o, page, SubmissionUnknownError, SubmitUnacknowledged, ack);
      case Ambiguous(_, reason) =>
        OutcomeTouches(s.db, o, 0, SubmissionUnknownError, reason, Acknowledgement(0, 0, None));
    }
    assert Step(s, e).flows - {e.sid} == s.flows - {e.sid};
  }

  lemma FlowStepStaysFinished(s: State, e: Event, oid: OutboxId, shut: bool)
    requires Inv(s) && Finished(s, oid, shut) && Step(s, e) != s
    requires OfFlow(e)
    ensures Finished(Step(s, e), oid, shut)
  {
    hide Inv, Finished, Touches, Step;
    FlowStepTouches(s, e);
    FlowStaysFinished(s, Step(s, e), e.sid, oid, shut);
  }

  /** An operation that ends at once wrote the tables. */
  lemma IdleWriteStaysFinished(s: State, r: Option<Db>, oid: OutboxId, sid: SessionId, shut: bool)
    requires Finished(s, oid, shut) && Keeps(r, oid, shut, oid in s.waiting) && Sound(s.db, r, sid)
    ensures Finished(Wrote(s, r), oid, shut)
  {
    hide Consistent, Over;
    if r.Some? {
      assert RowAdvances(s.db.outbox[oid], r.value.outbox[oid], sid);
      OverHasSession(s.db, oid, shut, oid in s.waiting);
      OverHasSession(r.value, oid, shut, oid in s.waiting);
      WrittenStaysFinished(s, Wrote(s, r), sid, oid, shut);
    }
  }

  lemma OverHasSession(db: Db, oid: OutboxId, shut: bool, asked: bool)
    requires oid in db.outbox && Over(db, oid, shut, asked)
    ensures db.outbox[oid].session in db.sessions
            && db.outbox[oid].generation <= db.sessions[db.outbox[oid].session].current
  {}

  lemma ActStaysFinished(s: State, op: Operation, oid: OutboxId, shut: bool)
    requires Inv(s) && Finished(s, oid, shut) && Target(s.db, op).Some?
    ensures Finished(Wrote(s, Perform(s.db, op)), oid, shut)
  {
    hide Consistent, Over, Perform, Covered, FlowsFit, CallsFit, ReservationsFit, PhaseFits;
    PerformSound(s.db, op);
    PerformKeeps(s.db, op, oid, shut, oid in s.waiting);
    IdleWriteStaysFinished(s, Perform(s.db, op), oid, Target(s.db, op).value, shut);
  }

  lemma RoutedStaysFinished(s: State, sid: SessionId, predecessor: Option<SessionId>, oid: OutboxId, shut: bool)
    requires Inv(s) && Finished(s, oid, shut)
    ensures Finished(Wrote(s, CreateSession(s.db, sid, predecessor)), oid, shut)
    ensures Finished(Wrote(s, RetireRole(s.db, sid)), oid, shut)
            && Finished(Wrote(s, RestoreRetired(s.db, sid)), oid, shut)
  {
    hide Consistent, Covered, FlowsFit, CallsFit, ReservationsFit, PhaseFits, Over, RetireRole, CreateSession,
      RestoreRetired;
    RoutingKeeps(s.db, sid, oid, predecessor, shut, oid in s.waiting);
    RetirementKeeps(s.db, sid, oid, false, shut, oid in s.waiting);
    OverHasSession(s.db, oid, shut, oid in s.waiting);
    if CreateSession(s.db, sid, predecessor).Some? {
      CreateSessionKeeps(s.db, sid, predecessor);
      WrittenStaysFinished(s, Wrote(s, CreateSession(s.db, sid, predecessor)), sid, oid, shut);
    }
    if RetireRole(s.db, sid).Some? {
      RetireRoleSound(s.db, sid) by { assert sid in s.db.sessions by { RetiredExists(s.db, sid); } }
      IdleWriteStaysFinished(s, RetireRole(s.db, sid), oid, sid, shut);
    }
    TrackingSound(s.db, sid);
    IdleWriteStaysFinished(s, RestoreRetired(s.db, sid), oid, sid, shut);
  }

  lemma RetiredExists(db: Db, sid: SessionId)
    requires RetireRole(db, sid).Some?
    ensures sid in db.sessions
  {}

  lemma SendStaysFinished(s: State, sid: SessionId, request: Request, newId: OutboxId, payload: Payload,
                          oid: OutboxId, shut: bool)
    requires Inv(s) && Finished(s, oid, shut)
    ensures Finished(StepSend(s, sid, request, newId, payload), oid, shut)
  {
    hide Consistent, Covered, FlowsFit, CallsFit, ReservationsFit, PhaseFits, Replay, PrepareOutbox;
    var after := StepSend(s, sid, request, newId, payload);
    var existing := Find(s.db, request);
    if after == s {
    } else if existing.Some? {
      ReplaySound(s.db, existing.value);
      ReplayKeeps(s.db, existing.value, oid, shut, oid in s.waiting);
      IdleWriteStaysFinished(s, Replay(s.db, existing.value), oid, s.db.outbox[existing.value].session, shut);
    } else {
      PreparedKeepsOver(s.db, sid, request, newId, payload, oid, shut, oid in s.waiting);
      OverHasSession(s.db, oid, shut, oid in s.waiting);
      WrittenStaysFinished(s, after, sid, oid, shut);
    }
  }

  /**
   A new generation of the session leaves this one behind, and there is none after a stop of a generation whose prompt
   was sent.
   */
  lemma PreparedKeepsOver(db: Db, sid: SessionId, request: Request, newId: OutboxId, payload: Payload, oid: OutboxId,
                          shut: bool, asked: bool)
    requires Consistent(db) && oid in db.outbox && Over(db, oid, shut, asked)
             && PrepareOutbox(db, sid, request, newId, payload, None).Some?
    ensures var after := PrepareOutbox(db, sid, request, newId, payload, None).value;
            && oid in after.outbox && after.outbox[oid] == db.outbox[oid] && Over(after, oid, shut, asked)
            && sid in db.sessions && sid in after.sessions
            && after.sessions[sid].current == db.sessions[sid].current + 1
            && (forall i <- db.sessions :: i != sid ==> i in after.sessions && after.sessions[i] == db.sessions[i])
  {
    hide Consistent;
    RowFacts(db, oid);
  }

  lemma ReopenSuccessorKeeps(db: Db, original: OutboxId, key: Reservation, oid: OutboxId, shut: bool, asked: bool)
    requires Consistent(db) && oid in db.outbox && Over(db, oid, shut, asked) && original in db.outbox
             && key in db.reservations
    requires Current(db, oid) && db.outbox[oid].session == db.outbox[original].session ==>
               db.outbox[oid].payload.authorized != Some(key)
    ensures Keeps(ReopenSuccessor(db, original, key), oid, shut, asked)
  {
    hide Consistent, Reopen;
    var successor := db.reservations[key];
    if successor in db.outbox && successor != oid {
      ReopenKeeps(db, successor, oid, AuthorizedResendPrepared, ProviderState.Unknown, Unavailable, true, shut, asked);
    }
  }

  lemma PrepareSuccessorKeepsOver(db: Db, original: OutboxId, route: Route, request: Request, newId: OutboxId,
                                  hash: nat, lost: bool, oid: OutboxId, shut: bool, asked: bool)
    requires Consistent(db) && oid in db.outbox && Over(db, oid, shut, asked) && original in db.outbox
             && Reservation(original, route) !in db.reservations
    requires PrepareSuccessor(db, original, route, request, newId, hash, lost).Some?
    ensures Keeps(PrepareSuccessor(db, original, route, request, newId, hash, lost), oid, shut, asked)
    ensures var after, sid := PrepareSuccessor(db, original, route, request, newId, hash, lost).value,
            db.outbox[original].session;
            && sid in after.sessions && after.outbox[oid] == db.outbox[oid]
            && (forall i <- db.sessions :: i in after.sessions && db.sessions[i].current <= after.sessions[i].current)
  {
    hide Consistent;
    RowFacts(db, oid);
    RowFacts(db, original);
    if original != oid { DistinctRows(db, original, oid); }
  }

  /** No approval begins in a session whose current generation is over. */
  lemma OverIsNotApproved(s: State, original: OutboxId, route: Route, lost: bool, oid: OutboxId, shut: bool)
    requires Inv(s) && Finished(s, oid, shut) && original in s.db.outbox
    requires Current(s.db, oid) && s.db.outbox[oid].session == s.db.outbox[original].session
    ensures !MayApprove(s.db, original, route, lost)
  {
    hide Consistent, Covered, FlowsFit, CallsFit, PhaseFits;
    RowFacts(s.db, oid);
    assert AuthorizationFits(s, oid);
    var key := Reservation(original, route);
    if MayApprove(s.db, original, route, lost) && key in s.db.reservations && s.db.reservations[key] != oid {
      DistinctRows(s.db, s.db.reservations[key], oid);
    }
  }

  lemma AuthorizeStaysFinished(s: State, original: OutboxId, route: Route, request: Request, hash: nat, lost: bool,
                               oid: OutboxId, shut: bool)
    requires Inv(s) && Finished(s, oid, shut)
    ensures Finished(StepAuthorize(s, original, route, request, hash, lost), oid, shut)
  {
    hide Inv, Over, MayApprove;
    var after := StepAuthorize(s, original, route, request, hash, lost);
    if after != s {
      OverHasSession(s.db, oid, shut, oid in s.waiting);
      if Current(s.db, oid) && s.db.outbox[oid].session == s.db.outbox[original].session {
        OverIsNotApproved(s, original, route, lost, oid, shut);
      }
      WrittenStaysFinished(s, after, s.db.outbox[original].session, oid, shut);
    }
  }

  lemma ApprovedStaysFinished(s: State, original: OutboxId, route: Route, request: Request, newId: OutboxId,
                              hash: nat, lost: bool, oid: OutboxId, shut: bool)
    requires Inv(s) && Finished(s, oid, shut) && original in s.db.outbox
    requires Current(s.db, oid) && s.db.outbox[oid].session == s.db.outbox[original].session ==>
               s.db.outbox[oid].payload.authorized != Some(Reservation(original, route))
    ensures Finished(StepApproved(s, original, route, request, newId, hash, lost), oid, shut)
  {
    hide Consistent, Covered, FlowsFit, CallsFit, ReservationsFit, PhaseFits, ReopenSuccessor;
    var after := StepApproved(s, original, route, request, newId, hash, lost);
    if after != s {
      var sid, key := s.db.outbox[original].session, Reservation(original, route);
      if key in s.db.reservations {
        ReopenSuccessorSound(s.db, original, key);
        ReopenSuccessorKeeps(s.db, original, key, oid, shut, oid in s.waiting);
        IdleWriteStaysFinished(s, ReopenSuccessor(s.db, original, key), oid, sid, shut);
      } else {
        PrepareSuccessorKeepsOver(s.db, original, route, request, newId, hash, lost, oid, shut, oid in s.waiting);
        WrittenStaysFinished(s, after, sid, oid, shut);
      }
    }
  }

  lemma EndApprovalStaysFinished(s: State, sid: SessionId, newId: OutboxId, oid: OutboxId, shut: bool)
    requires Inv(s) && Finished(s, oid, shut) && At(s, sid) && s.flows[sid].Approving?
    ensures Finished(Step(s, Approved(sid, newId)), oid, shut)
  {
    hide Inv, Over, StepApproved;
    var f := s.flows[sid];
    var t := Ended(s, sid, None);
    EndedKeepsInv(s, sid, None);
    AbortedStaysFinished(s, sid, oid, shut);
    if f.oid in t.db.outbox {
      FlowOfSession(s, sid);
      ApprovedStaysFinished(t, f.oid, f.route, f.request, newId, f.hash, f.lostContinuation, oid, shut);
    } else {
      NothingToApprove(t, f.oid, f.route, f.request, newId, f.hash, f.lostContinuation);
    }
  }

  lemma NothingToApprove(s: State, original: OutboxId, route: Route, request: Request, newId: OutboxId, hash: nat,
                         lost: bool)
    requires original !in s.db.outbox
    ensures StepApproved(s, original, route, request, newId, hash, lost) == s
  {}

  lemma FlowOfSession(s: State, sid: SessionId)
    requires Inv(s) && sid in s.flows && s.flows[sid].oid in s.db.outbox
    ensures s.db.outbox[s.flows[sid].oid].session == sid
  {
    hide Consistent, Covered, CallsFit, ReservationsFit, PhaseFits;
    assert StageFits(s, sid, s.flows[sid]);
  }

  lemma ResumeStaysFinished(s: State, o: OutboxId, oid: OutboxId, shut: bool)
    requires Inv(s) && Finished(s, oid, shut)
    ensures Finished(StepResume(s, o), oid, shut)
  {
    hide Consistent, Covered, FlowsFit, CallsFit, ReservationsFit, PhaseFits;
    var after := StepResume(s, o);
    if after != s {
      RowFacts(s.db, oid);
      if o != oid { DistinctRows(s.db, o, oid); }
    }
  }

  lemma AskReplayStaysFinished(s: State, o: OutboxId, oid: OutboxId, shut: bool)
    requires Inv(s) && Finished(s, oid, shut)
    ensures Finished(StepAskReplay(s, o), oid, shut)
  {
    hide Consistent, Covered, FlowsFit, CallsFit, ReservationsFit, PhaseFits;
    RowFacts(s.db, oid);
  }

  lemma ReplayedStaysFinished(s: State, o: OutboxId, oid: OutboxId, shut: bool)
    requires Inv(s) && Finished(s, oid, shut)
    ensures Finished(StepReplayed(s, o), oid, shut)
  {
    hide Consistent, Covered, FlowsFit, CallsFit, ReservationsFit, PhaseFits, Replay, Over;
    if StepReplayed(s, o) != s {
      ReplaySound(s.db, o);
      ReplayKeeps(s.db, o, oid, shut, oid in s.waiting);
      IdleWriteStaysFinished(s, Replay(s.db, o), oid, s.db.outbox[o].session, shut);
      LessWaitingStaysFinished(Wrote(s, Replay(s.db, o)), s.waiting - {o}, oid, shut);
    }
  }

  lemma LessWaitingStaysFinished(s: State, waiting: set<OutboxId>, oid: OutboxId, shut: bool)
    requires Finished(s, oid, shut) && waiting <= s.waiting
    ensures Finished(s.(waiting := waiting), oid, shut)
  {}

  lemma BeginRefreshStaysFinished(s: State, o: OutboxId, crash: bool, oid: OutboxId, shut: bool)
    requires Inv(s) && Finished(s, oid, shut)
    ensures Finished(StepBeginRefresh(s, o, crash), oid, shut)
  {
    hide Consistent, Covered, FlowsFit, CallsFit, ReservationsFit, PhaseFits;
    var after := StepBeginRefresh(s, o, crash);
    if after != s {
      RowFacts(s.db, oid);
      if o != oid { DistinctRows(s.db, o, oid); }
      WrittenStaysFinished(s, after, s.db.outbox[o].session, oid, shut);
    }
  }

  lemma EndRefreshStaysFinished(s: State, sid: SessionId, oid: OutboxId, shut: bool)
    requires Inv(s) && Finished(s, oid, shut) && At(s, sid) && s.flows[sid].Refreshing?
    ensures Finished(Step(s, EndRefresh(sid)), oid, shut)
  {
    hide Consistent, Covered, CallsFit, ReservationsFit, PhaseFits, Over, Reopen;
    var after := Step(s, EndRefresh(sid));
    var o := s.flows[sid].oid;
    var reason := if s.flows[sid].duplicate then DuplicatePagePreparationRecovered else CrashedPagePreparationRecovered;
    assert StageFits(s, sid, s.flows[sid]);
    OverHasSession(s.db, oid, shut, oid in s.waiting);
    if after.db != s.db {
      assert o != oid by { if o == oid { ReloadReopensCurrent(s, sid); } }
      ReopenKeeps(s.db, o, oid, reason, ProviderState.Pending, Fresh, true, shut, oid in s.waiting);
      AfterRefreshSound(s.db, o, true, s.flows[sid].duplicate);
      assert RowAdvances(s.db.outbox[oid], after.db.outbox[oid], s.db.outbox[o].session);
    }
    WrittenStaysFinished(s, after, sid, oid, shut);
  }

  lemma ReloadReopensCurrent(s: State, sid: SessionId)
    requires At(s, sid) && s.flows[sid].Refreshing? && s.flows[sid].oid in s.db.outbox
    requires Step(s, EndRefresh(sid)).db != s.db
    ensures s.flows[sid].seen && Current(s.db, s.flows[sid].oid)
  {}

  lemma PassRowStaysFinished(s: State, o: OutboxId, oid: OutboxId, shut: bool)
    requires Inv(s) && Finished(s, oid, shut)
    ensures Finished(StepPassRow(s, o), oid, shut)
  {
    hide Consistent, Covered, CallsFit, ReservationsFit, PreSubmitPass, DiagnosticsPass, SubmissionPass, Over;
    var after := StepPassRow(s, o);
    if after != s {
      PassRowWrites(s, o);
      PreSubmitPassKeeps(s.db, o, oid, shut, oid in s.waiting);
      DiagnosticsKeeps(s.db, o, oid, shut, oid in s.waiting);
      SubmissionPassKeeps(s.db, o, oid, shut, oid in s.waiting);
      OverHasSession(s.db, oid, shut, oid in s.waiting);
      assert RowAdvances(s.db.outbox[oid], after.db.outbox[oid], s.db.outbox[o].session);
      WrittenStaysFinished(s, after, s.db.outbox[o].session, oid, shut);
    }
  }

  lemma TeamStaysFinished(s: State, team: set<SessionId>, oid: OutboxId, shut: bool)
    requires Finished(s, oid, shut) && s.db.outbox[oid].session !in team
    ensures Finished(s.(db := DeleteTeam(s.db, team)), oid, shut)
  {}

  /** A step that deletes another team, or none. */
  predicate SparesStep(e: Event, sid: SessionId) { e.EndTeam? ==> sid !in e.team }

  lemma StepStaysFinished(s: State, e: Event, oid: OutboxId, shut: bool)
    requires Inv(s) && oid in s.db.outbox && Finished(s, oid, shut) && SparesStep(e, s.db.outbox[oid].session)
    ensures Finished(Step(s, e), oid, shut)
  {
    hide Inv, Finished, Perform, CreateSession, RetireRole, RestoreRetired, DeleteTeam, Over, StepSend, StepAuthorize,
      StepApproved, StepResume, StepAskReplay, StepReplayed, StepOpened, StepComposer, StepAttempt, StepCall,
      StepAcknowledged, StepBeginRefresh, StepPassRow;
    if Step(s, e) == s {
    } else if OfFlow(e) {
      FlowStepStaysFinished(s, e, oid, shut);
    } else {
      match e
      case NewSession(sid, predecessor) => RoutedStaysFinished(s, sid, predecessor, oid, shut);
      case EndRole(sid) => RoutedStaysFinished(s, sid, None, oid, shut);
      case RestoreSession(sid) => RoutedStaysFinished(s, sid, None, oid, shut);
      case DeletionAttempted(c) => DeletionStaysFinished(s, s.db.deletions + {c}, oid, shut);
      case EndTeam(team) => TeamStaysFinished(s, team, oid, shut);
      case Send(sid, request, newId, payload) => SendStaysFinished(s, sid, request, newId, payload, oid, shut);
      case AuthorizeSuccessor(original, route, request, hash, lost) =>
        AuthorizeStaysFinished(s, original, route, request, hash, lost, oid, shut);
      case Approved(sid, newId) => EndApprovalStaysFinished(s, sid, newId, oid, shut);
      case Resume(o) => ResumeStaysFinished(s, o, oid, shut);
      case AskReplay(o) => AskReplayStaysFinished(s, o, oid, shut);
      case Replayed(o) => ReplayedStaysFinished(s, o, oid, shut);
      case CallSubmitOnce(sid) => CallStaysFinished(s, sid, oid, shut);
      case Aborted(sid) => AbortedStaysFinished(s, sid, oid, shut);
      case BeginRefresh(o, crash) => BeginRefreshStaysFinished(s, o, crash, oid, shut);
      case EndRefresh(sid) => if At(s, sid) && s.flows[sid].Refreshing? { EndRefreshStaysFinished(s, sid, oid, shut); }
      case Act(op) => ActStaysFinished(s, op, oid, shut);
      case Crash => CrashStaysFinished(s, oid, shut);
      case PassRow(o) => PassRowStaysFinished(s, o, oid, shut);
      case PassEnd => PhaseStaysFinished(s, Step(s, e).phase, oid, shut);
    }
  }

  lemma CrashStaysFinished(s: State, oid: OutboxId, shut: bool)
    requires Finished(s, oid, shut)
    ensures Finished(s.(flows := map[], turn := None, phase := Restoring, waiting := {}), oid, shut)
  {}

  lemma PhaseStaysFinished(s: State, phase: Phase, oid: OutboxId, shut: bool)
    requires Finished(s, oid, shut)
    ensures Finished(s.(phase := phase), oid, shut)
  {}

  lemma DeletionStaysFinished(s: State, deletions: set<ConversationId>, oid: OutboxId, shut: bool)
    requires Finished(s, oid, shut)
    ensures Finished(s.(db := s.db.(deletions := deletions)), oid, shut)
  {}

  lemma CallStaysFinished(s: State, sid: SessionId, oid: OutboxId, shut: bool)
    requires Inv(s) && Finished(s, oid, shut) && StepCall(s, sid) != s
    ensures Finished(StepCall(s, sid), oid, shut)
  {
    hide Inv, Over;
    assert StepCall(s, sid).flows - {sid} == s.flows - {sid};
    FlowStaysFinished(s, StepCall(s, sid), sid, oid, shut);
  }

  lemma AbortedStaysFinished(s: State, sid: SessionId, oid: OutboxId, shut: bool)
    requires Finished(s, oid, shut)
    ensures Finished(Ended(s, sid, None), oid, shut)
  {}

  // ---------------------------------------------------------------- every run

  /** The run deletes no team of the session. */
  predicate Spares(run: seq<Event>, sid: SessionId) {
    forall k :: 0 <= k < |run| ==> SparesStep(run[k], sid)
  }

  lemma {:induction false} RunStaysFinished(s: State, run: seq<Event>, oid: OutboxId, shut: bool)
    requires Inv(s) && Finished(s, oid, shut) && Spares(run, s.db.outbox[oid].session)
    ensures Inv(Exec(s, run)) && Finished(Exec(s, run), oid, shut)
    ensures Moves(s, Exec(s, run))
    decreases |run|
  {
    hide Inv, Finished, Step;
    NoMove(s);
    if run != [] {
      var next := Step(s, run[0]);
      StepKeepsInv(s, run[0]);
      FinishedRow(s, oid, shut);
      StepStaysFinished(s, run[0], oid, shut);
      FinishedRow(next, oid, shut);
      RowsAreKnown(s);
      assert RowMoves(s.db.outbox[oid], next.db.outbox[oid]);
      RunStaysFinished(next, run[1..], oid, shut);
      MovesThenMoves(s, next, Exec(next, run[1..]));
    }
  }

  lemma FinishedRow(s: State, oid: OutboxId, shut: bool)
    requires Finished(s, oid, shut)
    ensures oid in s.db.outbox
  {}

  lemma RowsAreKnown(s: State)
    requires Inv(s)
    ensures s.db.outbox.Keys <= s.used
  {}

  // ---------------------------------------------------------------- an authorized successor and its original

  /** An authorized successor and the request it replaces belong to one client and one session. */
  ghost predicate OriginalFits(db: Db, oid: OutboxId)
    requires oid in db.outbox
  {
    var row := db.outbox[oid];
    row.payload.authorized.Some? ==>
      var original := row.payload.authorized.value.original;
      && original in db.outbox && db.outbox[original].session == row.session
      && db.outbox[original].request.client == row.request.client
  }

  ghost predicate OriginalsFit(db: Db) { forall oid <- db.outbox :: OriginalFits(db, oid) }

  lemma OnlyRequestsDraw(s: State, e: Event)
    requires !e.Send? && !e.Approved?
    ensures Step(s, e).used == s.used
  {}

  lemma StepKeepsOriginals(s: State, e: Event)
    requires Inv(s) && OriginalsFit(s.db)
    ensures OriginalsFit(Step(s, e).db)
  {
    hide Inv, Step, Moves, KeepsRows, OriginalsFit;
    if e.EndTeam? {
      EndTeamKeepsOriginals(s, e.team);
    } else {
      var after := Step(s, e);
      StepKeepsInv(s, e);
      RowsAreKnown(s);
      RowsAreKnown(after);
      if !e.Send? && !e.Approved? { OnlyRequestsDraw(s, e); }
      forall oid | oid in after.db.outbox && oid !in s.used
        ensures OriginalFits(after.db, oid)
      {
        NewRowFits(s, e, oid);
      }
      RowsKeepOriginals(s, after);
    }
  }

  lemma RowsKeepOriginals(s: State, after: State)
    requires Moves(s, after) && KeepsRows(s, after) && s.db.outbox.Keys <= s.used && OriginalsFit(s.db)
    requires forall oid <- after.db.outbox :: oid !in s.used ==> OriginalFits(after.db, oid)
    ensures OriginalsFit(after.db)
  {
    forall oid | oid in after.db.outbox ensures OriginalFits(after.db, oid) {
      if oid in s.used { assert OriginalFits(s.db, oid) && RowMoves(s.db.outbox[oid], after.db.outbox[oid]); }
    }
  }

  lemma EndTeamKeepsOriginals(s: State, team: set<SessionId>)
    requires OriginalsFit(s.db)
    ensures OriginalsFit(Step(s, EndTeam(team)).db)
  {
    var after := Step(s, EndTeam(team)).db;
    forall oid | oid in after.outbox ensures OriginalFits(after, oid) { assert OriginalFits(s.db, oid); }
  }

  /** Only an approval adds an authorized row, for its own original. */
  lemma NewRowFits(s: State, e: Event, oid: OutboxId)
    requires Inv(s) && oid in Step(s, e).db.outbox && oid !in s.used
    requires oid in Step(s, e).used && (!e.Send? && !e.Approved? ==> Step(s, e).used == s.used)
    ensures OriginalFits(Step(s, e).db, oid)
  {
    hide Consistent, Covered, FlowsFit, CallsFit, ReservationsFit, PhaseFits, StepSend, StepApproved;
    match e
    case Send(sid, request, newId, payload) => SentRowFits(s, sid, request, newId, payload);
    case Approved(sid, newId) =>
      if At(s, sid) && s.flows[sid].Approving? {
        var f := s.flows[sid];
        SuccessorFits(Ended(s, sid, None), f.oid, f.route, f.request, newId, f.hash, f.lostContinuation);
      }
    case _ =>
  }

  lemma SentRowFits(s: State, sid: SessionId, request: Request, newId: OutboxId, payload: Payload)
    requires s.db.outbox.Keys <= s.used
    ensures var after := StepSend(s, sid, request, newId, payload);
            forall oid :: oid in after.db.outbox && oid in after.used && oid !in s.used ==> OriginalFits(after.db, oid)
  {
    hide Replay, AcceptsNewGeneration, CanAdvance;
  }

  lemma SuccessorFits(s: State, original: OutboxId, route: Route, request: Request, newId: OutboxId, hash: nat,
                      lost: bool)
    requires Consistent(s.db) && s.db.outbox.Keys <= s.used
    ensures var after := StepApproved(s, original, route, request, newId, hash, lost);
            forall oid :: oid in after.db.outbox && oid in after.used && oid !in s.used ==> OriginalFits(after.db, oid)
  {
    hide Consistent, ReopenSuccessor, PrepareSuccessor;
    var after := StepApproved(s, original, route, request, newId, hash, lost);
    if after != s {
      var key := Reservation(original, route);
      if key in s.db.reservations {
        ReopenedAddsNothing(s.db, original, route, request, newId, hash, lost);
      } else {
        PrepareSuccessorKeeps(s.db, original, route, request, newId, hash, lost);
      }
    }
  }

  lemma ReopenedAddsNothing(db: Db, original: OutboxId, route: Route, request: Request, newId: OutboxId, hash: nat,
                            lost: bool)
    requires Consistent(db) && original in db.outbox && Reservation(original, route) in db.reservations
    ensures var r := PrepareSuccessor(db, original, route, request, newId, hash, lost); r.Some? ==>
              r.value.outbox.Keys == db.outbox.Keys
  {
    hide Consistent, ReopenSuccessor;
    ReopenSuccessorSound(db, original, Reservation(original, route));
  }

  lemma {:induction false} OriginalsReach(s: State, run: seq<Event>)
    requires Inv(s) && OriginalsFit(s.db)
    ensures OriginalsFit(Exec(s, run).db)
    decreases |run|
  {
    hide Inv, OriginalsFit, Step;
    if run != [] {
      StepKeepsInv(s, run[0]);
      StepKeepsOriginals(s, run[0]);
      OriginalsReach(Step(s, run[0]), run[1..]);
    }
  }

  // ---------------------------------------------------------------- what a stop ends

  /** The row's generation is current and has not ended. */
  ghost predicate Live(db: Db, oid: OutboxId) {
    oid in db.outbox && Current(db, oid) && !Terminal(db, db.outbox[oid].session)
  }

  /** A confirmed stop of the row's generation can be recorded now. */
  predicate MayStop(s: State, oid: OutboxId) {
    oid in s.db.outbox && Idle(s, s.db.outbox[oid].session) && Current(s.db, oid)
  }

  function Stopping(db: Db, oid: OutboxId): Event
    requires oid in db.outbox
  {
    Act(Stop(db.outbox[oid].session, db.outbox[oid].generation))
  }

  /**
   Nothing could undo a stop: the prompt was sent, its preparation has failed, it is no authorized successor whose
   session
   still has its role, or no resumption waits to replay it.
   */
  predicate Ends(s: State, oid: OutboxId)
    requires oid in s.db.outbox
  {
    s.db.outbox[oid].prompt || s.db.outbox[oid].state.FailedPreSubmit? || !MayBeApproved(s.db, oid) || oid !in s.waiting
  }

  lemma ActsWhenIdle(s: State, op: Operation)
    requires Target(s.db, op).Some? && Idle(s, Target(s.db, op).value)
    ensures Step(s, Act(op)) == Wrote(s, Perform(s.db, op))
  {
    hide Perform;
  }

  lemma StopFinishes(s: State, oid: OutboxId, shut: bool)
    requires Inv(s) && MayStop(s, oid) && Ends(s, oid)
    ensures Finished(Step(s, Stopping(s.db, oid)), oid, shut) && Step(s, Stopping(s.db, oid)).db.outbox == s.db.outbox
  {
    hide Consistent, Covered, FlowsFit, CallsFit, ReservationsFit, PhaseFits, Step;
    ActsWhenIdle(s, Stop(s.db.outbox[oid].session, s.db.outbox[oid].generation));
    RowFacts(s.db, oid);
  }

  /**
   A confirmed stop that nothing could undo is final, over every later run until its team is deleted: the
   generation is never live again, and if its prompt had been sent its session never takes another request.
   */
  lemma {:induction false} StopIsFinal(run: seq<Event>, more: seq<Event>, oid: OutboxId)
    requires var s := Exec(Start, run);
             MayStop(s, oid) && Ends(s, oid) && Spares(more, s.db.outbox[oid].session)
    ensures var s := Exec(Start, run);
            var t := Exec(Step(s, Stopping(s.db, oid)), more);
            && oid in t.db.outbox && !Live(t.db, oid)
            && (s.db.outbox[oid].prompt ==>
                Current(t.db, oid) && Terminal(t.db, t.db.outbox[oid].session) && Busy(t.db, t.db.outbox[oid].session))
  {
    hide Inv, Step, Moves, Ends, Spares;
    var s := Exec(Start, run);
    Reachable(run);
    StepKeepsInv(s, Stopping(s.db, oid));
    StopFinishes(s, oid, true);
    RunStaysFinished(Step(s, Stopping(s.db, oid)), more, oid, true);
    FinishedStaysDead(Step(s, Stopping(s.db, oid)), Exec(Step(s, Stopping(s.db, oid)), more), oid, true);
  }

  lemma FinishedStaysDead(s: State, t: State, oid: OutboxId, shut: bool)
    requires Inv(s) && Inv(t) && Finished(t, oid, shut) && Moves(s, t) && oid in s.db.outbox
    ensures oid in t.db.outbox && !Live(t.db, oid)
    ensures shut && s.db.outbox[oid].prompt ==>
              Current(t.db, oid) && Terminal(t.db, t.db.outbox[oid].session) && Busy(t.db, t.db.outbox[oid].session)
  {
    hide Consistent, Covered, FlowsFit, CallsFit, ReservationsFit, PhaseFits;
    assert RowMoves(s.db.outbox[oid], t.db.outbox[oid]);
    RowFacts(s.db, oid);
    RowFacts(t.db, oid);
    if Current(t.db, oid) { OverIsTerminal(t.db, oid, shut, oid in t.waiting); }
  }
}
