/**
 The operations on a request that is not being submitted: exactly when a consistent store accepts each of them, and
 what it leaves.
 */
module SubmissionDecisions {
  import opened Wrappers
  import opened Storage
  import opened Submission
  import opened SubmissionInvariants
  import opened SubmissionTransactions
  import opened SubmissionMeaning
  import opened SubmissionOutcomes
  import Requests = SubmissionRequests

  /** The request waits for its caller's decision: it was not retired meanwhile. */
  ghost predicate Waits(db: Db, oid: OutboxId) {
    && OfCurrent(db, oid) && db.outbox[oid].state == Prepared && db.outbox[oid].error == Some(PreparationRequired)
    && db.sessions[db.outbox[oid].session].state == Submitting
  }

  lemma WaitsExactlyWhen(db: Db, oid: OutboxId)
    requires Consistent(db) && oid in db.outbox
    ensures AwaitsDecision(db, oid) <==> Waits(db, oid)
  {
    RowFacts(db, oid);
  }

  /** The row's stored result is all that changes. */
  function WithResult(db: Db, oid: OutboxId, result: Stored): Db
    requires oid in db.outbox
  {
    db.(outbox := db.outbox[oid := db.outbox[oid].(result := result)])
  }

  /** A choice is recorded for a waiting request and no other; the request still waits, and needs no inspection. */
  lemma ChoiceIsRecordedExactlyWhen(db: Db, oid: OutboxId)
    requires Consistent(db) && oid in db.outbox
    ensures RecordChoice(db, oid)
            == if Waits(db, oid) then Some(WithResult(db, oid, PendingPreparation(false))) else None
  {
    hide Consistent;
    WaitsExactlyWhen(db, oid);
    RowFacts(db, oid);
  }

  /** A waiting request, and no other, can be cancelled: it then has failed, with nothing of it kept. */
  lemma CancelsExactlyWhen(db: Db, oid: OutboxId)
    requires Consistent(db) && oid in db.outbox
    ensures CancelPreparation(db, oid).Some? <==> Waits(db, oid)
    ensures Waits(db, oid) ==>
              var row := db.outbox[oid];
              CancelPreparation(db, oid).value ==
                Write(db, oid,
                      db.sessions[row.session].(state := Ready, provider := ProviderState.Error,
                                                transport := Unavailable),
                      db.generations[CurrentKey(db, row.session)].(state := FailedPreSubmit,
                        reason := Some(PreparationCancelledByCaller), error := Some(PreparationCancelled)),
                      row.(state := FailedPreSubmit, result := NoResult, error := Some(PreparationCancelled)))
  {
    hide Consistent;
    WaitsExactlyWhen(db, oid);
    RowFacts(db, oid);
  }

  /** The request failed before it was sent, and its session is ready. */
  ghost predicate FailedReady(db: Db, oid: OutboxId) {
    && OfCurrent(db, oid) && db.outbox[oid].state == FailedPreSubmit
    && db.sessions[db.outbox[oid].session].state == Ready
  }

  lemma FailedReadyExactlyWhen(db: Db, oid: OutboxId)
    requires Consistent(db) && oid in db.outbox
    ensures Reopenable(db, oid) <==> FailedReady(db, oid)
  {
    RowFacts(db, oid);
  }

  /**
   An inspection needs the page. It reopens a request that failed for want of a browser if it was asked to, and
   otherwise is for a waiting request, which then needs no further inspection.
   */
  lemma InspectsExactlyWhen(db: Db, oid: OutboxId, recover: bool)
    requires Consistent(db) && oid in db.outbox
    ensures var reopen := recover && FailedReady(db, oid) && db.outbox[oid].error == Some(BrowserUnavailable);
            InspectPreparation(db, oid, recover) ==
              if !(db.outbox[oid].session in db.sessions && db.sessions[db.outbox[oid].session].page.Some?) then None
              else if reopen
              then Some(Requests.Reopened(db, oid, BrowserPreparationRecovered, ProviderState.Pending, Fresh, false))
              else if !Waits(db, oid) then None
              else if db.outbox[oid].result == PendingPreparation(true)
              then Some(WithResult(db, oid, PendingPreparation(false))) else Some(db)
  {
    hide Consistent, Reopen, Requests.Reopened, AwaitsDecision, Reopenable;
    RowFacts(db, oid);
    WaitsExactlyWhen(db, oid);
    FailedReadyExactlyWhen(db, oid);
    Requests.ReopenLeaves(db, oid, BrowserPreparationRecovered, ProviderState.Pending, Fresh, false);
    if Waits(db, oid) { WaitingRow(db, oid); }
  }

  lemma WaitingRow(db: Db, oid: OutboxId)
    requires Consistent(db) && oid in db.outbox && Waits(db, oid)
    ensures db.outbox[oid].state == Prepared && !db.outbox[oid].prompt
            && db.outbox[oid].error == Some(PreparationRequired)
  {
    RowFacts(db, oid);
  }

  /**
   Replaying a request answers from what was recorded: only an attempt without an outcome becomes ambiguous, and only
   a preparation nobody decides any more fails.
   */
  lemma ReplayLeaves(db: Db, oid: OutboxId)
    requires Consistent(db) && oid in db.outbox
    ensures var row := db.outbox[oid];
            var undecided := (row.state == Prepared && !Waits(db, oid)) || row.state == ComposerFilled;
            && (row.state == SubmitAttempted || undecided ==> OfCurrent(db, oid))
            && Replay(db, oid) == Some(
                 if row.state == SubmitAttempted then LeftAmbiguous(db, oid, RestartAfterSubmitAttempt)
                 else if undecided then Left(db, oid, None, NotSent(SubmissionUnknownError))
                 else db)
  {
    hide Consistent, RecordUnknown, FailPreSubmit, Left, LeftAmbiguous, AwaitsDecision, Waits;
    WaitsExactlyWhen(db, oid);
    if Waits(db, oid) { WaitingRow(db, oid); }
    if db.outbox[oid].state.SubmitAttempted? { AmbiguityRecords(db, oid, RestartAfterSubmitAttempt); }
    if db.outbox[oid].state.Prepared? || db.outbox[oid].state.ComposerFilled? {
      FailureLeaves(db, oid, SubmissionUnknownError);
    }
  }

  /** The failure was on a page that could not be told from a duplicate, and the duplicates were reconciled since. */
  ghost predicate AfterDuplicates(db: Db, oid: OutboxId) {
    && OfCurrent(db, oid) && db.outbox[oid].error == Some(PageIdentityUnverified)
    && db.generations[CurrentKey(db, db.outbox[oid].session)].reason == Some(DuplicatePagePreparationRecovered)
  }

  /**
   A reload may reopen a request that failed before it was sent if the page is proven to be its own: after duplicates
   were reconciled, or for want of a browser after the renderer crashed.
   */
  lemma ReloadReopensExactlyWhen(db: Db, oid: OutboxId, crash: bool)
    requires Consistent(db) && oid in db.outbox
    ensures RefreshMayReopen(db, oid, crash) <==>
              FailedReady(db, oid) &&
              (AfterDuplicates(db, oid) || (crash && db.outbox[oid].error == Some(BrowserUnavailable)))
    ensures FailedReady(db, oid) ==> (DuplicateRecovered(db, oid) <==> AfterDuplicates(db, oid))
  {
    hide Consistent, Reopenable;
    RowFacts(db, oid);
    FailedReadyExactlyWhen(db, oid);
  }

  /** Before the reload a waiting request is marked for inspection; after it, what was seen reopenable reopens. */
  lemma ReloadLeaves(db: Db, oid: OutboxId, seen: bool, duplicate: bool)
    requires Consistent(db) && oid in db.outbox
    ensures BeforeRefresh(db, oid) == Some(
              if db.outbox[oid].state == Prepared && db.outbox[oid].error == Some(PreparationRequired)
              then WithResult(db, oid, PendingPreparation(true)) else db)
    ensures var failed := db.outbox[oid].state == FailedPreSubmit && Current(db, oid);
            && (failed ==> OfCurrent(db, oid))
            && AfterRefresh(db, oid, seen, duplicate) ==
                 if !seen then Some(db)
                 else if !failed then None
                 else Some(Requests.Reopened(db, oid, if duplicate then DuplicatePagePreparationRecovered
                                             else CrashedPagePreparationRecovered, ProviderState.Pending, Fresh, true))
  {
    hide Consistent, Reopen, Requests.Reopened;
    RowFacts(db, oid);
    Requests.ReopenLeaves(db, oid, if duplicate then DuplicatePagePreparationRecovered
                          else CrashedPagePreparationRecovered, ProviderState.Pending, Fresh, true);
  }

  // ---------------------------------------------------------------- resolving a request that was sent

  /** The session's current generation. */
  function Now(db: Db, sid: SessionId): Generation
    requires sid in db.sessions && CurrentKey(db, sid) in db.generations
  {
    db.generations[CurrentKey(db, sid)]
  }

  /** The session and its current generation rewritten, and nothing else. */
  function Rewritten(db: Db, sid: SessionId, s: Session, g: Generation): Db
    requires sid in db.sessions
  {
    db.(sessions := db.sessions[sid := s], generations := db.generations[CurrentKey(db, sid) := g])
  }

  /** The session has not ended, and its current generation did not fail before it was sent. */
  ghost predicate Running(db: Db, sid: SessionId) {
    && sid in db.sessions && !IsTerminalState(db.sessions[sid].state)
    && CurrentKey(db, sid) in db.generations && Now(db, sid).state != FailedPreSubmit
  }

  /** An acknowledged request whose session still has its role, its page and its conversation. */
  ghost predicate Answerable(db: Db, oid: OutboxId) {
    && OfCurrent(db, oid) && db.outbox[oid].state == SubmissionState.Submitted
    && var sid := db.outbox[oid].session;
       sid in db.routed && db.sessions[sid].page.Some? && db.sessions[sid].conversation.Some?
  }

  /** The turn failed by a time-out that was reconciled. */
  ghost predicate TimedOut(g: Generation) {
    g.reason == Some(MessageTimeoutReconciled) && g.error == Some(ExecutionFailed)
  }

  /**
   Recovery promotes exactly an ambiguous request of a live session with a page, on a message its session does not
   know, and binds it to the identities it was given.
   */
  lemma RecoversExactlyWhen(db: Db, oid: OutboxId, ack: Submission.Acknowledgement)
    requires Consistent(db) && oid in db.outbox
    ensures var row := db.outbox[oid];
            var may := && OfCurrent(db, oid) && row.state == SubmissionUnknown && Running(db, row.session)
                       && db.sessions[row.session].page.Some? && !MessageKnown(db, row.session, ack.message);
            RecoverAcknowledgement(db, oid, ack) ==
              if !may then Some(db)
              else Some(Write(db, oid,
                     db.sessions[row.session].(state := SessionState.Submitted, provider := Generating,
                                               transport := Fresh, conversation := Some(ack.conversation)),
                     Now(db, row.session).(state := SubmissionState.Submitted, userMessage := Some(ack.message),
                                           userTurn := ack.turn, reason := Some(AcknowledgementRecovered),
                                           error := None),
                     row.(state := SubmissionState.Submitted, error := None,
                          result := StoredSnapshot(Some(AcknowledgementRecovered), None, Fresh))))
  {
    hide Consistent, MessageKnown;
    RowFacts(db, oid);
    var r := RecoverAcknowledgement(db, oid, ack);
    if r.Some? && r.value != db {
      var row := db.outbox[oid];
      var g := Now(db, row.session).(state := SubmissionState.Submitted, userMessage := Some(ack.message),
                                     userTurn := ack.turn, reason := Some(AcknowledgementRecovered), error := None);
      assert r.value.generations == db.generations[CurrentKey(db, row.session) := g];
    }
  }

  /**
   An approved continuation retires exactly an acknowledged, unanswered turn of a live session; a turn whose time-out
   was reconciled needs nothing more.
   */
  lemma ContinuesExactlyWhen(db: Db, oid: OutboxId)
    requires Consistent(db) && oid in db.outbox
    ensures var sid := db.outbox[oid].session;
            var may := Answerable(db, oid) && Now(db, sid).userMessage.Some?;
            var live := may && Running(db, sid) && Now(db, sid).response.None? && !Now(db, sid).answered;
            PrepareContinuation(db, oid) ==
              if may && TimedOut(Now(db, sid)) then Some(db)
              else if !live then None
              else Some(Rewritten(db, sid,
                     db.sessions[sid].(state := Cancelled, provider := ProviderState.Unknown),
                     Now(db, sid).(completed := true, reason := Some(ApprovedContinuationPrepared), error := None)))
  {
    hide Consistent;
    RowFacts(db, oid);
  }

  /** A failure is reconciled exactly for an acknowledged turn of a live session that shows an alert or timed out. */
  lemma FailureIsReconciledExactlyWhen(db: Db, oid: OutboxId, timeout: bool)
    requires Consistent(db) && oid in db.outbox
    ensures var sid := db.outbox[oid].session;
            var may := && Answerable(db, oid) && Running(db, sid)
                       && (Now(db, sid).userMessage.Some? || Now(db, sid).userTurn.Some?)
                       && (timeout || Now(db, sid).error == Some(ActionableAlert));
            ReconcileFailure(db, oid, timeout) ==
              if !may then None
              else Some(Rewritten(db, sid,
                     db.sessions[sid].(state := Failed, provider := ProviderState.Error, transport := Fresh),
                     Now(db, sid).(completed := true, error := Some(ExecutionFailed),
                       reason := Some(if timeout then MessageTimeoutReconciled else ThinkingFailedReconciled))))
  {
    hide Consistent;
    RowFacts(db, oid);
  }

  /** The tables after a manual follow-up was reconciled. */
  ghost function FollowedUp(db: Db, sid: SessionId): Db
    requires sid in db.sessions && CurrentKey(db, sid) in db.generations
  {
    Rewritten(db, sid, db.sessions[sid].(state := Cancelled, provider := ProviderState.Unknown, transport := Fresh),
              Now(db, sid).(completed := true, reason := Some(ManualFollowupReconciled), error := None))
  }

  /**
   A follow-up the human sent retires exactly a sent turn of a live session with its role, page and conversation,
   acknowledged and unanswered unless it is the recovery of an older one. The session then takes the next request,
   whatever it continues, if and only if the turn was not answered.
   */
  lemma FollowupIsReconciledExactlyWhen(db: Db, sid: SessionId, recovery: bool, payload: Payload)
    requires Consistent(db) && Covered(db)
    ensures var may := && Running(db, sid) && sid in db.routed && Now(db, sid).prompt
                       && db.sessions[sid].page.Some? && db.sessions[sid].conversation.Some?
                       && (recovery || (Now(db, sid).state == SubmissionState.Submitted
                                        && Now(db, sid).userMessage.Some? && Now(db, sid).response.None?
                                        && !Now(db, sid).answered));
            && ReconcileFollowup(db, sid, recovery) == (if may then Some(FollowedUp(db, sid)) else None)
            && (may ==> (Requests.TakesRequest(FollowedUp(db, sid), sid, payload) <==>
                           Now(db, sid).state != SubmitAttempted && Now(db, sid).response.None?
                               && !Now(db, sid).answered))
  {
    hide Consistent, Covered;
    if sid in db.sessions {
      SessionFacts(db, sid);
      if CurrentKey(db, sid) in db.generations { var o := Requests.GenerationHasRow(db, CurrentKey(db, sid)); }
    }
  }

  /** A stop is recorded exactly for the current generation, whatever it has come to. */
  lemma StopIsRecordedExactlyWhen(db: Db, sid: SessionId, gen: nat)
    requires Consistent(db)
    ensures CompleteStop(db, sid, gen) ==
              if !(sid in db.sessions && db.sessions[sid].current == gen && gen > 0) then None
              else Some(db.(sessions := db.sessions[sid := db.sessions[sid].(state := Cancelled, provider := Stopped,
                                                                             transport := Fresh)],
                            generations := db.generations[GenKey(sid, gen) := Stopping(db, sid, gen)]))
  {
    hide Consistent;
    if sid in db.sessions { SessionFacts(db, sid); }
  }

  function Stopping(db: Db, sid: SessionId, gen: nat): Generation {
    var k := GenKey(sid, gen);
    if k !in db.generations then Generation(Prepared, false, None, None, None, false, false, None, None)
    else db.generations[k].(completed := true, reason := Some(ExplicitStop), error := Some(ResponseStopped))
  }

  // ---------------------------------------------------------------- observers

  /** The provider acknowledged the generation, so that an observer may tell its turn. */
  ghost predicate Watched(db: Db, sid: SessionId, gen: nat) {
    && sid in db.sessions && db.sessions[sid].current == gen && CurrentKey(db, sid) in db.generations
    && (Now(db, sid).userMessage.Some? || Now(db, sid).userTurn.Some?)
  }

  /** Progress is recorded exactly of an acknowledged turn of a live session. */
  lemma ProgressIsRecordedExactlyWhen(db: Db, sid: SessionId, gen: nat, provider: ProviderState, transport: Transport,
                                      code: nat, error: Option<ErrorCode>)
    requires Consistent(db)
    ensures Observe(db, sid, gen, Progress(provider, transport, code, error)) ==
              if !(Watched(db, sid, gen) && Running(db, sid)) then None
              else Some(Rewritten(db, sid,
                     db.sessions[sid].(state := Observing, provider := provider, transport := transport),
                     Now(db, sid).(reason := Some(OtherReason(code)), error := error)))
  {
    hide Consistent;
    if sid in db.sessions { SessionFacts(db, sid); }
  }

  /** A final answer is recorded exactly of an acknowledged turn that is live or was answered before. */
  lemma AnswerIsRecordedExactlyWhen(db: Db, sid: SessionId, gen: nat, response: MessageId)
    requires Consistent(db)
    ensures Observe(db, sid, gen, Final(response)) ==
              if !(Watched(db, sid, gen) && (Running(db, sid) || db.sessions[sid].state == SessionState.Complete))
              then None
              else Some(Rewritten(db, sid,
                     db.sessions[sid].(state := SessionState.Complete, provider := ProviderState.Complete,
                                       transport := Fresh),
                     Now(db, sid).(response := Some(response), answered := true, completed := true,
                                   reason := Some(DomQuietStableFinal), error := None)))
  {
    hide Consistent;
    if sid in db.sessions { SessionFacts(db, sid); }
  }

  // ---------------------------------------------------------------- routing and tracking

  /** Retiring a role always takes it, and ends the session if and only if nothing was sent and it has not ended. */
  lemma RetirementEndsExactlyUnsent(db: Db, sid: SessionId)
    requires Consistent(db) && Covered(db) && sid in db.sessions
    ensures var r := RetireRole(db, sid);
            var unsent := CurrentKey(db, sid) !in db.generations || !Irrevocable(Now(db, sid).state);
            && r.Some? && r.value.routed == db.routed - {sid}
            && r.value.(routed := db.routed) == (
                 if IsTerminalState(db.sessions[sid].state) || !unsent then db
                 else db.(sessions := db.sessions[sid := db.sessions[sid].(state := Cancelled, provider := Stopped)]))
  {
    hide Consistent, Covered;
    if CurrentKey(db, sid) in db.generations { var o := Requests.GenerationHasRow(db, CurrentKey(db, sid)); }
  }

  /** Tracking is given up, or taken up again, exactly for a sent turn that is not completed and not being attempted. */
  ghost predicate Untold(db: Db, sid: SessionId) {
    && sid in db.sessions && CurrentKey(db, sid) in db.generations && !Now(db, sid).completed
    && Now(db, sid).state in {SubmissionState.Submitted, SubmissionUnknown}
  }

  lemma TrackingEndsExactlyWhen(db: Db, sid: SessionId)
    requires Consistent(db) && Covered(db)
    ensures RetireObservation(db, sid) ==
              if !(Untold(db, sid) && db.sessions[sid].state !in {SessionState.Complete, Cancelled, Failed}) then None
              else Some(db.(sessions := db.sessions[sid := db.sessions[sid].(state := Cancelled)],
                            dismissed := db.dismissed + {TrackingGone(CurrentKey(db, sid))}))
    ensures RestoreRetired(db, sid) ==
              if !(Untold(db, sid) && db.sessions[sid].state in {Superseded, Cancelled} && !Dismissed(db, sid))
              then None
              else Some(db.(sessions := db.sessions[sid := db.sessions[sid].(state := Observing)]))
  {
    hide Consistent, Covered;
    if sid in db.sessions && CurrentKey(db, sid) in db.generations {
      var o := Requests.GenerationHasRow(db, CurrentKey(db, sid));
    }
  }

  /** The turn before the current one was answered without an error, and the session has its conversation. */
  ghost predicate AnsweredBefore(db: Db, sid: SessionId)
    requires sid in db.sessions
  {
    && db.sessions[sid].conversation.Some? && db.sessions[sid].current > 0
    && var k := GenKey(sid, db.sessions[sid].current - 1);
       && k in db.generations && db.generations[k].completed && db.generations[k].error.None?
       && db.generations[k].userMessage.Some? && db.generations[k].response.Some? && db.generations[k].answered
  }

  /**
   Page recovery records the page it found. A request that was not sent gets only a page it had, or that of its
   conversation. The diagnosis of an ended session, of an ambiguous request and of one that failed before it was sent
   survives a recovery without an error; reconciled duplicates replace it.
   */
  lemma PageIsRecordedExactlyWhen(db: Db, sid: SessionId, page: Option<PageKey>, transport: Transport, code: nat,
                                  error: Option<ErrorCode>, duplicates: bool)
    requires Consistent(db) && Covered(db)
    ensures var found := && sid in db.sessions && CurrentKey(db, sid) in db.generations
                         && (duplicates ==> AnsweredBefore(db, sid))
                         && (page.Some? && !Irrevocable(Now(db, sid).state) ==>
                               db.sessions[sid].page.Some? || db.sessions[sid].conversation.Some?);
            RecordPageState(db, sid, page, transport, code, error, duplicates) ==
              if !found then None
              else
                var g := Now(db, sid);
                var ended := IsTerminalState(db.sessions[sid].state) || g.state == FailedPreSubmit;
                var unsettled := g.state == SubmissionUnknown || (!Irrevocable(g.state) && g.error.Some?);
                Some(Rewritten(db, sid, db.sessions[sid].(page := page, transport := transport),
                       if duplicates then g.(reason := Some(DuplicatePagePreparationRecovered), error := None)
                       else if ended || (unsettled && error.None?) then g
                       else g.(reason := Some(OtherReason(code)), error := error)))
  {
    hide Consistent, Covered;
    if sid in db.sessions {
      SessionFacts(db, sid);
      if CurrentKey(db, sid) in db.generations { var o := Requests.GenerationHasRow(db, CurrentKey(db, sid)); }
      NoGenerationZero(db, sid);
    }
  }

  lemma NoGenerationZero(db: Db, sid: SessionId)
    requires Consistent(db)
    ensures GenKey(sid, 0) !in db.generations
  {
    assert GenKey(sid, 0) in db.generations ==> GenerationOk(db, GenKey(sid, 0));
  }

  /**
   A new session starts empty and takes over the role of its predecessor, which ends if and only if nothing of its
   current request was sent and it has not ended.
   */
  lemma SuccessionEndsExactlyUnsent(db: Db, sid: SessionId, predecessor: Option<SessionId>)
    requires Consistent(db) && Covered(db)
    ensures var r := CreateSession(db, sid, predecessor);
            && (r.Some? <==> sid !in db.sessions && (predecessor.Some? ==> predecessor.value in db.sessions))
            && (r.Some? ==>
                  && r.value.sessions.Keys == db.sessions.Keys + {sid}
                  && r.value.sessions[sid] == Session(Created, ProviderState.Unknown, Unavailable, 0, None, None)
                  && r.value == db.(sessions := r.value.sessions, routed := r.value.routed)
                  && r.value.routed
                     == (if predecessor.Some? then db.routed - {predecessor.value} else db.routed) + {sid}
                  && forall i <- db.sessions ::
                       r.value.sessions[i] ==
                         if predecessor == Some(i) && !IsTerminalState(db.sessions[i].state)
                            && (CurrentKey(db, i) !in db.generations || !Irrevocable(Now(db, i).state))
                         then db.sessions[i].(state := Superseded) else db.sessions[i])
  {
    hide Consistent, Covered;
    if predecessor.Some? && predecessor.value in db.sessions && CurrentKey(db, predecessor.value) in db.generations {
      var o := Requests.GenerationHasRow(db, CurrentKey(db, predecessor.value));
    }
  }
}
