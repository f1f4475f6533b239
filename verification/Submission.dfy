/**
 Every durable transaction of the submission service, one function per transaction.

 `None` means the operation threw and its transaction was rolled back. An operation whose
 outcome depends on the browser or the provider takes that outcome as an argument.
 */
module Submission {
  import opened Wrappers
  import opened Storage

  /** `updateCurrentGeneration` and `transition` in one transaction: both happen or neither does. */
  function Paired(db: Db, oid: OutboxId, u: Update, expected: set<SubmissionState>, next: SubmissionState,
                  f: Fields): Option<Db>
    requires oid in db.outbox
  {
    var row := db.outbox[oid];
    var updated := UpdateCurrentGeneration(db, row.session, row.generation, u);
    if updated.None? then None else Transition(updated.value, oid, expected, next, f)
  }

  /** As `Paired`, with the updated session's snapshot stored as the row's result. */
  function PairedWithSnapshot(db: Db, oid: OutboxId, u: Update, expected: set<SubmissionState>, next: SubmissionState,
                              error: Option<ErrorCode>, prompt: bool): Option<Db>
    requires oid in db.outbox
  {
    var row := db.outbox[oid];
    var updated := UpdateCurrentGeneration(db, row.session, row.generation, u);
    if updated.None? then None
    else Transition(updated.value, oid, expected, next,
                    Fields(Some(SnapshotOf(updated.value, row.session)), Some(error), Some(prompt)))
  }

  // ---------------------------------------------------------------- preparing a generation

  /** The busy check of `#prepareOutbox` for a request without an authorized original. */
  ghost predicate AcceptsNewGeneration(db: Db, sid: SessionId, payload: Payload)
    requires sid in db.sessions
  {
    var s := db.sessions[sid].state;
    var g := CurrentGeneration(db, sid);
    var reason := if g.Some? then g.value.reason else None;
    var error := if g.Some? then g.value.error else None;
    || s.Created? || s.Ready? || s == SessionState.Complete
    || (s.Cancelled? &&
        (reason == Some(ManualFollowupReconciled) ||
         (reason == Some(ApprovedContinuationPrepared)
          && payload.continuationOf == FindByGeneration(db, CurrentKey(db, sid)))))
    || (s.Failed? && reason in {Some(ThinkingFailedReconciled), Some(MessageTimeoutReconciled)}
        && error == Some(ExecutionFailed))
  }

  ghost predicate CanPrepare(db: Db, sid: SessionId, request: Request, newId: OutboxId, payload: Payload,
                             original: Option<OutboxId>) {
    && sid in db.sessions
    && (match original
        case Some(o) =>
          o in db.outbox && db.outbox[o].session == sid && db.outbox[o].generation == db.sessions[sid].current
        case None => AcceptsNewGeneration(db, sid, payload))
    && (db.sessions[sid].conversation.Some? ==> db.sessions[sid].conversation.value !in db.deletions)
    && sid in db.routed
    && GenKey(sid, db.sessions[sid].current + 1) !in db.generations
    && CanAdvance(db.sessions[sid].state, CurrentGeneration(db, sid))
    && newId !in db.outbox
    && Find(db, request).None?
  }

  ghost function PrepareOutbox(db: Db, sid: SessionId, request: Request, newId: OutboxId, payload: Payload,
                               original: Option<OutboxId>): Option<Db> {
    if !CanPrepare(db, sid, request, newId, payload, original) then None
    else
      var next := db.sessions[sid].current + 1;
      var s := db.sessions[sid].(current := next, state := Submitting, provider := ProviderState.Pending,
                                 transport := Fresh);
      var g := Generation(Prepared, false, None, None, None, false, false, None, None);
      var row := Outbox(request, sid, next, payload, Prepared, NoResult, None, false);
      Some(db.(sessions := db.sessions[sid := s], generations := db.generations[GenKey(sid, next) := g],
               outbox := db.outbox[newId := row]))
  }

  // ---------------------------------------------------------------- the submission itself

  /** `#persistPageKey`. */
  function PersistPage(db: Db, oid: OutboxId, page: PageKey): Option<Db>
    requires oid in db.outbox
  {
    UpdateCurrentGeneration(db, db.outbox[oid].session, db.outbox[oid].generation, NoUpdate.(page := Some(Some(page))))
  }

  function FillComposer(db: Db, oid: OutboxId, page: PageKey): Option<Db>
    requires oid in db.outbox
  {
    Paired(db, oid,
      NoUpdate.(state := Some(ComposerFilled), page := Some(Some(page)), provider := Some(ProviderState.Pending),
                transport := Some(Fresh)),
      {Prepared}, ComposerFilled, Fields(Some(NoResult), Some(None), Some(false)))
  }

  function AttemptSubmit(db: Db, oid: OutboxId, page: PageKey): Option<Db>
    requires oid in db.outbox
  {
    Paired(db, oid,
      NoUpdate.(state := Some(SubmitAttempted), session := Some(Submitting), provider := Some(ProviderState.Pending),
                transport := Some(Fresh),
                page := Some(Some(page)), prompt := Some(true), reason := Some(None), error := Some(None)),
      {ComposerFilled}, SubmitAttempted, Fields(None, None, Some(true)))
  }

  datatype Acknowledgement = Acknowledgement(conversation: ConversationId, message: MessageId, turn: Option<MessageId>)

  function CompleteSubmitted(db: Db, oid: OutboxId, page: PageKey, ack: Acknowledgement): Option<Db>
    requires oid in db.outbox
  {
    PairedWithSnapshot(db, oid,
      NoUpdate.(session := Some(SessionState.Submitted), provider := Some(Generating), transport := Some(Fresh),
                state := Some(SubmissionState.Submitted),
                conversation := Some(Some(ack.conversation)), page := Some(Some(page)),
                    ids := Some((Some(ack.message), ack.turn)),
                prompt := Some(true), reason := Some(None), error := Some(None)),
      {SubmitAttempted}, SubmissionState.Submitted, None, true)
  }

  function RecordUnknown(db: Db, oid: OutboxId, reason: Reason): Option<Db>
    requires oid in db.outbox
  {
    var row := db.outbox[oid];
    if row.session !in db.sessions then None
    else
      var lifecycle := if IsTerminalState(db.sessions[row.session].state) then NoUpdate
                       else NoUpdate.(session := Some(Observing), provider := Some(ProviderState.Unknown),
                                      transport := Some(Unavailable));
      var prompt := row.prompt || row.state.SubmitAttempted?;
      PairedWithSnapshot(db, oid,
        lifecycle.(state := Some(SubmissionUnknown), reason := Some(Some(reason)),
                   error := Some(Some(SubmissionUnknownError)), prompt := Some(prompt)),
        {Prepared, ComposerFilled, SubmitAttempted, SubmissionUnknown}, SubmissionUnknown,
            Some(SubmissionUnknownError), prompt)
  }

  /** A failure before submission, or an ambiguous outcome when the row says the attempt already happened. */
  function FailPreSubmit(db: Db, oid: OutboxId, error: ErrorCode): Option<Db>
    requires oid in db.outbox
  {
    var row := db.outbox[oid];
    if row.state == SubmissionState.Submitted then None
    else if row.state.SubmitAttempted? || row.state.SubmissionUnknown?
        then RecordUnknown(db, oid, PreSubmitErrorAfterAttempt)
    else
      PairedWithSnapshot(db, oid,
        NoUpdate.(session := Some(Ready), provider := Some(ProviderState.Error), transport := Some(Unavailable),
                  state := Some(FailedPreSubmit),
                  reason := Some(Some(PreSubmitFailure)), error := Some(Some(error)), prompt := Some(false)),
        {Prepared, ComposerFilled, FailedPreSubmit}, FailedPreSubmit, Some(error), false)
  }

  function RecordInterrupted(db: Db, oid: OutboxId): Option<Db>
    requires oid in db.outbox
  {
    PairedWithSnapshot(db, oid,
      NoUpdate.(session := Some(Ready), provider := Some(ProviderState.Error), transport := Some(Unavailable),
                state := Some(FailedPreSubmit),
                reason := Some(Some(RestartPreSubmitInterrupted)), error := Some(Some(BrowserUnavailable)),
                    prompt := Some(false)),
      {Prepared, ComposerFilled}, FailedPreSubmit, Some(BrowserUnavailable), false)
  }

  function RecordPreparationRequired(db: Db, oid: OutboxId, cooldown: bool): Option<Db>
    requires oid in db.outbox
  {
    Paired(db, oid,
      NoUpdate.(state := Some(Prepared), provider := Some(ProviderState.Pending), transport := Some(Fresh),
                reason := Some(Some(if cooldown then AccountCooldown else AgentPreparationRequired)),
                error := Some(Some(PreparationRequired)), prompt := Some(false)),
      {Prepared}, Prepared, Fields(Some(PendingPreparation(false)), Some(Some(PreparationRequired)), Some(false)))
  }

  function TerminalizePreparation(db: Db, oid: OutboxId, error: ErrorCode): Option<Db>
    requires oid in db.outbox
  {
    Paired(db, oid,
      NoUpdate.(session := Some(Ready), provider := Some(ProviderState.Error), transport := Some(Unavailable),
                state := Some(FailedPreSubmit),
                reason := Some(Some(PreparationCancelledByCaller)), error := Some(Some(error)), prompt := Some(false)),
      {Prepared}, FailedPreSubmit, Fields(Some(NoResult), Some(Some(error)), Some(false)))
  }

  /** The outcome of replaying a request whose row already exists: nothing, or one settling write. */
  function Replay(db: Db, oid: OutboxId): Option<Db>
    requires oid in db.outbox
  {
    var row := db.outbox[oid];
    if row.state == SubmissionState.Submitted || row.state.FailedPreSubmit? || row.state.SubmissionUnknown?
    then Some(db)
    else if AwaitsDecision(db, oid) then Some(db)
    else if row.state.SubmitAttempted? then RecordUnknown(db, oid, RestartAfterSubmitAttempt)
    else FailPreSubmit(db, oid, SubmissionUnknownError)
  }

  /** The row is a preparation its caller still has to decide, in the session's current generation. */
  predicate AwaitsDecision(db: Db, oid: OutboxId)
    requires oid in db.outbox
  {
    var row := db.outbox[oid];
    && row.state.Prepared? && row.error == Some(PreparationRequired) && !row.prompt
    && row.session in db.sessions
    && var s := db.sessions[row.session];
       var g := CurrentGeneration(db, row.session);
       s.current == row.generation && s.state.Submitting? && g.Some? && g.value.state.Prepared? && !g.value.prompt
  }

  // ---------------------------------------------------------------- preparation decisions and reopening

  /** `decidePreparation`, when a choice or a revealed list is recorded. */
  function RecordChoice(db: Db, oid: OutboxId): Option<Db>
    requires oid in db.outbox
  {
    if !AwaitsDecision(db, oid) then None
    else Transition(db, oid, {Prepared}, Prepared,
                    Fields(Some(PendingPreparation(false)), Some(Some(PreparationRequired)), Some(false)))
  }

  function CancelPreparation(db: Db, oid: OutboxId): Option<Db>
    requires oid in db.outbox
  {
    if !AwaitsDecision(db, oid) then None else TerminalizePreparation(db, oid, PreparationCancelled)
  }

  /** A proven pre-submit failure of the current generation, with no trace of a turn. */
  predicate UnsubmittedFailure(db: Db, oid: OutboxId)
    requires oid in db.outbox
  {
    var row := db.outbox[oid];
    && row.state.FailedPreSubmit? && !row.prompt
    && row.session in db.sessions && db.sessions[row.session].current == row.generation
    && var g := CurrentGeneration(db, row.session);
       g.Some? && g.value.state.FailedPreSubmit? && !g.value.prompt &&
       g.value.userMessage.None? && g.value.userTurn.None? && g.value.response.None? && !g.value.answered
  }

  predicate Reopenable(db: Db, oid: OutboxId)
    requires oid in db.outbox
  {
    UnsubmittedFailure(db, oid) && db.sessions[db.outbox[oid].session].state.Ready?
  }

  function Reopen(db: Db, oid: OutboxId, reason: Reason, provider: ProviderState, transport: Transport,
                  inspect: bool): Option<Db>
    requires oid in db.outbox
  {
    Paired(db, oid,
      NoUpdate.(session := Some(Submitting), provider := Some(provider), transport := Some(transport),
                state := Some(Prepared),
                reason := Some(Some(reason)), error := Some(Some(PreparationRequired)), prompt := Some(false)),
      {FailedPreSubmit}, Prepared,
          Fields(Some(PendingPreparation(inspect)), Some(Some(PreparationRequired)), Some(false)))
  }

  /** The durable part of `withPendingPreparation`, after its inspection returned. */
  function InspectPreparation(db: Db, oid: OutboxId, recoverBrowserFailure: bool): Option<Db>
    requires oid in db.outbox
  {
    var row := db.outbox[oid];
    if row.session !in db.sessions || db.sessions[row.session].page.None? then None
    else if recoverBrowserFailure && Reopenable(db, oid) && row.error == Some(BrowserUnavailable) then
      Reopen(db, oid, BrowserPreparationRecovered, ProviderState.Pending, Fresh, false)
    else if !AwaitsDecision(db, oid) then None
    else if row.result == PendingPreparation(true) then
      Transition(db, oid, {Prepared}, Prepared,
                 Fields(Some(PendingPreparation(false)), Some(Some(PreparationRequired)), Some(false)))
    else Some(db)
  }

  /** `refreshPage`, before the reload: the pending preparation must be inspected again. */
  function BeforeRefresh(db: Db, oid: OutboxId): Option<Db>
    requires oid in db.outbox
  {
    var row := db.outbox[oid];
    if row.state.Prepared? && row.error == Some(PreparationRequired)
    then Transition(db, oid, {Prepared}, Prepared, Fields(Some(PendingPreparation(true)), None, None))
    else Some(db)
  }

  /** What `refreshPage` reads before the reload that would let it reopen a failed preparation. */
  predicate RefreshMayReopen(db: Db, oid: OutboxId, rendererCrash: bool)
    requires oid in db.outbox
  {
    var row := db.outbox[oid];
    && Reopenable(db, oid)
    && var duplicate := DuplicateRecovered(db, oid);
       (rendererCrash || duplicate) && (row.error == Some(BrowserUnavailable) || duplicate)
  }

  predicate DuplicateRecovered(db: Db, oid: OutboxId)
    requires oid in db.outbox
  {
    var row := db.outbox[oid];
    && row.error == Some(PageIdentityUnverified) && row.session in db.sessions
    && var g := CurrentGeneration(db, row.session); g.Some? && g.value.reason == Some(DuplicatePagePreparationRecovered)
  }

  /** `refreshPage`, after the reload: `seen` is whether the rows read before it were reopenable. */
  function AfterRefresh(db: Db, oid: OutboxId, seen: bool, duplicate: bool): Option<Db>
    requires oid in db.outbox
  {
    if !seen then Some(db)
    else Reopen(db, oid, if duplicate then DuplicatePagePreparationRecovered
                else CrashedPagePreparationRecovered, ProviderState.Pending, Fresh, true)
  }

  // ---------------------------------------------------------------- authorized successors

  /** What `#verifyAuthorizedResend` reads from the original's durable rows. */
  predicate UnresolvedOriginal(db: Db, original: OutboxId, route: Route, lostContinuation: bool)
    requires original in db.outbox
  {
    var row := db.outbox[original];
    var k := GenKey(row.session, row.generation);
    && row.session in db.sessions && !Terminal(db, row.session) && k in db.generations
    && var g := db.generations[k];
       var unknownWithoutAnchor := g.state.SubmissionUnknown? && g.userMessage.None? && g.userTurn.None?;
       && g.prompt && !g.completed && g.response.None? && !g.answered
       && (unknownWithoutAnchor || (g.state == SubmissionState.Submitted && (g.userMessage.Some? || g.userTurn.Some?)))
       && (route.Followup? ==>
           (unknownWithoutAnchor || lostContinuation) && db.sessions[row.session].conversation.Some?)
  }

  /**
   What `prepareAuthorizedResend` checks before it waits for the page: that the successor it may reopen is
   ready, or that there is none yet and the original is current and unresolved. The original of an existing
   successor is not read again here: no transaction writes a generation that is not current.
   */
  predicate MayApprove(db: Db, original: OutboxId, route: Route, lostContinuation: bool)
    requires original in db.outbox
  {
    var row := db.outbox[original];
    var key := Reservation(original, route);
    && row.session in db.sessions && row.session in db.routed && db.sessions[row.session].page.Some?
    && if key in db.reservations then
         var o := db.reservations[key];
         && o in db.outbox && Reopenable(db, o) && db.outbox[o].session == row.session
         && db.outbox[o].request.client == row.request.client && db.outbox[o].payload.authorized == Some(key)
       else
         db.sessions[row.session].current == row.generation && UnresolvedOriginal(db, original, route, lostContinuation)
  }

  /** `prepareAuthorizedResend`, after the page was verified: one durable reservation per original and route. */
  ghost function PrepareSuccessor(db: Db, original: OutboxId, route: Route, request: Request, newId: OutboxId,
                                  hash: nat, lostContinuation: bool): Option<Db>
    requires original in db.outbox
  {
    var row := db.outbox[original];
    var key := Reservation(original, route);
    if key in db.reservations then ReopenSuccessor(db, original, key)
    else if row.session !in db.sessions || db.sessions[row.session].current != row.generation
        || db.sessions[row.session].page.None? then None
    else if !UnresolvedOriginal(db, original, route, lostContinuation) then None
    else
      var prepared := PrepareOutbox(db, row.session, request, newId, Payload(hash, None, Some(key)), Some(original));
      if prepared.None? then None
      else
        var d := prepared.value;
        var pending := Paired(d, newId,
                              NoUpdate.(reason := Some(Some(AuthorizedResendPrepared)),
                                        error := Some(Some(PreparationRequired))),
                              {Prepared}, Prepared, Fields(Some(PendingPreparation(false)),
                                                           Some(Some(PreparationRequired)), Some(false)));
        if pending.None? then None else Some(pending.value.(reservations := pending.value.reservations[key := newId]))
  }

  /**
   A repeated reservation reopens its own successor's pre-submit failure and nothing else. The
   session was `ready` when `MayApprove` was checked; routing may have retired it since, so its state is
   not part of the guard here.
   */
  function ReopenSuccessor(db: Db, original: OutboxId, key: Reservation): Option<Db>
    requires original in db.outbox && key in db.reservations
  {
    var successor := db.reservations[key];
    if successor !in db.outbox || !db.outbox[successor].state.FailedPreSubmit? || db.outbox[successor].prompt
    then Some(db)
    else if || db.outbox[successor].request.client != db.outbox[original].request.client
            || db.outbox[successor].session != db.outbox[original].session
            || !UnsubmittedFailure(db, successor)
            || db.sessions[db.outbox[successor].session].page.None?
            || db.outbox[successor].payload.authorized != Some(key) then None
    else Reopen(db, successor, AuthorizedResendPrepared, ProviderState.Unknown, Unavailable, true)
  }

  // ---------------------------------------------------------------- resolving a submitted request

  /** `recoverAcknowledgement`: an ambiguous request is promoted on exact provider evidence. */
  function RecoverAcknowledgement(db: Db, oid: OutboxId, ack: Acknowledgement): Option<Db>
    requires oid in db.outbox
  {
    var row := db.outbox[oid];
    if || row.session !in db.sessions || db.sessions[row.session].current != row.generation || Terminal(db, row.session)
       || !row.state.SubmissionUnknown? || db.sessions[row.session].page.None? then Some(db)
    else if MessageKnown(db, row.session, ack.message) then Some(db)
    else
      PairedWithSnapshot(db, oid,
        NoUpdate.(session := Some(SessionState.Submitted), provider := Some(Generating), transport := Some(Fresh),
                  state := Some(SubmissionState.Submitted),
                  conversation := Some(Some(ack.conversation)), ids := Some((Some(ack.message), ack.turn)),
                      prompt := Some(true),
                  reason := Some(Some(AcknowledgementRecovered)), error := Some(None)),
        {SubmissionUnknown}, SubmissionState.Submitted, None, true)
  }

  predicate MessageKnown(db: Db, sid: SessionId, message: MessageId) {
    exists k <- db.generations :: k.session == sid && db.generations[k].userMessage == Some(message)
  }

  /** The durable guard shared by explicit continuation and failure reconciliation of an acknowledged turn. */
  predicate Acknowledged(db: Db, oid: OutboxId)
    requires oid in db.outbox
  {
    var row := db.outbox[oid];
    && row.session in db.sessions && db.sessions[row.session].current == row.generation
    && db.sessions[row.session].page.Some? && db.sessions[row.session].conversation.Some?
    && var g := CurrentGeneration(db, row.session);
       g.Some? && g.value.state == SubmissionState.Submitted && g.value.prompt
  }

  /** `prepareContinuation`: the acknowledged turn is retired in favour of an approved continuation. */
  function PrepareContinuation(db: Db, oid: OutboxId): Option<Db>
    requires oid in db.outbox
  {
    var row := db.outbox[oid];
    if !Acknowledged(db, oid) || row.session !in db.routed then None
    else
      var g := CurrentGeneration(db, row.session).value;
      var timeout := g.reason == Some(MessageTimeoutReconciled) && g.error == Some(ExecutionFailed);
      if (Terminal(db, row.session) && !timeout) || g.userMessage.None?
          || (!timeout && (g.answered || g.response.Some?)) then None
      else if timeout then Some(db)
      else UpdateCurrentGeneration(db, row.session, row.generation,
             NoUpdate.(session := Some(Cancelled), provider := Some(ProviderState.Unknown), completed := true,
                       error := Some(None),
                       reason := Some(Some(ApprovedContinuationPrepared))))
  }

  /** `reconcileFollowup` on the current generation; `recoveryTracking` retires a recovery attempt of an older one. */
  function ReconcileFollowup(db: Db, sid: SessionId, recoveryTracking: bool): Option<Db> {
    if sid !in db.sessions || sid !in db.routed || Terminal(db, sid) then None
    else
      var g := CurrentGeneration(db, sid);
      if g.None? || !g.value.prompt || db.sessions[sid].page.None? || db.sessions[sid].conversation.None? then None
      else if !recoveryTracking && (g.value.state != SubmissionState.Submitted || g.value.userMessage.None?
                                    || g.value.response.Some? || g.value.answered) then None
      else UpdateCurrentGeneration(db, sid, db.sessions[sid].current,
             NoUpdate.(session := Some(Cancelled), provider := Some(ProviderState.Unknown), transport := Some(Fresh),
                       completed := true,
                       error := Some(None), reason := Some(Some(ManualFollowupReconciled))))
  }

  /** `reconcileFailure` on the current generation. */
  function ReconcileFailure(db: Db, oid: OutboxId, timeout: bool): Option<Db>
    requires oid in db.outbox
  {
    var row := db.outbox[oid];
    if !Acknowledged(db, oid) || row.session !in db.routed || Terminal(db, row.session) then None
    else
      var g := CurrentGeneration(db, row.session).value;
      if g.userMessage.None? && g.userTurn.None? then None
      else if g.error != Some(ActionableAlert) && !timeout then None
      else UpdateCurrentGeneration(db, row.session, row.generation,
             NoUpdate.(session := Some(Failed), provider := Some(ProviderState.Error), transport := Some(Fresh),
                       completed := true,
                       error := Some(Some(ExecutionFailed)),
                       reason := Some(Some(if timeout then MessageTimeoutReconciled else ThinkingFailedReconciled))))
  }

  /** `#completeStop`; whether the generation was terminal is checked before the gesture, not here. */
  function CompleteStop(db: Db, sid: SessionId, gen: nat): Option<Db> {
    UpdateCurrentGeneration(db, sid, gen,
           NoUpdate.(session := Some(Cancelled), provider := Some(Stopped), transport := Some(Fresh), completed := true,
                     reason := Some(Some(ExplicitStop)), error := Some(Some(ResponseStopped))))
  }

  // ---------------------------------------------------------------- other writers of the same rows

  /** `ActorScheduler.updateGeneration`: a terminal generation keeps its session state. */
  function UpdateGeneration(db: Db, sid: SessionId, gen: nat, u: Update): Option<Db> {
    if sid !in db.sessions || db.sessions[sid].current != gen then None
    else if Terminal(db, sid) && u.session.Some? && u.session.value != db.sessions[sid].state then None
    else UpdateCurrentGeneration(db, sid, gen, u)
  }

  datatype Observation = Progress(provider: ProviderState, transport: Transport, code: nat, error: Option<ErrorCode>)
      | Final(response: MessageId)

  /** The observer of one acknowledged turn. */
  function Observe(db: Db, sid: SessionId, gen: nat, o: Observation): Option<Db> {
    var k := GenKey(sid, gen);
    if k !in db.generations || (db.generations[k].userMessage.None? && db.generations[k].userTurn.None?) then None
    else match o
      case Progress(provider, transport, code, error) =>
        UpdateGeneration(db, sid, gen,
                         NoUpdate.(session := Some(Observing), provider := Some(provider), transport := Some(transport),
                                                 reason := Some(Some(OtherReason(code))), error := Some(error)))
      case Final(response) =>
        UpdateGeneration(db, sid, gen, NoUpdate.(session := Some(SessionState.Complete),
            provider := Some(ProviderState.Complete), transport := Some(Fresh),
                                                 answer := Some(response), completed := true,
                                                     reason := Some(Some(DomQuietStableFinal)), error := Some(None)))
  }

  /** The turn before the current one was answered: what reconciling duplicate pages compares both pages with. */
  predicate PreviousAnswered(db: Db, sid: SessionId)
    requires sid in db.sessions
  {
    var k := GenKey(sid, if db.sessions[sid].current == 0 then 0 else db.sessions[sid].current - 1);
    k in db.generations
    && var g := db.generations[k]; g.completed && g.error.None? && g.userMessage.Some? && g.response.Some? && g.answered
  }

  /** The session has a page to attach to again, or a conversation to open. */
  predicate PageFound(db: Db, sid: SessionId)
    requires sid in db.sessions
  {
    db.sessions[sid].page.Some? || db.sessions[sid].conversation.Some?
  }

  /** Both pages of a duplicate can be compared with the turn before the current one. */
  predicate Comparable(db: Db, sid: SessionId)
    requires sid in db.sessions
  {
    PreviousAnswered(db, sid) && db.sessions[sid].conversation.Some?
  }

  /**
   `#recordPageState`: page recovery keeps the diagnosis of an unresolved or failed request, unless it
   reconciled duplicate pages, which it records with a reason of its own and no error. The diagnosis it
   found before it closed the duplicates may have changed by then and is not part of the guard here. For a
   request that was not sent it finds only a page the session had, or the page of its conversation.
   */
  function RecordPageState(db: Db, sid: SessionId, page: Option<PageKey>, transport: Transport, code: nat,
                           error: Option<ErrorCode>, duplicatesReconciled: bool): Option<Db>
  {
    if sid !in db.sessions || CurrentGeneration(db, sid).None? || (duplicatesReconciled && !Comparable(db, sid))
    then None
    else if page.Some? && !CurrentGeneration(db, sid).value.prompt && !PageFound(db, sid) then None
    else
      var g := CurrentGeneration(db, sid).value;
      var preserve := g.state.SubmissionUnknown? || (!g.prompt && g.error.Some?);
      var keep := Terminal(db, sid) || (preserve && error.None?);
      var reason := if duplicatesReconciled then Some(DuplicatePagePreparationRecovered)
                    else if keep then g.reason else Some(OtherReason(code));
      var told := if duplicatesReconciled then None else if keep then g.error else error;
      UpdateGeneration(db, sid, db.sessions[sid].current,
        NoUpdate.(page := Some(page), transport := Some(transport), reason := Some(reason), error := Some(told)))
  }

  function CreateSession(db: Db, sid: SessionId, predecessor: Option<SessionId>): Option<Db> {
    if sid in db.sessions || (predecessor.Some? && predecessor.value !in db.sessions) then None
    else
      var retired := if predecessor.Some? then RetireUnsubmitted(db, predecessor.value, Superseded) else db;
      var others := if predecessor.Some? then db.routed - {predecessor.value} else db.routed;
      Some(retired.(sessions := retired.sessions[sid := Session(Created, ProviderState.Unknown, Unavailable, 0, None,
          None)],
                    routed := others + {sid}))
  }

  function RetireRole(db: Db, sid: SessionId): Option<Db> {
    if sid !in db.sessions then None
    else Some(RetireUnsubmitted(db, sid, Cancelled).(routed := db.routed - {sid}))
  }

  /** Routing retirement cannot cancel an already submitted request. */
  function RetireUnsubmitted(db: Db, sid: SessionId, state: SessionState): Db
    requires sid in db.sessions
  {
    var g := CurrentGeneration(db, sid);
    if IsTerminalState(db.sessions[sid].state) || (g.Some? && g.value.prompt) then db
    else
      var provider := if state.Cancelled? then Stopped else db.sessions[sid].provider;
      db.(sessions := db.sessions[sid := db.sessions[sid].(state := state, provider := provider)])
  }

  function RetireDeleted(db: Db, sid: SessionId, keepRole: bool): Option<Db> {
    if sid !in db.sessions then None
    else Some(db.(sessions := db.sessions[sid := db.sessions[sid].(state := Superseded)],
                  routed := if keepRole then db.routed else db.routed - {sid},
                  dismissed := db.dismissed + {ConversationGone(sid)}))
  }

  function RetireObservation(db: Db, sid: SessionId): Option<Db> {
    if sid !in db.sessions || db.sessions[sid].state in {SessionState.Complete, Cancelled, Failed} then None
    else
      var g := CurrentGeneration(db, sid);
      if g.None? || g.value.completed || !g.value.prompt
          || g.value.state !in {SubmissionState.Submitted, SubmissionUnknown} then None
      else Some(db.(sessions := db.sessions[sid := db.sessions[sid].(state := Cancelled)],
                    dismissed := db.dismissed + {TrackingGone(CurrentKey(db, sid))}))
  }

  /**
   `restorePendingRetiredSessions`, for one row its `WHERE` clause selects; that the role is retired or has a
   newer session is not part of the guard here.
   */
  function RestoreRetired(db: Db, sid: SessionId): Option<Db> {
    if sid !in db.sessions || !(db.sessions[sid].state.Superseded? || db.sessions[sid].state.Cancelled?)
       || Dismissed(db, sid) then None
    else
      var g := CurrentGeneration(db, sid);
      if g.None? || g.value.completed || !g.value.prompt
          || g.value.state !in {SubmissionState.Submitted, SubmissionUnknown} then None
      else Some(db.(sessions := db.sessions[sid := db.sessions[sid].(state := Observing)]))
  }

  /** `deleteTeam`: generations, sessions and outbox rows go; receipts stay. */
  function DeleteTeam(db: Db, team: set<SessionId>): Db {
    db.(sessions := map sid | sid in db.sessions && sid !in team :: db.sessions[sid],
        generations := map k | k in db.generations && k.session !in team :: db.generations[k],
        outbox := map oid | oid in db.outbox && db.outbox[oid].session !in team :: db.outbox[oid],
        routed := db.routed - team)
  }

  // ---------------------------------------------------------------- the three startup passes, one row at a time

  /** `recoverInterruptedPreSubmissions` on one listed row. */
  function PreSubmitPass(db: Db, oid: OutboxId): Option<Db> {
    if oid !in db.outbox then None
    else
      var row := db.outbox[oid];
      if !(row.state.Prepared? || row.state.ComposerFilled?) then Some(db)
      else if row.session !in db.sessions || db.sessions[row.session].current != row.generation
          || Terminal(db, row.session) then Some(db)
      else if AwaitsDecision(db, oid) then
        Transition(db, oid, {Prepared}, Prepared,
                   Fields(Some(PendingPreparation(true)), Some(Some(PreparationRequired)), Some(false)))
      else if row.prompt then RecordUnknown(db, oid, RestartInconsistent)
      else RecordInterrupted(db, oid)
  }

  function StoredReason(s: Stored): Option<Reason> { if s.StoredSnapshot? then s.reason else None }
  function StoredError(s: Stored): Option<ErrorCode> { if s.StoredSnapshot? then s.error else None }

  /** `reconcileOutboxDiagnostics` on one listed row: the session is made to tell what the row recorded. */
  function DiagnosticsPass(db: Db, oid: OutboxId): Option<Db> {
    if oid !in db.outbox then None
    else
      var row := db.outbox[oid];
      if !(row.state.FailedPreSubmit? || row.state.SubmissionUnknown?) then Some(db)
      else if row.session !in db.sessions || db.sessions[row.session].current != row.generation then Some(db)
      else
        var s := db.sessions[row.session];
        var g := CurrentGeneration(db, row.session);
        if IsTerminalState(s.state) || (Terminal(db, row.session) && !row.state.FailedPreSubmit?) then Some(db)
        else if row.state.FailedPreSubmit? then
          var error := if row.error.Some? then row.error else StoredError(row.result);
          if error.None? then Some(db)
          else
            var reason := StoredReason(row.result).Or(PreSubmitFailure);
            if s.state.Ready? && s.provider == ProviderState.Error && s.transport.Unavailable? && g.Some?
                && g.value.state.FailedPreSubmit? &&
               !g.value.prompt && g.value.error == error && g.value.reason == Some(reason) then Some(db)
            else UpdateGeneration(db, row.session, s.current,
                   NoUpdate.(session := Some(Ready), provider := Some(ProviderState.Error),
                             transport := Some(Unavailable), state := Some(FailedPreSubmit),
                             reason := Some(Some(reason)), error := Some(error), prompt := Some(false)))
        else
          var error := if row.error.Some? then row.error else Some(StoredError(row.result).Or(SubmissionUnknownError));
          var reason := StoredReason(row.result).Or(SubmitUnacknowledged);
          if s.state.Observing? && s.provider == ProviderState.Unknown && g.Some? && g.value.state.SubmissionUnknown?
              && g.value.prompt &&
             g.value.error == error && g.value.reason == Some(reason) then Some(db)
          else UpdateGeneration(db, row.session, s.current,
                 NoUpdate.(session := Some(Observing), provider := Some(ProviderState.Unknown),
                           transport := Some(if row.result.StoredSnapshot? then row.result.transport else Unavailable),
                           state := Some(SubmissionUnknown), reason := Some(Some(reason)), error := Some(error),
                               prompt := Some(true)))
  }

  /** `recoverInterruptedSubmissions` on one listed row. */
  function SubmissionPass(db: Db, oid: OutboxId): Option<Db> {
    if oid !in db.outbox then None
    else if !db.outbox[oid].state.SubmitAttempted? then Some(db)
    else RecordUnknown(db, oid, RestartAfterSubmitAttempt)
  }
}
