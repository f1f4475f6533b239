/**
 The durable tables behind submissions and the repository operations that write them.

 `Db` holds the rows of `sessions`, `generations`, `outbox`, the routing of `team_roles`,
 the reservation receipts and the conversation-deletion receipts. Timestamps and events are
 not part of the value, so "nothing changed" below means "nothing but timestamps and events".
 An operation that throws inside a transaction is rolled back: it is `None` here.
 */
module Storage {
  import opened Wrappers

  type SessionId = nat
  type OutboxId = nat
  type ConversationId = nat
  type PageKey = nat
  type MessageId = nat

  datatype SubmissionState =
    | Prepared | ComposerFilled | SubmitAttempted | Submitted | SubmissionUnknown | FailedPreSubmit

  datatype SessionState =
    | Created | Ready | Submitting | Submitted | Observing | Complete | Cancelled | Superseded | Failed

  datatype ProviderState = Unknown | Pending | Generating | Complete | Blocked | Stopped | Error

  datatype Transport = Fresh | Stale | Deferred | Unavailable

  datatype ErrorCode =
    | PreparationRequired | PreparationCancelled | SubmissionUnknownError | BrowserUnavailable
    | ExecutionFailed | ResponseStopped | PageIdentityUnverified | ActionableAlert | OtherError(code: nat)

  datatype Reason =
    | PreSubmitFailure | RestartPreSubmitInterrupted | RestartAfterSubmitAttempt | RestartInconsistent
    | PreparationCancelledByCaller | AgentPreparationRequired | AccountCooldown | AuthorizedResendPrepared
    | ApprovedContinuationPrepared | ManualFollowupReconciled | ThinkingFailedReconciled
    | MessageTimeoutReconciled | BrowserPreparationRecovered | CrashedPagePreparationRecovered
    | DuplicatePagePreparationRecovered | AcknowledgementRecovered | AcknowledgementMissing
    | SubmitUnacknowledged | SubmitDispatchUnobserved | PreSubmitErrorAfterAttempt | ExplicitStop
    | DomQuietStableFinal | OtherReason(code: nat)

  /** One row of `sessions`. */
  datatype Session = Session(
    state: SessionState, provider: ProviderState, transport: Transport,
    current: nat, conversation: Option<ConversationId>, page: Option<PageKey>)

  datatype GenKey = GenKey(session: SessionId, generation: nat)

  /** One row of `generations`. */
  datatype Generation = Generation(
    state: SubmissionState, prompt: bool,
    userMessage: Option<MessageId>, userTurn: Option<MessageId>, response: Option<MessageId>,
    answered: bool, completed: bool, reason: Option<Reason>, error: Option<ErrorCode>)

  /** The part of a row's `result_json` that later code reads back. */
  datatype Stored =
    | NoResult
    | PendingPreparation(requiresInspection: bool)
    | StoredSnapshot(reason: Option<Reason>, error: Option<ErrorCode>, transport: Transport)

  /** The caller's identity for a request. */
  datatype Request = Request(client: nat, id: nat)

  datatype Route = Resend | Followup

  datatype Reservation = Reservation(original: OutboxId, route: Route)

  /** The part of the stored payload that decides whether a row may be prepared or reopened. */
  datatype Payload = Payload(hash: nat, continuationOf: Option<OutboxId>, authorized: Option<Reservation>)

  /** One row of `outbox`. */
  datatype Outbox = Outbox(
    request: Request, session: SessionId, generation: nat, payload: Payload,
    state: SubmissionState, result: Stored, error: Option<ErrorCode>, prompt: bool)

  /**
   Why startup does not observe a retired session again: its conversation was deleted or replaced, or its
   team is being deleted; or the tracking of that generation was given up.
   */
  datatype Dismissal = ConversationGone(session: SessionId) | TrackingGone(generation: GenKey)

  datatype Db = Db(
    sessions: map<SessionId, Session>, generations: map<GenKey, Generation>, outbox: map<OutboxId, Outbox>,
    routed: set<SessionId>, reservations: map<Reservation, OutboxId>, deletions: set<ConversationId>,
    dismissed: set<Dismissal>)

  const EmptyDb := Db(map[], map[], map[], {}, map[], {}, {})

  predicate IsTerminalState(s: SessionState) {
    s == SessionState.Complete || s.Cancelled? || s.Superseded? || s.Failed?
  }

  /** The attempt may have reached the provider and can no longer be taken back. */
  predicate Irrevocable(s: SubmissionState) {
    s.SubmitAttempted? || s == SubmissionState.Submitted || s.SubmissionUnknown?
  }

  /** The request still owns work that has neither failed nor been recorded as sent. */
  predicate Unsettled(s: SubmissionState) {
    s.Prepared? || s.ComposerFilled? || s.SubmitAttempted?
  }

  function CurrentKey(db: Db, sid: SessionId): GenKey
    requires sid in db.sessions
  {
    GenKey(sid, db.sessions[sid].current)
  }

  predicate Dismissed(db: Db, sid: SessionId)
    requires sid in db.sessions
  {
    ConversationGone(sid) in db.dismissed || TrackingGone(CurrentKey(db, sid)) in db.dismissed
  }

  function CurrentGeneration(db: Db, sid: SessionId): Option<Generation>
    requires sid in db.sessions
  {
    var k := CurrentKey(db, sid);
    if k in db.generations then Some(db.generations[k]) else None
  }

  /** `snapshot.terminal`. */
  predicate Terminal(db: Db, sid: SessionId)
    requires sid in db.sessions
  {
    IsTerminalState(db.sessions[sid].state) ||
    var g := CurrentGeneration(db, sid); g.Some? && g.value.state.FailedPreSubmit?
  }

  /** `getByRequest`. */
  ghost function Find(db: Db, request: Request): (r: Option<OutboxId>)
    ensures r.Some? ==> r.value in db.outbox && db.outbox[r.value].request == request
    ensures r.None? ==> forall oid <- db.outbox :: db.outbox[oid].request != request
  {
    if exists oid <- db.outbox :: db.outbox[oid].request == request then
      var oid :| oid in db.outbox && db.outbox[oid].request == request;
      Some(oid)
    else None
  }

  predicate Owns(row: Outbox, k: GenKey) {
    row.session == k.session && row.generation == k.generation
  }

  /** `getByGeneration`. */
  ghost function FindByGeneration(db: Db, k: GenKey): (r: Option<OutboxId>)
    ensures r.Some? ==> r.value in db.outbox && Owns(db.outbox[r.value], k)
    ensures r.None? ==> forall oid <- db.outbox :: !Owns(db.outbox[oid], k)
  {
    if exists oid <- db.outbox :: Owns(db.outbox[oid], k) then
      var oid :| oid in db.outbox && Owns(db.outbox[oid], k);
      Some(oid)
    else None
  }

  /** `CurrentGenerationUpdate`: an omitted field keeps its column. */
  datatype Update = Update(
    session: Option<SessionState>, provider: Option<ProviderState>, transport: Option<Transport>,
    conversation: Option<Option<ConversationId>>, page: Option<Option<PageKey>>,
    state: Option<SubmissionState>, prompt: Option<bool>,
    ids: Option<(Option<MessageId>, Option<MessageId>)>, answer: Option<MessageId>, completed: bool,
    reason: Option<Option<Reason>>, error: Option<Option<ErrorCode>>)

  const NoUpdate := Update(None, None, None, None, None, None, None, None, None, false, None, None)

  function UpdatedSession(s: Session, u: Update): Session {
    Session(u.session.Or(s.state), u.provider.Or(s.provider), u.transport.Or(s.transport),
            s.current, u.conversation.Or(s.conversation), u.page.Or(s.page))
  }

  function UpdatedGeneration(g: Generation, u: Update): Generation {
    Generation(u.state.Or(g.state), u.prompt.Or(g.prompt),
               if u.ids.Some? then u.ids.value.0 else g.userMessage,
               if u.ids.Some? then u.ids.value.1 else g.userTurn,
               if u.answer.Some? then u.answer else g.response,
               g.answered || u.answer.Some?, g.completed || u.completed,
               u.reason.Or(g.reason), u.error.Or(g.error))
  }

  predicate TouchesGeneration(u: Update) {
    u.state.Some? || u.prompt.Some? || u.ids.Some? || u.answer.Some? || u.completed || u.reason.Some? || u.error.Some?
  }

  /** `updateCurrentGeneration`: fails unless `gen` is the session's current generation. */
  function UpdateCurrentGeneration(db: Db, sid: SessionId, gen: nat, u: Update): Option<Db> {
    var k := GenKey(sid, gen);
    if sid !in db.sessions || db.sessions[sid].current != gen then None
    else
      var sessions := db.sessions[sid := UpdatedSession(db.sessions[sid], u)];
      if !TouchesGeneration(u) then Some(db.(sessions := sessions))
      else if k !in db.generations then None
      else Some(db.(sessions := sessions, generations := db.generations[k := UpdatedGeneration(db.generations[k], u)]))
  }

  datatype Fields = Fields(result: Option<Stored>, error: Option<Option<ErrorCode>>, prompt: Option<bool>)

  function UpdatedRow(row: Outbox, next: SubmissionState, f: Fields): Outbox {
    row.(state := next, result := f.result.Or(row.result), error := f.error.Or(row.error),
         prompt := f.prompt.Or(row.prompt))
  }

  /** `OutboxRepository.transition`: compare-and-set on the submission state. */
  function Transition(db: Db, oid: OutboxId, expected: set<SubmissionState>, next: SubmissionState,
                      f: Fields): Option<Db> {
    if oid !in db.outbox || db.outbox[oid].state !in expected then None
    else Some(db.(outbox := db.outbox[oid := UpdatedRow(db.outbox[oid], next, f)]))
  }

  /** What `JSON.stringify(requireSnapshot(sid))` keeps of the session that later code reads. */
  function SnapshotOf(db: Db, sid: SessionId): Stored
    requires sid in db.sessions
  {
    var g := CurrentGeneration(db, sid);
    if g.None? then StoredSnapshot(None, None, db.sessions[sid].transport)
    else StoredSnapshot(g.value.reason, g.value.error, db.sessions[sid].transport)
  }

  /** The sessions `advanceGeneration` accepts, whatever its caller already checked. */
  predicate CanAdvance(s: SessionState, g: Option<Generation>) {
    || !(s.Cancelled? || s.Superseded? || s.Failed?)
    || (s.Failed? && g.Some? && g.value.state == SubmissionState.Submitted && g.value.prompt &&
        g.value.error == Some(ExecutionFailed)
            && g.value.reason in {Some(ThinkingFailedReconciled), Some(MessageTimeoutReconciled)})
    || (s.Cancelled? && g.Some? && g.value.state in {SubmissionState.Submitted, SubmissionUnknown} && g.value.prompt &&
        g.value.reason in {Some(ManualFollowupReconciled), Some(ApprovedContinuationPrepared)} &&
        g.value.response.None? && !g.value.answered)
  }
}
