/**
 What a submission leaves in the tables, said of its row, its generation and its session as they were
 before it began, and what startup leaves of an interrupted one.
 */
module SubmissionOutcomes {
  import opened Wrappers
  import opened Storage
  import opened Submission
  import opened SubmissionInvariants
  import opened SubmissionTransactions

  /** How opening the provider's page ended. */
  datatype Opening = Opened(page: PageKey) | OpeningPaused(cooldown: bool) | OpeningFailed(error: ErrorCode)

  /** How preparing the composer ended. */
  datatype Preparation = ComposerPrepared | PreparationPaused(cooldown: bool) | PreparationFailed(error: ErrorCode)

  /** What `submitOnce` and the acknowledgement reader reported, a time-out being a missing acknowledgement. */
  datatype Dispatch = Acknowledgement(ack: Submission.Acknowledgement) | Unacknowledged(reason: Reason)

  /** What came of a prepared request. */
  datatype Result =
    | Paused(cooldown: bool)
    | NotSent(error: ErrorCode)
    | Sent(ack: Submission.Acknowledgement)
    | Ambiguous(reason: Reason)

  function ResultOf(opening: Opening, preparation: Preparation, dispatch: Dispatch): Result {
    match opening
    case OpeningPaused(cooldown) => Paused(cooldown)
    case OpeningFailed(error) => NotSent(error)
    case Opened(_) => match preparation
      case PreparationPaused(cooldown) => Paused(cooldown)
      case PreparationFailed(error) => NotSent(error)
      case ComposerPrepared => match dispatch
        case Acknowledgement(ack) => Sent(ack)
        case Unacknowledged(reason) => Ambiguous(reason)
  }

  /** A request of the session's current generation. */
  ghost predicate OfCurrent(db: Db, oid: OutboxId) {
    && oid in db.outbox && db.outbox[oid].session in db.sessions
    && db.sessions[db.outbox[oid].session].current == db.outbox[oid].generation
    && GenKey(db.outbox[oid].session, db.outbox[oid].generation) in db.generations
  }

  /** The session after a submission: at the page that was opened, and with the conversation the provider named. */
  function SessionAfter(s: Session, page: Option<PageKey>, r: Result): Session {
    var t := if page.Some? then s.(page := page) else s;
    match r
    case Paused(_) => t.(provider := ProviderState.Pending, transport := Fresh)
    case NotSent(_) => t.(state := Ready, provider := ProviderState.Error, transport := Unavailable)
    case Sent(ack) => t.(state := SessionState.Submitted, provider := Generating, transport := Fresh,
                         conversation := Some(ack.conversation))
    case Ambiguous(_) => t.(state := Observing, provider := ProviderState.Unknown, transport := Unavailable)
  }

  /** The generation after a submission: bound to the provider's message and turn, or with the reason it was told. */
  function GenerationAfter(g: Generation, r: Result): Generation {
    match r
    case Paused(cooldown) =>
      g.(reason := Some(if cooldown then AccountCooldown else AgentPreparationRequired),
         error := Some(PreparationRequired))
    case NotSent(error) => g.(state := FailedPreSubmit, reason := Some(PreSubmitFailure), error := Some(error))
    case Sent(ack) => g.(state := SubmissionState.Submitted, prompt := true, userMessage := Some(ack.message),
                         userTurn := ack.turn, reason := None, error := None)
    case Ambiguous(reason) =>
      g.(state := SubmissionUnknown, prompt := true, reason := Some(reason), error := Some(SubmissionUnknownError))
  }

  /** The row after a submission: in the state it ended in, with what a repeated request is answered. */
  function RowAfter(row: Outbox, r: Result): Outbox {
    match r
    case Paused(_) => row.(result := PendingPreparation(false), error := Some(PreparationRequired))
    case NotSent(error) => row.(state := FailedPreSubmit, error := Some(error),
                               result := StoredSnapshot(Some(PreSubmitFailure), Some(error), Unavailable))
    case Sent(_) => row.(state := SubmissionState.Submitted, prompt := true, error := None,
                         result := StoredSnapshot(None, None, Fresh))
    case Ambiguous(reason) =>
      row.(state := SubmissionUnknown, prompt := true, error := Some(SubmissionUnknownError),
           result := StoredSnapshot(Some(reason), Some(SubmissionUnknownError), Unavailable))
  }

  /** The tables after a submission: one row, its generation and its session, and nothing else. */
  ghost function Left(db: Db, oid: OutboxId, page: Option<PageKey>, r: Result): Db
    requires OfCurrent(db, oid)
  {
    var row := db.outbox[oid];
    Write(db, oid, SessionAfter(db.sessions[row.session], page, r),
          GenerationAfter(db.generations[GenKey(row.session, row.generation)], r), RowAfter(row, r))
  }

  function PageOf(opening: Opening): Option<PageKey> {
    if opening.Opened? then Some(opening.page) else None
  }

  // ---------------------------------------------------------------- the transactions of a submission

  lemma PreparedRow(db: Db, oid: OutboxId)
    requires Consistent(db) && oid in db.outbox && Unsettled(db.outbox[oid].state)
    ensures OfCurrent(db, oid)
    ensures var row := db.outbox[oid];
            var g := db.generations[GenKey(row.session, row.generation)];
            g.state == row.state && g.prompt == row.prompt == Irrevocable(row.state)
  {
    RowFacts(db, oid);
  }

  lemma PauseLeaves(db: Db, oid: OutboxId, cooldown: bool)
    requires Consistent(db) && oid in db.outbox && db.outbox[oid].state.Prepared?
    ensures OfCurrent(db, oid)
    ensures RecordPreparationRequired(db, oid, cooldown) == Some(Left(db, oid, None, Paused(cooldown)))
  {
    hide Consistent;
    PreparedRow(db, oid);
  }

  lemma FailureLeaves(db: Db, oid: OutboxId, error: ErrorCode)
    requires Consistent(db) && oid in db.outbox
             && (db.outbox[oid].state.Prepared? || db.outbox[oid].state.ComposerFilled?)
    ensures OfCurrent(db, oid)
    ensures FailPreSubmit(db, oid, error) == Some(Left(db, oid, None, NotSent(error)))
  {
    hide Consistent;
    PreparedRow(db, oid);
  }

  /** The opened page is recorded, and every result keeps it. */
  lemma PageLeaves(db: Db, oid: OutboxId, page: PageKey, r: Result)
    requires Consistent(db) && oid in db.outbox && db.outbox[oid].state.Prepared?
    ensures OfCurrent(db, oid) && PersistPage(db, oid, page).Some?
    ensures var paged := PersistPage(db, oid, page).value;
            && OfCurrent(paged, oid) && paged.outbox == db.outbox
            && Left(paged, oid, None, r) == Left(paged, oid, Some(page), r) == Left(db, oid, Some(page), r)
  {
    hide Consistent;
    PreparedRow(db, oid);
    var paged := PersistPage(db, oid, page).value;
    assert Left(paged, oid, None, r).sessions == Left(db, oid, Some(page), r).sessions;
    assert Left(paged, oid, Some(page), r).sessions == Left(db, oid, Some(page), r).sessions;
  }

  /** The tables between the durable attempt and its outcome. */
  ghost function AttemptedTables(db: Db, oid: OutboxId, page: PageKey): Db
    requires OfCurrent(db, oid)
  {
    var row := db.outbox[oid];
    Write(db, oid,
          db.sessions[row.session].(state := Submitting, provider := ProviderState.Pending, transport := Fresh,
                                    page := Some(page)),
          db.generations[GenKey(row.session, row.generation)].(state := SubmitAttempted, prompt := true, reason := None,
                                                               error := None),
          row.(state := SubmitAttempted, prompt := true, result := NoResult, error := None))
  }

  lemma AttemptLeaves(db: Db, oid: OutboxId, page: PageKey)
    requires Consistent(db) && oid in db.outbox && db.outbox[oid].state.Prepared?
    ensures OfCurrent(db, oid)
    ensures FillComposer(db, oid, page).Some? && oid in FillComposer(db, oid, page).value.outbox
    ensures AttemptSubmit(FillComposer(db, oid, page).value, oid, page) == Some(AttemptedTables(db, oid, page))
  {
    hide Consistent;
    PreparedRow(db, oid);
    var filled := FillComposer(db, oid, page).value;
    var attempted := AttemptSubmit(filled, oid, page).value;
    var expected := AttemptedTables(db, oid, page);
    assert attempted.sessions == expected.sessions;
    assert attempted.generations == expected.generations;
    assert attempted.outbox == expected.outbox;
  }

  lemma AttemptKeepsRequest(db: Db, oid: OutboxId, page: PageKey)
    requires OfCurrent(db, oid)
    ensures var attempted := AttemptedTables(db, oid, page);
            && oid in attempted.outbox && attempted.outbox[oid].request == db.outbox[oid].request
            && attempted.outbox[oid].session == db.outbox[oid].session
            && attempted.sessions.Keys == db.sessions.Keys && OfCurrent(attempted, oid)
  {}

  lemma SentLeaves(db: Db, oid: OutboxId, page: PageKey, ack: Submission.Acknowledgement)
    requires OfCurrent(db, oid)
    ensures CompleteSubmitted(AttemptedTables(db, oid, page), oid, page, ack)
            == Some(Left(db, oid, Some(page), Sent(ack)))
  {
    var r := CompleteSubmitted(AttemptedTables(db, oid, page), oid, page, ack);
    var expected := Left(db, oid, Some(page), Sent(ack));
    assert r.Some? && r.value.sessions == expected.sessions;
    assert r.value.generations == expected.generations;
    assert r.value.outbox == expected.outbox;
  }

  lemma AmbiguityLeaves(db: Db, oid: OutboxId, page: PageKey, reason: Reason)
    requires OfCurrent(db, oid)
    ensures RecordUnknown(AttemptedTables(db, oid, page), oid, reason)
            == Some(Left(db, oid, Some(page), Ambiguous(reason)))
  {
    var r := RecordUnknown(AttemptedTables(db, oid, page), oid, reason);
    var expected := Left(db, oid, Some(page), Ambiguous(reason));
    assert r.Some? && r.value.sessions == expected.sessions;
    assert r.value.generations == expected.generations;
    assert r.value.outbox == expected.outbox;
  }

  /** Whatever happened since the attempt, an acknowledgement is recorded as it was given. */
  lemma SentRecords(db: Db, oid: OutboxId, page: PageKey, ack: Submission.Acknowledgement)
    requires Consistent(db) && oid in db.outbox && db.outbox[oid].state.SubmitAttempted?
    ensures OfCurrent(db, oid)
    ensures CompleteSubmitted(db, oid, page, ack) == Some(Left(db, oid, Some(page), Sent(ack)))
  {
    hide Consistent;
    PreparedRow(db, oid);
  }

  /** The tables of an attempted request recorded as ambiguous; a session that has ended is left as it is. */
  ghost function LeftAmbiguous(db: Db, oid: OutboxId, reason: Reason): Db
    requires OfCurrent(db, oid)
  {
    var row := db.outbox[oid];
    var s := db.sessions[row.session];
    var told := if IsTerminalState(s.state) then s
                else s.(state := Observing, provider := ProviderState.Unknown, transport := Unavailable);
    Write(db, oid, told,
          db.generations[GenKey(row.session, row.generation)].(
            state := SubmissionUnknown, prompt := true, reason := Some(reason), error := Some(SubmissionUnknownError)),
          row.(state := SubmissionUnknown, prompt := true, error := Some(SubmissionUnknownError),
               result := StoredSnapshot(Some(reason), Some(SubmissionUnknownError), told.transport)))
  }

  /** Without an acknowledgement the request is ambiguous, for the reason reported. */
  lemma AmbiguityRecords(db: Db, oid: OutboxId, reason: Reason)
    requires Consistent(db) && oid in db.outbox && db.outbox[oid].state.SubmitAttempted?
    ensures OfCurrent(db, oid)
    ensures RecordUnknown(db, oid, reason) == Some(LeftAmbiguous(db, oid, reason))
  {
    hide Consistent;
    PreparedRow(db, oid);
    var r, expected := RecordUnknown(db, oid, reason), LeftAmbiguous(db, oid, reason);
    assert r.Some? && r.value.sessions == expected.sessions;
    assert r.value.generations == expected.generations;
    assert r.value.outbox == expected.outbox;
  }

  // ---------------------------------------------------------------- startup

  /** An interrupted preparation is failed for want of a browser, as interrupted by a restart. */
  ghost function Interrupted(db: Db, oid: OutboxId): Db
    requires OfCurrent(db, oid)
  {
    var row := db.outbox[oid];
    var g := db.generations[CurrentKey(db, row.session)];
    var reason, error := Some(RestartPreSubmitInterrupted), Some(BrowserUnavailable);
    Write(db, oid,
          db.sessions[row.session].(state := Ready, provider := ProviderState.Error, transport := Unavailable),
          g.(state := FailedPreSubmit, reason := reason, error := error),
          row.(state := FailedPreSubmit, error := error, result := StoredSnapshot(reason, error, Unavailable)))
  }

  /**
   The first pass keeps a preparation its caller still has to decide, to be inspected again; it fails every
   other request that was prepared or filled, unless its session has ended, and no other row.
   */
  lemma PreSubmitPassLeaves(db: Db, oid: OutboxId)
    requires Consistent(db) && oid in db.outbox
    ensures var row := db.outbox[oid];
            var open := row.state.Prepared? || row.state.ComposerFilled?;
            && (open ==> OfCurrent(db, oid))
            && PreSubmitPass(db, oid) == Some(
                 if !open || IsTerminalState(db.sessions[row.session].state) then db
                 else if row.state.Prepared? && row.error == Some(PreparationRequired)
                         && db.sessions[row.session].state.Submitting?
                 then db.(outbox := db.outbox[oid := row.(result := PendingPreparation(true))])
                 else Interrupted(db, oid))
  {
    hide Consistent;
    var row := db.outbox[oid];
    if row.state.Prepared? || row.state.ComposerFilled? { PreparedRow(db, oid); }
  }

  /** The third pass turns every attempt without an outcome into an ambiguous request, and changes no other row. */
  lemma SubmissionPassLeaves(db: Db, oid: OutboxId)
    requires Consistent(db) && oid in db.outbox
    ensures db.outbox[oid].state.SubmitAttempted? ==> OfCurrent(db, oid)
    ensures SubmissionPass(db, oid) == Some(if db.outbox[oid].state.SubmitAttempted?
                                            then LeftAmbiguous(db, oid, RestartAfterSubmitAttempt) else db)
  {
    hide Consistent, LeftAmbiguous, RecordUnknown;
    if db.outbox[oid].state.SubmitAttempted? { AmbiguityRecords(db, oid, RestartAfterSubmitAttempt); }
  }
}
