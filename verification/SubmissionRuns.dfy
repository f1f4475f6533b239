/**
 The submission service as a state machine over its durable transactions, its session actors
 and the provider's irreversible `submitOnce`, with a crash possible at every step.

 An event whose guard does not hold changes nothing: it is a call that was refused. The event
 carries every outcome the service does not decide itself.
 */
module SubmissionRuns {
  import opened Wrappers
  import opened Storage
  import opened Submission

  /** What the one operation admitted by a session's actor is waiting for. */
  datatype Flow =
    | Opening(oid: OutboxId)
    | Preparing(oid: OutboxId)
    | Filled(oid: OutboxId)
    | Attempted(oid: OutboxId)
    | Dispatched(oid: OutboxId)
    | Refreshing(oid: OutboxId, seen: bool, duplicate: bool)
    | Approving(oid: OutboxId, route: Route, request: Request, hash: nat, lostContinuation: bool)

  /** `startCore`: each pass works through the rows it listed when it began. */
  datatype Phase =
    | Restoring
    | PreSubmit(todo: set<OutboxId>)
    | Diagnostics(todo: set<OutboxId>)
    | Interrupted(todo: set<OutboxId>)
    | Running

  /** One call of the provider's `submitOnce`. */
  datatype Call = Call(oid: OutboxId, request: Request)

  /**
   `turn` names the session whose code runs without an `await`: from the composer transition
   up to the call of `submitOnce` nothing but a crash can come between. `waiting` holds the requests
   whose resumption found them settled and waits for the session's actor to replay them. `calls` and
   `used` are history: the calls the provider received, and the row identifiers drawn so far.
   */
  datatype State = State(db: Db, flows: map<SessionId, Flow>, turn: Option<SessionId>, phase: Phase, calls: seq<Call>,
                         used: set<OutboxId>, waiting: set<OutboxId>)

  const Start := State(EmptyDb, map[], None, Restoring, [], {}, {})

  /** A durable operation that starts and ends inside one turn of an idle session actor. */
  datatype Operation =
    | Choose(oid: OutboxId)
    | Cancel(oid: OutboxId)
    | Inspect(oid: OutboxId, recoverBrowserFailure: bool)
    | Recover(oid: OutboxId, ack: Acknowledgement)
    | Continue(oid: OutboxId)
    | Fail(oid: OutboxId, timeout: bool)
    | Follow(sid: SessionId, recoveryTracking: bool)
    | Stop(sid: SessionId, gen: nat)
    | Watch(sid: SessionId, gen: nat, o: Observation)
    | PageState(sid: SessionId, page: Option<PageKey>, transport: Transport, code: nat, error: Option<ErrorCode>,
                duplicatesReconciled: bool)
    | DeleteConversation(sid: SessionId, keepRole: bool)
    | StopTracking(sid: SessionId)

  datatype Event =
    | NewSession(sid: SessionId, predecessor: Option<SessionId>)
    | EndRole(sid: SessionId)
    | EndTeam(team: set<SessionId>)
    | DeletionAttempted(conversation: ConversationId)
    | Send(sid: SessionId, request: Request, newId: OutboxId, payload: Payload)
    | AuthorizeSuccessor(original: OutboxId, route: Route, request: Request, hash: nat, lostContinuation: bool)
    | Approved(sid: SessionId, newId: OutboxId)
    | Resume(oid: OutboxId)
    | AskReplay(oid: OutboxId)
    | Replayed(oid: OutboxId)
    | PageOpened(sid: SessionId, page: PageKey)
    | PreparationPaused(sid: SessionId, cooldown: bool)
    | PreparationFailed(sid: SessionId, error: ErrorCode)
    | ComposerReady(sid: SessionId, page: PageKey)
    | RecordAttempt(sid: SessionId, page: PageKey)
    | CallSubmitOnce(sid: SessionId)
    | Acknowledged(sid: SessionId, page: PageKey, ack: Acknowledgement)
    | Ambiguous(sid: SessionId, reason: Reason)
    | Aborted(sid: SessionId)
    | BeginRefresh(oid: OutboxId, rendererCrash: bool)
    | EndRefresh(sid: SessionId)
    | Act(op: Operation)
    | Crash
    | RestoreSession(sid: SessionId)
    | PassRow(oid: OutboxId)
    | PassEnd

  function Target(db: Db, op: Operation): Option<SessionId> {
    match op
    case Choose(oid) => SessionOf(db, oid)
    case Cancel(oid) => SessionOf(db, oid)
    case Inspect(oid, _) => SessionOf(db, oid)
    case Recover(oid, _) => SessionOf(db, oid)
    case Continue(oid) => SessionOf(db, oid)
    case Fail(oid, _) => SessionOf(db, oid)
    case Follow(sid, _) => Some(sid)
    case Stop(sid, _) => Some(sid)
    case Watch(sid, _, _) => Some(sid)
    case PageState(sid, _, _, _, _, _) => Some(sid)
    case DeleteConversation(sid, _) => Some(sid)
    case StopTracking(sid) => Some(sid)
  }

  /** The session whose actor runs the operation, if it is one that waits for an actor. */
  ghost function ActorOf(s: State, e: Event): Option<SessionId> {
    match e
    case Send(sid, request, _, _) =>
      var existing := Find(s.db, request);
      Some(if existing.Some? then s.db.outbox[existing.value].session else sid)
    case AuthorizeSuccessor(original, _, _, _, _) => SessionOf(s.db, original)
    case Approved(sid, _) => Some(sid)
    case Resume(oid) => SessionOf(s.db, oid)
    case Replayed(oid) => SessionOf(s.db, oid)
    case BeginRefresh(oid, _) => SessionOf(s.db, oid)
    case Act(op) => Target(s.db, op)
    case PageOpened(sid, _) => Some(sid)
    case PreparationPaused(sid, _) => Some(sid)
    case PreparationFailed(sid, _) => Some(sid)
    case ComposerReady(sid, _) => Some(sid)
    case RecordAttempt(sid, _) => Some(sid)
    case CallSubmitOnce(sid) => Some(sid)
    case Acknowledged(sid, _, _) => Some(sid)
    case Ambiguous(sid, _) => Some(sid)
    case Aborted(sid) => Some(sid)
    case EndRefresh(sid) => Some(sid)
    case _ => None
  }

  function SessionOf(db: Db, oid: OutboxId): Option<SessionId> {
    if oid in db.outbox then Some(db.outbox[oid].session) else None
  }

  function Perform(db: Db, op: Operation): Option<Db>
    requires Target(db, op).Some?
  {
    match op
    case Choose(oid) => RecordChoice(db, oid)
    case Cancel(oid) => CancelPreparation(db, oid)
    case Inspect(oid, b) => InspectPreparation(db, oid, b)
    case Recover(oid, ack) => RecoverAcknowledgement(db, oid, ack)
    case Continue(oid) => PrepareContinuation(db, oid)
    case Fail(oid, timeout) => ReconcileFailure(db, oid, timeout)
    case Follow(sid, tracking) => ReconcileFollowup(db, sid, tracking)
    case Stop(sid, gen) => CompleteStop(db, sid, gen)
    case Watch(sid, gen, o) => Observe(db, sid, gen, o)
    case PageState(sid, page, transport, code, error, dup) =>
      RecordPageState(db, sid, page, transport, code, error, dup)
    case DeleteConversation(sid, keepRole) => RetireDeleted(db, sid, keepRole)
    case StopTracking(sid) => RetireObservation(db, sid)
  }

  predicate Idle(s: State, sid: SessionId) {
    s.phase.Running? && s.turn.None? && sid !in s.flows
  }

  function Wrote(s: State, r: Option<Db>): State {
    if r.Some? then s.(db := r.value) else s
  }

  /** The flow ends, by returning or by throwing, with the durable outcome `r`. */
  function Ended(s: State, sid: SessionId, r: Option<Db>): State {
    Wrote(s, r).(flows := s.flows - {sid}, turn := None)
  }

  /** The session has an operation in progress and the event loop is free for it. */
  predicate At(s: State, sid: SessionId) {
    s.phase.Running? && sid in s.flows && (s.turn.None? || s.turn == Some(sid))
  }

  ghost function Step(s: State, e: Event): State {
    match e
    case NewSession(sid, predecessor) =>
      if s.phase.Running? && s.turn.None? then Wrote(s, CreateSession(s.db, sid, predecessor)) else s
    case EndRole(sid) => if s.phase.Running? && s.turn.None? then Wrote(s, RetireRole(s.db, sid)) else s
    case EndTeam(team) => if s.phase.Running? && s.turn.None? then s.(db := DeleteTeam(s.db, team)) else s
    case DeletionAttempted(c) =>
      if s.phase.Running? && s.turn.None? then s.(db := s.db.(deletions := s.db.deletions + {c})) else s
    case Send(sid, request, newId, payload) => StepSend(s, sid, request, newId, payload)
    case AuthorizeSuccessor(original, route, request, hash, lost) =>
      StepAuthorize(s, original, route, request, hash, lost)
    case Approved(sid, newId) =>
      if !(At(s, sid) && s.flows[sid].Approving?) then s
      else
        var f := s.flows[sid];
        StepApproved(Ended(s, sid, None), f.oid, f.route, f.request, newId, f.hash, f.lostContinuation)
    case Resume(oid) => StepResume(s, oid)
    case AskReplay(oid) => StepAskReplay(s, oid)
    case Replayed(oid) => StepReplayed(s, oid)
    case PageOpened(sid, page) => StepOpened(s, sid, page)
    case PreparationPaused(sid, cooldown) =>
      if !(At(s, sid) && (s.flows[sid].Opening? || s.flows[sid].Preparing?)) then s
      else Ended(s, sid, if s.flows[sid].oid in s.db.outbox
                 then RecordPreparationRequired(s.db, s.flows[sid].oid, cooldown) else None)
    case PreparationFailed(sid, error) =>
      if !(At(s, sid) && (s.flows[sid].Opening? || s.flows[sid].Preparing?)) then s
      else Ended(s, sid, if s.flows[sid].oid in s.db.outbox then FailPreSubmit(s.db, s.flows[sid].oid, error) else None)
    case ComposerReady(sid, page) => StepComposer(s, sid, page)
    case RecordAttempt(sid, page) => StepAttempt(s, sid, page)
    case CallSubmitOnce(sid) => StepCall(s, sid)
    case Acknowledged(sid, page, ack) => StepAcknowledged(s, sid, page, ack)
    case Ambiguous(sid, reason) =>
      if !(At(s, sid) && s.flows[sid].Dispatched?) then s
      else Ended(s, sid, if s.flows[sid].oid in s.db.outbox then RecordUnknown(s.db, s.flows[sid].oid, reason)
                 else None)
    case Aborted(sid) => if At(s, sid) then Ended(s, sid, None) else s
    case BeginRefresh(oid, crash) => StepBeginRefresh(s, oid, crash)
    case EndRefresh(sid) =>
      if !(At(s, sid) && s.flows[sid].Refreshing?) then s
      else Ended(s, sid, if s.flows[sid].oid in s.db.outbox
                 then AfterRefresh(s.db, s.flows[sid].oid, s.flows[sid].seen, s.flows[sid].duplicate) else None)
    case Act(op) =>
      var target := Target(s.db, op);
      if target.Some? && Idle(s, target.value) then Wrote(s, Perform(s.db, op)) else s
    case Crash => s.(flows := map[], turn := None, phase := Restoring, waiting := {})
    case RestoreSession(sid) => if s.phase.Restoring? then Wrote(s, RestoreRetired(s.db, sid)) else s
    case PassRow(oid) => StepPassRow(s, oid)
    case PassEnd => StepPassEnd(s)
  }

  /** A repeated request replays its row; a new one is prepared and starts its submission. */
  ghost function StepSend(s: State, sid: SessionId, request: Request, newId: OutboxId, payload: Payload): State {
    var existing := Find(s.db, request);
    if existing.Some? then
      var row := s.db.outbox[existing.value];
      if row.payload.authorized.Some? || row.payload.hash != payload.hash || !Idle(s, row.session) then s
      else Wrote(s, Replay(s.db, existing.value))
    else if !Idle(s, sid) || newId in s.used || payload.authorized.Some? then s
    else
      var prepared := PrepareOutbox(s.db, sid, request, newId, payload, None);
      if prepared.None? then s
      else s.(db := prepared.value, flows := s.flows[sid := Opening(newId)], used := s.used + {newId})
  }

  /** The session's actor holds the approval until the page is verified. */
  ghost function StepAuthorize(s: State, original: OutboxId, route: Route, request: Request, hash: nat,
                               lost: bool): State {
    if original !in s.db.outbox || !Idle(s, s.db.outbox[original].session)
       || request.client != s.db.outbox[original].request.client || !MayApprove(s.db, original, route, lost) then s
    else s.(flows := s.flows[s.db.outbox[original].session := Approving(original, route, request, hash, lost)])
  }

  ghost function StepApproved(s: State, original: OutboxId, route: Route, request: Request, newId: OutboxId,
                              hash: nat, lost: bool): State {
    if original !in s.db.outbox || !Idle(s, s.db.outbox[original].session) || newId in s.used
       || request.client != s.db.outbox[original].request.client then s
    else
      var r := PrepareSuccessor(s.db, original, route, request, newId, hash, lost);
      if r.None? then s else s.(db := r.value, used := s.used + {newId})
  }

  /** Only a pending preparation that needs no fresh inspection runs again. */
  function StepResume(s: State, oid: OutboxId): State {
    if oid !in s.db.outbox || !Idle(s, s.db.outbox[oid].session) then s
    else if !AwaitsDecision(s.db, oid) || s.db.outbox[oid].result == PendingPreparation(true) then s
    else s.(flows := s.flows[s.db.outbox[oid].session := Opening(oid)])
  }

  /** A resumption looks at the row before it waits for the actor, and replays the row it finds then. */
  function StepAskReplay(s: State, oid: OutboxId): State {
    if !(s.phase.Running? && s.turn.None?) || oid !in s.db.outbox then s
    else if s.db.outbox[oid].state in {SubmissionState.Submitted, FailedPreSubmit, SubmissionUnknown, SubmitAttempted}
    then s.(waiting := s.waiting + {oid})
    else s
  }

  function StepReplayed(s: State, oid: OutboxId): State {
    if oid !in s.waiting || oid !in s.db.outbox || !Idle(s, s.db.outbox[oid].session) then s
    else Wrote(s.(waiting := s.waiting - {oid}), Replay(s.db, oid))
  }

  function StepOpened(s: State, sid: SessionId, page: PageKey): State {
    if !(At(s, sid) && s.flows[sid].Opening?) then s
    else
      var oid := s.flows[sid].oid;
      var r := if oid in s.db.outbox then PersistPage(s.db, oid, page) else None;
      if r.None? then Ended(s, sid, None) else s.(db := r.value, flows := s.flows[sid := Preparing(oid)])
  }

  function StepComposer(s: State, sid: SessionId, page: PageKey): State {
    if !(At(s, sid) && s.flows[sid].Preparing?) then s
    else
      var oid := s.flows[sid].oid;
      var r := if oid in s.db.outbox then FillComposer(s.db, oid, page) else None;
      if r.None? then Ended(s, sid, None)
      else s.(db := r.value, flows := s.flows[sid := Filled(oid)], turn := Some(sid))
  }

  function StepAttempt(s: State, sid: SessionId, page: PageKey): State {
    if !(At(s, sid) && s.flows[sid].Filled?) then s
    else
      var oid := s.flows[sid].oid;
      var r := if oid in s.db.outbox then AttemptSubmit(s.db, oid, page) else None;
      if r.None? then Ended(s, sid, None) else s.(db := r.value, flows := s.flows[sid := Attempted(oid)])
  }

  /** The irreversible call. Its outcome, a time-out included, arrives later. */
  function StepCall(s: State, sid: SessionId): State {
    if !(At(s, sid) && s.flows[sid].Attempted?) then s
    else
      var oid := s.flows[sid].oid;
      var request := if oid in s.db.outbox then s.db.outbox[oid].request else Request(0, 0);
      s.(flows := s.flows[sid := Dispatched(oid)], turn := None, calls := s.calls + [Call(oid, request)])
  }

  /** An acknowledgement that cannot be recorded leaves the request ambiguous. */
  function StepAcknowledged(s: State, sid: SessionId, page: PageKey, ack: Acknowledgement): State {
    if !(At(s, sid) && s.flows[sid].Dispatched?) then s
    else
      var oid := s.flows[sid].oid;
      if oid !in s.db.outbox then Ended(s, sid, None)
      else
        var r := CompleteSubmitted(s.db, oid, page, ack);
        Ended(s, sid, if r.Some? then r else RecordUnknown(s.db, oid, SubmitUnacknowledged))
  }

  function StepBeginRefresh(s: State, oid: OutboxId, crash: bool): State {
    if oid !in s.db.outbox then s
    else
      var row := s.db.outbox[oid];
      if !Idle(s, row.session) || row.session !in s.db.sessions
          || s.db.sessions[row.session].current != row.generation || s.db.sessions[row.session].page.None? then s
      else
        var r := BeforeRefresh(s.db, oid);
        if r.None? then s
        else s.(db := r.value, flows := s.flows[row.session := Refreshing(oid, RefreshMayReopen(s.db, oid, crash),
            DuplicateRecovered(s.db, oid))])
  }

  /** A row the pass in progress cannot write stops startup: the event is refused and the row stays listed. */
  function StepPassRow(s: State, oid: OutboxId): State {
    match s.phase
    case PreSubmit(todo) =>
      if oid !in todo then s
      else var r := PreSubmitPass(s.db, oid); if r.None? then s else s.(db := r.value, phase := PreSubmit(todo - {oid}))
    case Diagnostics(todo) =>
      if oid !in todo then s
      else var r := DiagnosticsPass(s.db, oid);
      if r.None? then s else s.(db := r.value, phase := Diagnostics(todo - {oid}))
    case Interrupted(todo) =>
      if oid !in todo then s
      else var r := SubmissionPass(s.db, oid);
      if r.None? then s else s.(db := r.value, phase := Interrupted(todo - {oid}))
    case Restoring => s
    case Running => s
  }

  function Listed(db: Db, states: set<SubmissionState>): set<OutboxId> {
    set oid | oid in db.outbox && db.outbox[oid].state in states
  }

  function StepPassEnd(s: State): State {
    match s.phase
    case Restoring => s.(phase := PreSubmit(Listed(s.db, {Prepared, ComposerFilled})))
    case PreSubmit(todo) =>
      if todo == {} then s.(phase := Diagnostics(Listed(s.db, {FailedPreSubmit, SubmissionUnknown}))) else s
    case Diagnostics(todo) => if todo == {} then s.(phase := Interrupted(Listed(s.db, {SubmitAttempted}))) else s
    case Interrupted(todo) => if todo == {} then s.(phase := Running) else s
    case Running => s
  }

  /** The state after a run. */
  ghost function Exec(s: State, run: seq<Event>): State
    decreases |run|
  {
    if run == [] then s else Exec(Step(s, run[0]), run[1..])
  }
}
