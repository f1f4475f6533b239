/**
 What each step of a submission records, whatever other sessions did meanwhile, and what an uninterrupted one
 leaves: the same as the service's own method.
 */
module SubmissionFlows {
  import opened Wrappers
  import opened Storage
  import opened Submission
  import opened SubmissionInvariants
  import opened SubmissionTransactions
  import opened SubmissionRuns
  import opened SubmissionSafety
  import opened SubmissionTheorems
  import Outcomes = SubmissionOutcomes
  import Decisions = SubmissionDecisions
  import Requests = SubmissionRequests

  /** The session's operation in progress, and the row it works on. */
  ghost predicate Works(s: State, sid: SessionId, oid: OutboxId) {
    At(s, sid) && s.flows[sid].oid == oid && oid in s.db.outbox && !s.flows[sid].Refreshing? && !s.flows[sid].Approving?
  }

  /** The row is at the stage the operation has reached. */
  lemma StageOf(s: State, sid: SessionId, oid: OutboxId)
    requires Inv(s) && Works(s, sid, oid)
    ensures Consistent(s.db) && s.db.outbox[oid].session == sid && Outcomes.OfCurrent(s.db, oid)
    ensures s.flows[sid].Opening? || s.flows[sid].Preparing? ==> s.db.outbox[oid].state.Prepared?
    ensures s.flows[sid].Filled? ==> s.db.outbox[oid].state.ComposerFilled?
    ensures s.flows[sid].Attempted? || s.flows[sid].Dispatched? ==> s.db.outbox[oid].state.SubmitAttempted?
  {
    hide Consistent, Covered, CallsFit, ReservationsFit, PhaseFits;
    assert StageFits(s, sid, s.flows[sid]);
    Outcomes.PreparedRow(s.db, oid);
  }

  /** The flow ended, and left the tables so. */
  ghost predicate EndsWith(s: State, after: State, sid: SessionId, db: Db) {
    after.db == db && after.flows == s.flows - {sid} && after.turn.None? && after.calls == s.calls
  }

  // ---------------------------------------------------------------- one step, whatever others did

  /** A pause and a failure before submission are recorded as they were reported. */
  lemma PreparationRecords(s: State, sid: SessionId, oid: OutboxId, cooldown: bool, error: ErrorCode)
    requires Inv(s) && Works(s, sid, oid) && (s.flows[sid].Opening? || s.flows[sid].Preparing?)
    ensures Outcomes.OfCurrent(s.db, oid)
    ensures EndsWith(s, Step(s, PreparationPaused(sid, cooldown)), sid,
                     Outcomes.Left(s.db, oid, None, Outcomes.Paused(cooldown)))
    ensures EndsWith(s, Step(s, PreparationFailed(sid, error)), sid,
                     Outcomes.Left(s.db, oid, None, Outcomes.NotSent(error)))
  {
    hide Inv, Consistent, RecordPreparationRequired, FailPreSubmit, Outcomes.Left;
    StageOf(s, sid, oid);
    Outcomes.PauseLeaves(s.db, oid, cooldown);
    Outcomes.FailureLeaves(s.db, oid, error);
  }

  /** An acknowledgement is bound to the generation as it was given, and always recorded. */
  lemma AcknowledgementRecords(s: State, sid: SessionId, oid: OutboxId, page: PageKey, ack: Acknowledgement)
    requires Inv(s) && Works(s, sid, oid) && s.flows[sid].Dispatched?
    ensures Outcomes.OfCurrent(s.db, oid)
    ensures EndsWith(s, Step(s, Acknowledged(sid, page, ack)), sid,
                     Outcomes.Left(s.db, oid, Some(page), Outcomes.Sent(ack)))
  {
    hide Inv, Consistent, CompleteSubmitted, RecordUnknown, Outcomes.Left;
    StageOf(s, sid, oid);
    Outcomes.SentRecords(s.db, oid, page, ack);
  }

  /** A missing acknowledgement is recorded with the reason reported. */
  lemma AmbiguityRecords(s: State, sid: SessionId, oid: OutboxId, reason: Reason)
    requires Inv(s) && Works(s, sid, oid) && s.flows[sid].Dispatched?
    ensures Outcomes.OfCurrent(s.db, oid)
    ensures EndsWith(s, Step(s, Event.Ambiguous(sid, reason)), sid, Outcomes.LeftAmbiguous(s.db, oid, reason))
  {
    hide Inv, Consistent, RecordUnknown, Outcomes.LeftAmbiguous;
    StageOf(s, sid, oid);
    Outcomes.AmbiguityRecords(s.db, oid, reason);
  }

  // ---------------------------------------------------------------- from the request to its recorded outcome

  /** What happens to a session while its request is submitted, when nothing else does. */
  function Events(sid: SessionId, opening: Outcomes.Opening, preparation: Outcomes.Preparation,
                  dispatch: Outcomes.Dispatch): seq<Event> {
    match opening
    case OpeningPaused(cooldown) => [PreparationPaused(sid, cooldown)]
    case OpeningFailed(error) => [PreparationFailed(sid, error)]
    case Opened(page) => [PageOpened(sid, page)] + EventsOnPage(sid, page, preparation, dispatch)
  }

  function EventsOnPage(sid: SessionId, page: PageKey, preparation: Outcomes.Preparation,
                        dispatch: Outcomes.Dispatch): seq<Event> {
    match preparation
    case PreparationPaused(cooldown) => [PreparationPaused(sid, cooldown)]
    case PreparationFailed(error) => [PreparationFailed(sid, error)]
    case ComposerPrepared =>
      [ComposerReady(sid, page), RecordAttempt(sid, page), CallSubmitOnce(sid)] + [OutcomeOf(sid, page, dispatch)]
  }

  function OutcomeOf(sid: SessionId, page: PageKey, dispatch: Outcomes.Dispatch): Event {
    match dispatch
    case Acknowledgement(ack) => Acknowledged(sid, page, ack)
    case Unacknowledged(reason) => Event.Ambiguous(sid, reason)
  }

  /** The state after the durable attempt and the call. */
  ghost function Called(s: State, sid: SessionId, oid: OutboxId, page: PageKey): State
    requires Outcomes.OfCurrent(s.db, oid)
  {
    s.(db := Outcomes.AttemptedTables(s.db, oid, page), flows := s.flows[sid := Dispatched(oid)], turn := None,
       calls := s.calls + [Call(oid, s.db.outbox[oid].request)])
  }

  lemma ExecOne(s: State, e: Event)
    ensures Exec(s, [e]) == Step(s, e)
  {
    assert [e][1..] == [] && Exec(Step(s, e), []) == Step(s, e);
  }

  lemma CallsOnce(s: State, sid: SessionId, oid: OutboxId, page: PageKey)
    requires Inv(s) && Works(s, sid, oid) && s.flows[sid].Preparing?
    ensures Outcomes.OfCurrent(s.db, oid)
    ensures Exec(s, [ComposerReady(sid, page), RecordAttempt(sid, page), CallSubmitOnce(sid)])
            == Called(s, sid, oid, page)
  {
    hide Inv, Consistent, FillComposer, AttemptSubmit, Outcomes.AttemptedTables, Step;
    StageOf(s, sid, oid);
    Outcomes.AttemptLeaves(s.db, oid, page);
    Outcomes.AttemptKeepsRequest(s.db, oid, page);
    var run := [ComposerReady(sid, page), RecordAttempt(sid, page), CallSubmitOnce(sid)];
    var filled := Step(s, run[0]);
    FillsComposer(s, sid, oid, page);
    var attempted := Step(filled, run[1]);
    RecordsAttempt(filled, sid, oid, page);
    MakesCall(attempted, sid, oid);
    ExecConcat(s, [run[0]], [run[1], run[2]]);
    ExecConcat(filled, [run[1]], [run[2]]);
    ExecOne(s, run[0]);
    ExecOne(filled, run[1]);
    ExecOne(attempted, run[2]);
    assert run == [run[0]] + [run[1], run[2]] && [run[1], run[2]] == [run[1]] + [run[2]];
  }

  lemma FillsComposer(s: State, sid: SessionId, oid: OutboxId, page: PageKey)
    requires Works(s, sid, oid) && s.flows[sid].Preparing? && FillComposer(s.db, oid, page).Some?
    ensures Step(s, ComposerReady(sid, page))
            == s.(db := FillComposer(s.db, oid, page).value, flows := s.flows[sid := Filled(oid)], turn := Some(sid))
  {
    hide FillComposer;
  }

  lemma RecordsAttempt(s: State, sid: SessionId, oid: OutboxId, page: PageKey)
    requires Works(s, sid, oid) && s.flows[sid].Filled? && AttemptSubmit(s.db, oid, page).Some?
    ensures Step(s, RecordAttempt(sid, page))
            == s.(db := AttemptSubmit(s.db, oid, page).value, flows := s.flows[sid := Attempted(oid)])
  {
    hide AttemptSubmit;
  }

  lemma MakesCall(s: State, sid: SessionId, oid: OutboxId)
    requires Works(s, sid, oid) && s.flows[sid].Attempted?
    ensures Step(s, CallSubmitOnce(sid))
            == s.(flows := s.flows[sid := Dispatched(oid)], turn := None,
                  calls := s.calls + [Call(oid, s.db.outbox[oid].request)])
  {}

  /**
   An uninterrupted submission leaves exactly what the service's method leaves, ends the session's operation, and
   calls the provider exactly when the page was opened and prepared.
   */
  lemma SubmissionLeaves(s: State, sid: SessionId, oid: OutboxId, opening: Outcomes.Opening,
                         preparation: Outcomes.Preparation, dispatch: Outcomes.Dispatch)
    requires Inv(s) && Works(s, sid, oid) && s.flows[sid].Opening?
    ensures Outcomes.OfCurrent(s.db, oid)
    ensures var after := Exec(s, Events(sid, opening, preparation, dispatch));
            && after.db == Outcomes.Left(s.db, oid, Outcomes.PageOf(opening),
                                         Outcomes.ResultOf(opening, preparation, dispatch))
            && after.flows == s.flows - {sid} && after.turn.None?
            && after.calls == s.calls + if opening.Opened? && preparation.ComposerPrepared?
                                        then [Call(oid, s.db.outbox[oid].request)] else []
  {
    hide Inv, Consistent, Outcomes.Left, Step;
    StageOf(s, sid, oid);
    match opening
    case OpeningPaused(cooldown) =>
      PreparationRecords(s, sid, oid, cooldown, PreparationRequired);
      ExecOne(s, PreparationPaused(sid, cooldown));
    case OpeningFailed(error) =>
      PreparationRecords(s, sid, oid, false, error);
      ExecOne(s, PreparationFailed(sid, error));
    case Opened(page) =>
      OpensPage(s, sid, oid, page);
      var there := Step(s, PageOpened(sid, page));
      Outcomes.PageLeaves(s.db, oid, page, Outcomes.ResultOf(opening, preparation, dispatch));
      StepKeepsInv(s, PageOpened(sid, page));
      SubmissionOnPageLeaves(there, sid, oid, page, preparation, dispatch);
      ExecOne(s, PageOpened(sid, page));
      ExecConcat(s, [PageOpened(sid, page)], EventsOnPage(sid, page, preparation, dispatch));
      assert there.flows - {sid} == s.flows - {sid};
  }

  lemma OpensPage(s: State, sid: SessionId, oid: OutboxId, page: PageKey)
    requires Inv(s) && Works(s, sid, oid) && s.flows[sid].Opening?
    ensures PersistPage(s.db, oid, page).Some?
    ensures Step(s, PageOpened(sid, page))
            == s.(db := PersistPage(s.db, oid, page).value, flows := s.flows[sid := Preparing(oid)])
  {
    hide Inv, Consistent, PersistPage, Outcomes.Left;
    StageOf(s, sid, oid);
    Outcomes.PageLeaves(s.db, oid, page, Outcomes.Paused(false));
  }

  lemma SubmissionOnPageLeaves(s: State, sid: SessionId, oid: OutboxId, page: PageKey,
                               preparation: Outcomes.Preparation, dispatch: Outcomes.Dispatch)
    requires Inv(s) && Works(s, sid, oid) && s.flows[sid].Preparing?
    ensures Outcomes.OfCurrent(s.db, oid)
    ensures var after := Exec(s, EventsOnPage(sid, page, preparation, dispatch));
            && after.db == Outcomes.Left(s.db, oid, if preparation.ComposerPrepared? then Some(page) else None,
                                         Outcomes.ResultOf(Outcomes.Opened(page), preparation, dispatch))
            && after.flows == s.flows - {sid} && after.turn.None?
            && after.calls == s.calls + if preparation.ComposerPrepared?
                                        then [Call(oid, s.db.outbox[oid].request)] else []
  {
    hide Inv, Consistent, Outcomes.Left, Outcomes.AttemptedTables, Step, CompleteSubmitted, RecordUnknown;
    StageOf(s, sid, oid);
    match preparation
    case PreparationPaused(cooldown) =>
      PreparationRecords(s, sid, oid, cooldown, PreparationRequired);
      ExecOne(s, PreparationPaused(sid, cooldown));
    case PreparationFailed(error) =>
      PreparationRecords(s, sid, oid, false, error);
      ExecOne(s, PreparationFailed(sid, error));
    case ComposerPrepared =>
      var called := Called(s, sid, oid, page);
      CallsOnce(s, sid, oid, page);
      var three := [ComposerReady(sid, page), RecordAttempt(sid, page), CallSubmitOnce(sid)];
      ExecConcat(s, three, [OutcomeOf(sid, page, dispatch)]);
      ExecOne(called, OutcomeOf(sid, page, dispatch));
      Outcomes.AttemptKeepsRequest(s.db, oid, page);
      match dispatch
      case Acknowledgement(ack) =>
        Outcomes.SentLeaves(s.db, oid, page, ack);
        HearsAcknowledgement(called, sid, oid, page, ack);
      case Unacknowledged(reason) =>
        Outcomes.AmbiguityLeaves(s.db, oid, page, reason);
        HearsNothing(called, sid, oid, reason);
      assert called.flows - {sid} == s.flows - {sid};
  }

  lemma HearsAcknowledgement(s: State, sid: SessionId, oid: OutboxId, page: PageKey, ack: Acknowledgement)
    requires Works(s, sid, oid) && s.flows[sid].Dispatched? && CompleteSubmitted(s.db, oid, page, ack).Some?
    ensures EndsWith(s, Step(s, Acknowledged(sid, page, ack)), sid, CompleteSubmitted(s.db, oid, page, ack).value)
  {
    hide CompleteSubmitted;
  }

  lemma HearsNothing(s: State, sid: SessionId, oid: OutboxId, reason: Reason)
    requires Works(s, sid, oid) && s.flows[sid].Dispatched? && RecordUnknown(s.db, oid, reason).Some?
    ensures EndsWith(s, Step(s, Event.Ambiguous(sid, reason)), sid, RecordUnknown(s.db, oid, reason).value)
  {
    hide RecordUnknown;
  }

  /**
   From the filled composer to the call nothing comes between: every other event is refused, and only a crash or the
   submission's own next step happens.
   */
  lemma TurnIsUninterrupted(s: State, e: Event)
    requires Inv(s) && s.turn.Some?
    ensures s.turn.value in s.flows && (s.flows[s.turn.value].Filled? || s.flows[s.turn.value].Attempted?)
    ensures Step(s, e) != s ==>
              || e.Crash?
              || ((e.RecordAttempt? || e.CallSubmitOnce? || e.Aborted?) && e.sid == s.turn.value)
  {
    hide Consistent, Covered, CallsFit, ReservationsFit, PhaseFits, CreateSession, RetireRole, DeleteTeam, Perform,
      PersistPage, FillComposer, AttemptSubmit, RecordPreparationRequired, FailPreSubmit, CompleteSubmitted,
      RecordUnknown, AfterRefresh, BeforeRefresh, Replay, PrepareOutbox, PrepareSuccessor, MayApprove, AwaitsDecision,
      RestoreRetired;
    assert StageFits(s, s.turn.value, s.flows[s.turn.value]);
  }

  /**
   Every other operation takes effect exactly when its session is idle, and routing, deletions and the restoration of
   sessions exactly in their phase and outside a turn; each ends at once and starts no flow.
   */
  lemma OthersTakeEffectExactlyWhen(s: State, e: Event)
    requires e.Act? || e.NewSession? || e.EndRole? || e.EndTeam? || e.DeletionAttempted? || e.RestoreSession?
    ensures var free := s.phase.Running? && s.turn.None?;
            Step(s, e) == s.(db := match e
              case Act(op) =>
                var target := Target(s.db, op);
                if target.Some? && free && target.value !in s.flows then Perform(s.db, op).Or(s.db) else s.db
              case NewSession(sid, predecessor) => if free then CreateSession(s.db, sid, predecessor).Or(s.db) else s.db
              case EndRole(sid) => if free then RetireRole(s.db, sid).Or(s.db) else s.db
              case EndTeam(team) => if free then DeleteTeam(s.db, team) else s.db
              case DeletionAttempted(c) => if free then s.db.(deletions := s.db.deletions + {c}) else s.db
              case RestoreSession(sid) => if s.phase.Restoring? then RestoreRetired(s.db, sid).Or(s.db) else s.db)
  {
    hide CreateSession, RetireRole, DeleteTeam, Perform, RestoreRetired;
  }

  // ---------------------------------------------------------------- resuming, replaying and reloading

  /** A request runs again if and only if it waits for its caller, needs no inspection and its session is idle. */
  lemma ResumesExactlyWhen(s: State, oid: OutboxId)
    requires Inv(s)
    ensures Step(s, Resume(oid)) ==
              if oid in s.db.outbox && Idle(s, s.db.outbox[oid].session) && Decisions.Waits(s.db, oid)
                 && s.db.outbox[oid].result != PendingPreparation(true)
              then s.(flows := s.flows[s.db.outbox[oid].session := Opening(oid)]) else s
  {
    hide Inv, AwaitsDecision, Decisions.Waits, StepSend, StepAuthorize, StepApproved, StepBeginRefresh, Perform;
    Requests.InvIsConsistent(s);
    if oid in s.db.outbox { Decisions.WaitsExactlyWhen(s.db, oid); }
  }

  /**
   A resumption that found the request settled or attempted waits for the actor and then replays it, as it is by then:
   it settles what is unsettled and reopens nothing.
   */
  lemma ReplaysExactlyWhen(s: State, oid: OutboxId)
    requires Inv(s)
    ensures Step(s, AskReplay(oid)).waiting == s.waiting +
              if s.phase.Running? && s.turn.None? && oid in s.db.outbox
                 && (Irrevocable(s.db.outbox[oid].state) || s.db.outbox[oid].state == FailedPreSubmit)
              then {oid} else {}
    ensures Step(s, AskReplay(oid)).db == s.db
    ensures var after := Step(s, Replayed(oid));
            if oid in s.waiting && oid in s.db.outbox && Idle(s, s.db.outbox[oid].session)
            then Replay(s.db, oid) == Some(after.db) && after.waiting == s.waiting - {oid} && after.flows == s.flows
            else after == s
  {
    hide Inv, Step, Replay, Outcomes.Left, Outcomes.LeftAmbiguous, Decisions.Waits;
    Requests.InvIsConsistent(s);
    ReplaySteps(s, oid);
    if oid in s.db.outbox { Decisions.ReplayLeaves(s.db, oid); }
  }

  lemma ReplaySteps(s: State, oid: OutboxId)
    ensures Step(s, AskReplay(oid)) == StepAskReplay(s, oid) && Step(s, Replayed(oid)) == StepReplayed(s, oid)
  {
    hide StepAskReplay, StepReplayed;
  }

  /** A reload begins on the page of the current generation of an idle session, and remembers what may be reopened. */
  lemma ReloadBeginsExactlyWhen(s: State, oid: OutboxId, crash: bool)
    requires Inv(s)
    ensures var after := Step(s, BeginRefresh(oid, crash));
            if oid in s.db.outbox && Outcomes.OfCurrent(s.db, oid) && Idle(s, s.db.outbox[oid].session)
               && s.db.sessions[s.db.outbox[oid].session].page.Some?
            then BeforeRefresh(s.db, oid) == Some(after.db)
                 && after.flows == s.flows[s.db.outbox[oid].session := Refreshing(oid,
                      Decisions.FailedReady(s.db, oid)
                        && (Decisions.AfterDuplicates(s.db, oid)
                            || (crash && s.db.outbox[oid].error == Some(BrowserUnavailable))),
                      DuplicateRecovered(s.db, oid))]
            else after == s
  {
    hide Inv, BeforeRefresh, RefreshMayReopen, DuplicateRecovered, Decisions.FailedReady, Decisions.AfterDuplicates,
      Decisions.WithResult;
    Requests.InvIsConsistent(s);
    ReloadStep(s, oid, crash);
    if oid in s.db.outbox {
      Decisions.ReloadLeaves(s.db, oid, false, false);
      Decisions.ReloadReopensExactlyWhen(s.db, oid, crash);
      CurrentHasGeneration(s.db, oid);
    }
  }

  lemma CurrentHasGeneration(db: Db, oid: OutboxId)
    requires Consistent(db) && oid in db.outbox
    ensures Outcomes.OfCurrent(db, oid) <==>
              db.outbox[oid].session in db.sessions
              && db.sessions[db.outbox[oid].session].current == db.outbox[oid].generation
  {
    RowFacts(db, oid);
  }

  lemma ReloadStep(s: State, oid: OutboxId, crash: bool)
    ensures Step(s, BeginRefresh(oid, crash)) == StepBeginRefresh(s, oid, crash)
  {
    hide StepBeginRefresh;
  }

  /** A reload that ended reopens what it remembered, if it still is a failed request of the current generation. */
  lemma ReloadEnds(s: State, sid: SessionId)
    requires Inv(s) && At(s, sid) && s.flows[sid].Refreshing? && s.flows[sid].oid in s.db.outbox
    ensures var f := s.flows[sid];
            var reason := if f.duplicate then DuplicatePagePreparationRecovered else CrashedPagePreparationRecovered;
            var reopens := f.seen && s.db.outbox[f.oid].state == FailedPreSubmit && Outcomes.OfCurrent(s.db, f.oid);
            EndsWith(s, Step(s, EndRefresh(sid)), sid,
                     if reopens then Requests.Reopened(s.db, f.oid, reason, ProviderState.Pending, Fresh, true)
                     else s.db)
  {
    hide Inv, Step, AfterRefresh, Requests.Reopened, BeforeRefresh, Decisions.WithResult;
    Requests.InvIsConsistent(s);
    ReloadEndStep(s, sid);
    var f := s.flows[sid];
    Decisions.ReloadLeaves(s.db, f.oid, f.seen, f.duplicate);
    CurrentHasGeneration(s.db, f.oid);
  }

  lemma ReloadEndStep(s: State, sid: SessionId)
    requires At(s, sid) && s.flows[sid].Refreshing? && s.flows[sid].oid in s.db.outbox
    ensures Step(s, EndRefresh(sid))
            == Ended(s, sid, AfterRefresh(s.db, s.flows[sid].oid, s.flows[sid].seen, s.flows[sid].duplicate))
  {
    hide AfterRefresh;
  }
}
