/**
 The service as it runs: mutable tables, transactions that roll back, the submission of one
 prepared request from its page to its recorded outcome, and the startup loops. Each method is
 proved to do what the corresponding transaction of module `Submission` says.
 */
module SubmissionService {
  import opened Wrappers
  import opened Storage
  import Spec = Submission
  import opened SubmissionInvariants
  import opened SubmissionTransactions
  import opened SubmissionRecovery
  import opened SubmissionOutcomes
  import opened SubmissionRuns

  class Service {
    var sessions: map<SessionId, Session>
    var generations: map<GenKey, Generation>
    var outbox: map<OutboxId, Outbox>
    var routed: set<SessionId>
    var reservations: map<Reservation, OutboxId>
    var deletions: set<ConversationId>
    var dismissed: set<Dismissal>
    /** The provider's history, not a field of the service. */
    ghost var calls: seq<Call>

    function Tables(): Db
      reads this
    {
      Db(sessions, generations, outbox, routed, reservations, deletions, dismissed)
    }

    // ---------------------------------------------------------------- repositories

    method UpdateCurrentGeneration(sid: SessionId, gen: nat, u: Update) returns (ok: bool)
      modifies `sessions, `generations
      ensures ok == Storage.UpdateCurrentGeneration(old(Tables()), sid, gen, u).Some?
      ensures Tables() == Storage.UpdateCurrentGeneration(old(Tables()), sid, gen, u).Or(old(Tables()))
    {
      var k := GenKey(sid, gen);
      if sid !in sessions || sessions[sid].current != gen { return false; }
      if TouchesGeneration(u) {
        if k !in generations { return false; }
        generations := generations[k := UpdatedGeneration(generations[k], u)];
      }
      sessions := sessions[sid := UpdatedSession(sessions[sid], u)];
      return true;
    }

    method TransitionRow(oid: OutboxId, expected: set<SubmissionState>, next: SubmissionState, f: Fields)
        returns (ok: bool)
      modifies `outbox
      ensures ok == Transition(old(Tables()), oid, expected, next, f).Some?
      ensures Tables() == Transition(old(Tables()), oid, expected, next, f).Or(old(Tables()))
    {
      if oid !in outbox || outbox[oid].state !in expected { return false; }
      outbox := outbox[oid := UpdatedRow(outbox[oid], next, f)];
      return true;
    }

    // ---------------------------------------------------------------- transactions

    /** `#transition` and its siblings: the generation first, then the row, and neither if one is refused. */
    method WritePair(oid: OutboxId, u: Update, expected: set<SubmissionState>, next: SubmissionState, f: Fields)
        returns (ok: bool)
      requires oid in outbox
      modifies `sessions, `generations, `outbox
      ensures ok == Spec.Paired(old(Tables()), oid, u, expected, next, f).Some?
      ensures Tables() == Spec.Paired(old(Tables()), oid, u, expected, next, f).Or(old(Tables()))
    {
      var savedSessions, savedGenerations := sessions, generations;
      ok := UpdateCurrentGeneration(outbox[oid].session, outbox[oid].generation, u);
      if ok {
        ok := TransitionRow(oid, expected, next, f);
        if !ok { sessions, generations := savedSessions, savedGenerations; }
      }
    }

    /** The same, with the updated session's snapshot kept as the request's result. */
    method WritePairWithSnapshot(oid: OutboxId, u: Update, expected: set<SubmissionState>, next: SubmissionState,
                                 error: Option<ErrorCode>, prompt: bool) returns (ok: bool)
      requires oid in outbox
      modifies `sessions, `generations, `outbox
      ensures ok == Spec.PairedWithSnapshot(old(Tables()), oid, u, expected, next, error, prompt).Some?
      ensures Tables()
              == Spec.PairedWithSnapshot(old(Tables()), oid, u, expected, next, error, prompt).Or(old(Tables()))
    {
      var savedSessions, savedGenerations := sessions, generations;
      var sid := outbox[oid].session;
      ok := UpdateCurrentGeneration(sid, outbox[oid].generation, u);
      if ok {
        var snapshot := SnapshotOf(Tables(), sid);
        ok := TransitionRow(oid, expected, next, Fields(Some(snapshot), Some(error), Some(prompt)));
        if !ok { sessions, generations := savedSessions, savedGenerations; }
      }
    }

    method PersistPageKey(oid: OutboxId, page: PageKey) returns (ok: bool)
      requires oid in outbox
      modifies `sessions, `generations
      ensures ok == Spec.PersistPage(old(Tables()), oid, page).Some?
      ensures Tables() == Spec.PersistPage(old(Tables()), oid, page).Or(old(Tables()))
    {
      ok := UpdateCurrentGeneration(outbox[oid].session, outbox[oid].generation, NoUpdate.(page := Some(Some(page))));
    }

    method RecordSubmissionUnknown(oid: OutboxId, reason: Reason) returns (ok: bool)
      requires oid in outbox
      modifies `sessions, `generations, `outbox
      ensures ok == Spec.RecordUnknown(old(Tables()), oid, reason).Some?
      ensures Tables() == Spec.RecordUnknown(old(Tables()), oid, reason).Or(old(Tables()))
    {
      var row := outbox[oid];
      if row.session !in sessions { return false; }
      var u := NoUpdate;
      if !IsTerminalState(sessions[row.session].state) {
        u := u.(session := Some(Observing), provider := Some(ProviderState.Unknown), transport := Some(Unavailable));
      }
      var prompt := row.prompt || row.state.SubmitAttempted?;
      u := u.(state := Some(SubmissionUnknown), reason := Some(Some(reason)),
              error := Some(Some(SubmissionUnknownError)), prompt := Some(prompt));
      ok := WritePairWithSnapshot(oid, u, {Prepared, ComposerFilled, SubmitAttempted, SubmissionUnknown},
                                  SubmissionUnknown,
                                  Some(SubmissionUnknownError), prompt);
    }

    method FailPreSubmit(oid: OutboxId, error: ErrorCode) returns (ok: bool)
      requires oid in outbox
      modifies `sessions, `generations, `outbox
      ensures ok == Spec.FailPreSubmit(old(Tables()), oid, error).Some?
      ensures Tables() == Spec.FailPreSubmit(old(Tables()), oid, error).Or(old(Tables()))
    {
      var state := outbox[oid].state;
      if state == SubmissionState.Submitted { return false; }
      if state.SubmitAttempted? || state.SubmissionUnknown? {
        ok := RecordSubmissionUnknown(oid, PreSubmitErrorAfterAttempt);
        return;
      }
      ok := WritePairWithSnapshot(oid,
        NoUpdate.(session := Some(SessionState.Ready), provider := Some(ProviderState.Error),
                  transport := Some(Unavailable), state := Some(FailedPreSubmit),
                  reason := Some(Some(PreSubmitFailure)), error := Some(Some(error)), prompt := Some(false)),
        {Prepared, ComposerFilled, FailedPreSubmit}, FailedPreSubmit, Some(error), false);
    }

    method RecordPreparationRequired(oid: OutboxId, cooldown: bool) returns (ok: bool)
      requires oid in outbox
      modifies `sessions, `generations, `outbox
      ensures ok == Spec.RecordPreparationRequired(old(Tables()), oid, cooldown).Some?
      ensures Tables() == Spec.RecordPreparationRequired(old(Tables()), oid, cooldown).Or(old(Tables()))
    {
      ok := WritePair(oid,
        NoUpdate.(state := Some(Prepared), provider := Some(ProviderState.Pending), transport := Some(Fresh),
                  reason := Some(Some(if cooldown then AccountCooldown else AgentPreparationRequired)),
                  error := Some(Some(PreparationRequired)), prompt := Some(false)),
        {Prepared}, Prepared, Fields(Some(PendingPreparation(false)), Some(Some(PreparationRequired)), Some(false)));
    }

    method CompleteSubmitted(oid: OutboxId, page: PageKey, ack: Spec.Acknowledgement) returns (ok: bool)
      requires oid in outbox
      modifies `sessions, `generations, `outbox
      ensures ok == Spec.CompleteSubmitted(old(Tables()), oid, page, ack).Some?
      ensures Tables() == Spec.CompleteSubmitted(old(Tables()), oid, page, ack).Or(old(Tables()))
    {
      ok := WritePairWithSnapshot(oid,
        NoUpdate.(session := Some(SessionState.Submitted), provider := Some(Generating), transport := Some(Fresh),
                  state := Some(SubmissionState.Submitted),
                  conversation := Some(Some(ack.conversation)), page := Some(Some(page)),
                      ids := Some((Some(ack.message), ack.turn)),
                  prompt := Some(true), reason := Some(None), error := Some(None)),
        {SubmitAttempted}, SubmissionState.Submitted, None, true);
    }

    // ---------------------------------------------------------------- one submission

    /** The provider's irreversible action; what it requires is what every caller has to have made durable. */
    method SubmitOnce(oid: OutboxId)
      requires oid in outbox && outbox[oid].state.SubmitAttempted? && outbox[oid].prompt
      requires forall c <- calls :: c.oid != oid
      modifies `calls
      ensures calls == old(calls) + [Call(oid, outbox[oid].request)]
    {
      calls := calls + [Call(oid, outbox[oid].request)];
    }

    /**
     `#runPreparedSubmission`: the submission is attempted exactly when the page opened and was prepared, and
     leaves in the tables what its result calls for.
     */
    method RunPreparedSubmission(oid: OutboxId, opening: Opening, preparation: Preparation, dispatch: Dispatch)
      requires Consistent(Tables()) && oid in outbox && outbox[oid].state.Prepared?
      requires forall c <- calls :: c.oid != oid
      modifies `sessions, `generations, `outbox, `calls
      ensures Consistent(Tables()) && Advances(old(Tables()), Tables(), old(outbox[oid].session))
      ensures calls == old(calls) + (if opening.Opened? && preparation.ComposerPrepared?
                                     then [Call(oid, old(outbox[oid].request))] else [])
      ensures OfCurrent(old(Tables()), oid)
      ensures Tables() == Left(old(Tables()), oid, PageOf(opening), ResultOf(opening, preparation, dispatch))
    {
      hide Consistent, Advances, Left;
      match opening {
        case OpeningPaused(cooldown) =>
          PausePrepared(oid, cooldown);
        case OpeningFailed(error) =>
          FailPrepared(oid, error);
        case Opened(page) =>
          PrepareAndSubmit(oid, page, preparation, dispatch);
      }
    }

    method PrepareAndSubmit(oid: OutboxId, page: PageKey, preparation: Preparation, dispatch: Dispatch)
      requires Consistent(Tables()) && oid in outbox && outbox[oid].state.Prepared?
      requires forall c <- calls :: c.oid != oid
      modifies `sessions, `generations, `outbox, `calls
      ensures Consistent(Tables()) && Advances(old(Tables()), Tables(), old(outbox[oid].session))
      ensures calls
              == old(calls) + (if preparation.ComposerPrepared? then [Call(oid, old(outbox[oid].request))] else [])
      ensures OfCurrent(old(Tables()), oid)
      ensures Tables() == Left(old(Tables()), oid, Some(page), ResultOf(Opened(page), preparation, dispatch))
    {
      hide Consistent, Advances, Left;
      ghost var before := Tables();
      ghost var sid := outbox[oid].session;
      PageLeaves(before, oid, page, ResultOf(Opened(page), preparation, dispatch));
      PersistPageSound(before, oid, page);
      var ok := PersistPageKey(oid, page);
      ghost var paged := Tables();
      match preparation {
        case PreparationPaused(cooldown) =>
          PausePrepared(oid, cooldown);
        case PreparationFailed(error) =>
          FailPrepared(oid, error);
        case ComposerPrepared =>
          AttemptAndRecord(oid, page, dispatch);
      }
      AdvancesTwice(before, paged, Tables(), sid);
    }

    method PausePrepared(oid: OutboxId, cooldown: bool)
      requires Consistent(Tables()) && oid in outbox && outbox[oid].state.Prepared?
      modifies `sessions, `generations, `outbox
      ensures Consistent(Tables()) && Advances(old(Tables()), Tables(), old(outbox[oid].session))
      ensures OfCurrent(old(Tables()), oid) && Tables() == Left(old(Tables()), oid, None, Paused(cooldown))
    {
      hide Consistent, Advances, Left;
      PauseLeaves(Tables(), oid, cooldown);
      RecordPreparationRequiredSound(Tables(), oid, cooldown);
      var ok := RecordPreparationRequired(oid, cooldown);
    }

    method FailPrepared(oid: OutboxId, error: ErrorCode)
      requires Consistent(Tables()) && oid in outbox && outbox[oid].state.Prepared?
      modifies `sessions, `generations, `outbox
      ensures Consistent(Tables()) && Advances(old(Tables()), Tables(), old(outbox[oid].session))
      ensures OfCurrent(old(Tables()), oid) && Tables() == Left(old(Tables()), oid, None, NotSent(error))
    {
      hide Consistent, Advances, Left;
      FailureLeaves(Tables(), oid, error);
      FailPreSubmitSound(Tables(), oid, error);
      var ok := FailPreSubmit(oid, error);
    }

    /** The composer is filled: recorded before anything else. */
    method FillComposer(oid: OutboxId, page: PageKey)
      requires Consistent(Tables()) && oid in outbox && outbox[oid].state.Prepared?
      modifies `sessions, `generations, `outbox
      ensures Consistent(Tables()) && Advances(old(Tables()), Tables(), old(outbox[oid].session)) && oid in outbox
              && outbox[oid].state.ComposerFilled?
      ensures Some(Tables()) == Spec.FillComposer(old(Tables()), oid, page)
    {
      hide Consistent, Advances;
      ghost var before := Tables();
      assert Current(before, oid) by { RowFacts(before, oid); }
      FillComposerSound(before, oid, page);
      var ok := WritePair(oid,
        NoUpdate.(state := Some(ComposerFilled), page := Some(Some(page)), provider := Some(ProviderState.Pending),
                  transport := Some(Fresh)),
        {Prepared}, ComposerFilled, Fields(Some(NoResult), Some(None), Some(false)));
    }

    /** The attempt is made durable. */
    method AttemptSubmit(oid: OutboxId, page: PageKey)
      requires Consistent(Tables()) && oid in outbox && outbox[oid].state.ComposerFilled?
      modifies `sessions, `generations, `outbox
      ensures Consistent(Tables()) && Advances(old(Tables()), Tables(), old(outbox[oid].session)) && oid in outbox
              && outbox[oid].state.SubmitAttempted?
      ensures Some(Tables()) == Spec.AttemptSubmit(old(Tables()), oid, page)
    {
      hide Consistent, Advances;
      ghost var before := Tables();
      assert Current(before, oid) by { RowFacts(before, oid); }
      AttemptSubmitSound(before, oid, page);
      var ok := WritePair(oid,
        NoUpdate.(state := Some(SubmitAttempted), session := Some(Submitting),
                  provider := Some(ProviderState.Pending), transport := Some(Fresh),
                  page := Some(Some(page)), prompt := Some(true), reason := Some(None), error := Some(None)),
        {ComposerFilled}, SubmitAttempted, Fields(None, None, Some(true)));
    }

    /** From the filled composer to the recorded outcome. */
    method AttemptAndRecord(oid: OutboxId, page: PageKey, dispatch: Dispatch)
      requires Consistent(Tables()) && oid in outbox && outbox[oid].state.Prepared?
      requires forall c <- calls :: c.oid != oid
      modifies `sessions, `generations, `outbox, `calls
      ensures Consistent(Tables()) && Advances(old(Tables()), Tables(), old(outbox[oid].session))
      ensures calls == old(calls) + [Call(oid, old(outbox[oid].request))]
      ensures OfCurrent(old(Tables()), oid)
      ensures Tables() == Left(old(Tables()), oid, Some(page), ResultOf(Opened(page), ComposerPrepared, dispatch))
    {
      hide Consistent, Advances, Left, AttemptedTables, Spec.FillComposer, Spec.AttemptSubmit, Spec.CompleteSubmitted,
        Spec.RecordUnknown;
      ghost var before := Tables();
      ghost var sid := outbox[oid].session;
      AttemptLeaves(before, oid, page);
      match dispatch {
        case Acknowledgement(ack) => SentLeaves(before, oid, page, ack);
        case Unacknowledged(reason) => AmbiguityLeaves(before, oid, page, reason);
      }
      FillComposer(oid, page);
      ghost var filled := Tables();
      SameRow(before, filled, oid, sid);
      AttemptSubmit(oid, page);
      ghost var attempted := Tables();
      AdvancesTwice(before, filled, attempted, sid);
      SameRow(before, attempted, oid, sid);
      assert attempted.outbox[oid].prompt by { RowFacts(attempted, oid); }
      SubmitOnce(oid);
      RecordOutcome(oid, page, dispatch);
      AdvancesTwice(before, attempted, Tables(), sid);
    }

    method RecordOutcome(oid: OutboxId, page: PageKey, dispatch: Dispatch)
      requires Consistent(Tables()) && oid in outbox && outbox[oid].state.SubmitAttempted?
      modifies `sessions, `generations, `outbox
      ensures Consistent(Tables()) && Advances(old(Tables()), Tables(), old(outbox[oid].session))
      ensures Some(Tables()) == match dispatch
                case Acknowledgement(ack) => Spec.CompleteSubmitted(old(Tables()), oid, page, ack)
                case Unacknowledged(reason) => Spec.RecordUnknown(old(Tables()), oid, reason)
    {
      hide Consistent, Advances;
      assert Current(Tables(), oid) by { RowFacts(Tables(), oid); }
      var ok: bool;
      match dispatch {
        case Acknowledgement(ack) =>
          CompleteSubmittedSound(Tables(), oid, page, ack);
          ok := CompleteSubmitted(oid, page, ack);
        case Unacknowledged(reason) =>
          RecordUnknownSound(Tables(), oid, reason);
          ok := RecordSubmissionUnknown(oid, reason);
      }
    }

    // ---------------------------------------------------------------- startup

    /** `listByStates`. */
    ghost predicate IsList(listed: seq<OutboxId>, states: set<SubmissionState>)
      reads this
    {
      forall oid <- outbox :: outbox[oid].state in states ==> oid in listed
    }

    /** Each listed row is read again inside its actor, and settled by the transaction its own state calls for. */
    method RecoverInterruptedPreSubmissions(listed: seq<OutboxId>)
      requires Consistent(Tables()) && IsList(listed, {Prepared, ComposerFilled}) && forall oid <- listed ::
               oid in outbox
      modifies `sessions, `generations, `outbox
      ensures Consistent(Tables()) && AllPreSubmitDone(Tables(), {}) && outbox.Keys == old(outbox.Keys)
      ensures Some(Tables()) == PreSubmitAll(old(Tables()), listed)
    {
      hide Consistent, Spec.PreSubmitPass, AllPreSubmitDone, PreSubmitAll, Rest;
      ghost var start := Tables();
      UnlistedAreDone(start, listed);
      for i := 0 to |listed|
        invariant Consistent(Tables()) && outbox.Keys == start.outbox.Keys
        invariant AllPreSubmitDone(Tables(), Rest(listed, i))
        invariant Some(Tables()) == PreSubmitAll(start, listed[..i])
      {
        PreSubmitLoopStep(start, Tables(), listed, i);
        RecoverPreSubmission(listed[i]);
      }
      NothingRests(listed);
      assert listed[..|listed|] == listed;
    }

    method RecoverPreSubmission(oid: OutboxId)
      requires oid in outbox
      modifies `sessions, `generations, `outbox
      ensures Tables() == Spec.PreSubmitPass(old(Tables()), oid).Or(old(Tables()))
    {
      var row := outbox[oid];
      if row.state != Prepared && row.state != ComposerFilled { return; }
      if row.session !in sessions || sessions[row.session].current != row.generation
          || Terminal(Tables(), row.session) {
        return;
      }
      var ok: bool;
      if Spec.AwaitsDecision(Tables(), oid) {
        ok := TransitionRow(oid, {Prepared}, Prepared,
                            Fields(Some(PendingPreparation(true)), Some(Some(PreparationRequired)), Some(false)));
      } else if row.prompt {
        ok := RecordSubmissionUnknown(oid, RestartInconsistent);
      } else {
        ok := WritePairWithSnapshot(oid,
          NoUpdate.(session := Some(SessionState.Ready), provider := Some(ProviderState.Error),
                    transport := Some(Unavailable), state := Some(FailedPreSubmit),
                    reason := Some(Some(RestartPreSubmitInterrupted)), error := Some(Some(BrowserUnavailable)),
                        prompt := Some(false)),
          {Prepared, ComposerFilled}, FailedPreSubmit, Some(BrowserUnavailable), false);
      }
    }

    /** `ActorScheduler.updateGeneration`: a terminal generation keeps its session state. */
    method UpdateGeneration(sid: SessionId, gen: nat, u: Update) returns (ok: bool)
      modifies `sessions, `generations
      ensures ok == Spec.UpdateGeneration(old(Tables()), sid, gen, u).Some?
      ensures Tables() == Spec.UpdateGeneration(old(Tables()), sid, gen, u).Or(old(Tables()))
    {
      if sid !in sessions || sessions[sid].current != gen { return false; }
      if Terminal(Tables(), sid) && u.session.Some? && u.session.value != sessions[sid].state { return false; }
      ok := UpdateCurrentGeneration(sid, gen, u);
    }

    /** After this loop every settled row and its session tell the same story. */
    method ReconcileOutboxDiagnostics(listed: seq<OutboxId>)
      requires Consistent(Tables()) && IsList(listed, {FailedPreSubmit, SubmissionUnknown}) && forall oid <- listed ::
               oid in outbox
      requires AllPreSubmitDone(Tables(), {})
      modifies `sessions, `generations
      ensures Consistent(Tables()) && AllPreSubmitDone(Tables(), {}) && AllDiagnosticsDone(Tables(), {})
      ensures Some(Tables()) == DiagnosticsAll(old(Tables()), listed)
    {
      hide Consistent, Spec.DiagnosticsPass, AllPreSubmitDone, AllDiagnosticsDone, DiagnosticsAll, Rest;
      ghost var start := Tables();
      UnlistedAreTold(start, listed);
      for i := 0 to |listed|
        invariant Consistent(Tables()) && AllPreSubmitDone(Tables(), {})
                  && AllDiagnosticsDone(Tables(), Rest(listed, i))
        invariant Some(Tables()) == DiagnosticsAll(start, listed[..i])
      {
        DiagnosticsLoopStep(start, Tables(), listed, i);
        ReconcileDiagnostic(listed[i]);
      }
      NothingRests(listed);
      assert listed[..|listed|] == listed;
    }

    method ReconcileDiagnostic(oid: OutboxId)
      requires oid in outbox
      modifies `sessions, `generations
      ensures Tables() == Spec.DiagnosticsPass(old(Tables()), oid).Or(old(Tables()))
    {
      var row := outbox[oid];
      if row.state != FailedPreSubmit && row.state != SubmissionUnknown { return; }
      if row.session !in sessions || sessions[row.session].current != row.generation { return; }
      var s, g := sessions[row.session], CurrentGeneration(Tables(), row.session);
      if IsTerminalState(s.state) || (Terminal(Tables(), row.session) && row.state != FailedPreSubmit) { return; }
      var u: Update;
      if row.state == FailedPreSubmit {
        var error := if row.error.Some? then row.error else Spec.StoredError(row.result);
        if error.None? { return; }
        var reason := Spec.StoredReason(row.result).Or(PreSubmitFailure);
        if s.state.Ready? && s.provider == ProviderState.Error && s.transport.Unavailable? && g.Some?
            && g.value.state.FailedPreSubmit? &&
           !g.value.prompt && g.value.error == error && g.value.reason == Some(reason) { return; }
        u := NoUpdate.(session := Some(SessionState.Ready), provider := Some(ProviderState.Error),
                       transport := Some(Unavailable),
                       state := Some(FailedPreSubmit), reason := Some(Some(reason)), error := Some(error),
                           prompt := Some(false));
      } else {
        var error := if row.error.Some? then row.error
            else Some(Spec.StoredError(row.result).Or(SubmissionUnknownError));
        var reason := Spec.StoredReason(row.result).Or(SubmitUnacknowledged);
        if s.state.Observing? && s.provider == ProviderState.Unknown && g.Some? && g.value.state.SubmissionUnknown?
            && g.value.prompt &&
           g.value.error == error && g.value.reason == Some(reason) { return; }
        u := NoUpdate.(session := Some(Observing), provider := Some(ProviderState.Unknown),
                       transport := Some(if row.result.StoredSnapshot? then row.result.transport else Unavailable),
                       state := Some(SubmissionUnknown), reason := Some(Some(reason)), error := Some(error),
                           prompt := Some(true));
      }
      var ok := UpdateGeneration(row.session, row.generation, u);
    }

    /** The rows after this loop tell of no attempt whose outcome nobody is waiting for. */
    method RecoverInterruptedSubmissions(listed: seq<OutboxId>)
      requires Consistent(Tables()) && IsList(listed, {SubmitAttempted}) && forall oid <- listed :: oid in outbox
      requires AllPreSubmitDone(Tables(), {}) && AllDiagnosticsDone(Tables(), {})
      modifies `sessions, `generations, `outbox
      ensures Consistent(Tables()) && Recovered(Tables()) && outbox.Keys == old(outbox.Keys)
      ensures Some(Tables()) == SubmissionAll(old(Tables()), listed)
    {
      hide Consistent, Spec.SubmissionPass, AllPreSubmitDone, AllDiagnosticsDone, AllSubmissionDone, SubmissionAll,
        Rest;
      ghost var start := Tables();
      UnlistedAreResolved(start, listed);
      for i := 0 to |listed|
        invariant Consistent(Tables()) && outbox.Keys == start.outbox.Keys
        invariant AllPreSubmitDone(Tables(), {}) && AllDiagnosticsDone(Tables(), {})
                  && AllSubmissionDone(Tables(), Rest(listed, i))
        invariant Some(Tables()) == SubmissionAll(start, listed[..i])
      {
        SubmissionLoopStep(start, Tables(), listed, i);
        RecoverSubmission(listed[i]);
      }
      NothingRests(listed);
      assert listed[..|listed|] == listed;
    }

    method RecoverSubmission(oid: OutboxId)
      requires oid in outbox
      modifies `sessions, `generations, `outbox
      ensures Tables() == Spec.SubmissionPass(old(Tables()), oid).Or(old(Tables()))
    {
      if outbox[oid].state == SubmitAttempted {
        var ok := RecordSubmissionUnknown(oid, RestartAfterSubmitAttempt);
      }
    }

    method ListByStates(states: set<SubmissionState>) returns (listed: seq<OutboxId>)
      ensures IsList(listed, states) && forall oid <- listed :: oid in outbox && outbox[oid].state in states
    {
      listed := [];
      var todo := outbox.Keys;
      while todo != {}
        invariant todo <= outbox.Keys
        invariant forall oid <- outbox :: oid !in todo && outbox[oid].state in states ==> oid in listed
        invariant forall oid <- listed :: oid in outbox && outbox[oid].state in states
        decreases |todo|
      {
        var oid :| oid in todo;
        todo := todo - {oid};
        if outbox[oid].state in states { listed := listed + [oid]; }
      }
    }

    /** The passes in the order of `startCore`: whatever the crash left, afterwards no row is left to settle. */
    method StartCore()
      requires Consistent(Tables())
      modifies `sessions, `generations, `outbox
      ensures Consistent(Tables()) && Recovered(Tables()) && outbox.Keys == old(outbox.Keys)
    {
      hide Consistent, PreSubmitDone, DiagnosticsDone;
      var prepared := ListByStates({Prepared, ComposerFilled});
      RecoverInterruptedPreSubmissions(prepared);
      var settled := ListByStates({FailedPreSubmit, SubmissionUnknown});
      ReconcileOutboxDiagnostics(settled);
      var attempted := ListByStates({SubmitAttempted});
      RecoverInterruptedSubmissions(attempted);
    }
  }

  /** The listed rows a pass has not come to yet. */
  ghost function Rest(listed: seq<OutboxId>, i: nat): set<OutboxId>
    requires i <= |listed|
  {
    set oid | oid in listed[i..]
  }

  lemma RestShrinks(listed: seq<OutboxId>, i: nat)
    requires i < |listed|
    ensures Rest(listed, i) - {listed[i]} <= Rest(listed, i + 1)
  {
    assert listed[i..] == [listed[i]] + listed[i + 1..];
  }

  lemma NothingRests(listed: seq<OutboxId>)
    ensures Rest(listed, |listed|) == {}
  {}

  lemma UnlistedAreDone(db: Db, listed: seq<OutboxId>)
    requires forall oid <- db.outbox :: db.outbox[oid].state in {Prepared, ComposerFilled} ==> oid in listed
    ensures AllPreSubmitDone(db, Rest(listed, 0)) && PreSubmitAll(db, listed[..0]) == Some(db)
  {}

  lemma UnlistedAreTold(db: Db, listed: seq<OutboxId>)
    requires forall oid <- db.outbox :: db.outbox[oid].state in {FailedPreSubmit, SubmissionUnknown} ==> oid in listed
    ensures AllDiagnosticsDone(db, Rest(listed, 0)) && DiagnosticsAll(db, listed[..0]) == Some(db)
  {}

  lemma UnlistedAreResolved(db: Db, listed: seq<OutboxId>)
    requires forall oid <- db.outbox :: db.outbox[oid].state in {SubmitAttempted} ==> oid in listed
    ensures AllSubmissionDone(db, Rest(listed, 0)) && SubmissionAll(db, listed[..0]) == Some(db)
  {}

  lemma PreSubmitLoopStep(start: Db, db: Db, listed: seq<OutboxId>, i: nat)
    requires i < |listed| && listed[i] in db.outbox && Consistent(db)
    requires AllPreSubmitDone(db, Rest(listed, i)) && Some(db) == PreSubmitAll(start, listed[..i])
    ensures var r := Spec.PreSubmitPass(db, listed[i]);
            && r.Some? && Consistent(r.value) && r.value.outbox.Keys == db.outbox.Keys
            && AllPreSubmitDone(r.value, Rest(listed, i + 1)) && r == PreSubmitAll(start, listed[..i + 1])
  {
    hide Consistent, Spec.PreSubmitPass, PreSubmitDone, Rest;
    PreSubmitPassProgress(db, listed[i], Rest(listed, i));
    PreSubmitPassSettles(db, listed[i]);
    RestShrinks(listed, i);
    assert listed[..i + 1][..i] == listed[..i];
  }

  lemma DiagnosticsLoopStep(start: Db, db: Db, listed: seq<OutboxId>, i: nat)
    requires i < |listed| && listed[i] in db.outbox && Consistent(db) && AllPreSubmitDone(db, {})
    requires AllDiagnosticsDone(db, Rest(listed, i)) && Some(db) == DiagnosticsAll(start, listed[..i])
    ensures var r := Spec.DiagnosticsPass(db, listed[i]);
            && r.Some? && Consistent(r.value) && AllPreSubmitDone(r.value, {}) && r.value.outbox == db.outbox
            && AllDiagnosticsDone(r.value, Rest(listed, i + 1)) && r == DiagnosticsAll(start, listed[..i + 1])
  {
    hide Consistent, Spec.DiagnosticsPass, PreSubmitDone, DiagnosticsDone, Rest;
    DiagnosticsPassProgress(db, listed[i], Rest(listed, i));
    DiagnosticsPassSettles(db, listed[i]);
    DiagnosticsKeepRows(db, listed[i]);
    RestShrinks(listed, i);
    assert listed[..i + 1][..i] == listed[..i];
  }

  lemma DiagnosticsKeepRows(db: Db, oid: OutboxId)
    requires Spec.DiagnosticsPass(db, oid).Some?
    ensures Spec.DiagnosticsPass(db, oid).value.outbox == db.outbox
  {}

  lemma SubmissionLoopStep(start: Db, db: Db, listed: seq<OutboxId>, i: nat)
    requires i < |listed| && listed[i] in db.outbox && Consistent(db) && AllPreSubmitDone(db, {})
             && AllDiagnosticsDone(db, {})
    requires AllSubmissionDone(db, Rest(listed, i)) && Some(db) == SubmissionAll(start, listed[..i])
    ensures var r := Spec.SubmissionPass(db, listed[i]);
            && r.Some? && Consistent(r.value) && r.value.outbox.Keys == db.outbox.Keys
            && AllPreSubmitDone(r.value, {}) && AllDiagnosticsDone(r.value, {})
            && AllSubmissionDone(r.value, Rest(listed, i + 1)) && r == SubmissionAll(start, listed[..i + 1])
  {
    hide Consistent, Spec.SubmissionPass, PreSubmitDone, DiagnosticsDone, SubmissionDone, Rest;
    SubmissionPassProgress(db, listed[i], Rest(listed, i));
    SubmissionPassSettles(db, listed[i]);
    RestShrinks(listed, i);
    assert listed[..i + 1][..i] == listed[..i];
  }

  function DiagnosticsAll(db: Db, listed: seq<OutboxId>): Option<Db> {
    if listed == [] then Some(db)
    else
      var front := DiagnosticsAll(db, listed[..|listed| - 1]);
      if front.None? then None else Spec.DiagnosticsPass(front.value, listed[|listed| - 1])
  }

  ghost predicate Current(db: Db, oid: OutboxId)
    requires oid in db.outbox
  {
    var row := db.outbox[oid];
    row.session in db.sessions && GenKey(row.session, row.generation) in db.generations &&
    (Unsettled(row.state) ==> db.sessions[row.session].current == row.generation)
  }

  lemma SameRow(before: Db, after: Db, oid: OutboxId, sid: SessionId)
    requires Advances(before, after, sid) && oid in before.outbox
    ensures oid in after.outbox && RowAdvances(before.outbox[oid], after.outbox[oid], sid)
  {}

  lemma AdvancesTwice(a: Db, b: Db, c: Db, sid: SessionId)
    requires Advances(a, b, sid) && Advances(b, c, sid)
    ensures Advances(a, c, sid)
  {
    forall oid | oid in a.outbox ensures RowAdvances(a.outbox[oid], c.outbox[oid], sid) {
      assert RowAdvances(a.outbox[oid], b.outbox[oid], sid) && RowAdvances(b.outbox[oid], c.outbox[oid], sid);
    }
  }

  /** One pass over a list of rows, in the order listed. */
  function PreSubmitAll(db: Db, listed: seq<OutboxId>): Option<Db> {
    if listed == [] then Some(db)
    else
      var front := PreSubmitAll(db, listed[..|listed| - 1]);
      if front.None? then None else Spec.PreSubmitPass(front.value, listed[|listed| - 1])
  }

  function SubmissionAll(db: Db, listed: seq<OutboxId>): Option<Db> {
    if listed == [] then Some(db)
    else
      var front := SubmissionAll(db, listed[..|listed| - 1]);
      if front.None? then None else Spec.SubmissionPass(front.value, listed[|listed| - 1])
  }
}
