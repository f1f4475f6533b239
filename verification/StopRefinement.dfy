/**
 The stop service works on the same sessions as the submission service: what that service and all
 others do to a session is what the stop service assumes of them.
 */
module StopRefinement {
  import opened Wrappers
  import opened Storage
  import opened Submission
  import opened SubmissionInvariants
  import opened SubmissionTransactions
  import opened SubmissionMeaning
  import opened SubmissionRuns
  import opened SubmissionSafety
  import opened SubmissionTheorems
  import opened SubmissionFinality
  import opened SubmissionRevival
  import Stops = StopService

  /** The request of the session's current generation. */
  ghost function CurrentRow(db: Db, sid: SessionId): Option<OutboxId>
    requires sid in db.sessions
  {
    FindByGeneration(db, CurrentKey(db, sid))
  }

  predicate Sent(db: Db, sid: SessionId)
    requires sid in db.sessions
  {
    CurrentGeneration(db, sid).Some? && CurrentGeneration(db, sid).value.prompt
  }

  /** The current generation has ended and no operation in progress makes it live again. */
  ghost predicate OverNow(s: State, sid: SessionId)
    requires sid in s.db.sessions
  {
    CurrentRow(s.db, sid).Some? && Finished(s, CurrentRow(s.db, sid).value, false)
  }

  /** A stop of the current generation could be undone. */
  ghost predicate Revocable(s: State, sid: SessionId)
    requires sid in s.db.sessions
  {
    CurrentRow(s.db, sid).Some? && !Ends(s, CurrentRow(s.db, sid).value)
  }

  /** The session as the stop service sees it. */
  ghost function View(s: State, sid: SessionId): Stops.Session
    requires sid in s.db.sessions
  {
    Stops.Session(s.db.sessions[sid].current, Terminal(s.db, sid), OverNow(s, sid), Revocable(s, sid))
  }

  // ---------------------------------------------------------------- one step, seen from the session

  lemma CurrentRowExists(db: Db, sid: SessionId)
    requires Consistent(db) && Covered(db) && sid in db.sessions
    ensures CurrentRow(db, sid).Some? <==> db.sessions[sid].current > 0
    ensures CurrentRow(db, sid).Some? ==>
              var oid := CurrentRow(db, sid).value;
              && db.outbox[oid].session == sid && Current(db, oid) && CurrentKey(db, sid) in db.generations
              && db.outbox[oid].prompt == Sent(db, sid)
              && db.outbox[oid].prompt == Irrevocable(db.outbox[oid].state)
    ensures CurrentRow(db, sid).None? ==> !Sent(db, sid)
  {
    SessionFacts(db, sid);
    var k := CurrentKey(db, sid);
    if k in db.generations {
      assert HasRow(db, k);
      var oid :| oid in db.outbox && Owns(db.outbox[oid], k);
      assert CurrentRow(db, sid).Some?;
    }
    if CurrentRow(db, sid).Some? { RowFacts(db, CurrentRow(db, sid).value); }
  }

  lemma CurrentRowIs(db: Db, sid: SessionId, oid: OutboxId)
    requires Consistent(db) && sid in db.sessions && oid in db.outbox && db.outbox[oid].session == sid
             && Current(db, oid)
    ensures CurrentRow(db, sid) == Some(oid)
  {
    hide Consistent;
    OwnerIsFound(db, oid);
  }

  /** The rows of a session never lose a generation, and only a new request adds one. */
  lemma CurrentStaysUnlessAdded(s: State, t: State, sid: SessionId)
    requires Inv(s) && Inv(t) && Moves(s, t) && KeepsRows(s, t) && t.used == s.used
    requires sid in s.db.sessions && sid in t.db.sessions
    ensures t.db.sessions[sid].current == s.db.sessions[sid].current
  {
    hide Consistent, Covered, FlowsFit, CallsFit, ReservationsFit, PhaseFits;
    CurrentRowExists(s.db, sid);
    CurrentRowExists(t.db, sid);
    if CurrentRow(s.db, sid).Some? {
      var o := CurrentRow(s.db, sid).value;
      assert RowMoves(s.db.outbox[o], t.db.outbox[o]);
      RowFacts(t.db, o);
    }
    if CurrentRow(t.db, sid).Some? {
      var o := CurrentRow(t.db, sid).value;
      assert RowMoves(s.db.outbox[o], t.db.outbox[o]);
      RowFacts(s.db, o);
    }
  }

  lemma SendAddsOne(s: State, sid: SessionId, request: Request, newId: OutboxId, payload: Payload, other: SessionId)
    requires Inv(s) && other in s.db.sessions
    ensures var t := StepSend(s, sid, request, newId, payload);
            other in t.db.sessions
                && s.db.sessions[other].current <= t.db.sessions[other].current <= s.db.sessions[other].current + 1
  {
    hide Consistent, Covered, FlowsFit, CallsFit, ReservationsFit, PhaseFits, Replay;
    var existing := Find(s.db, request);
    if existing.Some? {
      ReplaySound(s.db, existing.value);
    } else if PrepareOutbox(s.db, sid, request, newId, payload, None).Some? {
      PreparedAdds(s.db, sid, request, newId, payload, None);
    }
  }

  lemma AuthorizeAddsOne(s: State, original: OutboxId, route: Route, request: Request, newId: OutboxId, hash: nat,
                         lost: bool, other: SessionId)
    requires Inv(s) && other in s.db.sessions
    ensures var t := StepApproved(s, original, route, request, newId, hash, lost);
            other in t.db.sessions
                && s.db.sessions[other].current <= t.db.sessions[other].current <= s.db.sessions[other].current + 1
  {
    hide Consistent, Covered, FlowsFit, CallsFit, ReservationsFit, PhaseFits, PrepareSuccessor;
    if original in s.db.outbox && PrepareSuccessor(s.db, original, route, request, newId, hash, lost).Some? {
      if Reservation(original, route) in s.db.reservations {
        AuthorizedAgain(s.db, original, route, request, newId, hash, lost);
      } else {
        PrepareSuccessorKeeps(s.db, original, route, request, newId, hash, lost);
      }
    }
  }

  lemma AuthorizedAgain(db: Db, original: OutboxId, route: Route, request: Request, newId: OutboxId, hash: nat,
                        lost: bool)
    requires Consistent(db) && original in db.outbox && Reservation(original, route) in db.reservations
    ensures Sound(db, PrepareSuccessor(db, original, route, request, newId, hash, lost), db.outbox[original].session)
  {
    hide Consistent, Sound, ReopenSuccessor;
    ReopenSuccessorSound(db, original, Reservation(original, route));
  }

  /** A step keeps the current generation or adds the next one. */
  lemma CurrentStep(s: State, e: Event, sid: SessionId)
    requires Inv(s) && sid in s.db.sessions && sid in Step(s, e).db.sessions
    ensures s.db.sessions[sid].current <= Step(s, e).db.sessions[sid].current <= s.db.sessions[sid].current + 1
  {
    hide Inv, Step, Moves, KeepsRows;
    StepKeepsInv(s, e);
    match e
    case Send(i, request, newId, payload) => IsSend(s, e); SendAddsOne(s, i, request, newId, payload, sid);
    case Approved(i, newId) => ApprovalAddsOne(s, i, newId, sid);
    case EndTeam(team) => TeamKeepsCurrent(s, team, sid);
    case _ => OnlyRequestsDraw(s, e); CurrentStaysUnlessAdded(s, Step(s, e), sid);
  }

  lemma ApprovalAddsOne(s: State, i: SessionId, newId: OutboxId, other: SessionId)
    requires Inv(s) && other in s.db.sessions
    ensures var t := Step(s, Approved(i, newId));
            other in t.db.sessions
                && s.db.sessions[other].current <= t.db.sessions[other].current <= s.db.sessions[other].current + 1
  {
    hide Inv, StepApproved;
    if At(s, i) && s.flows[i].Approving? {
      var f := s.flows[i];
      EndedKeepsInv(s, i, None);
      AuthorizeAddsOne(Ended(s, i, None), f.oid, f.route, f.request, newId, f.hash, f.lostContinuation, other);
    }
  }

  lemma IsSend(s: State, e: Event)
    ensures e.Send? ==> Step(s, e) == StepSend(s, e.sid, e.request, e.newId, e.payload)
  {
    hide StepSend;
  }

  lemma TeamKeepsCurrent(s: State, team: set<SessionId>, sid: SessionId)
    requires sid in s.db.sessions && sid in Step(s, EndTeam(team)).db.sessions
    ensures Step(s, EndTeam(team)).db.sessions[sid] == s.db.sessions[sid]
  {}

  /**
   While the generation stays current its request is the same, its authorization fixed, and a sent prompt stays sent.
   */
  lemma FlagsMove(s: State, t: State, sid: SessionId)
    requires Inv(s) && Inv(t) && Moves(s, t) && sid in s.db.sessions && sid in t.db.sessions
    requires t.db.sessions[sid].current == s.db.sessions[sid].current
    requires forall oid <- s.db.outbox :: s.db.outbox[oid].session == sid ==> oid in t.db.outbox
    ensures (Sent(s.db, sid) ==> Sent(t.db, sid))
            && CurrentRow(t.db, sid) == CurrentRow(s.db, sid)
  {
    hide Consistent, Covered, FlowsFit, CallsFit, ReservationsFit, PhaseFits;
    CurrentRowExists(s.db, sid);
    CurrentRowExists(t.db, sid);
    if CurrentRow(s.db, sid).Some? {
      var oid := CurrentRow(s.db, sid).value;
      assert RowMoves(s.db.outbox[oid], t.db.outbox[oid]);
      CurrentRowIs(t.db, sid, oid);
    }
  }

  lemma RowsOfSessionStay(s: State, e: Event, sid: SessionId)
    requires Inv(s) && sid in Step(s, e).db.sessions
    ensures forall oid <- s.db.outbox :: s.db.outbox[oid].session == sid ==> oid in Step(s, e).db.outbox
    ensures SparesStep(e, sid) || Step(s, e) == s
  {
    hide Inv;
    StepKeepsInv(s, e);
    if e.EndTeam? { TeamSpares(s, e.team, sid); }
  }

  lemma TeamSpares(s: State, team: set<SessionId>, sid: SessionId)
    requires sid in Step(s, EndTeam(team)).db.sessions
    ensures SparesStep(EndTeam(team), sid) || Step(s, EndTeam(team)) == s
    ensures forall oid <- s.db.outbox :: s.db.outbox[oid].session == sid ==> oid in Step(s, EndTeam(team)).db.outbox
  {}

  // ---------------------------------------------------------------- whatever the session's actor does

  /** What is over has ended, and stays over while it is current. */
  lemma OverMeansEnded(s: State, sid: SessionId)
    requires Inv(s) && sid in s.db.sessions && OverNow(s, sid)
    ensures Terminal(s.db, sid)
  {
    hide Consistent, Covered, FlowsFit, CallsFit, ReservationsFit, PhaseFits, Finished;
    CurrentRowExists(s.db, sid);
    FinishedIsEnded(s, CurrentRow(s.db, sid).value);
  }

  lemma RowInSession(s: State, sid: SessionId)
    requires Inv(s) && sid in s.db.sessions && CurrentRow(s.db, sid).Some?
    ensures s.db.outbox[CurrentRow(s.db, sid).value].session == sid
  {}

  lemma StaysOver(s: State, e: Event, sid: SessionId)
    requires Inv(s) && sid in s.db.sessions && sid in Step(s, e).db.sessions && OverNow(s, sid)
    requires CurrentRow(Step(s, e).db, sid) == CurrentRow(s.db, sid) && (SparesStep(e, sid) || Step(s, e) == s)
    ensures OverNow(Step(s, e), sid)
  {
    hide Inv, Step, Finished;
    if Step(s, e) != s {
      RowInSession(s, sid);
      StepStaysFinished(s, e, CurrentRow(s.db, sid).value, false);
    }
  }

  /**
   Whatever any operation, observer, deletion, crash or startup pass does to a session in one step is a
   change the stop service allows for.
   */
  lemma {:induction false} SessionMovesAsAssumed(s: State, e: Event, sid: SessionId)
    requires Inv(s) && sid in s.db.sessions && sid in Step(s, e).db.sessions
    ensures Stops.Moves(View(s, sid), View(Step(s, e), sid))
  {
    hide Inv, Step, OverNow, Moves;
    var t := Step(s, e);
    StepKeepsInv(s, e);
    CurrentStep(s, e, sid);
    RowsOfSessionStay(s, e, sid);
    if OverNow(t, sid) { OverMeansEnded(t, sid); }
    if t.db.sessions[sid].current == s.db.sessions[sid].current {
      FlagsMove(s, t, sid);
      if OverNow(s, sid) { StaysOver(s, e, sid); }
    }
  }

  lemma NewIsFresh(s: State, sid: SessionId)
    requires Inv(s) && sid in s.db.sessions && s.db.sessions[sid].current == 0 && s.db.sessions[sid].state.Created?
    ensures View(s, sid) == Stops.Fresh
  {
    hide FlowsFit, CallsFit, ReservationsFit, PhaseFits;
    CurrentRowExists(s.db, sid);
    SessionFacts(s.db, sid);
  }

  lemma PreparationAddsNoSession(db: Db, sid: SessionId, request: Request, newId: OutboxId, payload: Payload,
                                 original: Option<OutboxId>)
    ensures var r := PrepareOutbox(db, sid, request, newId, payload, original);
            r.Some? ==> r.value.sessions.Keys == db.sessions.Keys
  {
    hide AcceptsNewGeneration, CanAdvance;
  }

  lemma SuccessorAddsNoSession(db: Db, original: OutboxId, route: Route, request: Request, newId: OutboxId, hash: nat,
                               lost: bool)
    requires original in db.outbox
    ensures var r := PrepareSuccessor(db, original, route, request, newId, hash, lost);
            r.Some? ==> r.value.sessions.Keys == db.sessions.Keys
  {
    hide PrepareOutbox, UnresolvedOriginal, UnsubmittedFailure;
    var key := Reservation(original, route);
    var sid := db.outbox[original].session;
    PreparationAddsNoSession(db, sid, request, newId, Payload(hash, None, Some(key)), Some(original));
  }

  lemma ApprovalAddsNoSession(s: State, sid: SessionId, newId: OutboxId)
    ensures Step(s, Approved(sid, newId)).db.sessions.Keys == s.db.sessions.Keys
  {
    hide PrepareSuccessor;
    if At(s, sid) && s.flows[sid].Approving? && s.flows[sid].oid in s.db.outbox {
      var f := s.flows[sid];
      SuccessorAddsNoSession(s.db, f.oid, f.route, f.request, newId, f.hash, f.lostContinuation);
    }
  }

  lemma RequestsAddNoSession(s: State, e: Event)
    requires Inv(s)
    requires e.Send? || e.AuthorizeSuccessor? || e.Approved? || e.Resume? || e.Replayed? || e.BeginRefresh?
             || e.EndRefresh?
    ensures Step(s, e).db.sessions.Keys == s.db.sessions.Keys
  {
    hide Covered, FlowsFit, CallsFit, ReservationsFit, PhaseFits, Consistent, Replay, PrepareOutbox, StepApproved,
      MayApprove, AwaitsDecision, RefreshMayReopen, DuplicateRecovered;
    match e
    case Send(sid, request, newId, payload) =>
      PreparationAddsNoSession(s.db, sid, request, newId, payload, None);
      if Find(s.db, request).Some? { ReplaySound(s.db, Find(s.db, request).value); }
    case Replayed(oid) => if oid in s.db.outbox { ReplaySound(s.db, oid); }
    case Approved(sid, newId) => ApprovalAddsNoSession(s, sid, newId);
    case _ =>
  }

  lemma FlowsAddNoSession(s: State, e: Event)
    requires Inv(s) && OfFlow(e)
    ensures Step(s, e).db.sessions.Keys == s.db.sessions.Keys
  {
    hide Inv, Touches, PersistPage, FillComposer, AttemptSubmit, RecordPreparationRequired, FailPreSubmit,
      CompleteSubmitted, RecordUnknown;
    if Step(s, e) != s {
      FlowStepTouches(s, e);
      if Step(s, e).db != s.db { TouchesNoKey(s.db, Step(s, e).db, s.flows[e.sid].oid); }
    }
  }

  lemma TouchesNoKey(db: Db, after: Db, o: OutboxId)
    requires Touches(db, after, o)
    ensures after.sessions.Keys == db.sessions.Keys
  {}

  /** No transaction but the creation of a session adds one. */
  lemma OnlyCreated(s: State, e: Event, sid: SessionId)
    requires Inv(s) && sid !in s.db.sessions && sid in Step(s, e).db.sessions
    ensures e.NewSession? && e.sid == sid
    ensures Step(s, e).db.sessions[sid].current == 0 && Step(s, e).db.sessions[sid].state.Created?
  {
    hide Covered, FlowsFit, CallsFit, ReservationsFit, Consistent, Perform, PreSubmitPass, DiagnosticsPass,
      SubmissionPass;
    if OfFlow(e) {
      FlowsAddNoSession(s, e);
    } else {
      match e
      case Act(op) => if Target(s.db, op).Some? { PerformSound(s.db, op); }
      case PassRow(oid) => if Step(s, e) != s { PassRowWrites(s, oid); }
      case Send(_, _, _, _) => RequestsAddNoSession(s, e);
      case AuthorizeSuccessor(_, _, _, _, _) => RequestsAddNoSession(s, e);
      case Approved(_, _) => RequestsAddNoSession(s, e);
      case Resume(_) => RequestsAddNoSession(s, e);
      case Replayed(_) => RequestsAddNoSession(s, e);
      case BeginRefresh(_, _) => RequestsAddNoSession(s, e);
      case EndRefresh(_) => RequestsAddNoSession(s, e);
      case _ =>
    }
  }

  // ---------------------------------------------------------------- whatever the others do meanwhile

  /** The session, its generations and its requests are as they were. */
  ghost predicate SameFor(db: Db, after: Db, sid: SessionId) {
    && sid in db.sessions && sid in after.sessions && after.sessions[sid] == db.sessions[sid]
    && (forall g: nat :: GenKey(sid, g) in after.generations <==> GenKey(sid, g) in db.generations)
    && (forall g: nat :: GenKey(sid, g) in db.generations ==>
          after.generations[GenKey(sid, g)] == db.generations[GenKey(sid, g)])
    && (forall o <- db.outbox :: db.outbox[o].session == sid ==> o in after.outbox && after.outbox[o] == db.outbox[o])
    && (forall o <- after.outbox :: after.outbox[o].session == sid ==>
          o in db.outbox && after.outbox[o] == db.outbox[o])
    && (sid in after.routed <==> sid in db.routed)
    && (ConversationGone(sid) in after.dismissed <==> ConversationGone(sid) in db.dismissed)
    && (forall g: nat :: TrackingGone(GenKey(sid, g)) in after.dismissed <==>
        TrackingGone(GenKey(sid, g)) in db.dismissed)
  }

  ghost predicate Spared(db: Db, r: Option<Db>, sid: SessionId) { r.Some? ==> SameFor(db, r.value, sid) }

  /** Whether a resumption waits to replay one of the session's requests is as it was, where it matters. */
  ghost predicate SameWaiting(s: State, t: State, sid: SessionId) {
    forall o <- s.db.outbox ::
        s.db.outbox[o].session == sid && !s.db.outbox[o].prompt && !s.db.outbox[o].state.FailedPreSubmit? ==>
      (o in t.waiting <==> o in s.waiting)
  }

  lemma SameView(s: State, t: State, sid: SessionId)
    requires Inv(s) && Inv(t) && SameFor(s.db, t.db, sid) && SameWaiting(s, t, sid)
    requires if sid in s.flows then sid in t.flows && t.flows[sid] == s.flows[sid] else sid !in t.flows
    ensures View(t, sid) == View(s, sid)
  {
    hide Consistent, Covered, FlowsFit, CallsFit, ReservationsFit, PhaseFits;
    CurrentRowExists(s.db, sid);
    CurrentRowExists(t.db, sid);
    if CurrentRow(s.db, sid).Some? {
      CurrentRowIs(t.db, sid, CurrentRow(s.db, sid).value);
    }
  }

  lemma TouchesSpares(db: Db, after: Db, o: OutboxId, sid: SessionId)
    requires Touches(db, after, o) && sid in db.sessions && db.outbox[o].session != sid
    requires after.outbox[o].session == db.outbox[o].session
    ensures SameFor(db, after, sid)
  {}

  lemma PairedSpares(db: Db, o: OutboxId, u: Update, expected: set<SubmissionState>, next: SubmissionState, f: Fields,
                     sid: SessionId)
    requires o in db.outbox && db.outbox[o].session != sid && sid in db.sessions
    ensures Spared(db, Paired(db, o, u, expected, next, f), sid)
  {}

  lemma SnapshotSpares(db: Db, o: OutboxId, u: Update, expected: set<SubmissionState>, next: SubmissionState,
                       error: Option<ErrorCode>, prompt: bool, sid: SessionId)
    requires o in db.outbox && db.outbox[o].session != sid && sid in db.sessions
    ensures Spared(db, PairedWithSnapshot(db, o, u, expected, next, error, prompt), sid)
  {}

  lemma UpdateSpares(db: Db, i: SessionId, gen: nat, u: Update, sid: SessionId)
    requires i != sid && sid in db.sessions
    ensures Spared(db, UpdateCurrentGeneration(db, i, gen, u), sid)
  {}

  lemma TransitionSpares(db: Db, o: OutboxId, expected: set<SubmissionState>, next: SubmissionState, f: Fields,
                         sid: SessionId)
    requires o in db.outbox && db.outbox[o].session != sid && sid in db.sessions
    ensures Spared(db, Transition(db, o, expected, next, f), sid)
  {}

  /** Writes of a request of another session. */
  lemma WritesSpare(db: Db, o: OutboxId, sid: SessionId)
    requires o in db.outbox && db.outbox[o].session != sid && sid in db.sessions
    ensures forall u, expected, next, f :: Spared(db, Paired(db, o, u, expected, next, f), sid)
    ensures forall u, expected, next, e, p :: Spared(db, PairedWithSnapshot(db, o, u, expected, next, e, p), sid)
    ensures forall gen, u :: Spared(db, UpdateCurrentGeneration(db, db.outbox[o].session, gen, u), sid)
    ensures forall expected, next, f :: Spared(db, Transition(db, o, expected, next, f), sid)
    ensures Spared(db, Some(db), sid) && Spared(db, None, sid)
  {
    hide SameFor, Paired, PairedWithSnapshot, UpdateCurrentGeneration, Transition;
    forall u, expected, next, f ensures Spared(db, Paired(db, o, u, expected, next, f), sid) {
      PairedSpares(db, o, u, expected, next, f, sid);
    }
    forall u, expected, next, e, p ensures Spared(db, PairedWithSnapshot(db, o, u, expected, next, e, p), sid) {
      SnapshotSpares(db, o, u, expected, next, e, p, sid);
    }
    forall gen, u ensures Spared(db, UpdateCurrentGeneration(db, db.outbox[o].session, gen, u), sid) {
      UpdateSpares(db, db.outbox[o].session, gen, u, sid);
    }
    forall expected, next, f ensures Spared(db, Transition(db, o, expected, next, f), sid) {
      TransitionSpares(db, o, expected, next, f, sid);
    }
    SameForItself(db, sid);
  }

  lemma SameForItself(db: Db, sid: SessionId)
    requires sid in db.sessions
    ensures Spared(db, Some(db), sid)
  {}

  lemma RowOperationSpares(db: Db, op: Operation, sid: SessionId)
    requires sid in db.sessions && Target(db, op).Some? && Target(db, op).value != sid
    requires op.Choose? || op.Cancel? || op.Inspect? || op.Recover? || op.Continue? || op.Fail?
    ensures Spared(db, Perform(db, op), sid)
  {
    hide Spared, Paired, PairedWithSnapshot, UpdateCurrentGeneration, Transition, AwaitsDecision, Reopenable,
      Submission.Acknowledged, MessageKnown;
    WritesSpare(db, op.oid, sid);
  }

  lemma SessionOperationSpares(db: Db, op: Operation, sid: SessionId)
    requires sid in db.sessions && Target(db, op).Some? && Target(db, op).value != sid
    requires op.Follow? || op.Stop? || op.Watch? || op.PageState? || op.DeleteConversation? || op.StopTracking?
    ensures Spared(db, Perform(db, op), sid)
  {
    hide UpdateCurrentGeneration, SameFor, Comparable;
    SameForItself(db, sid);
    var i := Target(db, op).value;
    forall gen, u ensures Spared(db, UpdateCurrentGeneration(db, i, gen, u), sid) { UpdateSpares(db, i, gen, u, sid); }
    RetirementSpares(db, op, sid);
  }

  lemma RetirementSpares(db: Db, op: Operation, sid: SessionId)
    requires sid in db.sessions && Target(db, op).Some? && Target(db, op).value != sid
    ensures op.DeleteConversation? || op.StopTracking? ==> Spared(db, Perform(db, op), sid)
  {}

  lemma RowRequestSpares(db: Db, o: OutboxId, sid: SessionId, seen: bool, duplicate: bool)
    requires o in db.outbox && db.outbox[o].session != sid && sid in db.sessions
    ensures Spared(db, Replay(db, o), sid) && Spared(db, BeforeRefresh(db, o), sid)
            && Spared(db, AfterRefresh(db, o, seen, duplicate), sid)
  {
    hide Spared, Paired, PairedWithSnapshot, UpdateCurrentGeneration, Transition, AwaitsDecision;
    WritesSpare(db, o, sid);
  }

  lemma NewRequestSpares(db: Db, i: SessionId, request: Request, newId: OutboxId, payload: Payload,
                         original: Option<OutboxId>, sid: SessionId)
    requires i != sid && sid in db.sessions
    ensures Spared(db, PrepareOutbox(db, i, request, newId, payload, original), sid)
  {
    hide AcceptsNewGeneration, CanAdvance;
  }

  lemma RequestSpares(s: State, e: Event, sid: SessionId)
    requires sid in s.db.sessions && ActorOf(s, e) != Some(sid)
    requires e.Send? || e.AuthorizeSuccessor? || e.Resume? || e.AskReplay? || e.Replayed? || e.BeginRefresh?
    ensures SameFor(s.db, Step(s, e).db, sid)
  {
    hide SameFor, Replay, PrepareOutbox, BeforeRefresh, AwaitsDecision, RefreshMayReopen, DuplicateRecovered,
      MayApprove;
    SameForItself(s.db, sid);
    match e
    case Send(i, request, newId, payload) =>
      if Find(s.db, request).Some? { RowRequestSpares(s.db, Find(s.db, request).value, sid, false, false); }
      else { NewRequestSpares(s.db, i, request, newId, payload, None, sid); }
    case Replayed(oid) => if oid in s.db.outbox { RowRequestSpares(s.db, oid, sid, false, false); }
    case BeginRefresh(oid, _) => if oid in s.db.outbox { RowRequestSpares(s.db, oid, sid, false, false); }
    case _ =>
  }

  lemma SuccessorSpares(db: Db, original: OutboxId, route: Route, request: Request, newId: OutboxId, hash: nat,
                        lost: bool, sid: SessionId)
    requires original in db.outbox && sid in db.sessions && db.outbox[original].session != sid
    ensures Spared(db, PrepareSuccessor(db, original, route, request, newId, hash, lost), sid)
  {
    hide Paired, UnresolvedOriginal, CanAdvance, UnsubmittedFailure;
    var key := Reservation(original, route);
    if key in db.reservations {
      if db.reservations[key] in db.outbox && db.outbox[db.reservations[key]].session != sid {
        WritesSpare(db, db.reservations[key], sid);
      }
    } else {
      var prepared := PrepareOutbox(db, db.outbox[original].session, request, newId, Payload(hash, None, Some(key)),
                                    Some(original));
      if prepared.Some? { WritesSpare(prepared.value, newId, sid); }
    }
  }

  lemma ApprovalSpares(s: State, i: SessionId, newId: OutboxId, sid: SessionId)
    requires FlowsFit(s) && sid in s.db.sessions && i != sid
    ensures SameFor(s.db, Step(s, Approved(i, newId)).db, sid)
  {
    hide SameFor, PrepareSuccessor;
    SameForItself(s.db, sid);
    if At(s, i) && s.flows[i].Approving? && s.flows[i].oid in s.db.outbox {
      var f := s.flows[i];
      assert StageFits(s, i, f);
      SuccessorSpares(s.db, f.oid, f.route, f.request, newId, f.hash, f.lostContinuation, sid);
    }
  }

  lemma EndRefreshSpares(s: State, i: SessionId, sid: SessionId)
    requires FlowsFit(s) && sid in s.db.sessions && i != sid
    ensures SameFor(s.db, Step(s, EndRefresh(i)).db, sid)
  {
    hide SameFor, AfterRefresh;
    SameForItself(s.db, sid);
    if i in s.flows && s.flows[i].Refreshing? && s.flows[i].oid in s.db.outbox {
      assert StageFits(s, i, s.flows[i]);
      RowRequestSpares(s.db, s.flows[i].oid, sid, s.flows[i].seen, s.flows[i].duplicate);
    }
  }

  lemma FlowSpares(s: State, e: Event, sid: SessionId)
    requires Inv(s) && sid in s.db.sessions && OfFlow(e) && e.sid != sid
    ensures SameFor(s.db, Step(s, e).db, sid)
  {
    hide Inv, SameFor, Touches, Step;
    SameForItself(s.db, sid);
    if Step(s, e) != s {
      FlowStepTouches(s, e);
      StepKeepsInv(s, e);
      if Step(s, e).db != s.db {
        FlowHasRow(s, Step(s, e), e.sid);
        TouchesSpares(s.db, Step(s, e).db, s.flows[e.sid].oid, sid);
      }
    }
  }

  lemma FlowHasRow(s: State, t: State, i: SessionId)
    requires Inv(s) && Moves(s, t) && i in s.flows && Touches(s.db, t.db, s.flows[i].oid)
    ensures var o := s.flows[i].oid;
            o in s.db.outbox && o in t.db.outbox && s.db.outbox[o].session == i && t.db.outbox[o].session == i
  {
    hide Consistent, Covered, CallsFit, ReservationsFit, PhaseFits;
    assert StageFits(s, i, s.flows[i]);
    assert RowMoves(s.db.outbox[s.flows[i].oid], t.db.outbox[s.flows[i].oid]);
  }

  lemma CreationSpares(db: Db, i: SessionId, predecessor: Option<SessionId>, sid: SessionId)
    requires sid in db.sessions && predecessor != Some(sid)
    ensures Spared(db, CreateSession(db, i, predecessor), sid)
  {}

  lemma RoleSpares(db: Db, i: SessionId, sid: SessionId)
    requires sid in db.sessions && i != sid
    ensures Spared(db, RetireRole(db, i), sid)
  {}

  lemma TeamDeletionSpares(db: Db, team: set<SessionId>, sid: SessionId)
    requires sid in db.sessions && sid !in team
    ensures SameFor(db, DeleteTeam(db, team), sid)
  {}

  lemma RoutingSpares(s: State, e: Event, sid: SessionId)
    requires sid in s.db.sessions && sid in Step(s, e).db.sessions
    requires (e.NewSession? && e.predecessor != Some(sid)) || (e.EndRole? && e.sid != sid) || e.EndTeam?
             || e.DeletionAttempted?
    ensures SameFor(s.db, Step(s, e).db, sid)
  {
    hide CreateSession, RetireRole, SameFor;
    SameForItself(s.db, sid);
    match e
    case NewSession(i, predecessor) => CreationSpares(s.db, i, predecessor, sid);
    case EndRole(i) => RoleSpares(s.db, i, sid);
    case EndTeam(team) => if sid !in team { TeamDeletionSpares(s.db, team, sid); }
    case DeletionAttempted(_) => DeletionSpares(s.db, Step(s, e).db, sid);
  }

  lemma DeletionSpares(db: Db, after: Db, sid: SessionId)
    requires sid in db.sessions && after == db.(deletions := after.deletions)
    ensures SameFor(db, after, sid)
  {}

  /** The session's actor is held by an operation outside the submission service. */
  predicate Held(s: State, sid: SessionId) { s.phase.Running? && sid !in s.flows }

  lemma StaysOutOfFlows(s: State, e: Event, sid: SessionId)
    requires Held(s, sid) && ActorOf(s, e) != Some(sid)
    ensures sid !in Step(s, e).flows && (!e.Crash? ==> Step(s, e).phase.Running?)
  {
    hide Perform, Replay, PrepareOutbox, PrepareSuccessor, FillComposer, PersistPage, AttemptSubmit,
      CompleteSubmitted, RecordUnknown, FailPreSubmit, RecordPreparationRequired, BeforeRefresh, AfterRefresh,
      CreateSession, RetireRole, DeleteTeam, RestoreRetired, AwaitsDecision, MayApprove;
  }

  /** Only its own session's actor replays a request, and a resumption waits only for one that was sent or failed. */
  lemma WaitingStays(s: State, e: Event, sid: SessionId)
    requires Inv(s) && ActorOf(s, e) != Some(sid) && !e.Crash?
    ensures SameWaiting(s, Step(s, e), sid)
  {
    hide Consistent, Covered, FlowsFit, CallsFit, ReservationsFit, PhaseFits, Perform, Replay, PrepareOutbox,
      PrepareSuccessor, FillComposer, PersistPage, AttemptSubmit, CompleteSubmitted, RecordUnknown, FailPreSubmit,
      RecordPreparationRequired, BeforeRefresh, AfterRefresh, CreateSession, RetireRole, DeleteTeam, RestoreRetired,
      AwaitsDecision, MayApprove, PreSubmitPass, DiagnosticsPass, SubmissionPass;
    if e.AskReplay? && e.oid in s.db.outbox { RowFacts(s.db, e.oid); }
  }

  /** Routing may retire a session of which no prompt was sent, whoever holds its actor. */
  lemma RetiredIsCut(s: State, t: State, sid: SessionId, state: SessionState)
    requires Inv(s) && Inv(t) && Held(s, sid) && sid in s.db.sessions && s.db.sessions[sid].current > 0
             && (state.Cancelled? || state.Superseded?)
    requires SameFor(RetireUnsubmitted(s.db, sid, state).(routed := s.db.routed - {sid}), t.db, sid) && sid !in t.flows
    ensures Stops.Cut(View(s, sid), View(t, sid))
  {
    hide Consistent, Covered, FlowsFit, CallsFit, ReservationsFit, PhaseFits;
    CurrentRowExists(s.db, sid);
    CurrentRowExists(t.db, sid);
    CurrentRowIs(t.db, sid, CurrentRow(s.db, sid).value);
  }

  lemma RoutingCuts(s: State, e: Event, sid: SessionId)
    requires sid in s.db.sessions && ((e.NewSession? && e.predecessor == Some(sid)) || (e.EndRole? && e.sid == sid))
    ensures var db := Step(s, e).db;
            var retired := RetireUnsubmitted(s.db, sid, if e.EndRole? then Cancelled else Superseded);
            Step(s, e) == s || SameFor(retired.(routed := s.db.routed - {sid}), db, sid)
  {}

  /** While another operation holds the session's actor, the core leaves the session alone or retires it unsent. */
  lemma {:induction false} OnlyRetiredMeanwhile(s: State, e: Event, sid: SessionId)
    requires Inv(s) && Held(s, sid) && sid in s.db.sessions && s.db.sessions[sid].current > 0
    requires sid in Step(s, e).db.sessions && ActorOf(s, e) != Some(sid) && !e.Crash?
    ensures Stops.Cut(View(s, sid), View(Step(s, e), sid))
  {
    hide Inv, Step, View, SameFor, SameWaiting, Moves, KeepsRows, RetireUnsubmitted, Held, ActorOf;
    var t := Step(s, e);
    StepKeepsInv(s, e);
    StaysOutOfFlows(s, e, sid);
    WaitingStays(s, e, sid);
    if (e.NewSession? && e.predecessor == Some(sid)) || (e.EndRole? && e.sid == sid) {
      RoutingCuts(s, e, sid);
      if t != s { RetiredIsCut(s, t, sid, if e.EndRole? then Cancelled else Superseded); }
    } else {
      OthersSpare(s, e, sid);
      HeldHasNoFlow(s, sid);
      SameView(s, t, sid);
    }
  }

  lemma HeldHasNoFlow(s: State, sid: SessionId)
    requires Held(s, sid)
    ensures sid !in s.flows
  {}

  lemma OthersSpare(s: State, e: Event, sid: SessionId)
    requires Inv(s) && Held(s, sid) && sid in s.db.sessions && sid in Step(s, e).db.sessions
             && ActorOf(s, e) != Some(sid)
    requires !(e.NewSession? && e.predecessor == Some(sid)) && !(e.EndRole? && e.sid == sid)
    ensures SameFor(s.db, Step(s, e).db, sid)
  {
    hide Inv, Step, SameFor;
    match e
    case NewSession(_, _) => RoutingSpares(s, e, sid);
    case EndRole(_) => RoutingSpares(s, e, sid);
    case EndTeam(_) => RoutingSpares(s, e, sid);
    case DeletionAttempted(_) => RoutingSpares(s, e, sid);
    case Send(_, _, _, _) => RequestSpares(s, e, sid);
    case Resume(_) => RequestSpares(s, e, sid);
    case BeginRefresh(_, _) => RequestSpares(s, e, sid);
    case AuthorizeSuccessor(_, _, _, _, _) => RequestSpares(s, e, sid);
    case AskReplay(_) => RequestSpares(s, e, sid);
    case Replayed(_) => RequestSpares(s, e, sid);
    case Approved(i, newId) => ApprovalIsOther(s, i, newId, sid);
    case Act(op) => ActSpares(s, op, sid);
    case Crash => StartupSpares(s, e, sid);
    case RestoreSession(_) => StartupSpares(s, e, sid);
    case PassRow(_) => StartupSpares(s, e, sid);
    case PassEnd => StartupSpares(s, e, sid);
    case CallSubmitOnce(_) => StartupSpares(s, e, sid);
    case Aborted(_) => StartupSpares(s, e, sid);
    case EndRefresh(i) => EndRefreshIsOther(s, i, sid);
    case _ => FlowSpares(s, e, sid);
  }

  lemma EndRefreshIsOther(s: State, i: SessionId, sid: SessionId)
    requires Inv(s) && sid in s.db.sessions && i != sid
    ensures SameFor(s.db, Step(s, EndRefresh(i)).db, sid)
  {
    hide Step, SameFor, StageFits;
    EndRefreshSpares(s, i, sid);
  }

  lemma ApprovalIsOther(s: State, i: SessionId, newId: OutboxId, sid: SessionId)
    requires Inv(s) && sid in s.db.sessions && i != sid
    ensures SameFor(s.db, Step(s, Approved(i, newId)).db, sid)
  {
    hide Step, SameFor, StageFits;
    ApprovalSpares(s, i, newId, sid);
  }

  lemma ActSpares(s: State, op: Operation, sid: SessionId)
    requires sid in s.db.sessions && ActorOf(s, Act(op)) != Some(sid)
    ensures SameFor(s.db, Step(s, Act(op)).db, sid)
  {
    hide Perform, SameFor;
    SameForItself(s.db, sid);
    var i := Target(s.db, op);
    if i.Some? {
      if op.Follow? || op.Stop? || op.Watch? || op.PageState? || op.DeleteConversation? || op.StopTracking? {
        SessionOperationSpares(s.db, op, sid);
      } else {
        RowOperationSpares(s.db, op, sid);
      }
    }
  }

  lemma StartupSpares(s: State, e: Event, sid: SessionId)
    requires Held(s, sid) && sid in s.db.sessions
    requires e.Crash? || e.RestoreSession? || e.PassRow? || e.PassEnd? || e.CallSubmitOnce? || e.Aborted?
    ensures SameFor(s.db, Step(s, e).db, sid)
  {
    SameForItself(s.db, sid);
  }

  // ---------------------------------------------------------------- a recorded stop

  /** A recorded stop makes of the session what the stop service records, and of the others nothing. */
  lemma {:induction false} StopIsRecorded(s: State, sid: SessionId)
    requires Inv(s) && sid in s.db.sessions && Idle(s, sid) && s.db.sessions[sid].current > 0
    ensures var t := Step(s, Act(Stop(sid, s.db.sessions[sid].current)));
            sid in t.db.sessions && View(t, sid) == Stops.Ended(View(s, sid))
  {
    hide Consistent, Covered, FlowsFit, CallsFit, ReservationsFit, PhaseFits, Step, Finished;
    CurrentRowExists(s.db, sid);
    var oid := CurrentRow(s.db, sid).value;
    var t := Step(s, Act(Stop(sid, s.db.sessions[sid].current)));
    StepKeepsInv(s, Act(Stop(sid, s.db.sessions[sid].current)));
    ActsWhenIdle(s, Stop(sid, s.db.sessions[sid].current));
    assert SessionOk(s.db, sid) by { SessionFacts(s.db, sid); }
    CurrentRowIs(t.db, sid, oid);
    CurrentRowExists(t.db, sid);
    StopEnds(s, oid);
  }

  lemma StopEnds(s: State, oid: OutboxId)
    requires Inv(s) && MayStop(s, oid)
    ensures var t := Step(s, Stopping(s.db, oid)); Finished(t, oid, false) <==>
              Finished(s, oid, false) || Ends(s, oid)
  {
    hide Consistent, Covered, FlowsFit, CallsFit, ReservationsFit, PhaseFits, Step;
    ActsWhenIdle(s, Stop(s.db.outbox[oid].session, s.db.outbox[oid].generation));
    RowFacts(s.db, oid);
    if Ends(s, oid) { StopFinishes(s, oid, false); }
  }
}
