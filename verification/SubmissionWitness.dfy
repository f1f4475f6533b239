/**
 Concrete runs in which the submission service does less than it says: a request is submitted again after
 its team was deleted, a confirmed stop is undone, and a cancellation is told as a failure.
 */
module SubmissionWitness {
  import opened Wrappers
  import opened Storage
  import opened Submission
  import opened SubmissionRuns
  import opened SubmissionInvariants
  import opened SubmissionTransactions
  import opened SubmissionMeaning
  import opened SubmissionRecovery
  import opened SubmissionSafety
  import opened SubmissionTheorems
  import opened SubmissionFinality
  import opened SubmissionRevival

  const Plain := Payload(0, None, None)

  /** Create a session, send one request to it, and have the provider acknowledge it. */
  function Sending(sid: SessionId, oid: OutboxId, request: Request): seq<Event> {
    [NewSession(sid, None), Send(sid, request, oid, Plain), PageOpened(sid, 0), ComposerReady(sid, 0),
     RecordAttempt(sid, 0),
     CallSubmitOnce(sid), Event.Acknowledged(sid, 0, Acknowledgement(0, 0, None))]
  }

  const Startup: seq<Event> := [PassEnd, PassEnd, PassEnd, PassEnd]

  /** Nothing is in progress, and neither the session, the row nor the request exists yet. */
  ghost predicate ReadyFor(s: State, sid: SessionId, oid: OutboxId) {
    && s.phase.Running? && s.turn.None? && s.flows == map[] && oid !in s.used && oid !in s.db.outbox
    && sid !in s.db.sessions && s.db.outbox == map[]
    && GenKey(sid, 0) !in s.db.generations && GenKey(sid, 1) !in s.db.generations
  }

  lemma Prepares(s: State, sid: SessionId, oid: OutboxId, request: Request)
    requires ReadyFor(s, sid, oid)
    ensures var after := Step(Step(s, NewSession(sid, None)), Send(sid, request, oid, Plain));
            && after.phase.Running? && after.turn.None? && after.flows == map[sid := Opening(oid)]
            && after.calls == s.calls
            && after.used == s.used + {oid} && after.db.outbox.Keys == {oid} && sid in after.db.sessions
            && after.db.sessions[sid].current == 1
            && GenKey(sid, 1) in after.db.generations
            && var row := after.db.outbox[oid];
            row.session == sid && row.generation == 1 && row.request == request && row.state.Prepared?
    ensures Step(Step(s, NewSession(sid, None)), Send(sid, request, oid, Plain)).db.sessions.Keys
            == s.db.sessions.Keys + {sid}
    ensures Step(Step(s, NewSession(sid, None)), Send(sid, request, oid, Plain)).db.generations.Keys
            == s.db.generations.Keys + {GenKey(sid, 1)}
  {
    var s1 := Step(s, NewSession(sid, None));
    assert s1.db.sessions[sid] == Session(Created, ProviderState.Unknown, Unavailable, 0, None, None);
    assert Find(s1.db, request).None?;
    assert CanPrepare(s1.db, sid, request, oid, Plain, None);
  }

  ghost predicate InStage(s: State, sid: SessionId, f: Flow, state: SubmissionState, request: Request) {
    && s.phase.Running? && s.flows == map[sid := f] && s.db.outbox.Keys == {f.oid}
    && sid in s.db.sessions && s.db.sessions[sid].current == 1 && GenKey(sid, 1) in s.db.generations
    && var row := s.db.outbox[f.oid];
    row.session == sid && row.generation == 1 && row.request == request && row.state == state
  }

  ghost predicate SameKeys(s: State, after: State) {
    after.used == s.used && after.db.sessions.Keys == s.db.sessions.Keys
        && after.db.generations.Keys == s.db.generations.Keys
  }

  lemma Fills(s: State, sid: SessionId, oid: OutboxId, request: Request)
    requires InStage(s, sid, Opening(oid), Prepared, request) && s.turn.None?
    ensures var after := Step(Step(s, PageOpened(sid, 0)), ComposerReady(sid, 0));
            InStage(after, sid, Filled(oid), ComposerFilled, request) && after.turn == Some(sid)
                && after.calls == s.calls && SameKeys(s, after)
  {
    hide Step;
    Opens(s, sid, oid, request);
    FillsOpened(Step(s, PageOpened(sid, 0)), sid, oid, request);
  }

  lemma Opens(s: State, sid: SessionId, oid: OutboxId, request: Request)
    requires InStage(s, sid, Opening(oid), Prepared, request) && s.turn.None?
    ensures var after := Step(s, PageOpened(sid, 0));
            InStage(after, sid, Preparing(oid), Prepared, request) && after.turn.None? && after.calls == s.calls
                && SameKeys(s, after)
  {}

  lemma FillsOpened(s: State, sid: SessionId, oid: OutboxId, request: Request)
    requires InStage(s, sid, Preparing(oid), Prepared, request) && s.turn.None?
    ensures var after := Step(s, ComposerReady(sid, 0));
            InStage(after, sid, Filled(oid), ComposerFilled, request) && after.turn == Some(sid)
                && after.calls == s.calls && SameKeys(s, after)
  {}

  lemma Calls(s: State, sid: SessionId, oid: OutboxId, request: Request)
    requires InStage(s, sid, Filled(oid), ComposerFilled, request) && s.turn == Some(sid)
    ensures var after := Step(Step(s, RecordAttempt(sid, 0)), CallSubmitOnce(sid));
            InStage(after, sid, Dispatched(oid), SubmitAttempted, request) && after.turn.None?
                && after.calls == s.calls + [Call(oid, request)] && SameKeys(s, after)
  {
    hide Step;
    Attempts(s, sid, oid, request);
    CallsAttempted(Step(s, RecordAttempt(sid, 0)), sid, oid, request);
  }

  lemma Attempts(s: State, sid: SessionId, oid: OutboxId, request: Request)
    requires InStage(s, sid, Filled(oid), ComposerFilled, request) && s.turn == Some(sid)
    ensures var after := Step(s, RecordAttempt(sid, 0));
            InStage(after, sid, Attempted(oid), SubmitAttempted, request) && after.turn == Some(sid)
                && after.calls == s.calls && SameKeys(s, after)
  {}

  lemma CallsAttempted(s: State, sid: SessionId, oid: OutboxId, request: Request)
    requires InStage(s, sid, Attempted(oid), SubmitAttempted, request) && s.turn == Some(sid)
    ensures var after := Step(s, CallSubmitOnce(sid));
            InStage(after, sid, Dispatched(oid), SubmitAttempted, request) && after.turn.None?
                && after.calls == s.calls + [Call(oid, request)] && SameKeys(s, after)
  {}

  lemma Acknowledges(s: State, sid: SessionId, oid: OutboxId, request: Request)
    requires InStage(s, sid, Dispatched(oid), SubmitAttempted, request) && s.turn.None?
    ensures var after := Step(s, Event.Acknowledged(sid, 0, Acknowledgement(0, 0, None)));
            && after.phase.Running? && after.turn.None? && after.flows == map[] && after.calls == s.calls
            && SameKeys(s, after)
            && after.db.outbox.Keys == {oid} && after.db.outbox[oid].session == sid
            && after.db.outbox[oid].state == SubmissionState.Submitted
            && after.db.sessions[sid].current == 1
  {}

  lemma Submits(s: State, sid: SessionId, oid: OutboxId, request: Request)
    requires ReadyFor(s, sid, oid)
    ensures var after := Exec(s, Sending(sid, oid, request));
            && after.phase.Running? && after.turn.None? && after.flows == map[]
            && after.calls == s.calls + [Call(oid, request)]
            && after.used == s.used + {oid}
            && after.db.outbox.Keys == {oid} && after.db.outbox[oid].session == sid
            && after.db.sessions.Keys == s.db.sessions.Keys + {sid}
            && after.db.generations.Keys == s.db.generations.Keys + {GenKey(sid, 1)}
  {
    hide Step;
    var r := Sending(sid, oid, request);
    var s1 := Step(s, r[0]); var s2 := Step(s1, r[1]); var s3 := Step(s2, r[2]); var s4 := Step(s3, r[3]);
    var s5 := Step(s4, r[4]); var s6 := Step(s5, r[5]); var s7 := Step(s6, r[6]);
    Prepares(s, sid, oid, request);
    Fills(s2, sid, oid, request);
    Calls(s4, sid, oid, request);
    Acknowledges(s6, sid, oid, request);
    Unroll7(s, r);
  }

  lemma Unroll7(s: State, r: seq<Event>)
    requires |r| == 7
    ensures Exec(s, r) == Step(Step(Step(Step(Step(Step(Step(s, r[0]), r[1]), r[2]), r[3]), r[4]), r[5]), r[6])
  {
    hide Step;
    assert r == [r[0], r[1], r[2], r[3], r[4], r[5]] + [r[6]];
    ExecLast(s, [r[0], r[1], r[2], r[3], r[4], r[5]], r[6]);
    ExecLast(s, [r[0], r[1], r[2], r[3], r[4]], r[5]);
    assert [r[0], r[1], r[2], r[3], r[4], r[5]] == [r[0], r[1], r[2], r[3], r[4]] + [r[5]];
    ExecLast(s, [r[0], r[1], r[2], r[3]], r[4]);
    assert [r[0], r[1], r[2], r[3], r[4]] == [r[0], r[1], r[2], r[3]] + [r[4]];
    ExecLast(s, [r[0], r[1], r[2]], r[3]);
    assert [r[0], r[1], r[2], r[3]] == [r[0], r[1], r[2]] + [r[3]];
    ExecLast(s, [r[0], r[1]], r[2]);
    assert [r[0], r[1], r[2]] == [r[0], r[1]] + [r[2]];
    ExecLast(s, [r[0]], r[1]);
    assert [r[0], r[1]] == [r[0]] + [r[1]];
    ExecLast(s, [], r[0]);
    assert [r[0]] == [] + [r[0]];
  }

  lemma Starts()
    ensures Exec(Start, Startup) == Start.(phase := Running)
  {
    assert Listed(EmptyDb, {Prepared, ComposerFilled}) == {}
           && Listed(EmptyDb, {FailedPreSubmit, SubmissionUnknown}) == {};
    assert Listed(EmptyDb, {SubmitAttempted}) == {};
    var s1 := Step(Start, PassEnd);
    assert s1 == Start.(phase := PreSubmit({}));
    var s2 := Step(s1, PassEnd);
    assert s2 == Start.(phase := Diagnostics({}));
    var s3 := Step(s2, PassEnd);
    assert s3 == Start.(phase := Interrupted({}));
    var s4 := Step(s3, PassEnd);
    assert s4 == Start.(phase := Running);
    assert Startup[1..] == [PassEnd, PassEnd, PassEnd] && Startup[1..][1..] == [PassEnd, PassEnd]
           && Startup[1..][1..][1..] == [PassEnd];
    assert Startup[1..][1..][1..][1..] == [];
  }

  /** The second submission follows the deletion of the first one's team. */
  function TwiceSubmitted(request: Request): seq<Event> {
    Startup + Sending(0, 0, request) + [EndTeam({0})] + Sending(1, 1, request)
  }

  /** The same client request reaches the provider twice. */
  lemma {:induction false} RequestRepeatedAfterTeamDeletion(request: Request)
    ensures Exec(Start, TwiceSubmitted(request)).calls == [Call(0, request), Call(1, request)]
  {
    hide Sending, Step;
    Starts();
    ExecConcat(Start, Startup, Sending(0, 0, request));
    Submits(Start.(phase := Running), 0, 0, request);
    var first := Exec(Start, Startup + Sending(0, 0, request));
    ExecLast(Start, Startup + Sending(0, 0, request), EndTeam({0}));
    DeletesAll(first);
    var deleted := Step(first, EndTeam({0}));
    ExecConcat(Start, Startup + Sending(0, 0, request) + [EndTeam({0})], Sending(1, 1, request));
    Submits(deleted, 1, 1, request);
  }

  lemma DeletesAll(s: State)
    requires s.phase.Running? && s.turn.None? && s.flows == map[] && s.db.outbox.Keys == {0}
             && s.db.outbox[0].session == 0
    requires s.db.sessions.Keys == {0} && s.db.generations.Keys == {GenKey(0, 1)} && s.used == {0}
    ensures var after := Step(s, EndTeam({0})); ReadyFor(after, 1, 1) && after.calls == s.calls && after.used == s.used
  {}

  // ---------------------------------------------------------------- an authorized successor

  /** One session's first request, whose outcome stays ambiguous. */
  function Losing(request: Request): seq<Event> {
    [NewSession(0, None), Send(0, request, 0, Plain), PageOpened(0, 0), ComposerReady(0, 0), RecordAttempt(0, 0),
     CallSubmitOnce(0), Ambiguous(0, SubmitUnacknowledged)]
  }

  /** Nothing but the first session and its first request exists, and no trace of a turn. */
  ghost predicate FirstOnly(s: State, request: Request, state: SubmissionState, session: SessionState) {
    && s.phase.Running? && s.db.sessions.Keys == {0} && s.db.generations.Keys == {GenKey(0, 1)}
    && s.db.outbox.Keys == {0} && s.used == {0}
    && s.db.routed == {0} && s.db.reservations == map[] && s.db.deletions == {}
    && var x, g, row := s.db.sessions[0], s.db.generations[GenKey(0, 1)], s.db.outbox[0];
       && x.state == session && x.current == 1 && x.conversation.None?
       && g.state == state && g.prompt == Irrevocable(state) && g.userMessage.None? && g.userTurn.None?
       && g.response.None? && !g.answered && !g.completed
       && row.session == 0 && row.generation == 1 && row.request == request && row.state == state
       && row.prompt == g.prompt && row.payload.authorized.None?
  }

  ghost predicate InFlow(s: State, f: Flow, turn: Option<SessionId>) { s.flows == map[0 := f] && s.turn == turn }

  lemma FirstIsPrepared(request: Request)
    ensures var s := Step(Step(Start.(phase := Running), NewSession(0, None)), Send(0, request, 0, Plain));
            FirstOnly(s, request, Prepared, Submitting) && InFlow(s, Opening(0), None)
  {
    var s1 := Step(Start.(phase := Running), NewSession(0, None));
    assert s1.db.sessions == map[0 := Session(Created, ProviderState.Unknown, Unavailable, 0, None, None)];
    assert Find(s1.db, request).None?;
    assert CanPrepare(s1.db, 0, request, 0, Plain, None);
  }

  lemma FirstIsOpened(s: State, request: Request)
    requires FirstOnly(s, request, Prepared, Submitting) && InFlow(s, Opening(0), None)
    ensures var t := Step(s, PageOpened(0, 0));
            FirstOnly(t, request, Prepared, Submitting) && InFlow(t, Preparing(0), None)
  {
    hide StepSend, StepAuthorize, StepResume, StepComposer, StepAttempt, StepCall, StepAcknowledged, StepBeginRefresh,
      StepPassRow, StepPassEnd, Perform;
  }

  lemma FirstIsFilled(s: State, request: Request)
    requires FirstOnly(s, request, Prepared, Submitting) && InFlow(s, Preparing(0), None)
    ensures var t := Step(s, ComposerReady(0, 0));
            FirstOnly(t, request, ComposerFilled, Submitting) && InFlow(t, Filled(0), Some(0))
  {
    hide StepSend, StepAuthorize, StepResume, StepOpened, StepAttempt, StepCall, StepAcknowledged, StepBeginRefresh,
      StepPassRow, StepPassEnd, Perform;
  }

  lemma FirstIsAttempted(s: State, request: Request)
    requires FirstOnly(s, request, ComposerFilled, Submitting) && InFlow(s, Filled(0), Some(0))
    ensures var t := Step(s, RecordAttempt(0, 0));
            FirstOnly(t, request, SubmitAttempted, Submitting) && InFlow(t, Attempted(0), Some(0))
                && t.db.sessions[0].page.Some?
  {
    hide StepSend, StepAuthorize, StepResume, StepOpened, StepComposer, StepCall, StepAcknowledged, StepBeginRefresh,
      StepPassRow, StepPassEnd, Perform;
  }

  lemma FirstIsCalled(s: State, request: Request)
    requires FirstOnly(s, request, SubmitAttempted, Submitting) && InFlow(s, Attempted(0), Some(0))
             && s.db.sessions[0].page.Some?
    ensures var t := Step(s, CallSubmitOnce(0));
            FirstOnly(t, request, SubmitAttempted, Submitting) && InFlow(t, Dispatched(0), None)
                && t.db.sessions[0].page.Some?
  {
    hide StepSend, StepAuthorize, StepResume, StepOpened, StepComposer, StepAttempt, StepAcknowledged,
      StepBeginRefresh, StepPassRow, StepPassEnd, Perform;
  }

  lemma FirstIsLost(s: State, request: Request)
    requires FirstOnly(s, request, SubmitAttempted, Submitting) && InFlow(s, Dispatched(0), None)
             && s.db.sessions[0].page.Some?
    ensures var t := Step(s, Ambiguous(0, SubmitUnacknowledged));
            FirstOnly(t, request, SubmissionUnknown, Observing) && t.flows == map[] && t.turn.None?
                && t.db.sessions[0].page.Some?
  {
    hide Step;
    AmbiguityIsRecorded(s);
    assert s.flows - {0} == map[];
  }

  lemma AmbiguityIsRecorded(s: State)
    requires s.phase.Running? && InFlow(s, Dispatched(0), None) && 0 in s.db.outbox
    ensures Step(s, Ambiguous(0, SubmitUnacknowledged))
            == Ended(s, 0, RecordUnknown(s.db, 0, SubmitUnacknowledged))
  {
    hide RecordUnknown;
  }

  const Key0 := Reservation(0, Resend)

  /** The successor of the first request, generation 2 of session 0: never sent, and nothing in progress. */
  ghost predicate Second(s: State, second: Request) {
    && s.phase.Running? && s.turn.None? && s.flows == map[] && Reserved(s.db, 1, Key0) && 0 in s.db.sessions
    && s.db.sessions[0].page.Some? && s.db.outbox[1].session == 0 && s.db.outbox[1].generation == 2
    && s.db.outbox[1].request == second
  }

  lemma FirstIsApproved(s: State, request: Request, second: Request)
    requires FirstOnly(s, request, SubmissionUnknown, Observing) && s.flows == map[] && s.turn.None? && s.waiting == {}
             && s.db.sessions[0].page.Some? && second.client == request.client
    ensures Step(s, AuthorizeSuccessor(0, Resend, second, 0, false))
            == s.(flows := map[0 := Approving(0, Resend, second, 0, false)])
  {
    assert UnresolvedOriginal(s.db, 0, Resend, false);
  }

  lemma SuccessorIsReserved(s: State, request: Request, second: Request)
    requires FirstOnly(s, request, SubmissionUnknown, Observing)
             && s.flows == map[0 := Approving(0, Resend, second, 0, false)]
    requires s.turn.None? && s.waiting == {} && s.db.sessions[0].page.Some? && second != request
             && second.client == request.client
    ensures var t := Step(s, Approved(0, 1));
            Second(t, second) && AwaitsDecision(t.db, 1) && t.used == {0, 1} && t.waiting == {}
            && t.db.outbox[1].result == PendingPreparation(false)
  {
    hide PrepareSuccessor, AwaitsDecision, Reserved, UnresolvedOriginal;
    FirstHasSuccessor(s, request, second);
    assert Ended(s, 0, None).flows == map[];
  }

  lemma FirstHasSuccessor(s: State, request: Request, second: Request)
    requires FirstOnly(s, request, SubmissionUnknown, Observing) && s.db.sessions[0].page.Some? && second != request
             && second.client == request.client
    ensures var r := PrepareSuccessor(s.db, 0, Resend, second, 1, 0, false);
            && r.Some? && Reserved(r.value, 1, Key0) && AwaitsDecision(r.value, 1) && 0 in r.value.sessions
            && r.value.sessions[0].page.Some? && r.value.outbox[1].session == 0 && r.value.outbox[1].generation == 2
            && r.value.outbox[1].request == second && r.value.outbox[1].result == PendingPreparation(false)
  {
    assert Find(s.db, second).None?;
    assert UnresolvedOriginal(s.db, 0, Resend, false);
    assert CanPrepare(s.db, 0, second, 1, Payload(0, None, Some(Key0)), Some(0));
  }

  /** The first request is lost and its caller reserves a successor for it. */
  function Reserving(request: Request, second: Request): seq<Event> {
    Startup + Losing(request) + [AuthorizeSuccessor(0, Resend, second, 0, false), Approved(0, 1)]
  }

  lemma Loses(request: Request)
    ensures var s := Exec(Start, Startup + Losing(request));
            FirstOnly(s, request, SubmissionUnknown, Observing) && s.flows == map[] && s.turn.None? && s.waiting == {}
            && s.db.sessions[0].page.Some?
  {
    hide Step, FirstOnly, InFlow;
    var r := Losing(request);
    var s0 := Start.(phase := Running);
    var s2 := Step(Step(s0, r[0]), r[1]);
    var s3 := Step(s2, r[2]);
    var s4 := Step(s3, r[3]);
    var s5 := Step(s4, r[4]);
    var s6 := Step(s5, r[5]);
    Starts();
    FirstIsPrepared(request);
    FirstIsOpened(s2, request);
    FirstIsFilled(s3, request);
    FirstIsAttempted(s4, request);
    FirstIsCalled(s5, request);
    FirstIsLost(s6, request);
    Unroll7(s0, r);
    ExecConcat(Start, Startup, r);
    NobodyWaits(s0, r);
  }

  lemma Reserves(request: Request, second: Request)
    requires second != request && second.client == request.client
    ensures var s := Exec(Start, Reserving(request, second));
            Second(s, second) && AwaitsDecision(s.db, 1) && s.used == {0, 1} && s.waiting == {}
            && s.db.outbox[1].result == PendingPreparation(false)
  {
    hide Step, FirstOnly, Second, AwaitsDecision, Exec, Losing;
    var front := Startup + Losing(request);
    var s := Exec(Start, front);
    var begin := AuthorizeSuccessor(0, Resend, second, 0, false);
    Loses(request);
    FirstIsApproved(s, request, second);
    ExecLast(Start, front, begin);
    var t := Exec(Start, front + [begin]);
    FirstOnlyIsOfTheTables(s, t, request);
    SuccessorIsReserved(t, request, second);
    ExecLast(Start, front + [begin], Approved(0, 1));
    assert Reserving(request, second) == front + [begin] + [Approved(0, 1)];
  }

  lemma FirstOnlyIsOfTheTables(s: State, t: State, request: Request)
    requires FirstOnly(s, request, SubmissionUnknown, Observing) && t.db == s.db && t.used == s.used
             && t.phase == s.phase
    ensures FirstOnly(t, request, SubmissionUnknown, Observing)
  {}

  // ---------------------------------------------------------------- it fails, and is approved again while a
  // resumption waits

  /** The successor is resumed and its browser fails. */
  const Failing: seq<Event> := [Resume(1), PreparationFailed(0, BrowserUnavailable)]

  /** While its repeated approval waits for the page, another resumption looks at the failed row. */
  function Queueing(second: Request): seq<Event> {
    [AuthorizeSuccessor(0, Resend, Request(second.client, 0), 0, false), AskReplay(1), Approved(0, 2)]
  }

  lemma FailureRipens(db: Db)
    requires Consistent(db) && Reserved(db, 1, Key0) && AwaitsDecision(db, 1) && db.outbox[1].session == 0
             && db.sessions[0].page.Some?
    ensures var r := FailPreSubmit(db, 1, BrowserUnavailable);
            && r.Some? && Ripe(r.value, 1, Key0) && r.value.outbox[1].session == 0 && 0 in r.value.sessions
            && r.value.sessions[0].page.Some? && r.value.outbox[1].generation == db.outbox[1].generation
            && r.value.outbox[1].request == db.outbox[1].request
  {
    hide Consistent;
    RowFacts(db, 1);
    if Key0.original != 1 { DistinctRows(db, Key0.original, 1); }
  }

  lemma Resumes(s: State, second: Request)
    requires Second(s, second) && AwaitsDecision(s.db, 1) && s.db.outbox[1].result == PendingPreparation(false)
    ensures Step(s, Resume(1)) == s.(flows := map[0 := Opening(1)])
  {
    hide AwaitsDecision;
  }

  lemma FailsOpening(s: State, second: Request)
    requires s.flows == map[0 := Opening(1)] && s.phase.Running? && s.turn.None? && 1 in s.db.outbox
    ensures var t := Step(s, PreparationFailed(0, BrowserUnavailable));
            t == s.(db := FailPreSubmit(s.db, 1, BrowserUnavailable).Or(s.db), flows := map[])
  {
    hide FailPreSubmit;
    assert s.flows - {0} == map[];
  }

  lemma Fails(s: State, second: Request)
    requires Inv(s) && Second(s, second) && AwaitsDecision(s.db, 1)
             && s.db.outbox[1].result == PendingPreparation(false)
    ensures var t := Exec(s, Failing);
            Second(t, second) && Ripe(t.db, 1, Key0) && t.used == s.used && t.waiting == s.waiting
  {
    hide Inv, Step, AwaitsDecision, FailPreSubmit, Ripe, Exec;
    InvIsConsistent(s);
    Resumes(s, second);
    FailsOpening(Step(s, Resume(1)), second);
    FailureRipens(s.db);
    RipeIsReserved(FailPreSubmit(s.db, 1, BrowserUnavailable).value);
    ExecLast(s, [Resume(1)], PreparationFailed(0, BrowserUnavailable));
    ExecLast(s, [], Resume(1));
    ExecNothing(s);
    assert [] + [Resume(1)] == [Resume(1)] && [Resume(1)] + [PreparationFailed(0, BrowserUnavailable)] == Failing;
  }

  lemma ExecNothing(s: State)
    ensures Exec(s, []) == s
  {}

  lemma RipeIsReserved(db: Db)
    requires Ripe(db, 1, Key0)
    ensures Reserved(db, 1, Key0) && 1 in db.outbox && db.outbox[1].state.FailedPreSubmit?
  {}

  lemma ApprovalKeepsReserved(db: Db)
    requires Consistent(db) && Ripe(db, 1, Key0) && db.outbox[1].session == 0 && db.sessions[0].page.Some?
    ensures var r := ReopenSuccessor(db, 0, Key0);
            && r.Some? && Reserved(r.value, 1, Key0) && AwaitsDecision(r.value, 1) && 0 in r.value.sessions
            && r.value.sessions[0].page.Some? && r.value.outbox[1].session == 0
            && r.value.outbox[1].generation == db.outbox[1].generation
            && r.value.outbox[1].request == db.outbox[1].request
  {
    hide Consistent;
    RowFacts(db, 1);
  }

  lemma AsksWhileApproving(s: State)
    requires s.phase.Running? && s.turn.None? && 1 in s.db.outbox && s.db.outbox[1].state.FailedPreSubmit?
    ensures Step(s, AskReplay(1)) == s.(waiting := s.waiting + {1})
  {}

  lemma Queues(s: State, second: Request)
    requires Inv(s) && Second(s, second) && Ripe(s.db, 1, Key0) && s.used == {0, 1} && s.waiting == {}
    ensures var t := Exec(s, Queueing(second));
            Second(t, second) && AwaitsDecision(t.db, 1) && t.used == {0, 1, 2} && t.waiting == {1}
  {
    hide Inv, Step, AwaitsDecision, Ripe, Exec, ReopenSuccessor, MayApprove;
    var r := Queueing(second);
    InvIsConsistent(s);
    RipeIsReserved(s.db);
    ApprovalReopens(s.db, 1, Key0);
    ApprovalKeepsReserved(s.db);
    BeginsApproval(s, 1, Key0);
    assert Reauthorizing(s.db, 1, Key0) == r[0];
    var s1 := Step(s, r[0]);
    AsksWhileApproving(s1);
    var s2 := Step(s1, r[1]);
    assert s2.flows == map[0 := Approving(0, Resend, Request(second.client, 0), 0, false)];
    ApprovesReserved(s2, 0, 1, Key0, 2);
    ExecThree(s, r[0], r[1], r[2]);
  }

  /** Up to the repeated approval, with a resumption waiting behind it. */
  function Queued(request: Request, second: Request): seq<Event> {
    Reserving(request, second) + Failing + Queueing(second)
  }

  lemma QueuesUp(request: Request, second: Request)
    requires second != request && second.client == request.client
    ensures var s := Exec(Start, Queued(request, second));
            Second(s, second) && AwaitsDecision(s.db, 1) && s.used == {0, 1, 2} && s.waiting == {1}
  {
    hide Inv, Exec, Step, Second, AwaitsDecision, Reserving, Queueing, Ripe;
    Reserves(request, second);
    Reachable(Reserving(request, second));
    Fails(Exec(Start, Reserving(request, second)), second);
    ExecConcat(Start, Reserving(request, second), Failing);
    Reachable(Reserving(request, second) + Failing);
    Queues(Exec(Start, Reserving(request, second) + Failing), second);
    ExecConcat(Start, Reserving(request, second) + Failing, Queueing(second));
  }

  /**
   A concrete run in which the confirmed stop of an authorized successor, not yet sent, is undone: the
   resumption that waited behind the stop replays it, and its caller repeats the authorization.
   */
  lemma {:induction false} StoppedSuccessorIsReopened(request: Request, second: Request)
    requires second != request && second.client == request.client
    ensures var s := Exec(Start, Queued(request, second));
            && MayStop(s, 1)
            && var stopped := Step(s, Stopping(s.db, 1));
               && 1 in stopped.db.outbox && !Live(stopped.db, 1)
               && var t := Exec(stopped, Reviving(stopped.db, 1, Key0, 3)); Live(t.db, 1) && AwaitsDecision(t.db, 1)
  {
    hide Inv, Step, Exec, OriginalsFit, AwaitsDecision, Live, Waits, Stopping, Queued;
    var s := Exec(Start, Queued(request, second));
    QueuesUp(request, second);
    Reachable(Queued(request, second));
    StartIsConsistent();
    OriginalsReach(Start, Queued(request, second));
    SecondMayStop(s, second);
    StopLeavesWaiting(s, 1);
    SuccessorRevives(Step(s, Stopping(s.db, 1)), 1, Key0, 3);
    StoppedIsDead(s, 1);
  }

  lemma SecondMayStop(s: State, second: Request)
    requires Second(s, second) && AwaitsDecision(s.db, 1) && s.waiting == {1}
    ensures MayStop(s, 1) && !Ends(s, 1) && s.db.outbox[1].payload.authorized == Some(Key0) && Live(s.db, 1)
  {}

  lemma StoppedIsDead(s: State, oid: OutboxId)
    requires Inv(s) && MayStop(s, oid)
    ensures oid in Step(s, Stopping(s.db, oid)).db.outbox && !Live(Step(s, Stopping(s.db, oid)).db, oid)
  {
    hide Step, Covered, FlowsFit, CallsFit, ReservationsFit, PhaseFits;
    RowFacts(s.db, oid);
    ActsWhenIdle(s, Stop(s.db.outbox[oid].session, s.db.outbox[oid].generation));
  }

  // ---------------------------------------------------------------- a cancelled preparation, told as a failure

  lemma FirstIsPaused(s: State, request: Request)
    requires FirstOnly(s, request, Prepared, Submitting) && InFlow(s, Preparing(0), None)
    ensures var t := Step(s, PreparationPaused(0, false));
            FirstOnly(t, request, Prepared, Submitting) && t.flows == map[] && t.turn.None? && AwaitsDecision(t.db, 0)
  {
    hide StepSend, StepAuthorize, StepResume, StepOpened, StepComposer, StepAttempt, StepCall, StepAcknowledged,
      StepBeginRefresh, StepPassRow, StepPassEnd, Perform;
  }

  lemma FirstIsCancelled(s: State, request: Request)
    requires FirstOnly(s, request, Prepared, Submitting) && s.flows == map[] && s.turn.None? && AwaitsDecision(s.db, 0)
    ensures var t := Step(s, Act(Cancel(0)));
            FirstOnly(t, request, FailedPreSubmit, Ready) && t.flows == map[] && t.turn.None?
            && t.db == CancelPreparation(s.db, 0).Or(s.db)
  {
    hide Step;
    ActsWhenIdle(s, Cancel(0));
  }

  /** The first request waits for its caller's decision, and the caller cancels it. */
  function Cancelling(request: Request): seq<Event> {
    [NewSession(0, None), Send(0, request, 0, Plain), PageOpened(0, 0), PreparationPaused(0, false), Act(Cancel(0))]
  }

  const Restart: seq<Event> := [Crash, PassEnd, PassEnd, PassRow(0)]

  lemma PassSteps(s: State, o: OutboxId)
    ensures Step(s, PassRow(o)) == StepPassRow(s, o) && Step(s, PassEnd) == StepPassEnd(s)
  {
    hide StepPassRow, StepPassEnd;
  }

  lemma CrashRestores(s: State)
    ensures Step(s, Crash) == s.(flows := map[], turn := None, phase := Restoring, waiting := {})
  {}

  lemma RestartDiagnoses(s: State, request: Request)
    requires FirstOnly(s, request, FailedPreSubmit, Ready) && s.flows == map[] && s.turn.None?
    ensures Exec(s, Restart).db == DiagnosticsPass(s.db, 0).Or(s.db)
  {
    hide Step, Exec, DiagnosticsPass;
    assert Listed(s.db, {Prepared, ComposerFilled}) == {} && Listed(s.db, {FailedPreSubmit, SubmissionUnknown}) == {0};
    var s1 := Step(s, Crash);
    CrashRestores(s);
    PassSteps(s1, 0);
    var s2 := Step(s1, PassEnd);
    PassSteps(s2, 0);
    var s3 := Step(s2, PassEnd);
    PassSteps(s3, 0);
    assert s2 == s1.(phase := PreSubmit({})) && s3 == s1.(phase := Diagnostics({0}));
    Unroll4(s, Restart);
  }

  lemma Unroll4(s: State, r: seq<Event>)
    requires |r| == 4
    ensures Exec(s, r) == Step(Step(Step(Step(s, r[0]), r[1]), r[2]), r[3])
  {
    hide Step;
    assert r == [r[0], r[1], r[2]] + [r[3]];
    ExecLast(s, [r[0], r[1], r[2]], r[3]);
    ExecThree(s, r[0], r[1], r[2]);
  }

  lemma CancelsFirst(request: Request)
    ensures var s := Exec(Start, Startup + Cancelling(request));
            && FirstOnly(s, request, FailedPreSubmit, Ready) && s.flows == map[] && s.turn.None?
            && exists db: Db ::
                Consistent(db) && 0 in db.outbox && AwaitsDecision(db, 0) && s.db == CancelPreparation(db, 0).Or(db)
  {
    hide Step, FirstOnly, InFlow, AwaitsDecision, CancelPreparation, Inv;
    var r := Cancelling(request);
    var s0 := Start.(phase := Running);
    var s2 := Step(Step(s0, r[0]), r[1]);
    var s3 := Step(s2, r[2]);
    var s4 := Step(s3, r[3]);
    Starts();
    FirstIsPrepared(request);
    FirstIsOpened(s2, request);
    FirstIsPaused(s3, request);
    FirstIsCancelled(s4, request);
    Unroll4(s0, r[..4]);
    ExecConcat(Start, Startup, r[..4]);
    ExecLast(Start, Startup + r[..4], r[4]);
    assert Startup + Cancelling(request) == Startup + r[..4] + [r[4]];
    Reachable(Startup + r[..4]);
    InvIsConsistent(s4);
    FirstExists(s4, request);
  }

  lemma FirstExists(s: State, request: Request)
    requires FirstOnly(s, request, Prepared, Submitting)
    ensures 0 in s.db.outbox
  {}

  /** A concrete run: the caller cancels a preparation, and the next start tells that it failed. */
  lemma {:induction false} CancellationIsForgotten(request: Request)
    ensures var s := Exec(Start, Startup + Cancelling(request));
            var t := Exec(Start, Startup + Cancelling(request) + Restart);
            && 0 in s.db.outbox && ReasonOf(s.db, 0) == Some(PreparationCancelledByCaller)
            && 0 in t.db.outbox && ReasonOf(t.db, 0) == Some(PreSubmitFailure)
  {
    hide Step, Exec, FirstOnly, AwaitsDecision, CancelPreparation, DiagnosticsPass, Consistent;
    var s := Exec(Start, Startup + Cancelling(request));
    CancelsFirst(request);
    var db: Db :| Consistent(db) && 0 in db.outbox && AwaitsDecision(db, 0) && s.db == CancelPreparation(db, 0).Or(db);
    CancelledReasonIsReplaced(db, 0);
    RestartDiagnoses(s, request);
    ExecConcat(Start, Startup + Cancelling(request), Restart);
  }
}
