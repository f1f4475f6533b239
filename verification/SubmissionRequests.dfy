/**
 Which requests start, over every run: exactly when `send`, an approval and a repeated approval add or reopen a
 request row, and what they leave in the tables.
 */
module SubmissionRequests {
  import opened Wrappers
  import opened Storage
  import opened Submission
  import opened SubmissionInvariants
  import opened SubmissionTransactions
  import opened SubmissionMeaning
  import opened SubmissionRuns
  import opened SubmissionSafety
  import opened SubmissionTheorems
  import Outcomes = SubmissionOutcomes

  // ---------------------------------------------------------------- what a new request needs

  /** The session's current turn was retired for a follow-up of the human, or for the continuation of one request. */
  ghost predicate Reconciled(db: Db, sid: SessionId, payload: Payload)
    requires sid in db.sessions
  {
    var k := CurrentKey(db, sid);
    && k in db.generations
    && var g := db.generations[k];
       && g.state in {SubmissionState.Submitted, SubmissionUnknown} && g.response.None? && !g.answered
       && (|| g.reason == Some(ManualFollowupReconciled)
           || (g.reason == Some(ApprovedContinuationPrepared)
               && exists o <- db.outbox :: Owns(db.outbox[o], k) && payload.continuationOf == Some(o)))
  }

  /** The session's current turn failed and was reconciled with the page. */
  ghost predicate FailureReconciled(db: Db, sid: SessionId)
    requires sid in db.sessions
  {
    var k := CurrentKey(db, sid);
    && k in db.generations && db.generations[k].error == Some(ExecutionFailed)
    && db.generations[k].reason in {Some(ThinkingFailedReconciled), Some(MessageTimeoutReconciled)}
  }

  /** The session is free for the request. */
  ghost predicate TakesRequest(db: Db, sid: SessionId, payload: Payload)
    requires sid in db.sessions
  {
    var state := db.sessions[sid].state;
    || state in {SessionState.Created, Ready, SessionState.Complete}
    || (state == Cancelled && Reconciled(db, sid, payload))
    || (state == Failed && FailureReconciled(db, sid))
  }

  /** The session has its role, and no deletion of its conversation was attempted. */
  ghost predicate MayPrompt(db: Db, sid: SessionId)
    requires sid in db.sessions
  {
    sid in db.routed && (db.sessions[sid].conversation.Some? ==> db.sessions[sid].conversation.value !in db.deletions)
  }

  ghost predicate Unknown(db: Db, request: Request) {
    forall oid <- db.outbox :: db.outbox[oid].request != request
  }

  lemma GenerationHasRow(db: Db, k: GenKey) returns (oid: OutboxId)
    requires Consistent(db) && Covered(db) && k in db.generations
    ensures oid in db.outbox && Owns(db.outbox[oid], k) && FindByGeneration(db, k) == Some(oid)
    ensures forall o <- db.outbox :: Owns(db.outbox[o], k) ==> o == oid
    ensures db.generations[k].prompt == Irrevocable(db.generations[k].state)
  {
    assert HasRow(db, k);
    oid :| oid in db.outbox && Owns(db.outbox[oid], k);
    RowFacts(db, oid);
    OwnerIsFound(db, oid);
    forall o | o in db.outbox && Owns(db.outbox[o], k) ensures o == oid {
      assert SameOwner(db.outbox[o], db.outbox[oid]);
    }
  }

  /** In every reachable store the busy check and `advanceGeneration` together let exactly these requests through. */
  lemma AcceptedExactlyWhenFree(db: Db, sid: SessionId, payload: Payload)
    requires Consistent(db) && Covered(db) && sid in db.sessions
    ensures AcceptsNewGeneration(db, sid, payload) && CanAdvance(db.sessions[sid].state, CurrentGeneration(db, sid))
            <==> TakesRequest(db, sid, payload)
  {
    hide Consistent, Covered;
    SessionFacts(db, sid);
    var k := CurrentKey(db, sid);
    if k in db.generations { var o := GenerationHasRow(db, k); }
  }

  // ---------------------------------------------------------------- `send`

  /** The rows a new request begins with: its session's next generation, nothing of it sent. */
  ghost predicate Begins(db: Db, after: Db, sid: SessionId, newId: OutboxId, request: Request, payload: Payload) {
    && sid in db.sessions && sid in after.sessions && newId in after.outbox
    && var next := db.sessions[sid].current + 1;
       && after.sessions == db.sessions[sid := after.sessions[sid]]
       && after.sessions[sid] == db.sessions[sid].(current := next, state := Submitting,
                                                   provider := ProviderState.Pending, transport := Fresh)
       && GenKey(sid, next) !in db.generations && GenKey(sid, next) in after.generations
       && after.generations == db.generations[GenKey(sid, next) := after.generations[GenKey(sid, next)]]
       && newId !in db.outbox && after.outbox == db.outbox[newId := after.outbox[newId]]
       && after.outbox[newId].request == request && after.outbox[newId].session == sid
       && after.outbox[newId].generation == next && after.outbox[newId].payload == payload
       && after.outbox[newId].state.Prepared? && !after.outbox[newId].prompt
       && after.generations[GenKey(sid, next)] ==
            Generation(Prepared, false, None, None, None, false, false,
                       after.generations[GenKey(sid, next)].reason, after.generations[GenKey(sid, next)].error)
       && (after.routed, after.deletions, after.dismissed) == (db.routed, db.deletions, db.dismissed)
  }

  lemma NoNextGeneration(db: Db, sid: SessionId)
    requires Consistent(db) && sid in db.sessions
    ensures GenKey(sid, db.sessions[sid].current + 1) !in db.generations
  {
    var k := GenKey(sid, db.sessions[sid].current + 1);
    assert k in db.generations ==> GenerationOk(db, k);
  }

  lemma PreparesExactlyWhenFree(db: Db, sid: SessionId, request: Request, newId: OutboxId, payload: Payload)
    requires Consistent(db) && Covered(db) && newId !in db.outbox
    ensures var r := PrepareOutbox(db, sid, request, newId, payload, None);
            && (r.Some? <==> sid in db.sessions && MayPrompt(db, sid) && TakesRequest(db, sid, payload)
                             && Unknown(db, request))
            && (r.Some? ==> Begins(db, r.value, sid, newId, request, payload)
                            && r.value.reservations == db.reservations
                            && r.value.outbox[newId].result == NoResult && r.value.outbox[newId].error.None?
                            && r.value.generations[GenKey(sid, r.value.sessions[sid].current)].reason.None?)
  {
    hide Consistent, Covered, TakesRequest, AcceptsNewGeneration, CanAdvance;
    if sid in db.sessions {
      NoNextGeneration(db, sid);
      AcceptedExactlyWhenFree(db, sid, payload);
    }
  }

  /**
   `send` starts a submission if and only if the session is idle and free for the request, has its role, no deletion
   of its conversation was attempted, and no row answers for the request: the guard that team deletion defeats.
   */
  lemma {:induction false} SendStartsExactlyWhen(run: seq<Event>, sid: SessionId, request: Request, newId: OutboxId,
                                                 payload: Payload)
    requires newId !in Exec(Start, run).used && payload.authorized.None?
    ensures var s := Exec(Start, run);
            var after := Step(s, Send(sid, request, newId, payload));
            && (newId in after.db.outbox <==>
                  Idle(s, sid) && sid in s.db.sessions && MayPrompt(s.db, sid) && TakesRequest(s.db, sid, payload)
                      && Unknown(s.db, request))
            && (newId in after.db.outbox ==>
                  Begins(s.db, after.db, sid, newId, request, payload) && after.flows == s.flows[sid := Opening(newId)])
            && (newId !in after.db.outbox ==> after.flows == s.flows)
  {
    hide Inv, Step, StepSend, TakesRequest, MayPrompt, Begins;
    Reachable(run);
    StepSends(Exec(Start, run), sid, request, newId, payload);
    SendsExactlyWhen(Exec(Start, run), sid, request, newId, payload);
  }

  lemma SendsExactlyWhen(s: State, sid: SessionId, request: Request, newId: OutboxId, payload: Payload)
    requires Inv(s) && newId !in s.used && payload.authorized.None?
    ensures var after := StepSend(s, sid, request, newId, payload);
            && (newId in after.db.outbox <==>
                  Idle(s, sid) && sid in s.db.sessions && MayPrompt(s.db, sid) && TakesRequest(s.db, sid, payload)
                      && Unknown(s.db, request))
            && (newId in after.db.outbox ==>
                  Begins(s.db, after.db, sid, newId, request, payload) && after.flows == s.flows[sid := Opening(newId)])
            && (newId !in after.db.outbox ==> after.flows == s.flows)
  {
    hide Consistent, Covered, FlowsFit, CallsFit, ReservationsFit, PhaseFits, Replay, PrepareOutbox, TakesRequest,
      MayPrompt, Begins;
    PreparesExactlyWhenFree(s.db, sid, request, newId, payload);
    var found := Find(s.db, request);
    if found.Some? {
      ReplaySound(s.db, found.value);
      assert !Unknown(s.db, request);
    } else {
      BeginsAdds(s, sid, request, newId, payload);
    }
  }

  lemma BeginsAdds(s: State, sid: SessionId, request: Request, newId: OutboxId, payload: Payload)
    ensures var r := PrepareOutbox(s.db, sid, request, newId, payload, None); r.Some? ==> newId in r.value.outbox
  {
    hide AcceptsNewGeneration, CanAdvance;
  }

  /**
   A repeated `send` replays the row that answers for the request if and only if it was not an authorized successor,
   its payload is the same and its session is idle; otherwise it writes nothing.
   */
  lemma {:induction false} RepeatedSendReplaysExactlyWhen(run: seq<Event>, oid: OutboxId, sid: SessionId,
                                                          newId: OutboxId, payload: Payload)
    requires oid in Exec(Start, run).db.outbox
    ensures var s := Exec(Start, run);
            var row, after := s.db.outbox[oid], Step(s, Send(sid, s.db.outbox[oid].request, newId, payload));
            if row.payload.authorized.None? && row.payload.hash == payload.hash && Idle(s, row.session)
            then Replay(s.db, oid) == Some(after.db) && after == s.(db := after.db) else after == s
  {
    hide Inv, Step, Replay;
    Reachable(run);
    var s := Exec(Start, run);
    StepSends(s, sid, s.db.outbox[oid].request, newId, payload);
    InvIsConsistent(s);
    var found := Find(s.db, s.db.outbox[oid].request);
    assert found == Some(oid) by { OnlyRow(s.db, oid); }
    ReplayCommits(s.db, oid);
  }

  lemma OnlyRow(db: Db, oid: OutboxId)
    requires Consistent(db) && oid in db.outbox
    ensures Find(db, db.outbox[oid].request) == Some(oid)
  {
    var found := Find(db, db.outbox[oid].request);
    if found.Some? && found.value != oid { OneRowPerRequest(db, found.value, oid); }
  }

  lemma ReplayCommits(db: Db, oid: OutboxId)
    requires Consistent(db) && oid in db.outbox
    ensures Replay(db, oid).Some?
  {
    hide Consistent;
    RowFacts(db, oid);
  }

  lemma StepSends(s: State, sid: SessionId, request: Request, newId: OutboxId, payload: Payload)
    ensures Step(s, Send(sid, request, newId, payload)) == StepSend(s, sid, request, newId, payload)
  {
    hide StepSend;
  }

  // ---------------------------------------------------------------- authorized successors

  /**
   The request's outcome is not known: it was sent and neither completed nor answered, in a session that has not
   ended, and is ambiguous, or was acknowledged; a follow-up also needs the conversation, and of an acknowledged
   request that the continuation was lost.
   */
  ghost predicate Unresolved(db: Db, oid: OutboxId, route: Route, lostContinuation: bool)
    requires oid in db.outbox
  {
    var row := db.outbox[oid];
    var k := GenKey(row.session, row.generation);
    && row.session in db.sessions && k in db.generations && !IsTerminalState(db.sessions[row.session].state)
    && !db.generations[k].completed
    && (|| db.generations[k].state == SubmissionUnknown
        || (AwaitsAnswer(db.generations[k]) && (route == Followup ==> lostContinuation)))
    && (route == Followup ==> db.sessions[row.session].conversation.Some?)
  }

  /** The provider acknowledged the prompt, and no answer was recorded. */
  predicate AwaitsAnswer(g: Generation) {
    && g.state == SubmissionState.Submitted && (g.userMessage.Some? || g.userTurn.Some?)
    && g.response.None? && !g.answered
  }

  lemma UnresolvedExactlyWhen(db: Db, oid: OutboxId, route: Route, lost: bool)
    requires Consistent(db) && oid in db.outbox && Current(db, oid)
    ensures UnresolvedOriginal(db, oid, route, lost) <==> Unresolved(db, oid, route, lost)
    ensures Unresolved(db, oid, route, lost) ==>
              db.outbox[oid].prompt && db.outbox[oid].state in {SubmissionState.Submitted, SubmissionUnknown}
  {
    RowFacts(db, oid);
  }

  /** A successor of `original` may be added to the store. */
  ghost predicate MaySucceed(db: Db, original: OutboxId, route: Route, request: Request, lost: bool)
    requires original in db.outbox
  {
    var sid := db.outbox[original].session;
    && Reservation(original, route) !in db.reservations
    && Current(db, original) && Unresolved(db, original, route, lost)
    && db.sessions[sid].page.Some? && MayPrompt(db, sid) && Unknown(db, request)
  }

  /** The successor waits for its caller's decision, and the reservation names it. */
  ghost predicate Succeeds(db: Db, after: Db, original: OutboxId, route: Route, request: Request, newId: OutboxId,
                           hash: nat)
    requires original in db.outbox
  {
    var sid := db.outbox[original].session;
    var key := Reservation(original, route);
    && Begins(db, after, sid, newId, request, Payload(hash, None, Some(key)))
    && after.reservations == db.reservations[key := newId]
    && AwaitsDecision(after, newId) && after.outbox[newId].result == PendingPreparation(false)
    && after.generations[CurrentKey(after, sid)].reason == Some(AuthorizedResendPrepared)
    && after.generations[CurrentKey(after, sid)].error == Some(PreparationRequired)
  }

  lemma LiveCanAdvance(db: Db, sid: SessionId)
    requires sid in db.sessions && !IsTerminalState(db.sessions[sid].state)
    ensures CanAdvance(db.sessions[sid].state, CurrentGeneration(db, sid))
  {}

  lemma SucceedsExactlyWhen(db: Db, original: OutboxId, route: Route, request: Request, newId: OutboxId, hash: nat,
                            lost: bool)
    requires Consistent(db) && original in db.outbox && newId !in db.outbox
             && Reservation(original, route) !in db.reservations
    ensures var r := PrepareSuccessor(db, original, route, request, newId, hash, lost);
            && (r.Some? <==> MaySucceed(db, original, route, request, lost))
            && (r.Some? ==> Succeeds(db, r.value, original, route, request, newId, hash))
  {
    hide Consistent, UnresolvedOriginal, Unresolved, AcceptsNewGeneration, CanAdvance, Begins, Paired;
    var row := db.outbox[original];
    if Current(db, original) {
      UnresolvedExactlyWhen(db, original, route, lost);
      NoNextGeneration(db, row.session);
      if Unresolved(db, original, route, lost) {
        UnresolvedIsLive(db, original, route, lost);
        LiveCanAdvance(db, row.session);
      }
      var payload := Payload(hash, None, Some(Reservation(original, route)));
      SuccessorBegins(db, original, request, newId, payload);
      var prepared := PrepareOutbox(db, row.session, request, newId, payload, Some(original));
      if prepared.Some? {
        BeginsWhateverReserved(db, MarkPrepared(prepared.value, newId).value, row.session, newId, request, payload,
                               db.reservations[Reservation(original, route) := newId]);
      }
    }
  }

  lemma BeginsWhateverReserved(db: Db, after: Db, sid: SessionId, newId: OutboxId, request: Request, payload: Payload,
                               reservations: map<Reservation, OutboxId>)
    requires Begins(db, after, sid, newId, request, payload) && AwaitsDecision(after, newId)
    ensures Begins(db, after.(reservations := reservations), sid, newId, request, payload)
            && AwaitsDecision(after.(reservations := reservations), newId)
  {}

  lemma UnresolvedIsLive(db: Db, oid: OutboxId, route: Route, lost: bool)
    requires oid in db.outbox && Unresolved(db, oid, route, lost)
    ensures db.outbox[oid].session in db.sessions && !IsTerminalState(db.sessions[db.outbox[oid].session].state)
  {}

  lemma SuccessorBegins(db: Db, original: OutboxId, request: Request, newId: OutboxId, payload: Payload)
    requires original in db.outbox && newId !in db.outbox
    ensures var sid := db.outbox[original].session;
            var prepared := PrepareOutbox(db, sid, request, newId, payload, Some(original));
            prepared.Some? ==>
              && newId in prepared.value.outbox
              && var marked := MarkPrepared(prepared.value, newId);
                 && marked.Some? && Begins(db, marked.value, sid, newId, request, payload)
                 && marked.value.reservations == db.reservations && AwaitsDecision(marked.value, newId)
                 && marked.value.outbox[newId].result == PendingPreparation(false)
                 && marked.value.generations[CurrentKey(marked.value, sid)].reason == Some(AuthorizedResendPrepared)
                 && marked.value.generations[CurrentKey(marked.value, sid)].error == Some(PreparationRequired)
  {
    hide CanAdvance, AcceptsNewGeneration;
    var sid := db.outbox[original].session;
    var prepared := PrepareOutbox(db, sid, request, newId, payload, Some(original));
    if prepared.Some? {
      var marked := MarkPrepared(prepared.value, newId).value;
      assert marked.sessions == db.sessions[sid := marked.sessions[sid]];
      assert marked.generations == db.generations[CurrentKey(marked, sid) :=
          marked.generations[CurrentKey(marked, sid)]];
      assert marked.outbox == db.outbox[newId := marked.outbox[newId]];
    }
  }

  /**
   An approval adds a successor if and only if its original is still the current request, unresolved and not
   reserved, and its session has its role, its page and no attempted deletion.
   */
  lemma {:induction false} SuccessorIsAddedExactlyWhen(run: seq<Event>, sid: SessionId, newId: OutboxId)
    requires var s := Exec(Start, run); At(s, sid) && s.flows[sid].Approving? && newId !in s.used
    ensures var s := Exec(Start, run);
            var f, after := s.flows[sid], Step(s, Approved(sid, newId));
            && (newId in after.db.outbox <==>
                  f.oid in s.db.outbox && f.request.client == s.db.outbox[f.oid].request.client
                      && MaySucceed(s.db, f.oid, f.route, f.request, f.lostContinuation))
            && (newId in after.db.outbox ==>
                  Succeeds(s.db, after.db, f.oid, f.route, f.request, newId, f.hash))
  {
    hide Inv, Step, MaySucceed, Succeeds;
    Reachable(run);
    ApprovalAddsExactlyWhen(Exec(Start, run), sid, newId);
  }

  lemma ApprovalAddsExactlyWhen(s: State, sid: SessionId, newId: OutboxId)
    requires Inv(s) && At(s, sid) && s.flows[sid].Approving? && newId !in s.used
    ensures var f, after := s.flows[sid], Step(s, Approved(sid, newId));
            && (newId in after.db.outbox <==>
                  f.oid in s.db.outbox && f.request.client == s.db.outbox[f.oid].request.client
                      && MaySucceed(s.db, f.oid, f.route, f.request, f.lostContinuation))
            && (newId in after.db.outbox ==>
                  Succeeds(s.db, after.db, f.oid, f.route, f.request, newId, f.hash))
  {
    hide Consistent, Covered, CallsFit, ReservationsFit, PhaseFits, PrepareSuccessor, MaySucceed, Succeeds;
    var f := s.flows[sid];
    assert StageFits(s, sid, f);
    assert Step(s, Approved(sid, newId))
        == StepApproved(Ended(s, sid, None), f.oid, f.route, f.request, newId, f.hash, f.lostContinuation);
    if f.oid in s.db.outbox {
      var key := Reservation(f.oid, f.route);
      if key in s.db.reservations {
        Reserved(s.db, f.oid, f.route, f.request, f.lostContinuation);
        ReopenSuccessorSound(s.db, f.oid, key);
        RepeatsReopen(s.db, f.oid, f.route, f.request, newId, f.hash, f.lostContinuation);
      } else {
        SucceedsExactlyWhen(s.db, f.oid, f.route, f.request, newId, f.hash, f.lostContinuation);
        if MaySucceed(s.db, f.oid, f.route, f.request, f.lostContinuation) {
          SuccessorIsThere(s.db, f.oid, f.route, f.request, newId, f.hash, f.lostContinuation);
        }
      }
    }
  }

  lemma Reserved(db: Db, original: OutboxId, route: Route, request: Request, lost: bool)
    requires original in db.outbox && Reservation(original, route) in db.reservations
    ensures !MaySucceed(db, original, route, request, lost)
  {}

  lemma RepeatsReopen(db: Db, original: OutboxId, route: Route, request: Request, newId: OutboxId, hash: nat,
                      lost: bool)
    requires original in db.outbox && Reservation(original, route) in db.reservations
    ensures PrepareSuccessor(db, original, route, request, newId, hash, lost)
            == ReopenSuccessor(db, original, Reservation(original, route))
  {}

  lemma SuccessorIsThere(db: Db, original: OutboxId, route: Route, request: Request, newId: OutboxId, hash: nat,
                         lost: bool)
    requires original in db.outbox && PrepareSuccessor(db, original, route, request, newId, hash, lost).Some?
    requires Succeeds(db, PrepareSuccessor(db, original, route, request, newId, hash, lost).value, original, route,
                      request, newId, hash)
    ensures newId in PrepareSuccessor(db, original, route, request, newId, hash, lost).value.outbox
  {}

  // ---------------------------------------------------------------- every new row, every new generation

  /** The event requests the row, and is allowed to. */
  ghost predicate Requests(s: State, e: Event, oid: OutboxId) {
    match e
    case Send(sid, request, newId, payload) =>
      && newId == oid && payload.authorized.None? && Idle(s, sid) && sid in s.db.sessions && MayPrompt(s.db, sid)
      && TakesRequest(s.db, sid, payload) && Unknown(s.db, request)
      && Begins(s.db, Step(s, e).db, sid, oid, request, payload)
    case Approved(sid, newId) =>
      && newId == oid && At(s, sid) && s.flows[sid].Approving?
      && var f := s.flows[sid];
         && f.oid in s.db.outbox && s.db.outbox[f.oid].session == sid
         && MaySucceed(s.db, f.oid, f.route, f.request, f.lostContinuation)
         && Succeeds(s.db, Step(s, e).db, f.oid, f.route, f.request, oid, f.hash)
    case _ => false
  }

  /**
   Every new row, of every run, was requested: by `send` for a session that was free, or as the only successor of
   an unresolved original.
   */
  lemma NewRowsWereRequested(s: State, e: Event, oid: OutboxId)
    requires Inv(s) && oid in Step(s, e).db.outbox && oid !in s.db.outbox
    ensures Requests(s, e, oid)
  {
    hide Inv, Step, StepSend, TakesRequest, MayPrompt, Begins, MaySucceed, Succeeds;
    StepKeepsInv(s, e);
    NewRowsAreDrawn(s, e, oid);
    match e
    case Send(sid, request, newId, payload) =>
      StepSends(s, sid, request, newId, payload);
      SendDraws(s, sid, request, newId, payload);
      SendsExactlyWhen(s, sid, request, newId, payload);
    case Approved(sid, newId) =>
      ApprovalDraws(s, sid, newId);
      ApprovalAddsExactlyWhen(s, sid, newId);
  }

  /** A row that is new was drawn in this step. */
  lemma NewRowsAreDrawn(s: State, e: Event, oid: OutboxId)
    requires Inv(s) && Inv(Step(s, e)) && Moves(s, Step(s, e)) && oid in Step(s, e).db.outbox && oid !in s.db.outbox
    ensures oid in Step(s, e).used && oid !in s.used && (e.Send? || e.Approved?)
  {
    hide Step;
    if !e.Send? && !e.Approved? { DrawsNothing(s, e); }
  }

  lemma DrawsNothing(s: State, e: Event)
    requires !e.Send? && !e.Approved?
    ensures Step(s, e).used == s.used
  {}

  lemma SendDraws(s: State, sid: SessionId, request: Request, newId: OutboxId, payload: Payload)
    requires StepSend(s, sid, request, newId, payload).used != s.used
    ensures StepSend(s, sid, request, newId, payload).used == s.used + {newId}
    ensures newId !in s.used && payload.authorized.None?
  {
    hide Replay, PrepareOutbox;
  }

  lemma ApprovalDraws(s: State, sid: SessionId, newId: OutboxId)
    requires Inv(s) && Step(s, Approved(sid, newId)).used != s.used
    ensures At(s, sid) && s.flows[sid].Approving? && newId !in s.used
    ensures Step(s, Approved(sid, newId)).used == s.used + {newId}
    ensures s.flows[sid].oid in s.db.outbox && s.db.outbox[s.flows[sid].oid].session == sid
  {
    hide PrepareSuccessor, Consistent, Covered, CallsFit, ReservationsFit, PhaseFits;
    if sid in s.flows { assert StageFits(s, sid, s.flows[sid]); }
  }

  /**
   A session's generation is raised, in every run, only by one, for a row requested in that step, in a session that
   has its role and no attempted deletion of its conversation.
   */
  lemma GenerationsAreRequested(s: State, e: Event, sid: SessionId)
    requires Inv(s) && sid in s.db.sessions && sid in Step(s, e).db.sessions
    requires Step(s, e).db.sessions[sid].current != s.db.sessions[sid].current
    ensures Step(s, e).db.sessions[sid].current == s.db.sessions[sid].current + 1 && MayPrompt(s.db, sid)
    ensures exists oid :: Requests(s, e, oid) && oid in Step(s, e).db.outbox
                          && Step(s, e).db.outbox[oid].session == sid
  {
    hide Inv, Step, Requests, MayPrompt;
    StepKeepsInv(s, e);
    if e.EndTeam? {
      TeamDeletionKeeps(s, e.team, sid);
    } else {
      var oid := RowOfNewGeneration(s, Step(s, e), sid);
      NewRowsWereRequested(s, e, oid);
      RequestedRaises(s, e, oid, sid);
    }
  }

  lemma RequestedRaises(s: State, e: Event, oid: OutboxId, sid: SessionId)
    requires Requests(s, e, oid) && oid in Step(s, e).db.outbox && Step(s, e).db.outbox[oid].session == sid
    requires sid in s.db.sessions && sid in Step(s, e).db.sessions
    ensures Step(s, e).db.sessions[sid].current == s.db.sessions[sid].current + 1 && MayPrompt(s.db, sid)
  {
    hide Step, TakesRequest, Unresolved, AwaitsDecision;
  }

  lemma TeamDeletionKeeps(s: State, team: set<SessionId>, sid: SessionId)
    requires sid in s.db.sessions && sid in Step(s, EndTeam(team)).db.sessions
    ensures Step(s, EndTeam(team)).db.sessions[sid] == s.db.sessions[sid]
  {}

  /** A generation that is not the one before has a row of its own, which was not there before. */
  lemma RowOfNewGeneration(s: State, t: State, sid: SessionId) returns (oid: OutboxId)
    requires Inv(s) && Inv(t) && Moves(s, t) && KeepsRows(s, t)
    requires sid in s.db.sessions && sid in t.db.sessions
             && t.db.sessions[sid].current != s.db.sessions[sid].current
    ensures oid in t.db.outbox && oid !in s.db.outbox && t.db.outbox[oid].session == sid
  {
    hide Covered, FlowsFit, CallsFit, ReservationsFit, PhaseFits, Consistent;
    SessionFacts(s.db, sid);
    SessionFacts(t.db, sid);
    if s.db.sessions[sid].current > 0 {
      var o := GenerationHasRow(s.db, CurrentKey(s.db, sid));
      assert RowMoves(s.db.outbox[o], t.db.outbox[o]);
      RowFacts(t.db, o);
    }
    oid := GenerationHasRow(t.db, CurrentKey(t.db, sid));
    if oid in s.db.outbox {
      assert RowMoves(s.db.outbox[oid], t.db.outbox[oid]);
      RowFacts(s.db, oid);
    }
  }

  /** Over every run: no generation starts in a session that lost its role or whose conversation is being deleted. */
  lemma {:induction false} NoPromptIntoDeletion(run: seq<Event>, e: Event, sid: SessionId)
    requires sid in Exec(Start, run).db.sessions && sid in Exec(Start, run + [e]).db.sessions
    requires var db := Exec(Start, run).db;
             || sid !in db.routed
             || (db.sessions[sid].conversation.Some? && db.sessions[sid].conversation.value in db.deletions)
    ensures Exec(Start, run + [e]).db.sessions[sid].current == Exec(Start, run).db.sessions[sid].current
  {
    hide Inv, Step, Requests;
    Reachable(run);
    ExecLast(Start, run, e);
    var s := Exec(Start, run);
    if Step(s, e).db.sessions[sid].current != s.db.sessions[sid].current { GenerationsAreRequested(s, e, sid); }
  }

  // ---------------------------------------------------------------- approvals

  /** The reserved successor failed before it was sent, and its session is ready: the authorization may be repeated. */
  ghost predicate MayRepeat(db: Db, original: OutboxId, key: Reservation)
    requires original in db.outbox && key in db.reservations
  {
    var o := db.reservations[key];
    && o in db.outbox && db.outbox[o].state == FailedPreSubmit && Current(db, o)
    && db.outbox[o].session == db.outbox[original].session && db.sessions[db.outbox[o].session].state == Ready
    && db.outbox[o].request.client == db.outbox[original].request.client
    && db.outbox[o].payload.authorized == Some(key)
  }

  /** An approval may wait for the verification of the page. */
  ghost predicate MayBegin(db: Db, original: OutboxId, route: Route, lost: bool)
    requires original in db.outbox
  {
    var sid, key := db.outbox[original].session, Reservation(original, route);
    && sid in db.sessions && sid in db.routed && db.sessions[sid].page.Some?
    && if key in db.reservations then MayRepeat(db, original, key)
       else Current(db, original) && Unresolved(db, original, route, lost)
  }

  lemma BeginsExactlyWhen(db: Db, original: OutboxId, route: Route, lost: bool)
    requires Consistent(db) && original in db.outbox
    ensures MayApprove(db, original, route, lost) <==> MayBegin(db, original, route, lost)
  {
    hide Consistent, UnresolvedOriginal, Unresolved, Reopenable;
    var key := Reservation(original, route);
    RowFacts(db, original);
    if key in db.reservations {
      var o := db.reservations[key];
      if o in db.outbox { ReopenableExactlyWhen(db, o); }
    } else if Current(db, original) {
      UnresolvedExactlyWhen(db, original, route, lost);
    }
  }

  lemma ReopenableExactlyWhen(db: Db, oid: OutboxId)
    requires Consistent(db) && oid in db.outbox
    ensures Reopenable(db, oid) <==>
              db.outbox[oid].state == FailedPreSubmit && Current(db, oid)
                  && db.sessions[db.outbox[oid].session].state == Ready
  {
    hide Consistent;
    RowFacts(db, oid);
  }

  /**
   An approval is let in if and only if its session is idle, has its role and its page, and either the original is
   still current and unresolved, or its own successor failed before it was sent.
   */
  lemma {:induction false} ApprovalBeginsExactlyWhen(run: seq<Event>, original: OutboxId, route: Route,
                                                     request: Request, hash: nat, lost: bool)
    requires original in Exec(Start, run).db.outbox
    ensures var s := Exec(Start, run);
            var sid := s.db.outbox[original].session;
            var after := Step(s, AuthorizeSuccessor(original, route, request, hash, lost));
            && after.db == s.db
            && after.flows == (if Idle(s, sid) && request.client == s.db.outbox[original].request.client
                                  && MayBegin(s.db, original, route, lost)
                               then s.flows[sid := Approving(original, route, request, hash, lost)] else s.flows)
  {
    hide Inv, MayApprove, MayBegin, Step;
    Reachable(run);
    AuthorizeStep(Exec(Start, run), original, route, request, hash, lost);
    InvIsConsistent(Exec(Start, run));
    BeginsExactlyWhen(Exec(Start, run).db, original, route, lost);
  }

  lemma AuthorizeStep(s: State, original: OutboxId, route: Route, request: Request, hash: nat, lost: bool)
    ensures Step(s, AuthorizeSuccessor(original, route, request, hash, lost))
            == StepAuthorize(s, original, route, request, hash, lost)
  {
    hide StepAuthorize;
  }

  lemma InvIsConsistent(s: State)
    requires Inv(s)
    ensures Consistent(s.db) && Covered(s.db)
  {}

  /** The tables of a failed preparation that is reopened: the request waits for its caller again. */
  ghost function Reopened(db: Db, oid: OutboxId, reason: Reason, provider: ProviderState, transport: Transport,
                          inspect: bool): Db
    requires Outcomes.OfCurrent(db, oid)
  {
    var row := db.outbox[oid];
    Write(db, oid, db.sessions[row.session].(state := Submitting, provider := provider, transport := transport),
          db.generations[CurrentKey(db, row.session)].(state := Prepared, prompt := false, reason := Some(reason),
                                                       error := Some(PreparationRequired)),
          row.(state := Prepared, prompt := false, result := PendingPreparation(inspect),
               error := Some(PreparationRequired)))
  }

  lemma ReopenLeaves(db: Db, oid: OutboxId, reason: Reason, provider: ProviderState, transport: Transport,
                     inspect: bool)
    requires Consistent(db) && oid in db.outbox
    ensures var r := Reopen(db, oid, reason, provider, transport, inspect);
            && (r.Some? <==> db.outbox[oid].state.FailedPreSubmit? && Current(db, oid))
            && (r.Some? ==> Outcomes.OfCurrent(db, oid)
                            && r.value == Reopened(db, oid, reason, provider, transport, inspect))
  {
    hide Consistent;
    RowFacts(db, oid);
    var r := Reopen(db, oid, reason, provider, transport, inspect);
    if r.Some? {
      var expected := Reopened(db, oid, reason, provider, transport, inspect);
      assert r.value.sessions == expected.sessions;
      assert r.value.generations == expected.generations;
      assert r.value.outbox == expected.outbox;
    }
  }

  /**
   A repeated approval reopens its own successor, to be inspected again, if and only if that one failed before it was
   sent; it adds no row.
   */
  lemma {:induction false} RepeatedApprovalReopensExactlyWhen(run: seq<Event>, sid: SessionId, newId: OutboxId)
    requires var s := Exec(Start, run);
             && At(s, sid) && s.flows[sid].Approving? && newId !in s.used && s.flows[sid].oid in s.db.outbox
             && s.flows[sid].request.client == s.db.outbox[s.flows[sid].oid].request.client
             && Reservation(s.flows[sid].oid, s.flows[sid].route) in s.db.reservations
    ensures var s := Exec(Start, run);
            var f := s.flows[sid];
            var key := Reservation(f.oid, f.route);
            var o, after := s.db.reservations[key], Step(s, Approved(sid, newId)).db;
            if && o in s.db.outbox && s.db.outbox[o].state == FailedPreSubmit && Current(s.db, o)
               && s.db.outbox[o].session == sid && s.db.outbox[o].request.client == s.db.outbox[f.oid].request.client
               && s.db.outbox[o].payload.authorized == Some(key) && s.db.sessions[sid].page.Some?
            then Outcomes.OfCurrent(s.db, o)
                 && after == Reopened(s.db, o, AuthorizedResendPrepared, ProviderState.Unknown, Unavailable, true)
            else after == s.db
  {
    hide Inv, Step, StepApproved, Reopened, PrepareSuccessor, ReopenSuccessor;
    Reachable(run);
    var s := Exec(Start, run);
    InvIsConsistent(s);
    FlowIsOfSession(s, sid);
    var f := s.flows[sid];
    RepeatsReopen(s.db, f.oid, f.route, f.request, newId, f.hash, f.lostContinuation);
    RepeatLeaves(s.db, f.oid, Reservation(f.oid, f.route));
    ApprovedStep(s, sid, newId);
  }

  lemma FlowIsOfSession(s: State, sid: SessionId)
    requires Inv(s) && sid in s.flows && s.flows[sid].oid in s.db.outbox
    ensures s.db.outbox[s.flows[sid].oid].session == sid
  {
    assert StageFits(s, sid, s.flows[sid]);
  }

  lemma ApprovedStep(s: State, sid: SessionId, newId: OutboxId)
    requires At(s, sid) && s.flows[sid].Approving? && newId !in s.used && s.flows[sid].oid in s.db.outbox
    requires var f := s.flows[sid];
             s.db.outbox[f.oid].session == sid && f.request.client == s.db.outbox[f.oid].request.client
    ensures var f := s.flows[sid];
            Step(s, Approved(sid, newId)).db
            == PrepareSuccessor(s.db, f.oid, f.route, f.request, newId, f.hash, f.lostContinuation).Or(s.db)
  {
    hide PrepareSuccessor;
  }

  lemma RepeatLeaves(db: Db, original: OutboxId, key: Reservation)
    requires Consistent(db) && original in db.outbox && key in db.reservations
    ensures var o, r := db.reservations[key], ReopenSuccessor(db, original, key);
            if o !in db.outbox || db.outbox[o].state != FailedPreSubmit then r == Some(db)
            else if && Current(db, o) && db.outbox[o].session == db.outbox[original].session
                    && db.outbox[o].request.client == db.outbox[original].request.client
                    && db.outbox[o].payload.authorized == Some(key) && db.sessions[db.outbox[o].session].page.Some?
            then Outcomes.OfCurrent(db, o)
                 && r == Some(Reopened(db, o, AuthorizedResendPrepared, ProviderState.Unknown, Unavailable, true))
            else r == None
  {
    hide Consistent, Reopen, Reopened;
    var o := db.reservations[key];
    if o in db.outbox {
      RowFacts(db, o);
      ReopenLeaves(db, o, AuthorizedResendPrepared, ProviderState.Unknown, Unavailable, true);
    }
  }
}
