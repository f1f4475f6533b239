/**
 What the transactions mean to one another: which outcome lets a session take the next request,
 which one can be reopened, resumed, resent or continued, and which one nothing undoes.
 */
module SubmissionMeaning {
  import opened Wrappers
  import opened Storage
  import opened Submission
  import opened SubmissionInvariants
  import opened SubmissionTransactions

  /** The busy check lets no request through. */
  ghost predicate Busy(db: Db, sid: SessionId)
    requires sid in db.sessions
  {
    forall payload: Payload :: !AcceptsNewGeneration(db, sid, payload)
  }

  predicate Current(db: Db, oid: OutboxId)
    requires oid in db.outbox
  {
    db.outbox[oid].session in db.sessions && db.sessions[db.outbox[oid].session].current == db.outbox[oid].generation
  }

  // ---------------------------------------------------------------- failure before submission

  /**
   A failure before submission leaves no trace of a turn, can be reopened, and frees the session for another request.
   */
  lemma FailureFreesTheSession(db: Db, oid: OutboxId, error: ErrorCode, payload: Payload)
    requires Consistent(db) && oid in db.outbox && !Irrevocable(db.outbox[oid].state)
    ensures var r := FailPreSubmit(db, oid, error);
            r.Some? ==> Reopenable(r.value, oid) && r.value.outbox[oid].error == Some(error)
                        && Terminal(r.value, db.outbox[oid].session)
                        && AcceptsNewGeneration(r.value, db.outbox[oid].session, payload)
  {
    hide Consistent;
    RowFacts(db, oid);
  }

  /**
   In a consistent store a failed request of the current generation is reopenable if and only if its session is ready.
   */
  lemma FailedIsReopenableWhenReady(db: Db, oid: OutboxId)
    requires Consistent(db) && oid in db.outbox && db.outbox[oid].state.FailedPreSubmit? && Current(db, oid)
    ensures UnsubmittedFailure(db, oid)
    ensures Reopenable(db, oid) <==> db.sessions[db.outbox[oid].session].state.Ready?
  {
    RowFacts(db, oid);
  }

  /** Reopened, the same request waits for its caller again and the session is busy with it. */
  lemma ReopenedAwaitsDecision(db: Db, oid: OutboxId, reason: Reason, provider: ProviderState, transport: Transport,
                               inspect: bool)
    requires Consistent(db) && oid in db.outbox
    ensures var r := Reopen(db, oid, reason, provider, transport, inspect);
            r.Some? ==> AwaitsDecision(r.value, oid) && r.value.outbox[oid].result == PendingPreparation(inspect)
                        && Busy(r.value, db.outbox[oid].session)
  {
    hide Consistent;
    RowFacts(db, oid);
  }

  /**
   A failed preparation, reopened and cancelled, is the failed preparation again but for its error and its diagnosis.
   */
  lemma ReopenThenCancel(db: Db, oid: OutboxId, inspect: bool)
    requires Consistent(db) && oid in db.outbox && Reopenable(db, oid)
    ensures var reopened := Reopen(db, oid, BrowserPreparationRecovered, ProviderState.Pending, Fresh, inspect);
            && reopened.Some?
            && var cancelled := CancelPreparation(reopened.value, oid);
               && cancelled.Some? && Reopenable(cancelled.value, oid)
               && cancelled.value.outbox[oid]
                   == db.outbox[oid].(result := NoResult, error := Some(PreparationCancelled))
               && var was, now := db.sessions[db.outbox[oid].session], cancelled.value.sessions[db.outbox[oid].session];
                  now.(provider := was.provider, transport := was.transport) == was
  {
    hide Consistent;
    RowFacts(db, oid);
  }

  // ---------------------------------------------------------------- after the attempt

  /**
   An acknowledged request is bound to exactly the identities the provider gave, replays that snapshot, and keeps its
   session busy.
   */
  lemma AcknowledgementIsRecorded(db: Db, oid: OutboxId, page: PageKey, ack: Acknowledgement)
    requires Consistent(db) && oid in db.outbox && CompleteSubmitted(db, oid, page, ack).Some?
    ensures var after := CompleteSubmitted(db, oid, page, ack).value;
            var sid := db.outbox[oid].session;
            && sid in after.sessions && !Terminal(after, sid) && Busy(after, sid)
            && after.sessions[sid].conversation == Some(ack.conversation) && after.sessions[sid].page == Some(page)
            && CurrentGeneration(after, sid).Some?
            && CurrentGeneration(after, sid).value.userMessage == Some(ack.message)
            && CurrentGeneration(after, sid).value.userTurn == ack.turn && MessageKnown(after, sid, ack.message)
            && oid in after.outbox && after.outbox[oid].result == SnapshotOf(after, sid)
            && Replay(after, oid) == Some(after)
  {
    hide Consistent, Busy, MessageKnown, AcceptsNewGeneration;
    RowFacts(db, oid);
    var after := CompleteSubmitted(db, oid, page, ack).value;
    SubmittedIsBusy(after, db.outbox[oid].session);
    KnowsCurrent(after, db.outbox[oid].session, ack.message);
  }

  lemma SubmittedIsBusy(db: Db, sid: SessionId)
    requires sid in db.sessions && db.sessions[sid].state == SessionState.Submitted
    ensures Busy(db, sid)
  {}

  lemma KnowsCurrent(db: Db, sid: SessionId, message: MessageId)
    requires sid in db.sessions && CurrentGeneration(db, sid).Some?
             && CurrentGeneration(db, sid).value.userMessage == Some(message)
    ensures MessageKnown(db, sid, message)
  {
    assert CurrentKey(db, sid) in db.generations;
  }

  /**
   Recovery never throws. It promotes exactly an ambiguous request of the live current generation whose
   page is known, on a message no generation of the session has; and a message it took is never taken again
   for any request of the session.
   */
  lemma RecoveryBindsANewMessage(db: Db, oid: OutboxId, ack: Acknowledgement, other: OutboxId)
    requires Consistent(db) && oid in db.outbox && other in db.outbox
             && db.outbox[other].session == db.outbox[oid].session
    ensures var r := RecoverAcknowledgement(db, oid, ack);
            var sid := db.outbox[oid].session;
            && r.Some? && other in r.value.outbox
            && (r.value.outbox[oid].state != db.outbox[oid].state <==>
                  db.outbox[oid].state.SubmissionUnknown? && Current(db, oid) && !Terminal(db, sid)
                      && db.sessions[sid].page.Some? && !MessageKnown(db, sid, ack.message))
            && (r.value.outbox[oid].state == db.outbox[oid].state ==> r.value == db)
            && (r.value != db ==>
                  && r.value.outbox[oid].state == SubmissionState.Submitted && MessageKnown(r.value, sid, ack.message)
                  && RecoverAcknowledgement(r.value, other, ack) == Some(r.value))
  {
    hide Consistent;
    RowFacts(db, oid);
    var r := RecoverAcknowledgement(db, oid, ack);
    if r.Some? && r.value != db {
      var k := GenKey(db.outbox[oid].session, db.outbox[oid].generation);
      assert k in r.value.generations && r.value.generations[k].userMessage == Some(ack.message);
    }
  }

  /** The row's attempt is durable and its live generation is not completed. */
  ghost predicate LiveAttempt(db: Db, oid: OutboxId) {
    && oid in db.outbox && db.outbox[oid].state.SubmitAttempted? && RowOk(db, oid)
    && GenerationFits(db.generations[GenKey(db.outbox[oid].session, db.outbox[oid].generation)])
    && !Terminal(db, db.outbox[oid].session)
    && !db.generations[GenKey(db.outbox[oid].session, db.outbox[oid].generation)].completed
  }

  /** An ambiguous attempt of a live session keeps it busy and replays as it was recorded. */
  lemma AmbiguityIsHeld(db: Db, oid: OutboxId, reason: Reason)
    requires LiveAttempt(db, oid)
    ensures var r := RecordUnknown(db, oid, reason);
            && r.Some? && Busy(r.value, db.outbox[oid].session) && Replay(r.value, oid) == Some(r.value)
            && r.value.outbox[oid].result == SnapshotOf(r.value, db.outbox[oid].session)
  {}

  /** It is exactly what a duplicate-risk approval may resend. */
  lemma AmbiguityMayBeResent(db: Db, oid: OutboxId, reason: Reason)
    requires LiveAttempt(db, oid)
    ensures var r := RecordUnknown(db, oid, reason); r.Some? && UnresolvedOriginal(r.value, oid, Resend, false)
  {}

  /** Recording the ambiguity never reopens a session that has ended. */
  lemma AmbiguityKeepsTheEnd(db: Db, oid: OutboxId, reason: Reason)
    requires Consistent(db) && oid in db.outbox && Irrevocable(db.outbox[oid].state)
             && RecordUnknown(db, oid, reason).Some?
    requires IsTerminalState(db.sessions[db.outbox[oid].session].state)
    ensures RecordUnknown(db, oid, reason).value.sessions == db.sessions
  {
    RowFacts(db, oid);
  }

  // ---------------------------------------------------------------- what opens the session again

  /** An approved continuation opens the session to the request that continues exactly this one, and to no other. */
  lemma ContinuationOpensForItsSuccessor(db: Db, oid: OutboxId, payload: Payload)
    requires Consistent(db) && oid in db.outbox && PrepareContinuation(db, oid).Some?
             && PrepareContinuation(db, oid).value != db
    ensures var after := PrepareContinuation(db, oid).value;
            var sid := db.outbox[oid].session;
            sid in after.sessions
                && (AcceptsNewGeneration(after, sid, payload) <==> payload.continuationOf == Some(oid))
            && CanAdvance(after.sessions[sid].state, CurrentGeneration(after, sid))
  {
    hide Consistent;
    RowFacts(db, oid);
    PrepareContinuationSound(db, oid);
    OwnerIsFound(PrepareContinuation(db, oid).value, oid);
  }

  lemma OwnerIsFound(db: Db, oid: OutboxId)
    requires Consistent(db) && oid in db.outbox
    ensures FindByGeneration(db, GenKey(db.outbox[oid].session, db.outbox[oid].generation)) == Some(oid)
  {
    var found := FindByGeneration(db, GenKey(db.outbox[oid].session, db.outbox[oid].generation));
    assert Owns(db.outbox[oid], GenKey(db.outbox[oid].session, db.outbox[oid].generation));
    if found.Some? { assert SameOwner(db.outbox[found.value], db.outbox[oid]); }
  }

  /** A reconciled failure opens the session to any request; the failed turn itself stays recorded as submitted. */
  lemma FailureReconciliationOpens(db: Db, oid: OutboxId, timeout: bool, payload: Payload)
    requires Consistent(db) && oid in db.outbox && ReconcileFailure(db, oid, timeout).Some?
    ensures var after := ReconcileFailure(db, oid, timeout).value;
            var sid := db.outbox[oid].session;
            && sid in after.sessions && AcceptsNewGeneration(after, sid, payload)
            && CanAdvance(after.sessions[sid].state, CurrentGeneration(after, sid))
            && Terminal(after, sid) && after.outbox == db.outbox
  {
    RowFacts(db, oid);
  }

  /**
   A recorded stop ends the generation and leaves the session closed to every request; when that is final is
   `SubmissionFinality.StopIsFinal`.
   */
  lemma StopClosesTheSession(db: Db, sid: SessionId, gen: nat)
    requires Consistent(db) && CompleteStop(db, sid, gen).Some?
    ensures var after := CompleteStop(db, sid, gen).value;
            Terminal(after, sid) && Busy(after, sid) && after.outbox == db.outbox
  {}

  /** A final answer opens the session to any request and keeps the answer. */
  lemma AnswerOpensTheSession(db: Db, sid: SessionId, gen: nat, response: MessageId, payload: Payload)
    requires Consistent(db) && Observe(db, sid, gen, Final(response)).Some?
    ensures var after := Observe(db, sid, gen, Final(response)).value;
            && sid in after.sessions && AcceptsNewGeneration(after, sid, payload) && Terminal(after, sid)
            && CurrentGeneration(after, sid).Some? && CurrentGeneration(after, sid).value.response == Some(response)
            && CurrentGeneration(after, sid).value.completed && after.outbox == db.outbox
  {}
}
