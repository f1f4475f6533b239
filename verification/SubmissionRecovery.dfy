/**
 The three startup passes: none of them can throw, each settles the rows it listed, none undoes
 what an earlier one did, and running them again changes nothing.
 */
module SubmissionRecovery {
  import opened Wrappers
  import opened Storage
  import opened Submission
  import opened SubmissionInvariants
  import opened SubmissionTransactions

  /** Nothing but the row `oid`, its session and that session's generations moved. */
  ghost predicate OnlyRow(db: Db, after: Db, oid: OutboxId)
    requires oid in db.outbox
  {
    var sid := db.outbox[oid].session;
    && after.outbox.Keys == db.outbox.Keys && after.sessions.Keys == db.sessions.Keys
    && (forall o <- db.outbox :: o != oid ==> after.outbox[o] == db.outbox[o])
    && (forall i <- db.sessions ::
        after.sessions[i].current == db.sessions[i].current && (i != sid ==> after.sessions[i] == db.sessions[i]))
    && (forall k: GenKey :: k.session != sid ==> (k in after.generations <==> k in db.generations))
    && (forall k <- db.generations :: k.session != sid ==> after.generations[k] == db.generations[k])
  }

  predicate IsCurrent(db: Db, oid: OutboxId)
    requires oid in db.outbox
  {
    db.outbox[oid].session in db.sessions && db.sessions[db.outbox[oid].session].current == db.outbox[oid].generation
  }

  /** The first pass leaves the row alone: it holds no interrupted work that still matters. */
  predicate PreSubmitDone(db: Db, oid: OutboxId)
    requires oid in db.outbox
  {
    var row := db.outbox[oid];
    || !(row.state.Prepared? || row.state.ComposerFilled?)
    || !IsCurrent(db, oid) || Terminal(db, row.session)
    || (AwaitsDecision(db, oid) && row.result == PendingPreparation(true))
  }

  predicate TellsFailure(db: Db, oid: OutboxId)
    requires oid in db.outbox && db.outbox[oid].session in db.sessions
  {
    var row := db.outbox[oid];
    var s := db.sessions[row.session];
    var g := CurrentGeneration(db, row.session);
    var error := if row.error.Some? then row.error else StoredError(row.result);
    error.None? ||
    (s.state.Ready? && s.provider == ProviderState.Error && s.transport.Unavailable? && g.Some?
     && g.value.state.FailedPreSubmit? &&
     !g.value.prompt && g.value.error == error && g.value.reason == Some(StoredReason(row.result).Or(PreSubmitFailure)))
  }

  predicate TellsAmbiguity(db: Db, oid: OutboxId)
    requires oid in db.outbox && db.outbox[oid].session in db.sessions
  {
    var row := db.outbox[oid];
    var s := db.sessions[row.session];
    var g := CurrentGeneration(db, row.session);
    s.state.Observing? && s.provider == ProviderState.Unknown && g.Some? && g.value.state.SubmissionUnknown?
        && g.value.prompt &&
    g.value.error
        == (if row.error.Some? then row.error else Some(StoredError(row.result).Or(SubmissionUnknownError))) &&
    g.value.reason == Some(StoredReason(row.result).Or(SubmitUnacknowledged))
  }

  /** The second pass leaves the row alone: its session already tells what the row recorded. */
  predicate DiagnosticsDone(db: Db, oid: OutboxId)
    requires oid in db.outbox
  {
    var row := db.outbox[oid];
    || !(row.state.FailedPreSubmit? || row.state.SubmissionUnknown?)
    || !IsCurrent(db, oid) || IsTerminalState(db.sessions[row.session].state)
    || (if row.state.FailedPreSubmit? then TellsFailure(db, oid)
        else Terminal(db, row.session) || TellsAmbiguity(db, oid))
  }

  /** The third pass leaves the row alone. */
  predicate SubmissionDone(db: Db, oid: OutboxId)
    requires oid in db.outbox
  {
    !db.outbox[oid].state.SubmitAttempted?
  }

  lemma {:induction false} DoneMeansUnchanged(db: Db, oid: OutboxId)
    requires Consistent(db) && oid in db.outbox
    ensures PreSubmitDone(db, oid) ==> PreSubmitPass(db, oid) == Some(db)
    ensures DiagnosticsDone(db, oid) ==> DiagnosticsPass(db, oid) == Some(db)
    ensures SubmissionDone(db, oid) ==> SubmissionPass(db, oid) == Some(db)
  {
    RowFacts(db, oid);
    assert db.outbox[oid := db.outbox[oid]] == db.outbox;
  }

  /** What an earlier pass did to a row survives a later pass over another row. */
  lemma DoneKept(db: Db, after: Db, oid: OutboxId, o: OutboxId)
    requires Distinct(db) && oid in db.outbox && o in db.outbox && o != oid
    requires IsCurrent(db, oid) && OnlyRow(db, after, oid)
    ensures PreSubmitDone(db, o) ==> PreSubmitDone(after, o)
    ensures DiagnosticsDone(db, o) ==> DiagnosticsDone(after, o)
    ensures SubmissionDone(db, o) ==> SubmissionDone(after, o)
  {
    assert !SameOwner(db.outbox[o], db.outbox[oid]);
    var sid := db.outbox[o].session;
    if IsCurrent(db, o) {
      assert sid != db.outbox[oid].session;
      assert CurrentGeneration(after, sid) == CurrentGeneration(db, sid);
    }
  }

  lemma PairedOnlyRow(db: Db, oid: OutboxId, u: Update, expected: set<SubmissionState>, next: SubmissionState,
                      f: Fields)
    requires oid in db.outbox && Paired(db, oid, u, expected, next, f).Some?
    ensures OnlyRow(db, Paired(db, oid, u, expected, next, f).value, oid) && IsCurrent(db, oid)
  {}

  lemma UpdateOnlyRow(db: Db, oid: OutboxId, u: Update)
    requires oid in db.outbox && UpdateCurrentGeneration(db, db.outbox[oid].session, db.outbox[oid].generation, u).Some?
    ensures OnlyRow(db, UpdateCurrentGeneration(db, db.outbox[oid].session, db.outbox[oid].generation, u).value, oid)
  {}

  lemma SnapshotOnlyRow(db: Db, oid: OutboxId, u: Update, expected: set<SubmissionState>, next: SubmissionState,
                        error: Option<ErrorCode>, prompt: bool)
    requires oid in db.outbox && PairedWithSnapshot(db, oid, u, expected, next, error, prompt).Some?
    ensures OnlyRow(db, PairedWithSnapshot(db, oid, u, expected, next, error, prompt).value, oid)
  {
    var row := db.outbox[oid];
    var updated := UpdateCurrentGeneration(db, row.session, row.generation, u).value;
    PairedOnlyRow(db, oid, u, expected, next,
                  Fields(Some(SnapshotOf(updated, row.session)), Some(error), Some(prompt)));
  }

  // ---------------------------------------------------------------- the first pass

  lemma PreSubmitPassSettles(db: Db, oid: OutboxId)
    requires Consistent(db) && oid in db.outbox
    ensures PreSubmitPass(db, oid).Some?
    ensures Sound(db, PreSubmitPass(db, oid), db.outbox[oid].session)
    ensures PreSubmitDone(PreSubmitPass(db, oid).value, oid)
    ensures PreSubmitDone(db, oid) || (IsCurrent(db, oid) && OnlyRow(db, PreSubmitPass(db, oid).value, oid))
  {
    hide Consistent;
    RowFacts(db, oid);
    if PreSubmitDone(db, oid) {
      DoneMeansUnchanged(db, oid);
      UnchangedIsSound(db, db.outbox[oid].session);
    } else if AwaitsDecision(db, oid) {
      TransitionSound(db, oid, Fields(Some(PendingPreparation(true)), Some(Some(PreparationRequired)), Some(false)));
    } else {
      RecordInterruptedSound(db, oid);
      InterruptedSettles(db, oid);
    }
  }

  lemma InterruptedSettles(db: Db, oid: OutboxId)
    requires oid in db.outbox && RowOk(db, oid) && IsCurrent(db, oid)
    requires db.outbox[oid].state.Prepared? || db.outbox[oid].state.ComposerFilled?
    ensures RecordInterrupted(db, oid).Some?
    ensures var after := RecordInterrupted(db, oid).value;
            OnlyRow(db, after, oid) && after.outbox[oid].state.FailedPreSubmit?
  {
    SnapshotOnlyRow(db, oid,
      NoUpdate.(session := Some(Ready), provider := Some(ProviderState.Error), transport := Some(Unavailable),
                state := Some(FailedPreSubmit),
                reason := Some(Some(RestartPreSubmitInterrupted)), error := Some(Some(BrowserUnavailable)),
                    prompt := Some(false)),
      {Prepared, ComposerFilled}, FailedPreSubmit, Some(BrowserUnavailable), false);
  }

  // ---------------------------------------------------------------- the second pass

  function FailureUpdate(row: Outbox, error: ErrorCode): Update {
    NoUpdate.(session := Some(Ready), provider := Some(ProviderState.Error), transport := Some(Unavailable),
              state := Some(FailedPreSubmit),
              reason := Some(Some(StoredReason(row.result).Or(PreSubmitFailure))), error := Some(Some(error)),
                  prompt := Some(false))
  }

  function AmbiguityUpdate(row: Outbox): Update {
    var error := if row.error.Some? then row.error else Some(StoredError(row.result).Or(SubmissionUnknownError));
    NoUpdate.(session := Some(Observing), provider := Some(ProviderState.Unknown),
              transport := Some(if row.result.StoredSnapshot? then row.result.transport else Unavailable),
              state := Some(SubmissionUnknown), reason := Some(Some(StoredReason(row.result).Or(SubmitUnacknowledged))),
              error := Some(error), prompt := Some(true))
  }

  function DiagnosticsUpdate(row: Outbox): Update {
    if row.state.FailedPreSubmit? then
      FailureUpdate(row, (if row.error.Some? then row.error else StoredError(row.result)).Or(BrowserUnavailable))
    else AmbiguityUpdate(row)
  }

  /** A row the second pass rewrites is current, and its session is never closed to the rewrite. */
  lemma DiagnosticsPassWrites(db: Db, oid: OutboxId)
    requires Consistent(db) && oid in db.outbox && !DiagnosticsDone(db, oid)
    ensures IsCurrent(db, oid)
    ensures var row := db.outbox[oid];
            DiagnosticsPass(db, oid) == UpdateCurrentGeneration(db, row.session, row.generation, DiagnosticsUpdate(row))
    ensures DiagnosticsPass(db, oid).Some?
  {
    RowFacts(db, oid);
  }

  lemma DiagnosticsPassSettles(db: Db, oid: OutboxId)
    requires Consistent(db) && oid in db.outbox
    ensures DiagnosticsPass(db, oid).Some?
    ensures Sound(db, DiagnosticsPass(db, oid), db.outbox[oid].session)
    ensures DiagnosticsDone(DiagnosticsPass(db, oid).value, oid)
    ensures DiagnosticsDone(db, oid) || (IsCurrent(db, oid) && OnlyRow(db, DiagnosticsPass(db, oid).value, oid))
    ensures PreSubmitDone(db, oid) ==> PreSubmitDone(DiagnosticsPass(db, oid).value, oid)
  {
    hide Consistent;
    if DiagnosticsDone(db, oid) {
      DoneMeansUnchanged(db, oid);
      UnchangedIsSound(db, db.outbox[oid].session);
    } else {
      var row := db.outbox[oid];
      DiagnosticsPassWrites(db, oid);
      UpdateOnlyRow(db, oid, DiagnosticsUpdate(row));
      RowFacts(db, oid);
      UpdateSound(db, row.session, row.generation, DiagnosticsUpdate(row));
      DiagnosticsTold(db, oid);
    }
  }

  lemma DiagnosticsTold(db: Db, oid: OutboxId)
    requires oid in db.outbox && RowOk(db, oid) && !DiagnosticsDone(db, oid)
    requires var row := db.outbox[oid];
             UpdateCurrentGeneration(db, row.session, row.generation, DiagnosticsUpdate(row)).Some?
    ensures var row := db.outbox[oid];
            var after := UpdateCurrentGeneration(db, row.session, row.generation, DiagnosticsUpdate(row)).value;
                    after.outbox == db.outbox
                        && (if row.state.FailedPreSubmit? then TellsFailure(after, oid) else TellsAmbiguity(after, oid))
  {}

  /** What the generation of the row says about its outcome. */
  function ReasonOf(db: Db, oid: OutboxId): Option<Reason>
    requires oid in db.outbox
  {
    var k := GenKey(db.outbox[oid].session, db.outbox[oid].generation);
    if k in db.generations then db.generations[k].reason else None
  }

  /**
   Exactly when the second pass replaces what a failed generation says: it is current and has not ended, a
   failure is recorded with it, and it says something else than the row stores or, if that stores nothing,
   than that it failed before submission.
   */
  lemma {:induction false} ReasonIsReplacedExactlyWhen(db: Db, oid: OutboxId)
    requires Consistent(db) && oid in db.outbox && db.outbox[oid].state.FailedPreSubmit?
    ensures var row := db.outbox[oid];
            var after := DiagnosticsPass(db, oid);
            && after.Some? && oid in after.value.outbox
            && (ReasonOf(after.value, oid) != ReasonOf(db, oid) <==>
                  && IsCurrent(db, oid) && !IsTerminalState(db.sessions[row.session].state)
                  && (row.error.Some? || StoredError(row.result).Some?)
                  && ReasonOf(db, oid) != Some(StoredReason(row.result).Or(PreSubmitFailure)))
            && (ReasonOf(after.value, oid) != ReasonOf(db, oid) ==>
                  ReasonOf(after.value, oid) == Some(StoredReason(row.result).Or(PreSubmitFailure)))
  {
    hide Consistent;
    RowFacts(db, oid);
    DiagnosticsPassSettles(db, oid);
  }

  /** So a preparation cancelled by its caller is told as a failure after the next start. */
  lemma {:induction false} CancelledReasonIsReplaced(db: Db, oid: OutboxId)
    requires Consistent(db) && oid in db.outbox && AwaitsDecision(db, oid)
    ensures var cancelled := CancelPreparation(db, oid);
            && cancelled.Some? && oid in cancelled.value.outbox
            && ReasonOf(cancelled.value, oid) == Some(PreparationCancelledByCaller)
            && var after := DiagnosticsPass(cancelled.value, oid);
               after.Some? && oid in after.value.outbox && ReasonOf(after.value, oid) == Some(PreSubmitFailure)
  {
    hide Consistent;
    RowFacts(db, oid);
    PreparationSound(db, oid);
    if CancelPreparation(db, oid).Some? { ReasonIsReplacedExactlyWhen(CancelPreparation(db, oid).value, oid); }
  }

  // ---------------------------------------------------------------- the third pass

  lemma SubmissionPassSettles(db: Db, oid: OutboxId)
    requires Consistent(db) && oid in db.outbox
    ensures SubmissionPass(db, oid).Some?
    ensures Sound(db, SubmissionPass(db, oid), db.outbox[oid].session)
    ensures SubmissionDone(SubmissionPass(db, oid).value, oid)
    ensures SubmissionDone(db, oid) || (IsCurrent(db, oid) && OnlyRow(db, SubmissionPass(db, oid).value, oid))
    ensures PreSubmitDone(db, oid) ==> PreSubmitDone(SubmissionPass(db, oid).value, oid)
    ensures DiagnosticsDone(db, oid) ==> DiagnosticsDone(SubmissionPass(db, oid).value, oid)
  {
    hide Consistent;
    RowFacts(db, oid);
    if SubmissionDone(db, oid) {
      UnchangedIsSound(db, db.outbox[oid].session);
    } else {
      RecordUnknownSound(db, oid, RestartAfterSubmitAttempt);
      UnknownSettles(db, oid);
    }
  }

  lemma UnknownSettles(db: Db, oid: OutboxId)
    requires oid in db.outbox && RowOk(db, oid) && IsCurrent(db, oid) && db.outbox[oid].state.SubmitAttempted?
    ensures RecordUnknown(db, oid, RestartAfterSubmitAttempt).Some?
    ensures var after := RecordUnknown(db, oid, RestartAfterSubmitAttempt).value;
            OnlyRow(db, after, oid) && after.outbox[oid].state.SubmissionUnknown? && DiagnosticsDone(after, oid)
  {}

  // ---------------------------------------------------------------- all three, over whole tables

  ghost predicate AllPreSubmitDone(db: Db, todo: set<OutboxId>) {
    forall o <- db.outbox :: o !in todo ==> PreSubmitDone(db, o)
  }
  ghost predicate AllDiagnosticsDone(db: Db, todo: set<OutboxId>) {
    forall o <- db.outbox :: o !in todo ==> DiagnosticsDone(db, o)
  }
  ghost predicate AllSubmissionDone(db: Db, todo: set<OutboxId>) {
    forall o <- db.outbox :: o !in todo ==> SubmissionDone(db, o)
  }

  /** Every row has been settled by all three passes. */
  ghost predicate Recovered(db: Db) {
    AllPreSubmitDone(db, {}) && AllDiagnosticsDone(db, {}) && AllSubmissionDone(db, {})
  }

  lemma PreSubmitPassProgress(db: Db, oid: OutboxId, todo: set<OutboxId>)
    requires Consistent(db) && oid in db.outbox && AllPreSubmitDone(db, todo)
    ensures PreSubmitPass(db, oid).Some? && AllPreSubmitDone(PreSubmitPass(db, oid).value, todo - {oid})
  {
    hide RowOk, SessionOk, GenerationOk, PreSubmitPass, PreSubmitDone;
    PreSubmitPassSettles(db, oid);
    var after := PreSubmitPass(db, oid).value;
    if PreSubmitDone(db, oid) { DoneMeansUnchanged(db, oid); }
    else {
      forall o | o in after.outbox && o !in todo && o != oid
        ensures PreSubmitDone(after, o)
      {
        DoneKept(db, after, oid, o);
      }
    }
  }

  lemma DiagnosticsPassProgress(db: Db, oid: OutboxId, todo: set<OutboxId>)
    requires Consistent(db) && oid in db.outbox && AllPreSubmitDone(db, {}) && AllDiagnosticsDone(db, todo)
    ensures DiagnosticsPass(db, oid).Some?
    ensures AllPreSubmitDone(DiagnosticsPass(db, oid).value, {})
            && AllDiagnosticsDone(DiagnosticsPass(db, oid).value, todo - {oid})
  {
    hide RowOk, SessionOk, GenerationOk, DiagnosticsPass, PreSubmitDone, DiagnosticsDone;
    DiagnosticsPassSettles(db, oid);
    var after := DiagnosticsPass(db, oid).value;
    if DiagnosticsDone(db, oid) { DoneMeansUnchanged(db, oid); }
    else {
      forall o | o in after.outbox && o != oid
        ensures PreSubmitDone(after, o) && (o !in todo ==> DiagnosticsDone(after, o)) { DoneKept(db, after, oid, o); }
    }
  }

  lemma SubmissionPassProgress(db: Db, oid: OutboxId, todo: set<OutboxId>)
    requires Consistent(db) && oid in db.outbox && AllPreSubmitDone(db, {}) && AllDiagnosticsDone(db, {})
             && AllSubmissionDone(db, todo)
    ensures SubmissionPass(db, oid).Some?
    ensures var after := SubmissionPass(db, oid).value;
            AllPreSubmitDone(after, {}) && AllDiagnosticsDone(after, {}) && AllSubmissionDone(after, todo - {oid})
  {
    hide RowOk, SessionOk, GenerationOk, SubmissionPass, PreSubmitDone, DiagnosticsDone;
    SubmissionPassSettles(db, oid);
    var after := SubmissionPass(db, oid).value;
    if SubmissionDone(db, oid) { DoneMeansUnchanged(db, oid); }
    else {
      forall o | o in after.outbox && o != oid
        ensures PreSubmitDone(after, o) && DiagnosticsDone(after, o)
                && (o !in todo ==> SubmissionDone(after, o)) { DoneKept(db, after, oid, o); }
    }
  }
}
