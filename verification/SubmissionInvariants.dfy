/**
 What the durable rows tell, at every crash point, and why each transaction keeps it.
 */
module SubmissionInvariants {
  import opened Wrappers
  import opened Storage
  import opened Submission

  /** The row and its generation tell the same story, and an unsettled row is the current one. */
  ghost predicate RowOk(db: Db, oid: OutboxId)
    requires oid in db.outbox
  {
    var row := db.outbox[oid];
    var k := GenKey(row.session, row.generation);
    && row.session in db.sessions && k in db.generations
    && db.generations[k].state == row.state
    && db.generations[k].prompt == row.prompt == Irrevocable(row.state)
    && (Unsettled(row.state) ==> row.generation == db.sessions[row.session].current)
  }

  ghost predicate SessionFits(s: Session, g: Option<Generation>) {
    && (g.Some? <==> s.current > 0)
    && (s.state.Created? ==> s.current == 0)
    && (s.state.Ready? ==> g.Some? && g.value.state.FailedPreSubmit?)
    && (s.state == SessionState.Complete || s.state.Failed? ==>
        g.Some? && g.value.state == SubmissionState.Submitted && g.value.completed)
    && (g.Some? && g.value.state.FailedPreSubmit? ==> s.state.Ready? || IsTerminalState(s.state))
  }

  ghost predicate GenerationFits(g: Generation) {
    g.userMessage.Some? || g.userTurn.Some? || g.response.Some? || g.answered ==> g.state == SubmissionState.Submitted
  }

  ghost predicate SessionOk(db: Db, sid: SessionId)
    requires sid in db.sessions
  {
    SessionFits(db.sessions[sid], CurrentGeneration(db, sid))
  }

  ghost predicate GenerationOk(db: Db, k: GenKey)
    requires k in db.generations
  {
    k.session in db.sessions && 1 <= k.generation <= db.sessions[k.session].current && GenerationFits(db.generations[k])
  }

  ghost predicate SameOwner(a: Outbox, b: Outbox) {
    a.request == b.request || (a.session == b.session && a.generation == b.generation)
  }

  /** Neither a request nor a generation has two rows. */
  ghost predicate Distinct(db: Db) {
    forall a, b :: a in db.outbox && b in db.outbox && SameOwner(db.outbox[a], db.outbox[b]) ==> a == b
  }

  ghost predicate RowsOk(db: Db) { forall oid <- db.outbox :: RowOk(db, oid) }
  ghost predicate SessionsOk(db: Db) { forall sid <- db.sessions :: SessionOk(db, sid) }
  ghost predicate GenerationsOk(db: Db) { forall k <- db.generations :: GenerationOk(db, k) }

  ghost predicate Consistent(db: Db) {
    RowsOk(db) && SessionsOk(db) && GenerationsOk(db) && Distinct(db)
  }

  /** Every generation was prepared together with a request row. */
  ghost predicate Covered(db: Db) { forall k <- db.generations :: HasRow(db, k) }
  ghost predicate HasRow(db: Db, k: GenKey) { exists oid <- db.outbox :: Owns(db.outbox[oid], k) }

  lemma CoveredKept(db: Db, after: Db, sid: SessionId)
    requires Covered(db) && Advances(db, after, sid)
    ensures Covered(after)
  {
    forall k | k in after.generations ensures HasRow(after, k) {
      assert HasRow(db, k);
      var oid :| oid in db.outbox && Owns(db.outbox[oid], k);
      assert RowAdvances(db.outbox[oid], after.outbox[oid], sid) && Owns(after.outbox[oid], k);
    }
  }

  /** What every transaction other than a new generation does to the rows: only rows of `sid` move, and never back. */
  ghost predicate Advances(db: Db, after: Db, sid: SessionId) {
    && after.outbox.Keys == db.outbox.Keys
    && after.reservations == db.reservations
    && after.deletions == db.deletions
    && after.sessions.Keys == db.sessions.Keys
    && after.generations.Keys == db.generations.Keys
    && (forall s <- db.sessions :: after.sessions[s].current == db.sessions[s].current)
    && (forall oid <- db.outbox :: RowAdvances(db.outbox[oid], after.outbox[oid], sid))
  }

  ghost predicate RowAdvances(row: Outbox, after: Outbox, sid: SessionId) {
    && after.request == row.request && after.session == row.session
    && after.generation == row.generation && after.payload == row.payload
    && (row.session != sid ==> after == row)
    && (Irrevocable(row.state) ==> Irrevocable(after.state))
    && (row.state == SubmissionState.Submitted ==> after.state == SubmissionState.Submitted)
  }

  // ---------------------------------------------------------------- one session's rows rewritten together

  /** The three rows of one session, its current generation and that generation's request, written together. */
  function Write(db: Db, oid: OutboxId, s: Session, g: Generation, row: Outbox): Db
    requires oid in db.outbox
  {
    var k := GenKey(db.outbox[oid].session, db.outbox[oid].generation);
    db.(sessions := db.sessions[k.session := s], generations := db.generations[k := g], outbox := db.outbox[oid := row])
  }

  ghost predicate MayWrite(db: Db, oid: OutboxId, s: Session, g: Generation, row: Outbox) {
    && oid in db.outbox
    && var was := db.outbox[oid];
       && was.session in db.sessions
       && db.sessions[was.session].current == was.generation == s.current
       && RowAdvances(was, row, was.session)
       && row.state == g.state && row.prompt == g.prompt == Irrevocable(g.state)
       && SessionFits(s, Some(g)) && GenerationFits(g)
  }

  /** Rewriting one row keeps every identity, so no two rows come to share one. */
  lemma DistinctKept(db: Db, after: Db, sid: SessionId)
    requires Distinct(db) && Advances(db, after, sid)
    ensures Distinct(after)
  {
    forall a, b | a in after.outbox && b in after.outbox && SameOwner(after.outbox[a], after.outbox[b]) ensures a == b {
      assert RowAdvances(db.outbox[a], after.outbox[a], sid) && RowAdvances(db.outbox[b], after.outbox[b], sid);
      assert SameOwner(db.outbox[a], db.outbox[b]);
    }
  }

  lemma WriteKeepsRow(db: Db, oid: OutboxId, s: Session, g: Generation, row: Outbox, o: OutboxId)
    requires RowsOk(db) && Distinct(db) && MayWrite(db, oid, s, g, row) && o in db.outbox
    ensures RowOk(Write(db, oid, s, g, row), o)
  {
    assert RowOk(db, o);
    if o != oid { assert !SameOwner(db.outbox[o], db.outbox[oid]); }
  }

  lemma WriteKeepsSession(db: Db, oid: OutboxId, s: Session, g: Generation, row: Outbox, i: SessionId)
    requires SessionsOk(db) && MayWrite(db, oid, s, g, row) && i in db.sessions
    ensures SessionOk(Write(db, oid, s, g, row), i)
  {
    assert SessionOk(db, i);
  }

  lemma WriteKeepsGeneration(db: Db, oid: OutboxId, s: Session, g: Generation, row: Outbox, k: GenKey)
    requires RowsOk(db) && GenerationsOk(db) && MayWrite(db, oid, s, g, row) && k in db.generations
    ensures GenerationOk(Write(db, oid, s, g, row), k)
  {
    assert GenerationOk(db, k) && RowOk(db, oid);
  }

  lemma WriteAdvances(db: Db, oid: OutboxId, s: Session, g: Generation, row: Outbox)
    requires MayWrite(db, oid, s, g, row)
    requires GenKey(db.outbox[oid].session, db.outbox[oid].generation) in db.generations
    ensures Advances(db, Write(db, oid, s, g, row), row.session)
  {}

  lemma WriteKeeps(db: Db, oid: OutboxId, s: Session, g: Generation, row: Outbox)
    requires Consistent(db) && MayWrite(db, oid, s, g, row)
    ensures Consistent(Write(db, oid, s, g, row))
    ensures Advances(db, Write(db, oid, s, g, row), row.session)
  {
    var after := Write(db, oid, s, g, row);
    assert RowsOk(after) by {
      forall o | o in after.outbox ensures RowOk(after, o) { WriteKeepsRow(db, oid, s, g, row, o); }
    }
    assert SessionsOk(after) by {
      forall i | i in after.sessions ensures SessionOk(after, i) { WriteKeepsSession(db, oid, s, g, row, i); }
    }
    assert GenerationsOk(after) by {
      assert RowOk(db, oid);
      forall k | k in after.generations ensures GenerationOk(after, k) { WriteKeepsGeneration(db, oid, s, g, row, k); }
    }
    assert RowOk(db, oid);
    WriteAdvances(db, oid, s, g, row);
    DistinctKept(db, after, row.session);
  }

  /** A session and its current generation, written without touching the request's state. */
  function WriteSession(db: Db, sid: SessionId, s: Session, g: Option<Generation>): Db
    requires sid in db.sessions
  {
    db.(sessions := db.sessions[sid := s],
        generations := if g.Some? then db.generations[CurrentKey(db, sid) := g.value] else db.generations)
  }

  ghost predicate MayWriteSession(db: Db, sid: SessionId, s: Session, g: Option<Generation>) {
    && sid in db.sessions && s.current == db.sessions[sid].current
    && var was := CurrentGeneration(db, sid);
       && (was.Some? <==> g.Some?)
       && (g.Some? ==>
           g.value.state == was.value.state && g.value.prompt == was.value.prompt && GenerationFits(g.value))
       && SessionFits(s, g)
  }

  lemma SessionWriteKeeps(db: Db, sid: SessionId, s: Session, g: Option<Generation>)
    requires Consistent(db) && MayWriteSession(db, sid, s, g)
    ensures Consistent(WriteSession(db, sid, s, g)) && Advances(db, WriteSession(db, sid, s, g), sid)
  {
    hide RowOk, SessionOk, GenerationOk, Advances, Distinct, GenerationFits, SessionFits;
    var after := WriteSession(db, sid, s, g);
    assert RowsOk(after) by {
      forall o | o in after.outbox ensures RowOk(after, o) { SessionWriteKeepsRow(db, sid, s, g, o); }
    }
    assert SessionsOk(after) by {
      forall i | i in after.sessions ensures SessionOk(after, i) { SessionWriteKeepsSession(db, sid, s, g, i); }
    }
    assert GenerationsOk(after) by {
      forall k | k in after.generations
        ensures GenerationOk(after, k)
      {
        SessionWriteKeepsGeneration(db, sid, s, g, k);
      }
    }
    SessionWriteAdvances(db, sid, s, g);
    DistinctKept(db, after, sid);
  }

  lemma SessionWriteAdvances(db: Db, sid: SessionId, s: Session, g: Option<Generation>)
    requires MayWriteSession(db, sid, s, g)
    ensures Advances(db, WriteSession(db, sid, s, g), sid)
  {}

  lemma SessionWriteKeepsRow(db: Db, sid: SessionId, s: Session, g: Option<Generation>, o: OutboxId)
    requires RowsOk(db) && MayWriteSession(db, sid, s, g) && o in db.outbox
    ensures RowOk(WriteSession(db, sid, s, g), o)
  {
    assert RowOk(db, o);
  }

  lemma SessionWriteKeepsSession(db: Db, sid: SessionId, s: Session, g: Option<Generation>, i: SessionId)
    requires SessionsOk(db) && MayWriteSession(db, sid, s, g) && i in db.sessions
    ensures SessionOk(WriteSession(db, sid, s, g), i)
  {
    assert SessionOk(db, i);
  }

  lemma SessionWriteKeepsGeneration(db: Db, sid: SessionId, s: Session, g: Option<Generation>, k: GenKey)
    requires GenerationsOk(db) && MayWriteSession(db, sid, s, g) && k in db.generations
    ensures GenerationOk(WriteSession(db, sid, s, g), k)
  {
    assert GenerationOk(db, k);
  }

  /** Only a result or an error code of the row changes. */
  ghost predicate MayWriteRow(db: Db, oid: OutboxId, row: Outbox) {
    oid in db.outbox && row == db.outbox[oid].(result := row.result, error := row.error)
  }

  lemma RowWriteKeeps(db: Db, oid: OutboxId, row: Outbox)
    requires Consistent(db) && MayWriteRow(db, oid, row)
    ensures Consistent(db.(outbox := db.outbox[oid := row]))
            && Advances(db, db.(outbox := db.outbox[oid := row]), row.session)
  {
    var after := db.(outbox := db.outbox[oid := row]);
    assert RowsOk(after) by {
      forall o | o in after.outbox ensures RowOk(after, o) { assert RowOk(db, o); }
    }
    assert SessionsOk(after) by {
      forall i | i in after.sessions ensures SessionOk(after, i) { assert SessionOk(db, i); }
    }
    assert GenerationsOk(after) by {
      forall k | k in after.generations ensures GenerationOk(after, k) { assert GenerationOk(db, k); }
    }
    RowWriteAdvances(db, oid, row);
    DistinctKept(db, after, row.session);
  }

  lemma RowWriteAdvances(db: Db, oid: OutboxId, row: Outbox)
    requires MayWriteRow(db, oid, row)
    ensures Advances(db, db.(outbox := db.outbox[oid := row]), row.session)
  {}

  // ---------------------------------------------------------------- the transactions

  /** A transaction that commits keeps the tables consistent and moves only the rows of `sid`. */
  ghost predicate Sound(db: Db, r: Option<Db>, sid: SessionId) {
    r.Some? ==> Consistent(r.value) && Advances(db, r.value, sid)
  }

  lemma UnchangedIsSound(db: Db, sid: SessionId)
    requires Consistent(db)
    ensures Sound(db, Some(db), sid)
  {}

  /** The new rows a paired update writes, and what makes them acceptable. */
  ghost predicate GoodPair(db: Db, oid: OutboxId, u: Update, next: SubmissionState, f: Fields)
    requires oid in db.outbox
  {
    var row := db.outbox[oid];
    var k := GenKey(row.session, row.generation);
    && row.session in db.sessions && k in db.generations && db.sessions[row.session].current == row.generation
    && MayWrite(db, oid, UpdatedSession(db.sessions[row.session], u), UpdatedGeneration(db.generations[k], u),
                UpdatedRow(row, next, f))
  }

  lemma PairedSound(db: Db, oid: OutboxId, u: Update, expected: set<SubmissionState>, next: SubmissionState, f: Fields)
    requires Consistent(db) && oid in db.outbox && TouchesGeneration(u)
    requires Paired(db, oid, u, expected, next, f).Some? ==> GoodPair(db, oid, u, next, f)
    ensures Sound(db, Paired(db, oid, u, expected, next, f), db.outbox[oid].session)
  {
    var row := db.outbox[oid];
    var k := GenKey(row.session, row.generation);
    assert RowOk(db, oid);
    var r := Paired(db, oid, u, expected, next, f);
    if r.Some? {
      var s, g, after := UpdatedSession(db.sessions[row.session], u), UpdatedGeneration(db.generations[k], u),
          UpdatedRow(row, next, f);
      assert r.value == Write(db, oid, s, g, after);
      WriteKeeps(db, oid, s, g, after);
    }
  }

  lemma PairedWithSnapshotSound(db: Db, oid: OutboxId, u: Update, expected: set<SubmissionState>,
                                next: SubmissionState, error: Option<ErrorCode>, prompt: bool)
    requires Consistent(db) && oid in db.outbox && TouchesGeneration(u)
    requires PairedWithSnapshot(db, oid, u, expected, next, error, prompt).Some? ==>
               forall stored :: GoodPair(db, oid, u, next, Fields(Some(stored), Some(error), Some(prompt)))
    ensures Sound(db, PairedWithSnapshot(db, oid, u, expected, next, error, prompt), db.outbox[oid].session)
  {
    var row := db.outbox[oid];
    var updated := UpdateCurrentGeneration(db, row.session, row.generation, u);
    if updated.Some? {
      PairedSound(db, oid, u, expected, next,
                  Fields(Some(SnapshotOf(updated.value, row.session)), Some(error), Some(prompt)));
    }
  }
}
