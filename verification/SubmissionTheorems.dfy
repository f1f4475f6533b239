/**
 The promises of the submission service, over every run from an empty store.
 */
module SubmissionTheorems {
  import opened Wrappers
  import opened Storage
  import opened Submission
  import opened SubmissionInvariants
  import opened SubmissionTransactions
  import opened SubmissionRecovery
  import opened SubmissionRuns
  import opened SubmissionSafety

  lemma {:induction false} Reachable(run: seq<Event>)
    ensures Inv(Exec(Start, run))
  {
    RunKeepsInv(Start, run);
  }

  lemma {:induction false} ExecConcat(s: State, a: seq<Event>, b: seq<Event>)
    ensures Exec(s, a + b) == Exec(Exec(s, a), b)
    decreases |a|
  {
    if a == [] {
      assert a + b == b;
    } else {
      assert (a + b)[0] == a[0] && (a + b)[1..] == a[1..] + b;
      ExecConcat(Step(s, a[0]), a[1..], b);
    }
  }

  // ---------------------------------------------------------------- at most one irreversible attempt

  /** The provider is called at most once for every row, and only again for a request whose earlier row was deleted. */
  lemma {:induction false} SubmittedAtMostOnce(run: seq<Event>)
    ensures var s := Exec(Start, run);
            forall i, j :: 0 <= i < j < |s.calls| ==>
              s.calls[i].oid != s.calls[j].oid
                  && (s.calls[i].request == s.calls[j].request ==> s.calls[i].oid !in s.db.outbox)
  {
    Reachable(run);
  }

  lemma {:induction false} ExecLast(s: State, front: seq<Event>, e: Event)
    ensures Exec(s, front + [e]) == Step(Exec(s, front), e)
  {
    ExecConcat(s, front, [e]);
    var t := Exec(s, front);
    assert [e][1..] == [] && Exec(Step(t, e), []) == Step(t, e);
  }

  /** The row of a call goes missing only when its team is deleted. */
  lemma {:induction false} RowLostByTeam(run: seq<Event>, c: Call)
    requires c in Exec(Start, run).calls && c.oid !in Exec(Start, run).db.outbox
    ensures exists k ::
            0 <= k < |run| && run[k].EndTeam? && c.oid in Exec(Start, run[..k]).db.outbox
            && c.oid !in Exec(Start, run[..k + 1]).db.outbox
    decreases |run|
  {
    hide Step, Inv;
    var front, e := run[..|run| - 1], run[|run| - 1];
    assert run == front + [e];
    ExecLast(Start, front, e);
    Reachable(front);
    LostAtStep(Exec(Start, front), e, c);
    assert run[..|run|] == run && run[..|run| - 1] == front;
    if c.oid !in Exec(Start, front).db.outbox {
      RowLostByTeam(front, c);
      var k :| 0 <= k < |front| && front[k].EndTeam? && c.oid in Exec(Start, front[..k]).db.outbox
          && c.oid !in Exec(Start, front[..k + 1]).db.outbox;
      assert run[..k] == front[..k] && run[..k + 1] == front[..k + 1];
    }
  }

  lemma LostAtStep(s: State, e: Event, c: Call)
    requires Inv(s) && c in Step(s, e).calls && c.oid !in Step(s, e).db.outbox
    ensures c in s.calls && (c.oid in s.db.outbox ==> e.EndTeam?)
  {
    hide Inv, Step;
    StepKeepsInv(s, e);
    if Step(s, e).calls != s.calls {
      CallIsAttempted(s, e);
    }
  }

  /** A request is sent to the provider again only if a team deletion removed the row of its earlier attempt. */
  lemma {:induction false} RepeatNeedsTeamDeletion(run: seq<Event>, i: nat, j: nat)
    requires var s := Exec(Start, run); i < j < |s.calls| && s.calls[i].request == s.calls[j].request
    ensures exists k :: 0 <= k < |run| && run[k].EndTeam?
              && Exec(Start, run).calls[i].oid in Exec(Start, run[..k]).db.outbox
              && Exec(Start, run).calls[i].oid !in Exec(Start, run[..k + 1]).db.outbox
  {
    SubmittedAtMostOnce(run);
    RowLostByTeam(run, Exec(Start, run).calls[i]);
  }

  /** The call is made by one operation, for one row whose attempt is durable and current, and never made before. */
  lemma CallIsAttempted(s: State, e: Event)
    requires Inv(s) && Step(s, e).calls != s.calls
    ensures e.CallSubmitOnce? && |Step(s, e).calls| == |s.calls| + 1 && Step(s, e).calls[..|s.calls|] == s.calls
    ensures var c := Step(s, e).calls[|s.calls|];
            && c.oid in s.db.outbox && c.request == s.db.outbox[c.oid].request
            && var row := s.db.outbox[c.oid];
               && row.state.SubmitAttempted? && row.prompt && row.session == e.sid
               && row.session in s.db.sessions && s.db.sessions[row.session].current == row.generation
               && GenKey(row.session, row.generation) in s.db.generations
               && var g := s.db.generations[GenKey(row.session, row.generation)]; g.state.SubmitAttempted? && g.prompt
    ensures forall d <- s.calls :: d.oid != Step(s, e).calls[|s.calls|].oid
  {
    hide Step, Inv;
    OnlyCallsCall(s, e);
    CallsAttemptedRow(s, e.sid);
    CallMakesOne(s, e.sid);
  }

  lemma CallMakesOne(s: State, sid: SessionId)
    requires At(s, sid) && s.flows[sid].Attempted? && s.flows[sid].oid in s.db.outbox
    ensures StepCall(s, sid).calls == s.calls + [Call(s.flows[sid].oid, s.db.outbox[s.flows[sid].oid].request)]
  {}

  /** The row a session is about to call for is current and durably attempted, and was never called for. */
  lemma CallsAttemptedRow(s: State, sid: SessionId)
    requires Inv(s) && At(s, sid) && s.flows[sid].Attempted?
    ensures var oid := s.flows[sid].oid;
            && oid in s.db.outbox && (forall c <- s.calls :: c.oid != oid)
            && var row := s.db.outbox[oid];
               && row.state.SubmitAttempted? && row.prompt && row.session == sid
               && row.session in s.db.sessions && s.db.sessions[row.session].current == row.generation
               && GenKey(row.session, row.generation) in s.db.generations
               && var g := s.db.generations[GenKey(row.session, row.generation)]; g.state.SubmitAttempted? && g.prompt
  {
    hide Consistent, Covered, CallsFit, ReservationsFit, PhaseFits;
    assert StageFits(s, sid, s.flows[sid]);
    RowFacts(s.db, s.flows[sid].oid);
  }

  lemma OnlyCallsCall(s: State, e: Event)
    requires Step(s, e).calls != s.calls
    ensures e.CallSubmitOnce? && Step(s, e) == StepCall(s, e.sid) && At(s, e.sid) && s.flows[e.sid].Attempted?
  {
    hide StepSend, StepAuthorize, StepBeginRefresh, Perform;
    if e.Send? || e.AuthorizeSuccessor? || e.BeginRefresh? || e.Act? { OthersDoNotCall(s, e); }
  }

  lemma OthersDoNotCall(s: State, e: Event)
    requires e.Send? || e.AuthorizeSuccessor? || e.BeginRefresh? || e.Act?
    ensures Step(s, e).calls == s.calls
  {}

  /** `submitOnce` is called only while its row is durably attempted, and never before for that row. */
  lemma {:induction false} CallsOnlyWhileAttempted(run: seq<Event>, e: Event)
    requires Exec(Start, run + [e]).calls != Exec(Start, run).calls
    ensures var s, after := Exec(Start, run), Exec(Start, run + [e]);
            && |after.calls| == |s.calls| + 1
            && var c := after.calls[|s.calls|];
               && c.oid in s.db.outbox && s.db.outbox[c.oid].state.SubmitAttempted? && s.db.outbox[c.oid].prompt
               && c.request == s.db.outbox[c.oid].request
               && (forall d <- s.calls :: d.oid != c.oid)
  {
    hide Inv, Step;
    ExecLast(Start, run, e);
    Reachable(run);
    CallIsAttempted(Exec(Start, run), e);
  }

  /**
   Once attempted, a row stays attempted, unknown or submitted, and submitted is final; its identity never changes.
   */
  lemma {:induction false} NeverTakenBack(run: seq<Event>, more: seq<Event>, oid: OutboxId)
    requires oid in Exec(Start, run).db.outbox && oid in Exec(Start, run + more).db.outbox
    ensures RowMoves(Exec(Start, run).db.outbox[oid], Exec(Start, run + more).db.outbox[oid])
  {
    Reachable(run);
    ExecConcat(Start, run, more);
    RunKeepsInv(Exec(Start, run), more);
  }

  /** A deleted row never comes back. */
  lemma {:induction false} DeletedForGood(run: seq<Event>, middle: seq<Event>, more: seq<Event>, oid: OutboxId)
    requires oid in Exec(Start, run).db.outbox && oid !in Exec(Start, run + middle).db.outbox
    ensures oid !in Exec(Start, run + middle + more).db.outbox
  {
    hide Inv;
    Reachable(run);
    UsedRow(run, oid);
    ExecConcat(Start, run, middle);
    RunKeepsInv(Exec(Start, run), middle);
    ExecConcat(Start, run + middle, more);
    RunKeepsInv(Exec(Start, run + middle), more);
  }

  lemma UsedRow(run: seq<Event>, oid: OutboxId)
    requires oid in Exec(Start, run).db.outbox
    ensures oid in Exec(Start, run).used
  {
    Reachable(run);
  }

  /** Repeating a request starts nothing and, once its outcome is recorded, writes nothing. */
  lemma {:induction false} RepeatedSendStartsNothing(run: seq<Event>, oid: OutboxId, sid: SessionId, newId: OutboxId,
      payload: Payload)
    requires oid in Exec(Start, run).db.outbox
    ensures var s := Exec(Start, run);
            var after := Step(s, Send(sid, s.db.outbox[oid].request, newId, payload));
            && after.flows == s.flows && after.db.outbox.Keys == s.db.outbox.Keys && after.calls == s.calls
            && (s.db.outbox[oid].state in {SubmissionState.Submitted, SubmissionUnknown, FailedPreSubmit} ==>
                after == s)
  {
    hide SessionOk, RowOk, GenerationOk, StageFits, CallFits, ReservationFits, FailPreSubmit, RecordUnknown,
      AwaitsDecision, PrepareOutbox;
    var s := Exec(Start, run);
    Reachable(run);
    var found := Find(s.db, s.db.outbox[oid].request);
    assert found.Some?;
    if found.value != oid { OneRowPerRequest(s.db, found.value, oid); }
    ReplaySound(s.db, oid);
  }

  // ---------------------------------------------------------------- the durable rows tell the truth

  /**
   The request row and its generation agree, and the prompt flag means exactly that the attempt cannot be taken back.
   */
  lemma {:induction false} RowsAgree(run: seq<Event>, oid: OutboxId)
    requires oid in Exec(Start, run).db.outbox
    ensures var db := Exec(Start, run).db;
            var row := db.outbox[oid];
            var k := GenKey(row.session, row.generation);
            && row.session in db.sessions && k in db.generations
            && db.generations[k].state == row.state && db.generations[k].prompt == row.prompt
            && (row.prompt <==> row.state in {SubmitAttempted, SubmissionState.Submitted, SubmissionUnknown})
  {
    hide FlowsFit, CallsFit, ReservationsFit, PhaseFits, Step;
    Reachable(run);
    RowFacts(Exec(Start, run).db, oid);
  }

  /** The same for every generation, because each one was prepared together with its row. */
  lemma {:induction false} GenerationsAgree(run: seq<Event>, k: GenKey)
    requires k in Exec(Start, run).db.generations
    ensures var db := Exec(Start, run).db;
            && (db.generations[k].prompt <==>
                db.generations[k].state in {SubmitAttempted, SubmissionState.Submitted, SubmissionUnknown})
            && exists oid <- db.outbox :: Owns(db.outbox[oid], k) && db.outbox[oid].state == db.generations[k].state
  {
    hide FlowsFit, CallsFit, ReservationsFit, PhaseFits, Step;
    var db := Exec(Start, run).db;
    Reachable(run);
    assert HasRow(db, k);
    var oid :| oid in db.outbox && Owns(db.outbox[oid], k);
    RowFacts(db, oid);
  }

  /** A session has at most one unsettled request, of its current generation; every older generation is settled. */
  lemma {:induction false} OneUnsettledRequest(run: seq<Event>, a: OutboxId, b: OutboxId)
    requires var db := Exec(Start, run).db; a in db.outbox && b in db.outbox && Unsettled(db.outbox[a].state)
    requires var db := Exec(Start, run).db; db.outbox[b].session == db.outbox[a].session
    ensures var db := Exec(Start, run).db;
            && db.outbox[a].session in db.sessions
            && db.outbox[a].generation == db.sessions[db.outbox[a].session].current
            && (Unsettled(db.outbox[b].state) ==> a == b)
            && (db.outbox[b].generation < db.outbox[a].generation ==> !Unsettled(db.outbox[b].state))
  {
    var db := Exec(Start, run).db;
    Reachable(run);
    RowFacts(db, a);
    RowFacts(db, b);
    if Unsettled(db.outbox[b].state) { assert SameOwner(db.outbox[a], db.outbox[b]); }
  }

  lemma {:induction false} OlderGenerationsSettled(run: seq<Event>, k: GenKey)
    requires var db := Exec(Start, run).db;
             k in db.generations && k.session in db.sessions && k.generation != db.sessions[k.session].current
    ensures !Unsettled(Exec(Start, run).db.generations[k].state)
  {
    var db := Exec(Start, run).db;
    Reachable(run);
    assert HasRow(db, k);
    var oid :| oid in db.outbox && Owns(db.outbox[oid], k);
    RowFacts(db, oid);
  }

  /** An unresolved original gets at most one authorized successor, whichever route asks, whenever it asks. */
  lemma {:induction false} OneAuthorizedSuccessor(run: seq<Event>, more: seq<Event>, a: OutboxId, b: OutboxId)
    requires a in Exec(Start, run).db.outbox && b in Exec(Start, run + more).db.outbox
    requires var p, q := Exec(Start, run).db.outbox[a].payload, Exec(Start, run + more).db.outbox[b].payload;
             p.authorized.Some? && q.authorized.Some? && p.authorized.value.original == q.authorized.value.original
    ensures a == b
  {
    var s, t := Exec(Start, run), Exec(Start, run + more);
    Reachable(run);
    ExecConcat(Start, run, more);
    RunKeepsInv(s, more);
    assert AuthorizationFits(s, a) && AuthorizationFits(t, b);
  }

  // ---------------------------------------------------------------- startup

  /** No listed row can stop startup: every pass can always go on. */
  lemma {:induction false} PassesNeverThrow(run: seq<Event>, oid: OutboxId)
    ensures var s := Exec(Start, run);
            match s.phase
            case PreSubmit(todo) => oid in todo ==> Step(s, PassRow(oid)).phase == PreSubmit(todo - {oid})
            case Diagnostics(todo) => oid in todo ==> Step(s, PassRow(oid)).phase == Diagnostics(todo - {oid})
            case Interrupted(todo) => oid in todo ==> Step(s, PassRow(oid)).phase == Interrupted(todo - {oid})
            case _ => true
  {
    hide PreSubmitPass, DiagnosticsPass, SubmissionPass, Consistent, Sound, PreSubmitDone, DiagnosticsDone, Covered,
      FlowsFit, CallsFit, ReservationsFit;
    var s := Exec(Start, run);
    Reachable(run);
    match s.phase
    case PreSubmit(todo) => if oid in todo { PreSubmitPassSettles(s.db, oid); }
    case Diagnostics(todo) => if oid in todo { DiagnosticsPassSettles(s.db, oid); }
    case Interrupted(todo) => if oid in todo { SubmissionPassSettles(s.db, oid); }
    case _ =>
  }

  /**
   When startup ends, no live current generation is left filled or attempted, and all three passes would change
   nothing.
   */
  lemma {:induction false} StartupSettles(run: seq<Event>)
    requires !Exec(Start, run).phase.Running? && Exec(Start, run + [PassEnd]).phase.Running?
    ensures var db := Exec(Start, run + [PassEnd]).db;
            && (forall oid <- db.outbox ::
                PreSubmitPass(db, oid) == DiagnosticsPass(db, oid) == SubmissionPass(db, oid) == Some(db))
            && (forall sid <- db.sessions :: var g := CurrentGeneration(db, sid);
                  g.Some? && !Terminal(db, sid) ==> !g.value.state.ComposerFilled? && !g.value.state.SubmitAttempted?)
  {
    hide PreSubmitPass, DiagnosticsPass, SubmissionPass, Consistent, Covered, FlowsFit, CallsFit, ReservationsFit,
      PreSubmitDone, DiagnosticsDone;
    ExecLast(Start, run, PassEnd);
    Reachable(run);
    var db := Exec(Start, run + [PassEnd]).db;
    assert Recovered(db);
    forall oid | oid in db.outbox
      ensures PreSubmitPass(db, oid) == DiagnosticsPass(db, oid) == SubmissionPass(db, oid) == Some(db)
    {
      DoneMeansUnchanged(db, oid);
    }
    forall sid | sid in db.sessions && CurrentGeneration(db, sid).Some? && !Terminal(db, sid)
      ensures var g := CurrentGeneration(db, sid).value; !g.state.ComposerFilled? && !g.state.SubmitAttempted? {
      RecoveredIsSettled(db, sid);
    }
  }

  lemma RecoveredIsSettled(db: Db, sid: SessionId)
    requires Consistent(db) && Covered(db) && Recovered(db) && sid in db.sessions && CurrentGeneration(db, sid).Some?
             && !Terminal(db, sid)
    ensures var g := CurrentGeneration(db, sid).value; !g.state.ComposerFilled? && !g.state.SubmitAttempted?
  {
    hide AllDiagnosticsDone, DiagnosticsDone, Distinct, SessionsOk, GenerationsOk;
    var k := CurrentKey(db, sid);
    assert HasRow(db, k);
    var oid :| oid in db.outbox && Owns(db.outbox[oid], k);
    RowFacts(db, oid);
    assert PreSubmitDone(db, oid) && SubmissionDone(db, oid);
  }
}
