/**
 Every run of the page registry: any sequence of browser events and calls, each refused or not.
 */
module PageRuns {
  import opened Wrappers
  import opened PageRules
  import opened PageOperations

  datatype Event =
    | Register(page: PageId, key: PageKey, sight: Sight)
    | Identify(page: PageId, key: PageKey, sight: Sight, target: TargetId)
    | Crash(key: PageKey)
    | Reconnect(key: PageKey, expected: Record, was: Sight, page: PageId, sight: Sight, target: TargetId)
    | Refresh(key: PageKey, sight: Sight)
    | PageClosed(key: PageKey)
    | ContextClosed(pages: set<PageId>)
    | Bind(key: PageKey, sight: Sight, session: SessionId, generation: Option<nat>, conversation: string)
    | Reserve(key: PageKey, sight: Sight, session: SessionId, number: nat, expecting: Option<string>)
    | ReserveUnknown(key: PageKey, sight: Sight, session: SessionId, number: nat, target: TargetId)
    | BindRedirect(key: PageKey, sight: Sight, session: SessionId, generation: Option<nat>, previous: string,
                   conversation: string)
    | ReserveRedirect(key: PageKey, sight: Sight, session: SessionId, generation: Option<nat>, previous: string,
                      conversation: string)
    | Unbind(key: PageKey)

  /** `identifyPage`: registers the page if it is new, then names its target. */
  function Identified(t: Table, page: PageId, key: PageKey, sight: Sight, target: TargetId): Table {
    var u := PageOperations.Register(t, page, key, sight);
    var i := PositionOf(u, page);
    if i.None? then u else u[i.value := u[i.value].(target := Some(target))]
  }

  function PositionOf(t: Table, page: PageId): (r: Option<nat>)
    ensures r.Some? ==> r.value < |t| && t[r.value].page == page
    ensures r.None? ==> forall i :: 0 <= i < |t| ==> t[i].page != page
  {
    if t == [] then None
    else if t[|t| - 1].page == page then Some(|t| - 1)
    else PositionOf(t[..|t| - 1], page)
  }

  /** The records below `n` whose page is one of `pages`, closed one after the other. */
  function CloseAll(t: Table, pages: set<PageId>, n: nat): (u: Table)
    requires n <= |t|
    ensures |u| == |t|
  {
    if n == 0 then t
    else
      var u := CloseAll(t, pages, n - 1);
      if u[n - 1].page in pages then MarkClosed(u, n - 1) else u
  }

  function Step(t: Table, e: Event): Table {
    match e
    case Register(page, key, sight) => if IndexOf(t, key).Some? then t else PageOperations.Register(t, page, key, sight)
    case Identify(page, key, sight, target) =>
      if IndexOf(t, key).Some? then t else Identified(t, page, key, sight, target)
    case ContextClosed(pages) => CloseAll(t, pages, |t|)
    case _ => var i := IndexOf(t, e.key); if i.None? then t else StepAt(t, i.value, e)
  }

  function StepAt(t: Table, i: nat, e: Event): Table
    requires i < |t|
  {
    match e
    case Crash(_) => t[i := t[i].(crashed := true)]
    case Reconnect(_, expected, was, page, sight, target) =>
      PageOperations.Reconnect(t, i, expected, was, page, sight, target).table
    case Refresh(_, sight) => PageOperations.Refresh(t, i, sight)
    case PageClosed(_) => MarkClosed(t, i)
    case Bind(_, sight, session, generation, conversation) =>
      PageOperations.Bind(t, i, sight, session, generation, conversation).table
    case Reserve(_, sight, session, generation, conversation) =>
      PageOperations.Reserve(t, i, sight, session, generation, conversation).table
    case ReserveUnknown(_, sight, session, generation, target) =>
      PageOperations.ReserveUnknown(t, i, sight, session, generation, target).table
    case BindRedirect(_, sight, session, generation, previous, conversation) =>
      PageOperations.BindRedirect(t, i, sight, session, generation, previous, conversation).table
    case ReserveRedirect(_, sight, session, generation, previous, conversation) =>
      PageOperations.ReserveRedirect(t, i, sight, session, generation, previous, conversation).table
    case Unbind(_) => PageOperations.Unbind(t, i)
    case _ => t
  }

  function Exec(t: Table, run: seq<Event>): Table
    decreases |run|
  {
    if run == [] then t else Exec(Step(t, run[0]), run[1..])
  }

  function Unbound(e: Event): set<PageKey> { if e.Unbind? then {e.key} else {} }

  // ---------------------------------------------------------------- one step

  ghost predicate Keeps(t: Table, u: Table, e: Event) { Inv(u) && Continues(t, u, Unbound(e)) }

  lemma UnseenKeeps(t: Table, i: nat, r: Record)
    requires Inv(t) && i < |t| && SameView(t[i], r) && RecordContinues(t[i], r, false)
    requires r.state == t[i].state && r.owner == t[i].owner && r.duplicates == t[i].duplicates
    requires r.page == t[i].page || !Known(t, r.page)
    ensures Inv(t[i := r]) && Continues(t, t[i := r], {})
  {
    hide Settled, SameView;
    UnseenChangeSettles(t, i, r);
    UnseenKeepsIndex(t, i, r);
  }

  lemma UnseenKeepsIndex(t: Table, i: nat, r: Record)
    requires Indexed(t) && i < |t| && SameView(t[i], r) && (r.page == t[i].page || !Known(t, r.page))
    ensures Indexed(t[i := r])
  {}

  lemma OwnershipStepKeeps(t: Table, i: nat, e: Event)
    requires Inv(t) && i < |t| && (e.Bind? || e.Reserve? || e.ReserveUnknown?)
    ensures Keeps(t, StepAt(t, i, e), e)
  {
    hide PageOperations.Refresh, Reconciled, PageOperations.Write, Inv, Continues;
    var u := PageOperations.Refresh(t, i, e.sight);
    var r := u[i];
    RefreshKeeps(t, i, e.sight);
    match e
    case Bind(_, sight, session, generation, conversation) =>
      if PageOperations.Bind(t, i, sight, session, generation, conversation).error.None? {
        RefreshedWriteKeeps(t, i, sight,
                            r.(session := Some(session), generation := generation, expected := Some(conversation)));
      }
    case Reserve(_, sight, session, generation, conversation) =>
      if PageOperations.Reserve(t, i, sight, session, generation, conversation).error.None? {
        RefreshedWriteKeeps(t, i, sight,
                            r.(session := Some(session), generation := Some(generation), expected := conversation));
      }
    case ReserveUnknown(_, sight, session, generation, target) =>
      if PageOperations.ReserveUnknown(t, i, sight, session, generation, target).error.None? {
        RefreshedWriteKeeps(t, i, sight,
                            r.(session := Some(session), generation := Some(generation), expected := None));
      }
  }

  lemma RedirectStepKeeps(t: Table, i: nat, e: Event)
    requires Inv(t) && i < |t| && (e.BindRedirect? || e.ReserveRedirect?)
    ensures Keeps(t, StepAt(t, i, e), e)
  {
    hide PageOperations.Refresh, Reconciled, PageOperations.Write, Inv, Continues;
    var u := PageOperations.Refresh(t, i, e.sight);
    var r := u[i];
    RefreshKeeps(t, i, e.sight);
    match e
    case BindRedirect(_, sight, session, generation, previous, conversation) =>
      if PageOperations.BindRedirect(t, i, sight, session, generation, previous, conversation).error.None? {
        RefreshedWriteKeeps(t, i, sight, r.(expected := Some(conversation)));
      }
    case ReserveRedirect(_, sight, session, generation, previous, conversation) =>
      if PageOperations.ReserveRedirect(t, i, sight, session, generation, previous, conversation).error.None? {
        RefreshedWriteKeeps(t, i, sight,
                            r.(session := Some(session), generation := generation, expected := Some(previous)));
      }
  }

  lemma MarkClosedKeeps(t: Table, i: nat)
    requires Inv(t) && i < |t|
    ensures Inv(MarkClosed(t, i)) && Continues(t, MarkClosed(t, i), {})
  {
    hide Settled, PageOperations.Write, Continues;
    PageOperations.Unchanged(t);
    if !t[i].state.Closed? { WriteKeeps(t, i, t[i].(state := Closed, owner := None, duplicates := []), {}); }
  }

  lemma UnbindKeeps(t: Table, i: nat)
    requires Inv(t) && i < |t|
    ensures Inv(PageOperations.Unbind(t, i)) && Continues(t, PageOperations.Unbind(t, i), {t[i].key})
  {
    hide Settled, PageOperations.Write, Continues;
    WriteKeeps(t, i, t[i].(session := None, generation := None, expected := None), {t[i].key});
  }

  lemma CrashKeeps(t: Table, i: nat)
    requires Inv(t) && i < |t|
    ensures Inv(t[i := t[i].(crashed := true)]) && Continues(t, t[i := t[i].(crashed := true)], {})
  {
    hide Inv, Continues;
    UnseenKeeps(t, i, t[i].(crashed := true));
  }

  lemma ReconnectKeeps(t: Table, i: nat, expected: Record, was: Sight, page: PageId, sight: Sight, target: TargetId)
    requires Inv(t) && i < |t|
    ensures var u := PageOperations.Reconnect(t, i, expected, was, page, sight, target).table;
            Inv(u) && Continues(t, u, {})
  {
    hide Inv, Continues;
    PageOperations.Unchanged(t);
    if PageOperations.Reconnect(t, i, expected, was, page, sight, target).error.None? {
      UnseenKeeps(t, i, t[i].(page := page, crashed := false, epoch := t[i].epoch + 1));
    }
  }

  lemma OtherStepKeeps(t: Table, i: nat, e: Event)
    requires Inv(t) && i < |t|
             && (e.Crash? || e.Reconnect? || e.Refresh? || e.PageClosed? || (e.Unbind? && e.key == t[i].key))
    ensures Keeps(t, StepAt(t, i, e), e)
  {
    hide PageOperations.Refresh, PageOperations.Reconnect, PageOperations.Unbind, MarkClosed, Inv, Continues;
    match e
    case Crash(_) => CrashKeeps(t, i);
    case Reconnect(_, expected, was, page, sight, target) => ReconnectKeeps(t, i, expected, was, page, sight, target);
    case Refresh(_, sight) => RefreshKeeps(t, i, sight);
    case PageClosed(_) => MarkClosedKeeps(t, i);
    case Unbind(_) => UnbindKeeps(t, i);
  }

  lemma {:induction false} CloseAllKeeps(t: Table, pages: set<PageId>, n: nat)
    requires Inv(t) && n <= |t|
    ensures Inv(CloseAll(t, pages, n)) && Continues(t, CloseAll(t, pages, n), {})
  {
    hide MarkClosed, Inv, Continues;
    PageOperations.Unchanged(t);
    if n > 0 {
      CloseAllKeeps(t, pages, n - 1);
      var u := CloseAll(t, pages, n - 1);
      MarkClosedKeeps(u, n - 1);
      ContinuesTwice(t, u, MarkClosed(u, n - 1), {});
    }
  }

  lemma IdentifyKeeps(t: Table, page: PageId, key: PageKey, sight: Sight, target: TargetId)
    requires Inv(t) && IndexOf(t, key).None?
    ensures Inv(Identified(t, page, key, sight, target)) && Continues(t, Identified(t, page, key, sight, target), {})
  {
    hide PageOperations.Register, IndexOf;
    RegisterKeeps(t, page, key, sight);
    var u := PageOperations.Register(t, page, key, sight);
    var i := PositionOf(u, page);
    if i.Some? {
      var r := u[i.value].(target := Some(target));
      UnseenKeeps(u, i.value, r);
      ContinuesTwice(t, u, u[i.value := r], {});
    }
  }

  lemma KeyedStepKeeps(t: Table, i: nat, e: Event)
    requires Inv(t) && i < |t| && !e.Register? && !e.Identify? && !e.ContextClosed? && e.key == t[i].key
    ensures Keeps(t, StepAt(t, i, e), e)
  {
    hide StepAt;
    if e.Bind? || e.Reserve? || e.ReserveUnknown? {
      OwnershipStepKeeps(t, i, e);
    } else if e.BindRedirect? || e.ReserveRedirect? {
      RedirectStepKeeps(t, i, e);
    } else {
      OtherStepKeeps(t, i, e);
    }
  }

  lemma StepKeeps(t: Table, e: Event)
    requires Inv(t)
    ensures Keeps(t, Step(t, e), e)
  {
    hide StepAt, CloseAll, PageOperations.Register, Identified;
    PageOperations.Unchanged(t);
    match e
    case Register(page, key, sight) => if IndexOf(t, key).None? { RegisterKeeps(t, page, key, sight); }
    case Identify(page, key, sight, target) => if IndexOf(t, key).None? { IdentifyKeeps(t, page, key, sight, target); }
    case ContextClosed(pages) => CloseAllKeeps(t, pages, |t|);
    case _ =>
      var i := IndexOf(t, e.key);
      if i.Some? { KeyedStepKeeps(t, i.value, e); }
  }

  // ---------------------------------------------------------------- every run

  lemma {:induction false} RunKeeps(t: Table, run: seq<Event>)
    requires Inv(t)
    ensures Inv(Exec(t, run))
    decreases |run|
  {
    if run != [] {
      StepKeeps(t, run[0]);
      RunKeeps(Step(t, run[0]), run[1..]);
    }
  }

  /** After every run the table is what the declarative rule says of it. */
  lemma {:induction false} TableIsReconciled(run: seq<Event>)
    ensures Exec([], run) == Reconciled(Exec([], run))
    ensures var t := Exec([], run);
            forall i, j :: 0 <= i < |t| && 0 <= j < |t| ==>
              (t[i].state.Owned? && !t[j].state.Closed? && t[j].conversation == t[i].conversation ==> i == j)
  {
    RunKeeps([], run);
    var t := Exec([], run);
    forall i, j
        | 0 <= i < |t| && 0 <= j < |t| && t[i].state.Owned? && !t[j].state.Closed?
        && t[j].conversation == t[i].conversation
      ensures i == j
    {
      OwnedIsExclusive(t, i, j);
    }
  }

  /**
   Epochs only grow; while an epoch lasts, neither the recorded URL nor the page object behind the key changes; a
   closed page stays closed.
   */
  ghost predicate Later(a: Record, b: Record) {
    && a.key == b.key && a.order == b.order && a.epoch <= b.epoch
    && (a.epoch == b.epoch ==> a.url == b.url && a.page == b.page)
    && (a.state.Closed? ==> b.state.Closed?)
  }

  lemma {:induction false} EpochNamesUrlAndPage(t: Table, run: seq<Event>, i: nat)
    requires Inv(t) && i < |t|
    ensures i < |Exec(t, run)| && Later(t[i], Exec(t, run)[i])
    decreases |run|
  {
    if run != [] {
      var u := Step(t, run[0]);
      StepKeeps(t, run[0]);
      assert RecordContinues(t[i], u[i], t[i].key in Unbound(run[0]));
      EpochNamesUrlAndPage(u, run[1..], i);
    }
  }

  /** A page passes from one session to another only through `unbindPage` of that page. */
  lemma {:induction false} SessionChangesOnlyByUnbinding(t: Table, run: seq<Event>, i: nat)
    requires Inv(t) && i < |t| && t[i].session.Some?
    requires i < |Exec(t, run)| && Exec(t, run)[i].session != t[i].session
    ensures exists k :: 0 <= k < |run| && run[k] == Unbind(t[i].key)
    decreases |run|
  {
    assert run != [];
    var u := Step(t, run[0]);
    StepKeeps(t, run[0]);
    assert RecordContinues(t[i], u[i], t[i].key in Unbound(run[0]));
    if run[0] != Unbind(t[i].key) {
      SessionChangesOnlyByUnbinding(u, run[1..], i);
      var k :| 0 <= k < |run[1..]| && run[1..][k] == Unbind(t[i].key);
      assert run[k + 1] == Unbind(t[i].key);
    }
  }
}
