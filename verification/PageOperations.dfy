/**
 What every operation of the page registry does to the table, and what no operation can undo.
 */
module PageOperations {
  import opened Wrappers
  import opened PageRules
  import ProviderUrl

  datatype PageError = BrowserUnavailable | IdentityUnverified | ConversationMismatch

  /** The table after an operation, and why it was refused if it was. What it read first is kept either way. */
  datatype Answer = Answer(table: Table, error: Option<PageError>)

  function IndexOf(t: Table, key: PageKey): (r: Option<nat>)
    ensures r.Some? ==> r.value < |t| && t[r.value].key == key
    ensures r.None? ==> forall i :: 0 <= i < |t| ==> t[i].key != key
  {
    if t == [] then None
    else if t[|t| - 1].key == key then Some(|t| - 1)
    else IndexOf(t[..|t| - 1], key)
  }

  /** `#keysByPage.has(page)`. */
  predicate Known(t: Table, page: PageId) {
    exists i :: 0 <= i < |t| && t[i].page == page
  }

  function Write(t: Table, i: nat, r: Record): Table
    requires i < |t|
  {
    Reconciled(t[i := r])
  }

  function MarkClosed(t: Table, i: nat): Table
    requires i < |t|
  {
    if t[i].state.Closed? then t else Write(t, i, t[i].(state := Closed, owner := None, duplicates := []))
  }

  function Refresh(t: Table, i: nat, sight: Sight): (u: Table)
    requires i < |t|
    ensures |u| == |t|
  {
    var r := t[i];
    if r.state.Closed? || sight.closed then MarkClosed(t, i)
    else Write(t, i, r.(epoch := if sight.url != r.url then r.epoch + 1 else r.epoch, url := sight.url,
                        conversation := ProviderUrl.ParseProviderConversationId(sight.url)))
  }

  function Register(t: Table, page: PageId, key: PageKey, sight: Sight): Table {
    if Known(t, page) then t
    else Reconciled(t
                    + [Record(key, page, |t|, None, 1, None, None, ProviderUrl.ParseProviderConversationId(sight.url),
                              None,
                                sight.url, if sight.closed then Closed else Unbound, None, [], false)])
  }

  /** The page's state changed under the operation, or the page is quarantined. */
  function Unusable(r: Record, sight: Sight): Option<PageError> {
    if r.state.Closed? || sight.closed then Some(BrowserUnavailable)
    else if r.state.Conflict? then Some(IdentityUnverified)
    else None
  }

  function Bind(t: Table, i: nat, sight: Sight, session: SessionId, generation: Option<nat>,
                conversation: string): Answer
    requires i < |t|
  {
    var u := Refresh(t, i, sight);
    var r := u[i];
    if Unusable(r, sight).Some? then Answer(u, Unusable(r, sight))
    else if r.session.Some? && r.session != Some(session) then Answer(u, Some(IdentityUnverified))
    else if r.generation.Some? && r.generation != generation then Answer(u, Some(IdentityUnverified))
    else if r.expected.Some? && r.expected != Some(conversation) then Answer(u, Some(ConversationMismatch))
    else if r.conversation != Some(conversation) then Answer(u, Some(ConversationMismatch))
    else Answer(Write(u, i, r.(session := Some(session), generation := generation, expected := Some(conversation))),
                None)
  }

  function Reserve(t: Table, i: nat, sight: Sight, session: SessionId, generation: nat,
                   conversation: Option<string>): Answer
    requires i < |t|
  {
    var u := Refresh(t, i, sight);
    var r := u[i];
    if Unusable(r, sight).Some? then Answer(u, Unusable(r, sight))
    else if r.session.Some? && r.session != Some(session) then Answer(u, Some(IdentityUnverified))
    else if conversation.None? && r.conversation.Some? then Answer(u, Some(IdentityUnverified))
    else if conversation.Some? && r.conversation != conversation then Answer(u, Some(ConversationMismatch))
    else Answer(Write(u, i, r.(session := Some(session), generation := Some(generation), expected := conversation)),
                None)
  }

  /** `findByConversation(c).length`. */
  function Count(t: Table, c: string): nat {
    |PositionsAt(t, c, |t|)|
  }

  function PositionsAt(t: Table, c: string, n: nat): set<nat>
    requires n <= |t|
  {
    set i: nat | i < n && At(t[i], c)
  }

  function ReserveUnknown(t: Table, i: nat, sight: Sight, session: SessionId, generation: nat, target: TargetId): Answer
    requires i < |t|
  {
    var u := Refresh(t, i, sight);
    var r := u[i];
    if !r.state.Unbound? || r.session.Some? || r.target != Some(target) || r.conversation.None?
        || Count(u, r.conversation.value) != 1
    then Answer(u, Some(IdentityUnverified))
    else Answer(Write(u, i, r.(session := Some(session), generation := Some(generation), expected := None)), None)
  }

  predicate IsTemporary(conversation: string) { |conversation| >= 4 && conversation[..4] == "WEB:" }

  function BindRedirect(t: Table, i: nat, sight: Sight, session: SessionId, generation: Option<nat>, previous: string,
                        conversation: string): Answer
    requires i < |t|
  {
    var u := Refresh(t, i, sight);
    var r := u[i];
    if || !IsTemporary(previous) || IsTemporary(conversation) || !r.state.IdentityLost? || r.session != Some(session)
        || r.generation != generation
       || (r.expected != Some(previous) && r.expected.Some?) || r.conversation != Some(conversation)
    then Answer(u, Some(IdentityUnverified))
    else Answer(Write(u, i, r.(expected := Some(conversation))), None)
  }

  function ReserveRedirect(t: Table, i: nat, sight: Sight, session: SessionId, generation: Option<nat>,
                           previous: string, conversation: string): Answer
    requires i < |t|
  {
    var u := Refresh(t, i, sight);
    var r := u[i];
    if !r.state.Unbound? || r.session.Some? || r.conversation != Some(conversation) || !IsTemporary(previous)
        || IsTemporary(conversation)
    then Answer(u, Some(IdentityUnverified))
    else Answer(Write(u, i, r.(session := Some(session), generation := generation, expected := Some(previous))), None)
  }

  function Unbind(t: Table, i: nat): Table
    requires i < |t|
  {
    Write(t, i, t[i].(session := None, generation := None, expected := None))
  }

  /**
   `reconnectCrashedPage`: the same target, seen by a new page object; `was` is the old object and `sight` the new
   one.
   */
  function Reconnect(t: Table, i: nat, expected: Record, was: Sight, page: PageId, sight: Sight,
                     target: TargetId): Answer
    requires i < |t|
  {
    var r := t[i];
    if || !r.crashed || !(r.state.Owned? || r.state.Reserved?) || was.closed || sight.closed
       || r.target != Some(target) || expected.target != Some(target) || r.epoch != expected.epoch
       || r.session != expected.session
       || r.generation != expected.generation || r.conversation != expected.conversation
       || r.expected != expected.expected
       || r.url != expected.url || sight.url != expected.url || Known(t, page)
    then Answer(t, Some(IdentityUnverified))
    else Answer(t[i := r.(page := page, crashed := false, epoch := r.epoch + 1)], None)
  }

  // ---------------------------------------------------------------- what reconciling leaves alone

  /** All the rule looks at. */
  predicate SameView(a: Record, b: Record) {
    a.key == b.key && a.order == b.order && a.session == b.session && a.conversation == b.conversation
        && a.expected == b.expected
    && (a.state.Closed? <==> b.state.Closed?)
  }

  ghost predicate SameViews(t: Table, u: Table) {
    |t| == |u| && forall i :: 0 <= i < |t| ==> SameView(t[i], u[i])
  }

  lemma {:induction false} SameMembers(t: Table, u: Table, c: string, bound: bool, n: nat)
    requires SameViews(t, u) && n <= |t|
    ensures Members(t, c, bound, n) == Members(u, c, bound, n)
  {
    if n > 0 { SameMembers(t, u, c, bound, n - 1); }
  }

  lemma {:induction false} SameKeys(t: Table, u: Table, group: seq<nat>)
    requires SameViews(t, u) && Within(t, group)
    ensures KeysOf(t, group) == KeysOf(u, group)
  {
    if group != [] { SameKeys(t, u, group[..|group| - 1]); }
  }

  /** Two tables that look the same to the rule are judged the same. */
  lemma SameJudgement(t: Table, u: Table, i: nat)
    requires SameViews(t, u) && i < |t| && !t[i].state.Closed?
    ensures var a, b := Judged(t, i), Judged(u, i);
            a.state == b.state && a.owner == b.owner && a.duplicates == b.duplicates
  {
    assert SameView(t[i], u[i]);
    assert Conflicted(t, i) <==> Conflicted(u, i) by {
      if t[i].conversation.Some? {
        forall j | 0 <= j < |t|
          ensures At(t[j], t[i].conversation.value) <==> At(u[j], u[i].conversation.value)
        {
          assert SameView(t[j], u[j]);
        }
      }
    }
    if Conflicted(t, i) {
      var c := t[i].conversation.value;
      SameMembers(t, u, c, true, |t|);
      SameMembers(t, u, c, false, |t|);
      SameKeys(t, u, Ranked(t, c));
    }
  }

  lemma JudgedKeepsIdentity(t: Table, i: nat)
    requires i < |t|
    ensures var r := Judged(t, i); r == t[i].(state := r.state, owner := r.owner, duplicates := r.duplicates)
    ensures t[i].state.Closed? ==> Judged(t, i) == t[i]
  {}

  lemma JudgedKeepsClosed(t: Table, i: nat)
    requires i < |t|
    ensures t[i].state.Closed? <==> Judged(t, i).state.Closed?
  {}

  /** Reconciling changes no identity, and leaves nothing to reconcile. */
  lemma ReconciledSettles(t: Table)
    ensures SameViews(t, Reconciled(t)) && Settled(Reconciled(t))
    ensures forall i :: 0 <= i < |t| ==>
              var u := Reconciled(t)[i]; u == t[i].(state := u.state, owner := u.owner, duplicates := u.duplicates)
  {
    hide Judged;
    var u := Reconciled(t);
    forall i | 0 <= i < |u|
      ensures u[i] == t[i].(state := u[i].state, owner := u[i].owner, duplicates := u[i].duplicates)
              && SameView(t[i], u[i])
    {
      JudgedKeepsIdentity(t, i);
      JudgedKeepsClosed(t, i);
    }
    forall i | 0 <= i < |u| ensures u[i] == Judged(u, i) {
      JudgedKeepsIdentity(u, i);
      JudgedKeepsIdentity(t, i);
      if !t[i].state.Closed? { SameJudgement(t, u, i); }
    }
  }

  /** A change the rule does not look at leaves the table settled. */
  lemma UnseenChangeSettles(t: Table, i: nat, r: Record)
    requires Settled(t) && i < |t| && SameView(t[i], r) && r.state == t[i].state && r.owner == t[i].owner
             && r.duplicates == t[i].duplicates
    ensures Settled(t[i := r])
  {
    hide Judged;
    var u := t[i := r];
    assert SameViews(t, u);
    forall j | 0 <= j < |u| ensures u[j] == Judged(u, j) {
      assert t[j] == Judged(t, j);
      JudgedKeepsIdentity(t, j);
      JudgedKeepsIdentity(u, j);
      if !t[j].state.Closed? { SameJudgement(t, u, j); }
    }
  }

  // ---------------------------------------------------------------- what no operation undoes

  /** How one record may change in a step that is not its own unbinding. */
  ghost predicate RecordContinues(a: Record, b: Record, unbound: bool) {
    && a.key == b.key && a.order == b.order
    && a.epoch <= b.epoch && (a.epoch == b.epoch ==> a.url == b.url && a.page == b.page)
    && (a.state.Closed? ==> b.state.Closed?)
    && (a.session.Some? ==> b.session == a.session || (unbound && b.session.None?))
  }

  ghost predicate Continues(t: Table, u: Table, unbound: set<PageKey>) {
    |t| <= |u| && forall i :: 0 <= i < |t| ==> RecordContinues(t[i], u[i], t[i].key in unbound)
  }

  ghost predicate Inv(t: Table) {
    Indexed(t) && Settled(t)
  }

  lemma WriteKeeps(t: Table, i: nat, r: Record, unbound: set<PageKey>)
    requires Indexed(t) && i < |t| && RecordContinues(t[i], r, t[i].key in unbound) && r.page == t[i].page
    ensures Inv(Write(t, i, r)) && Continues(t, Write(t, i, r), unbound)
    ensures var u := Write(t, i, r)[i]; u == r.(state := u.state, owner := u.owner, duplicates := u.duplicates)
  {
    hide Reconciled, Settled;
    var written := t[i := r];
    ReconciledSettles(written);
    var u := Reconciled(written);
    assert forall j :: 0 <= j < |u| ==>
             u[j].page == written[j].page && u[j].key == t[j].key && u[j].order == t[j].order;
  }

  lemma ContinuesTwice(t: Table, u: Table, v: Table, unbound: set<PageKey>)
    requires Continues(t, u, {}) && Continues(u, v, unbound)
    ensures Continues(t, v, unbound)
  {
    forall i | 0 <= i < |t| ensures RecordContinues(t[i], v[i], t[i].key in unbound) {
      assert RecordContinues(t[i], u[i], t[i].key in {}) && RecordContinues(u[i], v[i], u[i].key in unbound);
    }
  }

  lemma Unchanged(t: Table)
    ensures Continues(t, t, {})
  {}

  lemma RefreshKeeps(t: Table, i: nat, sight: Sight)
    requires Inv(t) && i < |t|
    ensures Inv(Refresh(t, i, sight)) && Continues(t, Refresh(t, i, sight), {})
    ensures Refresh(t, i, sight)[i].session == t[i].session && Refresh(t, i, sight)[i].page == t[i].page
  {
    hide Write, Judged, ProviderUrl.ParseProviderConversationId;
    Unchanged(t);
    var r := t[i];
    if r.state.Closed? {
    } else if sight.closed {
      WriteKeeps(t, i, r.(state := Closed, owner := None, duplicates := []), {});
    } else {
      WriteKeeps(t, i, r.(epoch := if sight.url != r.url then r.epoch + 1 else r.epoch, url := sight.url,
                          conversation := ProviderUrl.ParseProviderConversationId(sight.url)), {});
    }
  }

  /**
   An operation that refreshes first and then, its guard holding, gives the page to a session it did not belong to
   another of.
   */
  lemma RefreshedWriteKeeps(t: Table, i: nat, sight: Sight, r: Record)
    requires Inv(t) && i < |t| && RecordContinues(Refresh(t, i, sight)[i], r, false)
             && r.page == Refresh(t, i, sight)[i].page
    ensures Inv(Write(Refresh(t, i, sight), i, r)) && Continues(t, Write(Refresh(t, i, sight), i, r), {})
  {
    var u := Refresh(t, i, sight);
    RefreshKeeps(t, i, sight);
    WriteKeeps(u, i, r, {});
    ContinuesTwice(t, u, Write(u, i, r), {});
  }

  lemma RegisterKeeps(t: Table, page: PageId, key: PageKey, sight: Sight)
    requires Inv(t) && IndexOf(t, key).None?
    ensures Inv(Register(t, page, key, sight)) && Continues(t, Register(t, page, key, sight), {})
  {
    hide Judged, ProviderUrl.ParseProviderConversationId, IndexOf;
    Unchanged(t);
    if !Known(t, page) {
      var u := t
          + [Record(key, page, |t|, None, 1, None, None, ProviderUrl.ParseProviderConversationId(sight.url), None,
                           sight.url, if sight.closed then Closed else Unbound, None, [], false)];
      AppendKeepsIndex(t, u[|t|]);
      ReconciledSettles(u);
      var v := Reconciled(u);
      assert forall j :: 0 <= j < |v| ==> v[j].page == u[j].page && v[j].key == u[j].key && v[j].order == u[j].order;
    }
  }

  lemma AppendKeepsIndex(t: Table, r: Record)
    requires Indexed(t) && r.order == |t| && IndexOf(t, r.key).None? && !Known(t, r.page)
    ensures Indexed(t + [r])
  {}
}
