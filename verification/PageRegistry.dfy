/**
 The page registry as it runs: a mutable table whose every operation ends by reconciling conflicts
 with loops, proved to leave exactly the table the declarative rule prescribes.
 */
module PageRegistry {
  import opened Wrappers
  import opened PageRules
  import Op = PageOperations
  import Runs = PageRuns
  import Rights = PageGrants
  import ProviderUrl

  // ---------------------------------------------------------------- what the loops build

  function Based(r: Record): Record {
    if r.state.Closed? then r else r.(state := BaseState(r), owner := None, duplicates := [])
  }

  /** The open positions below `n`, in order. */
  function OpenBelow(t: Table, n: nat): (r: seq<nat>)
    requires n <= |t|
    ensures Within(t, r) && forall k :: 0 <= k < |r| ==> r[k] < n
  {
    if n == 0 then [] else OpenBelow(t, n - 1) + (if t[n - 1].state.Closed? then [] else [n - 1])
  }

  /** Those of `positions` at the conversation. */
  function GroupOf(t: Table, positions: seq<nat>, c: string): (r: seq<nat>)
    requires Within(t, positions)
    ensures Within(t, r)
  {
    if positions == [] then []
    else
      var last := positions[|positions| - 1];
      GroupOf(t, positions[..|positions| - 1], c) + (if t[last].conversation == Some(c) then [last] else [])
  }

  predicate Ascending(s: seq<nat>) { forall a, b :: 0 <= a < b < |s| ==> s[a] < s[b] }

  lemma {:induction false} OpenMembers(t: Table, n: nat)
    requires n <= |t|
    ensures forall i :: i in OpenBelow(t, n) <==> 0 <= i < n && !t[i].state.Closed?
  {
    if n > 0 { OpenMembers(t, n - 1); }
  }

  lemma {:induction false} OpenExact(t: Table, n: nat)
    requires n <= |t|
    ensures forall i :: i in OpenBelow(t, n) <==> 0 <= i < n && !t[i].state.Closed?
    ensures Ascending(OpenBelow(t, n))
  {
    OpenMembers(t, n);
    if n > 0 { OpenExact(t, n - 1); }
  }

  lemma {:induction false} GroupMembers(t: Table, positions: seq<nat>, c: string)
    requires Within(t, positions)
    ensures forall i :: i in GroupOf(t, positions, c) <==> i in positions && t[i].conversation == Some(c)
  {
    if positions != [] {
      var front, last := positions[..|positions| - 1], positions[|positions| - 1];
      GroupMembers(t, front, c);
      assert positions == front + [last];
    }
  }

  lemma {:induction false} GroupExact(t: Table, positions: seq<nat>, c: string)
    requires Within(t, positions) && Ascending(positions)
    ensures forall i :: i in GroupOf(t, positions, c) <==> i in positions && t[i].conversation == Some(c)
    ensures Ascending(GroupOf(t, positions, c))
  {
    GroupMembers(t, positions, c);
    if positions != [] {
      var front, last := positions[..|positions| - 1], positions[|positions| - 1];
      GroupExact(t, front, c);
      var group := GroupOf(t, front, c);
      forall k | 0 <= k < |group| ensures group[k] < last {
        assert group[k] in group && group[k] in front;
        var j :| 0 <= j < |front| && front[j] == group[k];
        assert positions[j] < positions[|positions| - 1];
      }
    }
  }

  /** The open pages at `c`, gathered by the loops. */
  function Group(t: Table, c: string): (r: seq<nat>)
    ensures Within(t, r)
  {
    GroupOf(t, OpenBelow(t, |t|), c)
  }

  lemma GroupIsOpenPages(t: Table, c: string)
    ensures forall i :: i in Group(t, c) <==> 0 <= i < |t| && At(t[i], c)
    ensures Ascending(Group(t, c))
  {
    OpenExact(t, |t|);
    GroupExact(t, OpenBelow(t, |t|), c);
  }

  /** A group of two or more is a conflict for each of its pages. */
  lemma GroupSizeIsConflict(t: Table, i: nat, c: string)
    requires i < |t| && At(t[i], c)
    ensures |Group(t, c)| >= 2 <==> Conflicted(t, i)
  {
    GroupIsOpenPages(t, c);
    var g := Group(t, c);
    var k :| 0 <= k < |g| && g[k] == i;
    if |g| >= 2 {
      var other := if k == 0 then 1 else 0;
      assert g[other] in g && g[other] != i;
    }
    if Conflicted(t, i) {
      var j :| 0 <= j < |t| && j != i && At(t[j], c);
      assert j in g;
      var l :| 0 <= l < |g| && g[l] == j;
    }
  }

  /** `group.sort(…)`. */
  method SortGroup(t: Table, group: seq<nat>) returns (sorted: seq<nat>)
    requires Indexed(t) && Within(t, group) && Ascending(group)
    ensures SortedBy(t, sorted) && |sorted| == |group| && forall i :: i in sorted <==> i in group
  {
    sorted := [];
    for n := 0 to |group|
      invariant SortedBy(t, sorted) && |sorted| == n && forall i :: i in sorted <==> i in group[..n]
    {
      var x, k := group[n], n;
      while k > 0 && Precedes(t[x], t[sorted[k - 1]])
        invariant k <= n && forall b :: k <= b < n ==> Precedes(t[x], t[sorted[b]])
      {
        k := k - 1;
      }
      InsertKeepsSorted(t, sorted, k, x, group[..n]);
      assert group[..n + 1] == group[..n] + [x];
      sorted := sorted[..k] + [x] + sorted[k..];
    }
    assert group[..|group|] == group;
  }

  /** Everything before the insertion point precedes `x`, everything after follows it. */
  lemma InsertKeepsSorted(t: Table, s: seq<nat>, k: nat, x: nat, seen: seq<nat>)
    requires Indexed(t) && SortedBy(t, s) && k <= |s| && x < |t| && (forall i :: i in s <==> i in seen) && forall a ::
             0 <= a < |seen| ==> seen[a] < x
    requires forall b :: k <= b < |s| ==> Precedes(t[x], t[s[b]])
    requires k > 0 ==> !Precedes(t[x], t[s[k - 1]])
    ensures SortedBy(t, s[..k] + [x] + s[k..]) && forall i :: i in s[..k] + [x] + s[k..] <==> i in s || i == x
  {
    InsertedMembers(s, k, x);
    forall a | 0 <= a < k ensures Precedes(t[s[a]], t[x]) {
      assert s[k - 1] in s;
      var j :| 0 <= j < |seen| && seen[j] == s[k - 1];
      assert a == k - 1 || Precedes(t[s[a]], t[s[k - 1]]);
    }
    InsertedIsSorted(t, s, k, x);
  }

  lemma InsertedMembers(s: seq<nat>, k: nat, x: nat)
    requires k <= |s|
    ensures forall i :: i in s[..k] + [x] + s[k..] <==> i in s || i == x
  {
    assert s == s[..k] + s[k..];
  }

  lemma InsertedIsSorted(t: Table, s: seq<nat>, k: nat, x: nat)
    requires SortedBy(t, s) && k <= |s| && x < |t|
    requires forall a :: 0 <= a < k ==> Precedes(t[s[a]], t[x])
    requires forall b :: k <= b < |s| ==> Precedes(t[x], t[s[b]])
    ensures SortedBy(t, s[..k] + [x] + s[k..])
  {
    hide Precedes;
    var r := s[..k] + [x] + s[k..];
    assert forall a :: 0 <= a < |r| ==> r[a] == if a < k then s[a] else if a == k then x else s[a - 1];
    forall a, b | 0 <= a < b < |r| ensures Precedes(t[r[a]], t[r[b]]) {
      if a != k && b != k { assert Precedes(t[s[if a < k then a else a - 1]], t[s[if b < k then b else b - 1]]); }
    }
  }

  class Registry {
    /** `#records`, in registration order. */
    var records: seq<Record>

    constructor ()
      ensures records == []
    {
      records := [];
    }

    ghost predicate Valid()
      reads this
    {
      Op.Inv(records)
    }

    // ---------------------------------------------------------------- reconciling

    /** `#reconcileConflicts`: reset, group, rank and mark, in four loops. */
    method ReconcileConflicts()
      requires Indexed(records)
      modifies this
      ensures records == Reconciled(old(records))
    {
      hide Marked, Group, Based, OpenBelow, Reconciled;
      ghost var was := records;
      var active := ListActive();
      ResetActive(active);
      var groups, order := GroupActive(active, was);
      NothingMarked(was);
      for g := 0 to |order|
        invariant |records| == |was|
        invariant forall i :: 0 <= i < |was| ==> records[i] == Marked(was, i, order[..g])
      {
        var c := order[g];
        assert c in order;
        if |groups[c]| >= 2 {
          MarkGroup(c, groups[c], was, order[..g]);
        } else {
          SmallGroupIsMarked(was, c, order[..g]);
        }
        assert order[..g + 1] == order[..g] + [c];
      }
      assert order[..|order|] == order;
      AllMarkedIsReconciled(was, records, order);
    }

    method ListActive() returns (active: seq<nat>)
      ensures active == OpenBelow(records, |records|)
    {
      active := [];
      for i := 0 to |records|
        invariant active == OpenBelow(records, i)
      {
        if !records[i].state.Closed? { active := active + [i]; }
      }
    }

    method ResetActive(active: seq<nat>)
      requires active == OpenBelow(records, |records|)
      modifies this
      ensures |records| == |old(records)| && forall i :: 0 <= i < |records| ==> records[i] == Based(old(records)[i])
    {
      hide OpenBelow, BaseState;
      ghost var was := records;
      OpenExact(was, |was|);
      for k := 0 to |active|
        invariant |records| == |was|
        invariant forall i :: 0 <= i < |was| ==> records[i] == if i in active[..k] then Based(was[i]) else was[i]
      {
        var i := active[k];
        assert active[k] in active && active[..k + 1] == active[..k] + [i];
        var r := records[i];
        assert r == was[i];
        records := records[i := r.(state := BaseState(r), owner := None, duplicates := [])];
      }
      assert active[..|active|] == active;
    }

    method GroupActive(active: seq<nat>, ghost was: Table) returns (groups: map<string, seq<nat>>, order: seq<string>)
      requires active == OpenBelow(was, |was|) && |records| == |was|
      requires forall i :: 0 <= i < |was| ==> records[i] == Based(was[i])
      ensures forall c <- order :: c in groups && groups[c] == Group(was, c)
      ensures forall a, b :: 0 <= a < b < |order| ==> order[a] != order[b]
      ensures forall i :: 0 <= i < |was| && !was[i].state.Closed? && was[i].conversation.Some? ==>
                was[i].conversation.value in order
    {
      hide GroupOf, OpenBelow, Gathered;
      groups, order := map[], [];
      NothingGathered(was, active);
      for k := 0 to |active|
        invariant Gathered(was, active, k, groups, order)
      {
        var i := active[k];
        ghost var before, known := groups, order;
        if records[i].conversation.Some? {
          var c := records[i].conversation.value;
          if c !in groups { order := order + [c]; }
          groups := groups[c := (if c in groups then groups[c] else []) + [i]];
        }
        GathersNext(was, active, k, before, known, groups, order);
      }
      AllGathered(was, active, groups, order);
    }

    /** One conflicting group: its first page by the ranking is named on all of them. */
    method MarkGroup(c: string, group: seq<nat>, ghost was: Table, ghost done: seq<string>)
      requires Indexed(was) && |records| == |was| && group == Group(was, c) && |group| >= 2 && c !in done
      requires forall i :: 0 <= i < |was| ==> records[i] == Marked(was, i, done)
      modifies this
      ensures |records| == |was| && forall i :: 0 <= i < |was| ==> records[i] == Marked(was, i, done + [c])
    {
      hide Marked, Judged, Ranked, KeysOf, Group, Conflicted, Without;
      MarkedKeepsIdentity(was, records, done);
      var sorted := RankGroup(c, group, was);
      var allKeys := ListKeys(sorted, was);
      ghost var before := records;
      for k := 0 to |sorted|
        invariant |records| == |was|
        invariant forall i :: 0 <= i < |was| ==>
                    records[i] == if i in sorted[..k] then Marked(was, i, done + [c]) else before[i]
      {
        var i := sorted[k];
        assert sorted[k] in sorted && sorted[..k + 1] == sorted[..k] + [i];
        RankedIsSorted(was, c);
        SortedIsDistinct(was, sorted, k);
        MarkedInConflict(was, i, c, done);
        var duplicates := KeysWithout(allKeys, records[i].key);
        records := records[i := records[i].(state := Conflict, owner := Some(allKeys[0]), duplicates := duplicates)];
      }
      assert sorted[..|sorted|] == sorted;
      OthersStayMarked(was, c, done);
    }

    method RankGroup(c: string, group: seq<nat>, ghost was: Table) returns (sorted: seq<nat>)
      requires Indexed(was) && Indexed(records) && |records| == |was| && group == Group(was, c)
      requires forall i :: 0 <= i < |was| ==>
                 records[i].order == was[i].order && records[i].conversation == was[i].conversation
                 && records[i].expected == was[i].expected
      ensures sorted == Ranked(was, c) && |sorted| == |group|
    {
      GroupIsOpenPages(was, c);
      sorted := SortGroup(records, group);
      RankedIsSorted(was, c);
      SameRanking(was, records, sorted);
      SortedIsUnique(was, sorted, Ranked(was, c));
    }

    method ListKeys(sorted: seq<nat>, ghost was: Table) returns (keys: seq<PageKey>)
      requires |records| == |was| && Within(was, sorted) && forall i :: 0 <= i < |was| ==> records[i].key == was[i].key
      ensures keys == KeysOf(was, sorted)
    {
      keys := [];
      for k := 0 to |sorted|
        invariant keys == KeysOf(was, sorted[..k])
      {
        assert sorted[..k + 1][..k] == sorted[..k];
        keys := keys + [records[sorted[k]].key];
      }
      assert sorted[..|sorted|] == sorted;
    }

    method KeysWithout(keys: seq<PageKey>, key: PageKey) returns (rest: seq<PageKey>)
      ensures rest == Without(keys, key)
    {
      rest := [];
      for k := 0 to |keys|
        invariant rest == Without(keys[..k], key)
      {
        assert keys[..k + 1][..k] == keys[..k];
        if keys[k] != key { rest := rest + [keys[k]]; }
      }
      assert keys[..|keys|] == keys;
    }

    // ---------------------------------------------------------------- operations

    method Find(key: PageKey) returns (i: Option<nat>)
      ensures i == Op.IndexOf(records, key)
    {
      var n: nat := |records|;
      assert records[..n] == records;
      while n > 0
        invariant n <= |records|
        invariant Op.IndexOf(records, key) == Op.IndexOf(records[..n], key)
      {
        assert records[..n][..n - 1] == records[..n - 1];
        if records[n - 1].key == key { return Some(n - 1); }
        n := n - 1;
      }
      return None;
    }

    method MarkClosed(i: nat)
      requires Valid() && i < |records|
      modifies this
      ensures Valid() && records == Op.MarkClosed(old(records), i)
    {
      hide Reconciled, Settled, Op.Continues;
      if records[i].state.Closed? { return; }
      ghost var was := records;
      Op.WriteKeeps(was, i, was[i].(state := Closed, owner := None, duplicates := []), {});
      records := records[i := records[i].(state := Closed, owner := None, duplicates := [])];
      ReconcileConflicts();
    }

    method RegisterPage(page: PageId, key: PageKey, sight: Sight)
      requires Valid() && Op.IndexOf(records, key).None?
      modifies this
      ensures Valid() && records == Op.Register(old(records), page, key, sight)
    {
      Op.RegisterKeeps(records, page, key, sight);
      var known := false;
      for i := 0 to |records|
        invariant known <==> exists j :: 0 <= j < i && records[j].page == page
      {
        if records[i].page == page { known := true; }
      }
      if known { return; }
      var record := Record(key, page, |records|, None, 1, None, None,
                           ProviderUrl.ParseProviderConversationId(sight.url), None,
                           sight.url, if sight.closed then Closed else Unbound, None, [], false);
      Op.AppendKeepsIndex(records, record);
      records := records + [record];
      ReconcileConflicts();
    }

    method RefreshPage(i: nat, sight: Sight)
      requires Valid() && i < |records|
      modifies this
      ensures Valid() && records == Op.Refresh(old(records), i, sight)
    {
      hide Judged, ProviderUrl.ParseProviderConversationId, Op.Continues;
      Op.RefreshKeeps(records, i, sight);
      var r := records[i];
      if r.state.Closed? || sight.closed {
        MarkClosed(i);
        return;
      }
      if sight.url != r.url {
        r := r.(epoch := r.epoch + 1, url := sight.url);
      }
      r := r.(conversation := ProviderUrl.ParseProviderConversationId(sight.url));
      records := records[i := r];
      ReconcileConflicts();
    }

    method BindPage(key: PageKey, sight: Sight, session: SessionId, generation: Option<nat>, conversation: string)
      returns (error: Option<Op.PageError>)
      requires Valid()
      modifies this
      ensures Valid()
      ensures match Op.IndexOf(old(records), key)
              case None => error == Some(Op.BrowserUnavailable) && records == old(records)
              case Some(i) =>
                && Op.Answer(records, error) == Op.Bind(old(records), i, sight, session, generation, conversation)
                && (error.None? <==> Rights.MayBind(old(records), i, sight, session, generation, conversation))
                && (error.None? ==> i < |records| && records[i] == Rights.Given(Rights.Shown(old(records)[i], sight),
                        session, generation, Some(conversation), Owned))
    {
      var found := Find(key);
      if found.None? { return Some(Op.BrowserUnavailable); }
      var i := found.value;
      Rights.BindsExactlyWhen(records, i, sight, session, generation, conversation);
      RefreshPage(i, sight);
      var r := records[i];
      if r.state.Closed? || sight.closed { return Some(Op.BrowserUnavailable); }
      if r.state.Conflict? { return Some(Op.IdentityUnverified); }
      if r.session.Some? && r.session != Some(session) { return Some(Op.IdentityUnverified); }
      if r.generation.Some? && r.generation != generation { return Some(Op.IdentityUnverified); }
      if r.expected.Some? && r.expected != Some(conversation) { return Some(Op.ConversationMismatch); }
      if r.conversation != Some(conversation) { return Some(Op.ConversationMismatch); }
      Give(i, r.(session := Some(session), generation := generation, expected := Some(conversation)));
      return None;
    }

    method ReservePage(key: PageKey, sight: Sight, session: SessionId, generation: nat, conversation: Option<string>)
      returns (error: Option<Op.PageError>)
      requires Valid()
      modifies this
      ensures Valid()
      ensures match Op.IndexOf(old(records), key)
              case None => error == Some(Op.BrowserUnavailable) && records == old(records)
              case Some(i) =>
                && Op.Answer(records, error) == Op.Reserve(old(records), i, sight, session, generation, conversation)
                && (error.None? <==> Rights.MayReserve(old(records), i, sight, session, conversation))
                && (error.None? ==> i < |records| && records[i] == Rights.Given(Rights.Shown(old(records)[i], sight),
                        session, Some(generation), conversation, if conversation.Some? then Owned else Reserved))
    {
      var found := Find(key);
      if found.None? { return Some(Op.BrowserUnavailable); }
      var i := found.value;
      Rights.ReservesExactlyWhen(records, i, sight, session, generation, conversation);
      RefreshPage(i, sight);
      var r := records[i];
      if r.state.Closed? || sight.closed { return Some(Op.BrowserUnavailable); }
      if r.state.Conflict? { return Some(Op.IdentityUnverified); }
      if r.session.Some? && r.session != Some(session) { return Some(Op.IdentityUnverified); }
      if conversation.None? && r.conversation.Some? { return Some(Op.IdentityUnverified); }
      if conversation.Some? && r.conversation != conversation { return Some(Op.ConversationMismatch); }
      Give(i, r.(session := Some(session), generation := Some(generation), expected := conversation));
      return None;
    }

    /** `findByConversation(c).length`. */
    method CountAt(c: string) returns (count: nat)
      ensures count == Op.Count(records, c)
    {
      count := 0;
      for n := 0 to |records|
        invariant count == |Op.PositionsAt(records, c, n)|
      {
        assert Op.PositionsAt(records, c, n + 1) ==
               if At(records[n], c) then Op.PositionsAt(records, c, n) + {n} else Op.PositionsAt(records, c, n);
        if At(records[n], c) { count := count + 1; }
      }
    }

    method ReserveUnknownConversationCandidate(key: PageKey, sight: Sight, session: SessionId, generation: nat,
        target: TargetId)
      returns (error: Option<Op.PageError>)
      requires Valid()
      modifies this
      ensures Valid()
      ensures match Op.IndexOf(old(records), key)
              case None => error == Some(Op.BrowserUnavailable) && records == old(records)
              case Some(i) =>
                && Op.Answer(records, error) == Op.ReserveUnknown(old(records), i, sight, session, generation, target)
                && (error.None? <==> Rights.MayReserveUnknown(old(records), i, sight, target))
                && (error.None? ==> i < |records| && records[i] == Rights.Given(Rights.Shown(old(records)[i], sight),
                        session, Some(generation), None, IdentityLost))
    {
      var found := Find(key);
      if found.None? { return Some(Op.BrowserUnavailable); }
      var i := found.value;
      Rights.ReservesUnknownExactlyWhen(records, i, sight, session, generation, target);
      RefreshPage(i, sight);
      var r := records[i];
      if !r.state.Unbound? || r.session.Some? || r.target != Some(target) || r.conversation.None? {
        return Some(Op.IdentityUnverified);
      }
      var count := CountAt(r.conversation.value);
      if count != 1 { return Some(Op.IdentityUnverified); }
      Give(i, r.(session := Some(session), generation := Some(generation), expected := None));
      return None;
    }

    method BindVerifiedRedirect(key: PageKey, sight: Sight, session: SessionId, generation: Option<nat>,
                                previous: string, conversation: string)
      returns (error: Option<Op.PageError>)
      requires Valid()
      modifies this
      ensures Valid()
      ensures match Op.IndexOf(old(records), key)
              case None => error == Some(Op.BrowserUnavailable) && records == old(records)
              case Some(i) =>
                && Op.Answer(records, error)
                    == Op.BindRedirect(old(records), i, sight, session, generation, previous, conversation)
                && (error.None? <==> Rights.MayBindRedirect(old(records), i, sight, session, generation,
                        previous, conversation))
                && (error.None? ==> i < |records| && records[i] == Rights.Given(Rights.Shown(old(records)[i], sight),
                        session, generation, Some(conversation), Owned))
    {
      var found := Find(key);
      if found.None? { return Some(Op.BrowserUnavailable); }
      var i := found.value;
      Rights.BindsRedirectExactlyWhen(records, i, sight, session, generation, previous, conversation);
      RefreshPage(i, sight);
      var r := records[i];
      if !Op.IsTemporary(previous) || Op.IsTemporary(conversation) || !r.state.IdentityLost?
          || r.session != Some(session) || r.generation != generation {
        return Some(Op.IdentityUnverified);
      }
      if (r.expected != Some(previous) && r.expected.Some?) || r.conversation != Some(conversation) {
        return Some(Op.IdentityUnverified);
      }
      Give(i, r.(expected := Some(conversation)));
      return None;
    }

    method ReserveRedirectCandidate(key: PageKey, sight: Sight, session: SessionId, generation: Option<nat>,
                                    previous: string, conversation: string)
      returns (error: Option<Op.PageError>)
      requires Valid()
      modifies this
      ensures Valid()
      ensures match Op.IndexOf(old(records), key)
              case None => error == Some(Op.BrowserUnavailable) && records == old(records)
              case Some(i) =>
                && Op.Answer(records, error)
                    == Op.ReserveRedirect(old(records), i, sight, session, generation, previous, conversation)
                && (error.None? <==> Rights.MayReserveRedirect(old(records), i, sight, previous, conversation))
                && (error.None? ==> i < |records| && records[i] == Rights.Given(Rights.Shown(old(records)[i], sight),
                        session, generation, Some(previous), IdentityLost))
    {
      var found := Find(key);
      if found.None? { return Some(Op.BrowserUnavailable); }
      var i := found.value;
      Rights.ReservesRedirectExactlyWhen(records, i, sight, session, generation, previous, conversation);
      RefreshPage(i, sight);
      var r := records[i];
      if !r.state.Unbound? || r.session.Some? || r.conversation != Some(conversation) || !Op.IsTemporary(previous)
          || Op.IsTemporary(conversation) {
        return Some(Op.IdentityUnverified);
      }
      Give(i, r.(session := Some(session), generation := generation, expected := Some(previous)));
      return None;
    }

    method ReconnectCrashedPage(key: PageKey, expected: Record, was: Sight, page: PageId, sight: Sight,
                                target: TargetId)
      returns (error: Option<Op.PageError>)
      requires Valid()
      modifies this
      ensures Valid()
      ensures match Op.IndexOf(old(records), key)
              case None => error == Some(Op.BrowserUnavailable) && records == old(records)
              case Some(i) =>
                && Op.Answer(records, error) == Op.Reconnect(old(records), i, expected, was, page, sight, target)
                && (error.None? <==> Rights.MayReconnect(old(records), i, expected, was, page, sight, target))
                && (error.None? ==> i < |records| && records[i] == old(records)[i].(page := page, crashed := false,
                        epoch := old(records)[i].epoch + 1))
    {
      hide Reconciled, Settled, Op.Continues;
      var found := Find(key);
      if found.None? { return Some(Op.BrowserUnavailable); }
      var i := found.value;
      Rights.ReconnectsExactlyWhen(records, i, expected, was, page, sight, target);
      var r := records[i];
      var known := false;
      for j := 0 to |records|
        invariant known <==> exists k :: 0 <= k < j && records[k].page == page
      {
        if records[j].page == page { known := true; }
      }
      if !r.crashed || !(r.state.Owned? || r.state.Reserved?) || was.closed || sight.closed {
        return Some(Op.IdentityUnverified);
      }
      if || r.target != Some(target) || expected.target != Some(target) || r.epoch != expected.epoch
          || r.session != expected.session
         || r.generation != expected.generation || r.conversation != expected.conversation
         || r.expected != expected.expected
         || r.url != expected.url || sight.url != expected.url || known { return Some(Op.IdentityUnverified); }
      Runs.UnseenKeeps(records, i, r.(page := page, crashed := false, epoch := r.epoch + 1));
      records := records[i := r.(page := page, crashed := false, epoch := r.epoch + 1)];
      return None;
    }

    /** The context closes, or the registry detaches from it: every open page of it is closed, one after the other. */
    method CloseContext(pages: set<PageId>)
      requires Valid()
      modifies this
      ensures Valid() && records == Runs.CloseAll(old(records), pages, |old(records)|)
    {
      hide Op.Inv, Runs.CloseAll, Reconciled;
      ghost var was := records;
      CloseNone(was, pages);
      for n := 0 to |records|
        invariant Valid() && |records| == |was| && records == Runs.CloseAll(was, pages, n)
      {
        CloseNext(was, pages, n);
        if records[n].page in pages && !records[n].state.Closed? { MarkClosed(n); }
      }
    }

    method UnbindPage(key: PageKey) returns (error: Option<Op.PageError>)
      requires Valid()
      modifies this
      ensures Valid()
      ensures match Op.IndexOf(old(records), key)
              case None => error == Some(Op.BrowserUnavailable) && records == old(records)
              case Some(i) => error.None? && records == Op.Unbind(old(records), i)
    {
      hide Reconciled, Settled, Op.Continues;
      var found := Find(key);
      if found.None? { return Some(Op.BrowserUnavailable); }
      var i := found.value;
      Op.WriteKeeps(records, i, records[i].(session := None, generation := None, expected := None), {key});
      records := records[i := records[i].(session := None, generation := None, expected := None)];
      ReconcileConflicts();
      return None;
    }

    /** The assignment and reconciliation every granting operation ends with. */
    method Give(i: nat, r: Record)
      requires Valid() && i < |records| && Op.RecordContinues(records[i], r, false) && r.page == records[i].page
      modifies this
      ensures Valid() && records == Op.Write(old(records), i, r)
    {
      hide Reconciled, Settled, Op.Continues;
      Op.WriteKeeps(records, i, r, {});
      records := records[i := r];
      ReconcileConflicts();
    }

    /**
     The refreshed page is the session's own, and free for it: owned at the conversation, or reserved while there is
     none yet.
     */
    ghost predicate Grants(i: nat, sight: Sight, session: SessionId, generation: Option<nat>,
                           conversation: Option<string>)
      reads this
      requires i < |records|
    {
      var r := records[i];
      && !sight.closed && r.session == Some(session) && (generation.Some? ==> r.generation == generation)
      && (if conversation.None? then r.state.Reserved? else r.state.Owned? && r.conversation == conversation)
    }

    /**
     `requireSessionPage`: it hands out the page exactly when the refreshed record grants it; that page is
     open, where the session expects it, and the only open page at the conversation.
     */
    method RequireSessionPage(key: PageKey, sight: Sight, session: SessionId, generation: Option<nat>,
                              conversation: Option<string>)
      returns (page: Option<PageId>)
      requires Valid()
      modifies this
      ensures Valid()
      ensures match Op.IndexOf(old(records), key)
              case None => page.None? && records == old(records)
              case Some(i) =>
                && records == Op.Refresh(old(records), i, sight)
                && (page.Some? <==> Grants(i, sight, session, generation, conversation))
                && (page.Some? ==>
                      var r := records[i];
                      && page.value == r.page && !sight.closed && r.url == sight.url && r.session == Some(session)
                      && (generation.Some? ==> r.generation == generation)
                      && (conversation.None? ==> r.state.Reserved?)
                      && (conversation.Some? ==> r.conversation == conversation)
                      && (conversation.Some? ==>
                            forall j :: 0 <= j < |records| && !records[j].state.Closed? ==>
                                          records[j].conversation == conversation ==> j == i))
    {
      var found := Find(key);
      if found.None? { return None; }
      var i := found.value;
      RefreshPage(i, sight);
      var r := records[i];
      if r.state.Closed? || sight.closed { return None; }
      if r.state.Conflict? || r.state.IdentityLost? { return None; }
      if r.session != Some(session) || (generation.Some? && r.generation != generation) { return None; }
      if conversation.None? && !r.state.Reserved? { return None; }
      if conversation.Some? && !(r.state.Owned? && r.conversation == conversation) { return None; }
      forall j | 0 <= j < |records| && conversation.Some? && !records[j].state.Closed?
          && records[j].conversation == conversation
        ensures j == i
      {
        OwnedIsExclusive(records, i, j);
      }
      Op.ReconciledSettles(old(records)[i := old(records)[i].(epoch := r.epoch, url := sight.url,
          conversation := r.conversation)]);
      return Some(r.page);
    }
  }

  // ---------------------------------------------------------------- between the loops

  lemma CloseNone(t: Table, pages: set<PageId>)
    ensures Runs.CloseAll(t, pages, 0) == t
  {}

  lemma CloseNext(t: Table, pages: set<PageId>, n: nat)
    requires n < |t|
    ensures var u := Runs.CloseAll(t, pages, n);
            Runs.CloseAll(t, pages, n + 1) == if u[n].page in pages && !u[n].state.Closed? then Op.MarkClosed(u, n)
                else u
  {
    hide Reconciled;
  }

  /** The record while the groups of `done` have been marked and the others not yet. */
  function Marked(was: Table, i: nat, done: seq<string>): Record
    requires i < |was|
  {
    if was[i].state.Closed? then was[i]
    else if was[i].conversation.Some? && was[i].conversation.value in done then Judged(was, i)
    else Based(was[i])
  }

  lemma NothingMarked(was: Table)
    ensures forall i :: 0 <= i < |was| ==> Marked(was, i, []) == Based(was[i])
  {}

  lemma SmallGroupIsMarked(was: Table, c: string, done: seq<string>)
    requires |Group(was, c)| < 2
    ensures forall i :: 0 <= i < |was| ==> Marked(was, i, done + [c]) == Marked(was, i, done)
  {
    forall i | 0 <= i < |was| ensures Marked(was, i, done + [c]) == Marked(was, i, done) {
      if At(was[i], c) { GroupSizeIsConflict(was, i, c); }
    }
  }

  function InGroup(groups: map<string, seq<nat>>, c: string): seq<nat> {
    if c in groups then groups[c] else []
  }

  /** The first `k` open pages are gathered under their conversations, each conversation listed once. */
  ghost predicate Gathered(t: Table, active: seq<nat>, k: nat, groups: map<string, seq<nat>>, order: seq<string>)
    requires Within(t, active) && k <= |active|
  {
    && (forall c: string :: GroupOf(t, active[..k], c) == InGroup(groups, c))
    && (forall c: string :: c in order <==> c in groups)
    && (forall a, b :: 0 <= a < b < |order| ==> order[a] != order[b])
    && (forall j :: 0 <= j < k && t[active[j]].conversation.Some? ==> t[active[j]].conversation.value in groups)
  }

  lemma NothingGathered(t: Table, active: seq<nat>)
    requires Within(t, active)
    ensures Gathered(t, active, 0, map[], [])
  {
    assert active[..0] == [];
  }

  /** The next open page joins the group of its conversation, and a new conversation is listed last. */
  predicate Joined(c: Option<string>, i: nat, before: map<string, seq<nat>>, known: seq<string>,
                   groups: map<string, seq<nat>>, order: seq<string>) {
    if c.None? then groups == before && order == known
    else
      && groups == before[c.value := (if c.value in before then before[c.value] else []) + [i]]
      && order == if c.value in before then known else known + [c.value]
  }

  lemma GroupsGrow(t: Table, active: seq<nat>, k: nat, before: map<string, seq<nat>>, known: seq<string>,
                   groups: map<string, seq<nat>>, order: seq<string>)
    requires Within(t, active) && k < |active| && forall c: string :: GroupOf(t, active[..k], c) == InGroup(before, c)
    requires Joined(t[active[k]].conversation, active[k], before, known, groups, order)
    ensures forall c: string :: GroupOf(t, active[..k + 1], c) == InGroup(groups, c)
  {
    hide GroupOf;
    GroupSteps(t, active, k);
    forall d: string ensures GroupOf(t, active[..k + 1], d) == InGroup(groups, d) {
      assert GroupOf(t, active[..k], d) == InGroup(before, d);
    }
  }

  lemma OrderGrows(c: string, i: nat, before: map<string, seq<nat>>, known: seq<string>,
                   groups: map<string, seq<nat>>, order: seq<string>)
    requires (forall d: string :: d in known <==> d in before)
             && (forall a, b :: 0 <= a < b < |known| ==> known[a] != known[b])
    requires Joined(Some(c), i, before, known, groups, order)
    ensures (forall d: string :: d in order <==> d in groups)
            && (forall a, b :: 0 <= a < b < |order| ==> order[a] != order[b])
  {
    if c !in before { assert c !in known; }
  }

  lemma GathersNext(t: Table, active: seq<nat>, k: nat, before: map<string, seq<nat>>, known: seq<string>,
                    groups: map<string, seq<nat>>, order: seq<string>)
    requires Within(t, active) && k < |active| && Gathered(t, active, k, before, known)
    requires Joined(t[active[k]].conversation, active[k], before, known, groups, order)
    ensures Gathered(t, active, k + 1, groups, order)
  {
    hide GroupOf, InGroup;
    GroupsGrow(t, active, k, before, known, groups, order);
    if t[active[k]].conversation.Some? {
      OrderGrows(t[active[k]].conversation.value, active[k], before, known, groups, order);
    }
  }

  lemma AllGathered(was: Table, active: seq<nat>, groups: map<string, seq<nat>>, order: seq<string>)
    requires active == OpenBelow(was, |was|) && Gathered(was, active, |active|, groups, order)
    ensures forall c <- order :: c in groups && groups[c] == Group(was, c)
    ensures forall a, b :: 0 <= a < b < |order| ==> order[a] != order[b]
    ensures forall i :: 0 <= i < |was| && !was[i].state.Closed? && was[i].conversation.Some? ==>
              was[i].conversation.value in order
  {
    hide OpenBelow, GroupOf;
    assert active[..|active|] == active;
    AllGrouped(was, active, groups);
  }

  lemma GroupSteps(t: Table, active: seq<nat>, k: nat)
    requires Within(t, active) && k < |active|
    ensures forall c: string :: GroupOf(t, active[..k + 1], c) ==
              if t[active[k]].conversation == Some(c) then GroupOf(t, active[..k], c) + [active[k]]
              else GroupOf(t, active[..k], c)
  {
    assert active[..k + 1][..k] == active[..k];
  }

  lemma AllGrouped(was: Table, active: seq<nat>, groups: map<string, seq<nat>>)
    requires active == OpenBelow(was, |was|)
    requires forall c: string :: GroupOf(was, active, c) == InGroup(groups, c)
    requires forall j :: 0 <= j < |active| && was[active[j]].conversation.Some? ==>
               was[active[j]].conversation.value in groups
    ensures forall c <- groups :: groups[c] == Group(was, c)
    ensures forall i :: 0 <= i < |was| && !was[i].state.Closed? && was[i].conversation.Some? ==>
              was[i].conversation.value in groups
  {
    hide OpenBelow, GroupOf;
    OpenExact(was, |was|);
    forall i | 0 <= i < |was| && !was[i].state.Closed? && was[i].conversation.Some?
      ensures was[i].conversation.value in groups
    {
      assert i in active;
      var j :| 0 <= j < |active| && active[j] == i;
    }
    forall c | c in groups ensures groups[c] == Group(was, c) {
      assert GroupOf(was, active, c) == InGroup(groups, c);
    }
  }

  lemma MarkedInConflict(was: Table, i: nat, c: string, done: seq<string>)
    requires i < |was| && i in Ranked(was, c) && |Group(was, c)| >= 2 && Indexed(was) && c !in done
    ensures |KeysOf(was, Ranked(was, c))| > 0
    ensures var keys := KeysOf(was, Ranked(was, c));
            Marked(was, i, done + [c]) == Marked(was, i, done).(state := Conflict, owner := Some(keys[0]),
                duplicates := Without(keys, was[i].key))
    ensures Marked(was, i, done).key == was[i].key
  {
    RankedIsSorted(was, c);
    GroupSizeIsConflict(was, i, c);
  }

  lemma OthersStayMarked(was: Table, c: string, done: seq<string>)
    requires Indexed(was)
    ensures forall i :: 0 <= i < |was| && i !in Ranked(was, c) ==> Marked(was, i, done + [c]) == Marked(was, i, done)
  {
    RankedIsSorted(was, c);
  }

  lemma AllMarkedIsReconciled(was: Table, records: Table, order: seq<string>)
    requires |records| == |was| && forall i :: 0 <= i < |was| ==> records[i] == Marked(was, i, order)
    requires forall i :: 0 <= i < |was| && !was[i].state.Closed? && was[i].conversation.Some? ==>
               was[i].conversation.value in order
    ensures records == Reconciled(was)
  {
    forall i | 0 <= i < |was| ensures records[i] == Judged(was, i) {}
  }

  lemma MarkedKeepsIdentity(was: Table, records: Table, done: seq<string>)
    requires Indexed(was) && |records| == |was| && forall i :: 0 <= i < |was| ==> records[i] == Marked(was, i, done)
    ensures Indexed(records)
    ensures forall i :: 0 <= i < |was| ==> records[i].order == was[i].order && records[i].key == was[i].key &&
                                           records[i].conversation == was[i].conversation
                                               && records[i].expected == was[i].expected
  {
    assert forall i :: 0 <= i < |was| ==>
             records[i].order == was[i].order && records[i].key == was[i].key && records[i].page == was[i].page;
  }

  lemma SameRanking(was: Table, records: Table, sorted: seq<nat>)
    requires |records| == |was| && SortedBy(records, sorted)
    requires forall i :: 0 <= i < |was| ==>
               records[i].order == was[i].order && records[i].conversation == was[i].conversation
               && records[i].expected == was[i].expected
    ensures SortedBy(was, sorted)
  {
    forall a, b | 0 <= a < b < |sorted| ensures Precedes(was[sorted[a]], was[sorted[b]]) {
      assert Precedes(records[sorted[a]], records[sorted[b]]);
    }
  }

  lemma SortedIsDistinct(t: Table, sorted: seq<nat>, k: nat)
    requires SortedBy(t, sorted) && k < |sorted|
    ensures sorted[k] !in sorted[..k]
  {
    forall a | 0 <= a < k ensures sorted[a] != sorted[k] { assert Precedes(t[sorted[a]], t[sorted[k]]); }
  }
}
