/**
 Page ownership as a rule over the table of registered pages: which pages are in conflict, who
 owns a conflict, and what every operation does to the table.

 A table lists its records in registration order. What an operation reads from the browser's page
 object during its synchronous turn is its `Sight`.
 */
module PageRules {
  import opened Wrappers
  import ProviderUrl

  type PageKey = nat
  type PageId = nat
  type TargetId = nat
  type SessionId = nat

  datatype Sight = Sight(url: string, closed: bool)

  datatype BindingState = Unbound | Reserved | Owned | IdentityLost | Conflict | Closed

  datatype Record = Record(
    key: PageKey, page: PageId, order: nat, target: Option<TargetId>, epoch: nat,
    session: Option<SessionId>, generation: Option<nat>,
    conversation: Option<string>, expected: Option<string>, url: string,
    state: BindingState, owner: Option<PageKey>, duplicates: seq<PageKey>, crashed: bool)

  type Table = seq<Record>

  // ---------------------------------------------------------------- the rule

  /** `#baseState`. */
  function BaseState(r: Record): BindingState {
    if r.expected.None? then
      if r.session.None? then Unbound else if r.conversation.None? then Reserved else IdentityLost
    else if r.conversation == r.expected then Owned else IdentityLost
  }

  /** An open page at the conversation. */
  predicate At(r: Record, c: string) {
    !r.state.Closed? && r.conversation == Some(c)
  }

  predicate Conflicted(t: Table, i: nat)
    requires i < |t|
  {
    t[i].conversation.Some? && exists j :: 0 <= j < |t| && j != i && At(t[j], t[i].conversation.value)
  }

  /** The page is bound to the conversation it is at. */
  predicate Bound(r: Record) {
    r.expected == r.conversation
  }

  /** The order in which conflicting pages are ranked: bound pages first, then by registration. */
  predicate Precedes(a: Record, b: Record) {
    (Bound(a) && !Bound(b)) || (Bound(a) == Bound(b) && a.order < b.order)
  }

  /** The positions below `n` of the open pages at `c` that are bound, or that are not. */
  function Members(t: Table, c: string, bound: bool, n: nat): (r: seq<nat>)
    requires n <= |t|
    ensures forall k :: 0 <= k < |r| ==> r[k] < n
  {
    if n == 0 then []
    else Members(t, c, bound, n - 1) + (if At(t[n - 1], c) && Bound(t[n - 1]) == bound then [n - 1] else [])
  }

  predicate Within(t: Table, group: seq<nat>) {
    forall k :: 0 <= k < |group| ==> group[k] < |t|
  }

  function Ranked(t: Table, c: string): (r: seq<nat>)
    ensures Within(t, r)
  {
    Members(t, c, true, |t|) + Members(t, c, false, |t|)
  }

  function KeysOf(t: Table, group: seq<nat>): (r: seq<PageKey>)
    requires Within(t, group)
    ensures |r| == |group| && forall k :: 0 <= k < |r| ==> r[k] == t[group[k]].key
  {
    if group == [] then [] else KeysOf(t, group[..|group| - 1]) + [t[group[|group| - 1]].key]
  }

  function Without(keys: seq<PageKey>, key: PageKey): seq<PageKey> {
    if keys == [] then []
    else Without(keys[..|keys| - 1], key) + (if keys[|keys| - 1] != key then [keys[|keys| - 1]] else [])
  }

  /** What the table says of one page, by the rule alone. */
  function Judged(t: Table, i: nat): Record
    requires i < |t|
  {
    var r := t[i];
    if r.state.Closed? then r
    else if Conflicted(t, i) then
      var keys := KeysOf(t, Ranked(t, r.conversation.value));
      r.(state := Conflict, owner := if keys == [] then None else Some(keys[0]), duplicates := Without(keys, r.key))
    else r.(state := BaseState(r), owner := None, duplicates := [])
  }

  function Reconciled(t: Table): (r: Table)
    ensures |r| == |t|
  {
    seq(|t|, i requires 0 <= i < |t| => Judged(t, i))
  }

  /** The table is well formed: registration order is position, keys and open page objects are unique. */
  ghost predicate Indexed(t: Table) {
    && (forall i :: 0 <= i < |t| ==> t[i].order == i)
    && (forall i, j :: 0 <= i < |t| && 0 <= j < |t| && t[i].key == t[j].key ==> i == j)
    && (forall i, j :: 0 <= i < |t| && 0 <= j < |t| && t[i].page == t[j].page ==> i == j)
  }

  ghost predicate Settled(t: Table) {
    forall i :: 0 <= i < |t| ==> t[i] == Judged(t, i)
  }

  // ---------------------------------------------------------------- what the rule means

  lemma {:induction false} MembersExact(t: Table, c: string, bound: bool, n: nat)
    requires n <= |t|
    ensures forall i :: i in Members(t, c, bound, n) <==> 0 <= i < n && At(t[i], c) && Bound(t[i]) == bound
  {
    if n > 0 { MembersExact(t, c, bound, n - 1); }
  }

  lemma {:induction false} MembersAscend(t: Table, c: string, bound: bool, n: nat)
    requires n <= |t|
    ensures forall a, b :: 0 <= a < b < |Members(t, c, bound, n)| ==>
              Members(t, c, bound, n)[a] < Members(t, c, bound, n)[b]
  {
    if n > 0 { MembersAscend(t, c, bound, n - 1); }
  }

  ghost predicate SortedBy(t: Table, group: seq<nat>) {
    && Within(t, group)
    && forall a, b :: 0 <= a < b < |group| ==> Precedes(t[group[a]], t[group[b]])
  }

  /** The ranking lists exactly the open pages at the conversation, bound pages first, then by registration. */
  lemma RankedIsSorted(t: Table, c: string)
    requires Indexed(t)
    ensures SortedBy(t, Ranked(t, c))
    ensures forall i :: i in Ranked(t, c) <==> 0 <= i < |t| && At(t[i], c)
  {
    MembersExact(t, c, true, |t|);
    MembersExact(t, c, false, |t|);
    MembersAscend(t, c, true, |t|);
    MembersAscend(t, c, false, |t|);
    var first, second := Members(t, c, true, |t|), Members(t, c, false, |t|);
    forall a, b | 0 <= a < b < |Ranked(t, c)| ensures Precedes(t[Ranked(t, c)[a]], t[Ranked(t, c)[b]]) {
      if a < |first| { assert first[a] in first; } else { assert second[a - |first|] in second; }
      if b < |first| { assert first[b] in first; } else { assert second[b - |first|] in second; }
    }
  }

  /** A strictly sorted list is determined by its members. */
  lemma {:induction false} SortedIsUnique(t: Table, a: seq<nat>, b: seq<nat>)
    requires Indexed(t) && SortedBy(t, a) && SortedBy(t, b) && forall i :: i in a <==> i in b
    ensures a == b
    decreases |a|
  {
    HasMember(a);
    HasMember(b);
    if a != [] {
      FirstPrecedes(t, b, a[0]);
      FirstPrecedes(t, a, b[0]);
      forall i ensures i in a[1..] <==> i in b[1..] {
        TailMembers(t, a, i);
        TailMembers(t, b, i);
      }
      SortedIsUnique(t, a[1..], b[1..]);
      assert a == [a[0]] + a[1..] && b == [b[0]] + b[1..];
    }
  }

  lemma HasMember(a: seq<nat>)
    ensures a == [] || a[0] in a
  {}

  lemma FirstPrecedes(t: Table, a: seq<nat>, i: nat)
    requires SortedBy(t, a) && i in a
    ensures i < |t| && (a[0] == i || Precedes(t[a[0]], t[i]))
  {
    var k :| 0 <= k < |a| && a[k] == i;
  }

  lemma TailMembers(t: Table, a: seq<nat>, i: nat)
    requires SortedBy(t, a) && a != []
    ensures i in a[1..] <==> i in a && i != a[0]
  {
    if i in a[1..] {
      var k :| 0 <= k < |a[1..]| && a[1..][k] == i;
      assert Precedes(t[a[0]], t[a[k + 1]]);
    }
    if i in a && i != a[0] {
      var k :| 0 <= k < |a| && a[k] == i;
      assert a[1..][k - 1] == i;
    }
  }

  /**
   An open page is in conflict exactly when another open page has its conversation, and otherwise in its base state.
   */
  lemma ConflictRule(t: Table, i: nat)
    requires Settled(t) && i < |t| && !t[i].state.Closed?
    ensures t[i].state.Conflict? <==>
              t[i].conversation.Some? && exists j ::
              0 <= j < |t| && j != i && !t[j].state.Closed? && t[j].conversation == t[i].conversation
    ensures !t[i].state.Conflict? ==> t[i].state == BaseState(t[i]) && t[i].owner.None? && t[i].duplicates == []
  {
    assert t[i] == Judged(t, i);
    if t[i].conversation.Some? && exists j ::
    0 <= j < |t| && j != i && !t[j].state.Closed? && t[j].conversation == t[i].conversation {
      var j :| 0 <= j < |t| && j != i && !t[j].state.Closed? && t[j].conversation == t[i].conversation;
      assert At(t[j], t[i].conversation.value);
    }
  }

  lemma ConflictHasConversation(t: Table, i: nat)
    requires i < |t| && t[i] == Judged(t, i) && t[i].state.Conflict?
    ensures t[i].conversation.Some? && Conflicted(t, i)
  {}

  /** The first of a group precedes the rest of it. */
  lemma FirstOfGroup(t: Table, c: string, j: nat)
    requires Indexed(t) && j < |t| && At(t[j], c)
    ensures |Ranked(t, c)| > 0 && Ranked(t, c)[0] < |t| && At(t[Ranked(t, c)[0]], c)
    ensures j != Ranked(t, c)[0] ==> Precedes(t[Ranked(t, c)[0]], t[j])
  {
    hide Precedes, Bound;
    RankedIsSorted(t, c);
    var group := Ranked(t, c);
    assert j in group;
    assert group[0] in group;
    var k :| 0 <= k < |group| && group[k] == j;
  }

  /** The open pages of a group are all in conflict and name the same owner. */
  lemma GroupNamesOne(t: Table, i: nat, j: nat)
    requires Indexed(t) && Settled(t) && i < |t| && j < |t| && t[i].state.Conflict? && !t[j].state.Closed?
             && t[j].conversation == t[i].conversation
    ensures t[j].state.Conflict? && t[j].owner == t[i].owner
  {
    hide Ranked, KeysOf, Without;
    assert t[i] == Judged(t, i) && t[j] == Judged(t, j);
    ConflictHasConversation(t, i);
    var c := t[i].conversation.value;
    var other :| 0 <= other < |t| && other != i && At(t[other], c);
    if j != i { assert At(t[i], c); }
  }

  /** The named owner is the first of its group by the ranking, so the whole group names the same page. */
  lemma ConflictOwnerIsLeast(t: Table, i: nat)
    requires Indexed(t) && Settled(t) && i < |t| && t[i].state.Conflict?
    ensures exists o ::
            0 <= o < |t| && t[i].owner == Some(t[o].key) && !t[o].state.Closed?
            && t[o].conversation == t[i].conversation
              && (forall j ::
                  0 <= j < |t| && j != o && !t[j].state.Closed? && t[j].conversation == t[i].conversation ==>
                      Precedes(t[o], t[j]))
              && (forall j :: 0 <= j < |t| && !t[j].state.Closed? && t[j].conversation == t[i].conversation ==>
                  t[j].state.Conflict? && t[j].owner == t[i].owner)
  {
    hide Precedes, Ranked, Settled;
    var c, o := OwnerOf(t, i);
    forall j | 0 <= j < |t| && j != o && !t[j].state.Closed? && t[j].conversation == t[i].conversation
      ensures Precedes(t[o], t[j])
    {
      FirstOfGroup(t, c, j);
    }
    forall j | 0 <= j < |t| && !t[j].state.Closed? && t[j].conversation == t[i].conversation
      ensures t[j].state.Conflict? && t[j].owner == t[i].owner
    {
      GroupNamesOne(t, i, j);
    }
  }

  lemma OwnerOf(t: Table, i: nat) returns (c: string, o: nat)
    requires Indexed(t) && Settled(t) && i < |t| && t[i].state.Conflict?
    ensures t[i].conversation == Some(c) && !t[i].state.Closed? && |Ranked(t, c)| > 0 && o == Ranked(t, c)[0] && o < |t|
    ensures At(t[o], c) && t[i].owner == Some(t[o].key)
  {
    assert t[i] == Judged(t, i);
    ConflictHasConversation(t, i);
    c := t[i].conversation.value;
    FirstOfGroup(t, c, i);
    o := Ranked(t, c)[0];
  }

  /** The other pages named as duplicates are exactly the rest of the group. */
  lemma DuplicatesAreTheGroup(t: Table, i: nat)
    requires Indexed(t) && Settled(t) && i < |t| && t[i].state.Conflict?
    ensures forall j :: 0 <= j < |t| ==>
              (t[j].key in t[i].duplicates <==> j != i && !t[j].state.Closed? && t[j].conversation == t[i].conversation)
  {
    assert t[i] == Judged(t, i);
    ConflictHasConversation(t, i);
    var c := t[i].conversation.value;
    RankedIsSorted(t, c);
    var keys := KeysOf(t, Ranked(t, c));
    WithoutExact(keys, t[i].key);
    forall j | 0 <= j < |t| ensures t[j].key in t[i].duplicates <==> j != i && At(t[j], c) {
      if t[j].key in keys {
        var k :| 0 <= k < |keys| && keys[k] == t[j].key;
        assert Ranked(t, c)[k] in Ranked(t, c);
      }
      if At(t[j], c) {
        var k :| 0 <= k < |Ranked(t, c)| && Ranked(t, c)[k] == j;
        assert keys[k] == t[j].key;
      }
    }
  }

  lemma {:induction false} WithoutExact(keys: seq<PageKey>, key: PageKey)
    ensures forall k :: k in Without(keys, key) <==> k in keys && k != key
  {
    if keys != [] {
      WithoutExact(keys[..|keys| - 1], key);
      assert keys == keys[..|keys| - 1] + [keys[|keys| - 1]];
    }
  }

  /**
   A page that is owned is the only open page at its conversation, and that conversation is the one it is bound to.
   */
  lemma OwnedIsExclusive(t: Table, i: nat, j: nat)
    requires Settled(t) && i < |t| && j < |t| && t[i].state.Owned?
    ensures t[i].conversation.Some? && t[i].expected == t[i].conversation
    ensures !t[j].state.Closed? && t[j].conversation == t[i].conversation ==> i == j
  {
    ConflictRule(t, i);
  }
}
