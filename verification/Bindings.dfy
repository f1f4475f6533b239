/**
 The check a handover makes on the page bindings it took before and reads back after: a drained
 caller may advance a generation, a restart may recover an unowned alias of an owned page, and
 nothing else may change.
 */
module Bindings {
  import opened Wrappers

  type PageKey = nat
  type SessionId = nat

  datatype Row = Row(key: PageKey, session: Option<SessionId>, generation: Option<int>, conversation: Option<nat>,
                     target: Option<nat>)

  /** The (session, generation) pairs with a durable request. */
  type Durable = set<(SessionId, int)>

  /** `page_key` is the table's key. */
  ghost predicate Keyed(rows: seq<Row>) {
    forall i, j :: 0 <= i < |rows| && 0 <= j < |rows| && rows[i].key == rows[j].key ==> i == j
  }

  function Lookup(rows: seq<Row>, key: PageKey): (r: Option<Row>)
    ensures r.Some? ==> r.value in rows && r.value.key == key
    ensures r.None? ==> forall row <- rows :: row.key != key
  {
    if rows == [] then None
    else if rows[|rows| - 1].key == key then Some(rows[|rows| - 1])
    else Lookup(rows[..|rows| - 1], key)
  }

  predicate IsOwned(row: Row) { row.session.Some? && row.target.Some? }

  predicate SameIdentity(a: Row, b: Row) { a.conversation == b.conversation && a.target == b.target }

  predicate HasRequest(row: Row, durable: Durable) {
    row.session.Some? && row.generation.Some? && (row.session.value, row.generation.value) in durable
  }

  predicate IsOwnerOf(owner: Row, row: Row) {
    && IsOwned(owner) && owner.session == row.session && SameIdentity(owner, row)
    && owner.generation.Some? && row.generation.Some? && row.generation.value >= owner.generation.value
  }

  /** The row read back belongs to nobody before, and to a target owned before now. */
  predicate Recovered(original: Row, row: Row, before: seq<Row>) {
    && original.session.None? && original.generation.None? && SameIdentity(row, original)
    && exists owner :: owner in before && IsOwnerOf(owner, row)
  }

  /** The row read back is the same, or a later generation of the same page. */
  predicate Advanced(original: Row, row: Row, durable: Durable) {
    && row.session == original.session && SameIdentity(row, original)
    && (row.generation != original.generation ==>
          && original.session.Some? && original.generation.Some? && row.generation.Some?
          && row.generation.value > original.generation.value && HasRequest(row, durable))
  }

  predicate RowAccepted(original: Row, before: seq<Row>, after: seq<Row>, durable: Durable) {
    var row := Lookup(after, original.key);
    && row.Some?
    && if Recovered(original, row.value, before) then HasRequest(row.value, durable)
        else Advanced(original, row.value, durable)
  }

  predicate Accepted(before: seq<Row>, after: seq<Row>, durable: Durable) {
    forall original :: original in before ==> RowAccepted(original, before, after, durable)
  }

  /** `verify_bindings`. */
  method VerifyBindings(before: seq<Row>, after: seq<Row>, durable: Durable) returns (ok: bool)
    ensures ok == Accepted(before, after, durable)
  {
    var current: map<PageKey, Row> := map[];
    for i := 0 to |after|
      invariant forall key: PageKey :: (if key in current then Some(current[key]) else None) == Lookup(after[..i], key)
    {
      assert after[..i + 1][..i] == after[..i];
      current := current[after[i].key := after[i]];
    }
    assert after[..|after|] == after;
    for n := 0 to |before|
      invariant forall original :: original in before[..n] ==> RowAccepted(original, before, after, durable)
    {
      var original := before[n];
      assert original in before && before[..n + 1] == before[..n] + [original];
      assert Lookup(after, original.key) == if original.key in current then Some(current[original.key]) else None;
      if original.key !in current { return false; }
      var row := current[original.key];
      var recovered := false;
      if original.session.None? && original.generation.None? && SameIdentity(row, original) {
        for k := 0 to |before|
          invariant recovered <==> exists j :: 0 <= j < k && IsOwnerOf(before[j], row)
        {
          if IsOwnerOf(before[k], row) { recovered := true; }
        }
      }
      if recovered {
        if !HasRequest(row, durable) { return false; }
      } else {
        if row.session != original.session || !SameIdentity(row, original) { return false; }
        if row.generation != original.generation {
          if original.session.None? || original.generation.None? || row.generation.None? { return false; }
          if row.generation.value <= original.generation.value || !HasRequest(row, durable) { return false; }
        }
      }
    }
    assert before[..|before|] == before;
    return true;
  }

  // ---------------------------------------------------------------- what is accepted

  /** The row read back is for the same page. */
  predicate SamePage(original: Row, row: Row) {
    row.key == original.key && row.target == original.target && row.conversation == original.conversation
  }

  predicate SameOwner(original: Row, row: Row) {
    row.session == original.session && row.generation == original.generation
  }

  /** The session of the page went on to a later generation, with a durable request. */
  predicate WentOn(original: Row, row: Row, durable: Durable) {
    match (original.session, original.generation, row.session, row.generation)
    case (Some(was), Some(from), Some(session), Some(to)) => session == was && to > from && (session, to) in durable
    case _ => false
  }

  /**
   A page that was nobody's is now that of a session which owned the same target and conversation before, in a
   generation no older than then, with a durable request.
   */
  ghost predicate TakenOver(original: Row, row: Row, before: seq<Row>, durable: Durable) {
    && original.session.None? && original.generation.None?
    && row.session.Some? && row.generation.Some? && row.target.Some?
    && (row.session.value, row.generation.value) in durable
    && exists owner <- before ::
         && owner.session == row.session && owner.target == row.target && owner.conversation == row.conversation
         && owner.generation.Some? && owner.generation.value <= row.generation.value
  }

  /**
   A handover is accepted exactly when every page of before is read back once, with its target and conversation, and
   with the same session and generation, a later durable generation of the same session, or a durable owner taken over.
   */
  lemma AcceptedExactlyWhen(before: seq<Row>, after: seq<Row>, durable: Durable)
    requires Keyed(after)
    ensures Accepted(before, after, durable) <==>
              forall original <- before :: exists row <- after ::
                SamePage(original, row) && (SameOwner(original, row) || WentOn(original, row, durable)
                                            || TakenOver(original, row, before, durable))
  {
    forall original | original in before
      ensures RowAccepted(original, before, after, durable) <==>
                exists row <- after ::
                  SamePage(original, row) && (SameOwner(original, row) || WentOn(original, row, durable)
                                              || TakenOver(original, row, before, durable))
    {
      RowAcceptedExactlyWhen(original, before, after, durable);
    }
  }

  lemma RowAcceptedExactlyWhen(original: Row, before: seq<Row>, after: seq<Row>, durable: Durable)
    requires Keyed(after)
    ensures RowAccepted(original, before, after, durable) <==>
              exists row <- after ::
                SamePage(original, row) && (SameOwner(original, row) || WentOn(original, row, durable)
                                            || TakenOver(original, row, before, durable))
  {
    var found := Lookup(after, original.key);
    if found.Some? { RowMeans(original, found.value, before, durable); }
    forall row | row in after && row.key == original.key ensures found == Some(row) { LookupFinds(after, row); }
  }

  lemma RowMeans(original: Row, row: Row, before: seq<Row>, durable: Durable)
    requires row.key == original.key
    ensures (if Recovered(original, row, before) then HasRequest(row, durable) else Advanced(original, row, durable))
            <==> SamePage(original, row) && (SameOwner(original, row) || WentOn(original, row, durable)
                                             || TakenOver(original, row, before, durable))
  {
    if TakenOver(original, row, before, durable) && SamePage(original, row) {
      var owner :| owner in before && owner.session == row.session && owner.target == row.target
                   && owner.conversation == row.conversation && owner.generation.Some?
                   && owner.generation.value <= row.generation.value;
      assert IsOwnerOf(owner, row);
    }
    if Recovered(original, row, before) {
      var owner :| owner in before && IsOwnerOf(owner, row);
    }
  }

  // ---------------------------------------------------------------- handovers compose

  lemma {:induction false} LookupFinds(rows: seq<Row>, row: Row)
    requires Keyed(rows) && row in rows
    ensures Lookup(rows, row.key) == Some(row)
  {
    var last := rows[|rows| - 1];
    if last != row {
      var front := rows[..|rows| - 1];
      assert rows == front + [last];
      LookupFinds(front, row);
      assert last.key != row.key by {
        var i :| 0 <= i < |rows| && rows[i] == row;
        assert rows[|rows| - 1] == last;
      }
    }
  }

  /** Nothing changed is accepted. */
  lemma Reflexive(rows: seq<Row>, durable: Durable)
    requires Keyed(rows)
    ensures Accepted(rows, rows, durable)
  {
    forall original | original in rows
      ensures RowAccepted(original, rows, rows, durable)
    {
      LookupFinds(rows, original);
    }
  }

  ghost predicate AddsNoKeys(before: seq<Row>, after: seq<Row>) {
    forall row <- after :: Lookup(before, row.key).Some?
  }

  /** An owner in the middle snapshot stands for an owner in the first, also when it was itself a recovered alias. */
  lemma OwnerBefore(a: seq<Row>, b: seq<Row>, durable: Durable, owner: Row, row: Row)
    requires Keyed(a) && Keyed(b) && Accepted(a, b, durable) && AddsNoKeys(a, b)
    requires owner in b && IsOwnerOf(owner, row)
    ensures exists first :: first in a && IsOwnerOf(first, row)
  {
    var origin := Lookup(a, owner.key).value;
    LookupFinds(b, owner);
    assert RowAccepted(origin, a, b, durable);
    if Recovered(origin, owner, a) {
      var first :| first in a && IsOwnerOf(first, owner);
      assert IsOwnerOf(first, row);
    } else {
      assert IsOwnerOf(origin, row);
    }
  }

  lemma RowTransitive(a: seq<Row>, b: seq<Row>, c: seq<Row>, d1: Durable, d2: Durable, original: Row)
    requires Keyed(a) && Keyed(b) && Keyed(c) && AddsNoKeys(a, b) && d1 <= d2
    requires Accepted(a, b, d1) && Accepted(b, c, d2) && original in a
    ensures RowAccepted(original, a, c, d2)
  {
    assert RowAccepted(original, a, b, d1);
    var middle := Lookup(b, original.key).value;
    assert RowAccepted(middle, b, c, d2);
    var last := Lookup(c, original.key).value;
    if Recovered(middle, last, b) {
      var owner :| owner in b && IsOwnerOf(owner, last);
      OwnerBefore(a, b, d1, owner, last);
      assert Recovered(original, last, a);
    } else if Recovered(original, middle, a) {
      var owner :| owner in a && IsOwnerOf(owner, middle);
      assert IsOwnerOf(owner, last);
      assert Recovered(original, last, a);
    }
  }

  /**
   Two accepted handovers in a row are one accepted handover, if the first adds no page and durable requests only
   grow.
   */
  lemma Transitive(a: seq<Row>, b: seq<Row>, c: seq<Row>, d1: Durable, d2: Durable)
    requires Keyed(a) && Keyed(b) && Keyed(c) && AddsNoKeys(a, b) && d1 <= d2
    requires Accepted(a, b, d1) && Accepted(b, c, d2)
    ensures Accepted(a, c, d2)
  {
    forall original | original in a
      ensures RowAccepted(original, a, c, d2)
    {
      RowTransitive(a, b, c, d1, d2, original);
    }
  }

  datatype Snapshot = Snapshot(rows: seq<Row>, durable: Durable)

  ghost predicate Chain(s: seq<Snapshot>) {
    && (forall i :: 0 <= i < |s| ==> Keyed(s[i].rows))
    && forall i :: 0 <= i < |s| - 1 ==>
         Accepted(s[i].rows, s[i + 1].rows, s[i + 1].durable) && AddsNoKeys(s[i].rows, s[i + 1].rows)
             && s[i].durable <= s[i + 1].durable
  }

  /** Any number of accepted handovers is one accepted handover. */
  lemma {:induction false} ChainAccepted(s: seq<Snapshot>)
    requires |s| > 0 && Chain(s)
    ensures Accepted(s[0].rows, s[|s| - 1].rows, s[|s| - 1].durable)
    ensures AddsNoKeys(s[0].rows, s[|s| - 1].rows)
    decreases |s|
  {
    if |s| == 1 {
      Reflexive(s[0].rows, s[0].durable);
      forall row | row in s[0].rows ensures Lookup(s[0].rows, row.key).Some? { LookupFinds(s[0].rows, row); }
    } else {
      var front, n := s[..|s| - 1], |s| - 1;
      forall i | 0 <= i < |front| - 1
        ensures Accepted(front[i].rows, front[i + 1].rows, front[i + 1].durable)
                && AddsNoKeys(front[i].rows, front[i + 1].rows) &&
                front[i].durable <= front[i + 1].durable {
        assert s[i] == front[i] && s[i + 1] == front[i + 1];
      }
      ChainAccepted(front);
      assert s[n - 1] == front[n - 1];
      Transitive(s[0].rows, s[n - 1].rows, s[n].rows, s[n - 1].durable, s[n].durable);
      forall row | row in s[n].rows ensures Lookup(s[0].rows, row.key).Some? {
        var middle := Lookup(s[n - 1].rows, row.key).value;
      }
    }
  }

  /**
   The condition is needed: a page first seen in the middle can lend its owner to an alias the first snapshot could
   not explain.
   */
  lemma AddedPageBreaksTheChain()
    ensures var alias, owner := Row(0, None, None, Some(7), Some(9)), Row(1, Some(5), Some(1), Some(7), Some(9));
            var a, b, c := [alias], [alias, owner], [Row(0, Some(5), Some(1), Some(7), Some(9)), owner];
            var durable := {(5, 1)};
            Keyed(a) && Keyed(b) && Keyed(c) && Accepted(a, b, durable) && Accepted(b, c, durable)
                && !Accepted(a, c, durable)
  {
    var alias, owner := Row(0, None, None, Some(7), Some(9)), Row(1, Some(5), Some(1), Some(7), Some(9));
    var taken := Row(0, Some(5), Some(1), Some(7), Some(9));
    var a, b, c, durable := [alias], [alias, owner], [taken, owner], {(5, 1)};
    LookupFinds(b, alias);
    LookupFinds(c, taken);
    LookupFinds(c, owner);
    assert owner in b && IsOwnerOf(owner, taken);
    assert RowAccepted(alias, a, b, durable) && RowAccepted(alias, b, c, durable) && RowAccepted(owner, b, c, durable);
    assert alias in a && !RowAccepted(alias, a, c, durable);
  }
}
