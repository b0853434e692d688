/** Insert-or-update by unique key, over a list of entries. */
module Upserts {

  datatype Table<K, R> = Table(rows: map<K, R>, next: int)

  function Upsert<K, E, R>(t: Table<K, R>, key: K, entry: E, create: (int, E) -> R, update: (E, R) -> R): Table<K, R> {
    if key in t.rows then t.(rows := t.rows[key := update(entry, t.rows[key])])
    else Table(t.rows[key := create(t.next, entry)], t.next + 1)
  }

  function UpsertAll<K, E, R>(t: Table<K, R>, entries: seq<(K, E)>, create: (int, E) -> R, update: (E, R) -> R): Table<K, R> {
    if entries == [] then t
    else
      var last := entries[|entries| - 1];
      Upsert(UpsertAll(t, entries[..|entries| - 1], create, update), last.0, last.1, create, update)
  }

  predicate HasKey<K(==), E>(entries: seq<(K, E)>, k: K) { exists i :: 0 <= i < |entries| && entries[i].0 == k }

  function Last<K(==), E>(entries: seq<(K, E)>, k: K): E
    requires HasKey(entries, k)
  {
    if entries[|entries| - 1].0 == k then entries[|entries| - 1].1 else Last(entries[..|entries| - 1], k)
  }

  /** An update by one entry of a key leaves nothing of an update by an earlier one. */
  ghost predicate Overwrites<K, E, R(!new)>(entries: seq<(K, E)>, update: (E, R) -> R) {
    forall i, j, r :: 0 <= i <= j < |entries| && entries[i].0 == entries[j].0 ==>
      update(entries[j].1, update(entries[i].1, r)) == update(entries[j].1, r)
  }

  /** A row just created is what the same entry would update it to. */
  ghost predicate Settles<K, E, R>(entries: seq<(K, E)>, create: (int, E) -> R, update: (E, R) -> R) {
    forall i, id :: 0 <= i < |entries| ==> update(entries[i].1, create(id, entries[i].1)) == create(id, entries[i].1)
  }

  lemma {:induction false} LastIsAnEntry<K, E>(entries: seq<(K, E)>, k: K) returns (i: nat)
    requires HasKey(entries, k)
    ensures i < |entries| && entries[i] == (k, Last(entries, k))
  {
    if entries[|entries| - 1].0 == k {
      i := |entries| - 1;
    } else {
      i := LastIsAnEntry(entries[..|entries| - 1], k);
    }
  }

  lemma KeySplits<K, E>(entries: seq<(K, E)>, k: K)
    requires entries != []
    ensures HasKey(entries, k) <==> HasKey(entries[..|entries| - 1], k) || entries[|entries| - 1].0 == k
  {
    var init := entries[..|entries| - 1];
    if HasKey(init, k) {
      var i :| 0 <= i < |init| && init[i].0 == k;
      assert entries[i].0 == k;
    }
    if HasKey(entries, k) && entries[|entries| - 1].0 != k {
      var i :| 0 <= i < |entries| && entries[i].0 == k;
      assert init[i].0 == k;
    }
  }

  /** Every named row is still there, different at most in what its last entry sets; other
      rows may be anything. */
  ghost predicate OnlyUpdatedFieldsDiffer<K, E, R>(t': Table<K, R>, t: Table<K, R>, entries: seq<(K, E)>, update: (E, R) -> R) {
    forall k :: k in t.rows && HasKey(entries, k) ==>
      k in t'.rows && update(Last(entries, k), t'.rows[k]) == update(Last(entries, k), t.rows[k])
  }

  /** Named rows are as in `t`, the others as in `t'`. */
  ghost predicate RestoredFrom<K, E, R>(end: Table<K, R>, t: Table<K, R>, t': Table<K, R>, entries: seq<(K, E)>) {
    && end.next == t'.next && end.rows.Keys == t'.rows.Keys
    && forall k :: k in t'.rows ==> if HasKey(entries, k) then k in t.rows && end.rows[k] == t.rows[k] else end.rows[k] == t'.rows[k]
  }

  ghost predicate MadeBy<K, E, R>(row: R, entries: seq<(K, E)>, k: K, i: nat, id: int, create: (int, E) -> R, update: (E, R) -> R)
    requires HasKey(entries, k)
  {
    i < |entries| && entries[i].0 == k && row == update(Last(entries, k), create(id, entries[i].1))
  }

  /** Every row named by the entries ends up as its last entry leaves it: the old row
      updated, or a new one made by one of its entries under a fresh id and updated; and
      rows the entries do not name are untouched. */
  lemma {:induction false} Settled<K, E, R(!new)>(t: Table<K, R>, entries: seq<(K, E)>, create: (int, E) -> R, update: (E, R) -> R, k: K)
    requires Overwrites(entries, update) && Settles(entries, create, update)
    ensures var end := UpsertAll(t, entries, create, update);
            && (k in end.rows <==> k in t.rows || HasKey(entries, k))
            && (HasKey(entries, k) ==> update(Last(entries, k), end.rows[k]) == end.rows[k])
            && (!HasKey(entries, k) && k in t.rows ==> end.rows[k] == t.rows[k])
            && (HasKey(entries, k) && k in t.rows ==> end.rows[k] == update(Last(entries, k), t.rows[k]))
            && (HasKey(entries, k) && k !in t.rows ==>
                  exists i, id :: t.next <= id < end.next && MadeBy(end.rows[k], entries, k, i, id, create, update))
  {
    if entries != [] {
      var init, last := entries[..|entries| - 1], entries[|entries| - 1];
      Settled(t, init, create, update, k);
      KeySplits(entries, k);
      var before := UpsertAll(t, init, create, update);
      NextGrows(t, init, create, update);
      if HasKey(init, k) && last.0 == k {
        var n := LastIsAnEntry(init, k);
        assert entries[n] == (k, Last(init, k));
        if k !in t.rows {
          var i, id :| t.next <= id < before.next && MadeBy(before.rows[k], init, k, i, id, create, update);
          assert MadeBy(Upsert(before, last.0, last.1, create, update).rows[k], entries, k, i, id, create, update);
        }
      } else if HasKey(init, k) {
        if k !in t.rows {
          var i, id :| t.next <= id < before.next && MadeBy(before.rows[k], init, k, i, id, create, update);
          assert MadeBy(before.rows[k], entries, k, i, id, create, update);
        }
      } else if last.0 == k && k !in t.rows {
        assert MadeBy(create(before.next, last.1), entries, k, |entries| - 1, before.next, create, update);
      }
    }
  }

  lemma {:induction false} NextGrows<K, E, R>(t: Table<K, R>, entries: seq<(K, E)>, create: (int, E) -> R, update: (E, R) -> R)
    ensures t.next <= UpsertAll(t, entries, create, update).next
  {
    if entries != [] { NextGrows(t, entries[..|entries| - 1], create, update); }
  }

  /** When every named row exists, the run creates nothing and each row becomes its last
      entry's update. */
  lemma {:induction false} Rewritten<K, E, R(!new)>(t: Table<K, R>, entries: seq<(K, E)>, create: (int, E) -> R, update: (E, R) -> R, k: K)
    requires Overwrites(entries, update)
    requires forall i :: 0 <= i < |entries| ==> entries[i].0 in t.rows
    ensures var end := UpsertAll(t, entries, create, update);
            && end.next == t.next && end.rows.Keys == t.rows.Keys
            && (k in t.rows ==> end.rows[k] == if HasKey(entries, k) then update(Last(entries, k), t.rows[k]) else t.rows[k])
  {
    if entries != [] {
      var init, last := entries[..|entries| - 1], entries[|entries| - 1];
      forall i | 0 <= i < |init| ensures init[i].0 in t.rows { assert entries[i].0 in t.rows; }
      Rewritten(t, init, create, update, k);
      assert last.0 in t.rows;
      KeySplits(entries, k);
      if k == last.0 && HasKey(init, k) {
        var i := LastIsAnEntry(init, k);
        assert entries[i] == init[i];
      }
    }
  }

  /** Running the list again, with other ids and other random draws, restores every named
      row even if fields that the update sets were changed in between, leaves every other
      row alone, and creates nothing. */
  lemma Reseeded<K, E, R(!new)>(t: Table<K, R>, entries: seq<(K, E)>, create: (int, E) -> R, again: (int, E) -> R,
        update: (E, R) -> R, t': Table<K, R>)
    requires Overwrites(entries, update) && Settles(entries, create, update)
    requires OnlyUpdatedFieldsDiffer(t', UpsertAll(t, entries, create, update), entries, update)
    ensures RestoredFrom(UpsertAll(t', entries, again, update), UpsertAll(t, entries, create, update), t', entries)
  {
    var once, twice := UpsertAll(t, entries, create, update), UpsertAll(t', entries, again, update);
    forall i | 0 <= i < |entries| ensures entries[i].0 in t'.rows {
      Settled(t, entries, create, update, entries[i].0);
      assert HasKey(entries, entries[i].0);
    }
    forall k | k in t'.rows
      ensures k in twice.rows && if HasKey(entries, k) then k in once.rows && twice.rows[k] == once.rows[k] else twice.rows[k] == t'.rows[k]
    {
      Settled(t, entries, create, update, k);
      Rewritten(t', entries, again, update, k);
    }
    NextKept(t', entries, again, update);
  }

  /** With nothing changed in between, the second run changes nothing. */
  lemma SameAgain<K, E, R>(end: Table<K, R>, t: Table<K, R>, entries: seq<(K, E)>)
    requires RestoredFrom(end, t, t, entries)
    ensures end == t
  {
    forall k | k in t.rows ensures end.rows[k] == t.rows[k] {}
    assert end.rows == t.rows;
  }

  lemma {:induction false} NextKept<K, E, R>(t: Table<K, R>, entries: seq<(K, E)>, create: (int, E) -> R, update: (E, R) -> R)
    requires forall i :: 0 <= i < |entries| ==> entries[i].0 in t.rows
    ensures UpsertAll(t, entries, create, update).next == t.next
    ensures UpsertAll(t, entries, create, update).rows.Keys == t.rows.Keys
  {
    if entries != [] {
      var init := entries[..|entries| - 1];
      forall i | 0 <= i < |init| ensures init[i].0 in t.rows { assert entries[i].0 in t.rows; }
      NextKept(t, init, create, update);
    }
  }

  predicate FreshIds<K, R>(t: Table<K, R>, id: R -> int) {
    forall k :: k in t.rows ==> id(t.rows[k]) < t.next
  }

  predicate DistinctIds<K, R>(t: Table<K, R>, id: R -> int) {
    forall k, l :: k in t.rows && l in t.rows && id(t.rows[k]) == id(t.rows[l]) ==> k == l
  }

  /** Rows keep their ids and new rows get new ones, so ids stay unique. */
  lemma {:induction false} IdsStayUnique<K, E(!new), R(!new)>(t: Table<K, R>, entries: seq<(K, E)>, create: (int, E) -> R, update: (E, R) -> R, id: R -> int)
    requires FreshIds(t, id) && DistinctIds(t, id)
    requires forall e, r :: id(update(e, r)) == id(r)
    requires forall n, e :: id(create(n, e)) == n
    ensures var end := UpsertAll(t, entries, create, update);
            && FreshIds(end, id) && DistinctIds(end, id) && t.next <= end.next
            && (forall k :: k in t.rows ==> k in end.rows && id(end.rows[k]) == id(t.rows[k]))
  {
    if entries != [] {
      var init, last := entries[..|entries| - 1], entries[|entries| - 1];
      IdsStayUnique(t, init, create, update, id);
      var before, end := UpsertAll(t, init, create, update), UpsertAll(t, entries, create, update);
      assert end.next >= before.next;
      forall k | k in end.rows
        ensures id(end.rows[k]) == if k in before.rows then id(before.rows[k]) else before.next
      {
        if k == last.0 {
          assert id(create(before.next, last.1)) == before.next;
          if k in before.rows { assert id(update(last.1, before.rows[k])) == id(before.rows[k]); }
        }
      }
      forall k | k in end.rows ensures k in before.rows || k == last.0 {}
    }
  }

  lemma UpsertNext<K, E, R>(t: Table<K, R>, entries: seq<(K, E)>, key: K, entry: E, create: (int, E) -> R, update: (E, R) -> R)
    ensures UpsertAll(t, entries + [(key, entry)], create, update)
            == Upsert(UpsertAll(t, entries, create, update), key, entry, create, update)
  {
    assert (entries + [(key, entry)])[..|entries|] == entries;
  }

  lemma {:induction false} UpsertAppend<K, E, R>(t: Table<K, R>, a: seq<(K, E)>, b: seq<(K, E)>, create: (int, E) -> R, update: (E, R) -> R)
    ensures UpsertAll(t, a + b, create, update) == UpsertAll(UpsertAll(t, a, create, update), b, create, update)
  {
    if b == [] {
      assert a + b == a;
    } else {
      assert (a + b)[..|a + b| - 1] == a + b[..|b| - 1];
      UpsertAppend(t, a, b[..|b| - 1], create, update);
    }
  }

  method UpsertEach<K(==), E, R>(t: Table<K, R>, entries: seq<(K, E)>, create: (int, E) -> R, update: (E, R) -> R)
    returns (end: Table<K, R>)
    ensures end == UpsertAll(t, entries, create, update)
  {
    end := t;
    for i := 0 to |entries|
      invariant end == UpsertAll(t, entries[..i], create, update)
    {
      assert entries[..i + 1][..i] == entries[..i];
      var (key, entry) := entries[i];
      if key in end.rows {
        end := end.(rows := end.rows[key := update(entry, end.rows[key])]);
      } else {
        end := Table(end.rows[key := create(end.next, entry)], end.next + 1);
      }
    }
    assert entries[..|entries|] == entries;
  }
}
