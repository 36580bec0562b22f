/** Tables written out as lists and read back: each value of a map once, in any order. */
module Snapshot {
  import opened Sorting

  /** `list` holds each value of `table` once; every value is stored under its own key. */
  ghost predicate ListsAll<K, V>(list: seq<V>, table: map<K, V>, key: V -> K) {
    && (forall i :: 0 <= i < |list| ==> key(list[i]) in table && table[key(list[i])] == list[i])
    && (forall i, j :: 0 <= i < j < |list| ==> key(list[i]) != key(list[j]))
    && (forall k :: k in table ==> key(table[k]) == k && table[k] in list)
  }

  ghost predicate OwnKeys<K, V>(table: map<K, V>, key: V -> K) {
    forall k :: k in table ==> key(table[k]) == k
  }

  lemma ListsNext<K, V>(list: seq<V>, table: map<K, V>, key: V -> K, v: V)
    requires ListsAll(list, table, key) && key(v) !in table
    ensures ListsAll(list + [v], table[key(v) := v], key)
  {
  }

  /** Goes through a map that has no order of its own. */
  method ValuesOf<K(==), V>(table: map<K, V>, ghost key: V -> K) returns (list: seq<V>)
    requires OwnKeys(table, key)
    ensures ListsAll(list, table, key)
  {
    var ids := table.Keys;
    list := [];
    while ids != {}
      invariant ids <= table.Keys
      invariant ListsAll(list, table - ids, key)
    {
      hide ListsAll;
      var id :| id in ids;
      ListsNext(list, table - ids, key, table[id]);
      assert table - (ids - {id}) == (table - ids)[id := table[id]];
      list := list + [table[id]];
      ids := ids - {id};
    }
    assert table - {} == table;
  }

  // ---- Sorting a snapshot ----------------------------------------------------------------------

  lemma TwiceInMultiset<V>(list: seq<V>, x: V, i: nat, j: nat)
    requires i < j < |list| && list[i] == x && list[j] == x
    ensures multiset(list)[x] >= 2
  {
    assert list == list[..j] + [list[j]] + list[j + 1..];
    assert list[..j][i] == x;
    assert x in list[..j];
    assert multiset(list) == multiset(list[..j]) + multiset{x} + multiset(list[j + 1..]);
  }

  lemma {:induction false} AtMostOnce<K, V>(list: seq<V>, key: V -> K, x: V)
    requires forall i, j :: 0 <= i < j < |list| ==> key(list[i]) != key(list[j])
    ensures multiset(list)[x] <= 1
  {
    if list != [] {
      assert list == [list[0]] + list[1..];
      AtMostOnce(list[1..], key, x);
      assert x == list[0] ==> x !in list[1..];
    }
  }

  lemma SortedListsAll<K, V>(le: (V, V) -> bool, list: seq<V>, table: map<K, V>, key: V -> K)
    requires ListsAll(list, table, key)
    ensures ListsAll(Sort(le, list), table, key)
  {
    var sorted := Sort(le, list);
    SortPermutes(le, list);
    forall i | 0 <= i < |sorted| ensures key(sorted[i]) in table && table[key(sorted[i])] == sorted[i] {
      assert sorted[i] in multiset(sorted);
      assert sorted[i] in list;
    }
    forall i, j | 0 <= i < j < |sorted| ensures key(sorted[i]) != key(sorted[j]) {
      if key(sorted[i]) == key(sorted[j]) {
        assert table[key(sorted[i])] == sorted[i] && table[key(sorted[j])] == sorted[j];
        TwiceInMultiset(sorted, sorted[i], i, j);
        AtMostOnce(list, key, sorted[i]);
        assert false;
      }
    }
    forall k | k in table ensures key(table[k]) == k && table[k] in sorted {
      assert table[k] in multiset(list);
    }
  }

  // ---- Reading a snapshot back --------------------------------------------------------------

  /** The table that inserting the values in order builds; a later one replaces an earlier. */
  function TableOf<K, V>(list: seq<V>, key: V -> K): map<K, V> {
    if list == [] then map[] else TableOf(list[..|list| - 1], key)[key(list[|list| - 1]) := list[|list| - 1]]
  }

  lemma {:induction false} TableHas<K, V>(list: seq<V>, key: V -> K, i: nat)
    requires i < |list| && forall i, j :: 0 <= i < j < |list| ==> key(list[i]) != key(list[j])
    ensures key(list[i]) in TableOf(list, key) && TableOf(list, key)[key(list[i])] == list[i]
    decreases |list|
  {
    if i < |list| - 1 {
      TableHas(list[..|list| - 1], key, i);
    }
  }

  lemma {:induction false} TableFrom<K, V>(list: seq<V>, key: V -> K, k: K)
    requires k in TableOf(list, key)
    ensures exists i :: 0 <= i < |list| && key(list[i]) == k
    decreases |list|
  {
    if key(list[|list| - 1]) != k {
      TableFrom(list[..|list| - 1], key, k);
      var i :| 0 <= i < |list| - 1 && key(list[..|list| - 1][i]) == k;
      assert key(list[i]) == k;
    }
  }

  /** Reading a snapshot back gives the table it was taken of. */
  lemma SnapshotRestores<K, V>(list: seq<V>, table: map<K, V>, key: V -> K)
    requires ListsAll(list, table, key)
    ensures TableOf(list, key) == table
  {
    var read := TableOf(list, key);
    forall k | k in read ensures k in table {
      TableFrom(list, key, k);
      var i :| 0 <= i < |list| && key(list[i]) == k;
    }
    forall k | k in table ensures k in read && read[k] == table[k] {
      var i :| 0 <= i < |list| && list[i] == table[k];
      TableHas(list, key, i);
    }
  }
}
