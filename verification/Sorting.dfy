/** The standard library's stable sort, as a specification: insertion sort by a comparison. */
module Sorting {

  /** `le` is a total preorder. */
  ghost predicate TotalPreorder<T(!new)>(le: (T, T) -> bool) {
    && (forall x, y :: le(x, y) || le(y, x))
    && (forall x, y, z :: le(x, y) && le(y, z) ==> le(x, z))
  }

  ghost predicate Sorted<T>(le: (T, T) -> bool, s: seq<T>) {
    forall i, j :: 0 <= i < j < |s| ==> le(s[i], s[j])
  }

  /** Places `x` before the first element it does not exceed. */
  function Insert<T>(le: (T, T) -> bool, x: T, s: seq<T>): seq<T> {
    if s == [] then [x]
    else if le(x, s[0]) then [x] + s
    else [s[0]] + Insert(le, x, s[1..])
  }

  function Sort<T>(le: (T, T) -> bool, s: seq<T>): seq<T> {
    if s == [] then [] else Insert(le, s[0], Sort(le, s[1..]))
  }

  lemma {:induction false} InsertPermutes<T>(le: (T, T) -> bool, x: T, s: seq<T>)
    ensures multiset(Insert(le, x, s)) == multiset(s) + multiset{x}
  {
    if s != [] && !le(x, s[0]) {
      InsertPermutes(le, x, s[1..]);
      assert s == [s[0]] + s[1..];
    }
  }

  lemma {:induction false} SortPermutes<T>(le: (T, T) -> bool, s: seq<T>)
    ensures multiset(Sort(le, s)) == multiset(s)
    ensures |Sort(le, s)| == |s|
  {
    if s != [] {
      SortPermutes(le, s[1..]);
      InsertPermutes(le, s[0], Sort(le, s[1..]));
      assert s == [s[0]] + s[1..];
    }
    assert |multiset(Sort(le, s))| == |Sort(le, s)|;
    assert |multiset(s)| == |s|;
  }

  lemma {:induction false} InsertMembers<T>(le: (T, T) -> bool, x: T, s: seq<T>, i: nat)
    requires i < |Insert(le, x, s)|
    ensures Insert(le, x, s)[i] == x || Insert(le, x, s)[i] in s
  {
    if s != [] && !le(x, s[0]) && i > 0 {
      InsertMembers(le, x, s[1..], i - 1);
    }
  }

  lemma {:induction false} InsertSorted<T(!new)>(le: (T, T) -> bool, x: T, s: seq<T>)
    requires TotalPreorder(le) && Sorted(le, s)
    ensures Sorted(le, Insert(le, x, s))
  {
    if s != [] && !le(x, s[0]) {
      InsertSorted(le, x, s[1..]);
      var tail := Insert(le, x, s[1..]);
      forall j | 0 <= j < |tail| ensures le(s[0], tail[j]) {
        InsertMembers(le, x, s[1..], j);
        if tail[j] in s[1..] {
          var k :| 0 <= k < |s[1..]| && s[1..][k] == tail[j];
          assert le(s[0], s[k + 1]);
        }
      }
    }
  }

  lemma {:induction false} SortSorts<T(!new)>(le: (T, T) -> bool, s: seq<T>)
    requires TotalPreorder(le)
    ensures Sorted(le, Sort(le, s))
  {
    if s != [] {
      SortSorts(le, s[1..]);
      InsertSorted(le, s[0], Sort(le, s[1..]));
    }
  }

  /** A sorted sequence is left as it is. */
  lemma {:induction false} SortFixed<T>(le: (T, T) -> bool, s: seq<T>)
    requires Sorted(le, s)
    ensures Sort(le, s) == s
  {
    if s != [] {
      SortFixed(le, s[1..]);
      if |s| > 1 {
        assert le(s[0], s[1]);
      }
    }
  }

  /** No two different elements are equivalent under `le`. */
  ghost predicate TieFree<T>(le: (T, T) -> bool, s: seq<T>) {
    forall x, y :: x in s && y in s && le(x, y) && le(y, x) ==> x == y
  }

  lemma SameGreatest<T>(le: (T, T) -> bool, a: seq<T>, b: seq<T>)
    requires a != [] && b != [] && multiset(a) == multiset(b)
    requires Sorted(le, a) && Sorted(le, b) && TieFree(le, a)
    ensures a[|a| - 1] == b[|b| - 1]
  {
    var x, y := a[|a| - 1], b[|b| - 1];
    assert x in multiset(b) && y in multiset(a);
    var i :| 0 <= i < |a| && a[i] == y;
    var j :| 0 <= j < |b| && b[j] == x;
    assert x != y ==> le(y, x) && le(x, y);
  }

  lemma WithoutGreatest<T>(le: (T, T) -> bool, s: seq<T>)
    requires s != [] && Sorted(le, s) && TieFree(le, s)
    ensures var rest := s[..|s| - 1];
      Sorted(le, rest) && TieFree(le, rest) && multiset(rest) == multiset(s) - multiset{s[|s| - 1]}
  {
    var rest, last := s[..|s| - 1], s[|s| - 1];
    assert s == rest + [last];
    assert forall x :: x in rest ==> x in s;
  }

  /** Without ties, the multiset of the elements leaves one sorted arrangement. */
  lemma {:induction false} TieFreeArrangement<T>(le: (T, T) -> bool, a: seq<T>, b: seq<T>)
    requires multiset(a) == multiset(b)
    requires Sorted(le, a) && Sorted(le, b) && TieFree(le, a)
    ensures a == b
    decreases |a|
  {
    hide Sorted, TieFree;
    assert |a| == |multiset(a)| == |multiset(b)| == |b|;
    if a != [] {
      var n := |a| - 1;
      SameGreatest(le, a, b);
      WithoutGreatest(le, a);
      SameTies(le, a, b);
      WithoutGreatest(le, b);
      TieFreeArrangement(le, a[..n], b[..n]);
      assert a == a[..n] + [a[n]] && b == b[..n] + [b[n]];
    }
  }

  lemma SameTies<T>(le: (T, T) -> bool, a: seq<T>, b: seq<T>)
    requires multiset(a) == multiset(b) && TieFree(le, a)
    ensures TieFree(le, b)
  {
    forall x | x in b ensures x in a {
      assert x in multiset(a);
    }
  }

  // ---- Strings ------------------------------------------------------------------------------

  /** The order of `str`: character by character. */
  predicate StringLe(a: string, b: string) {
    a == "" || (b != "" && (a[0] < b[0] || (a[0] == b[0] && StringLe(a[1..], b[1..]))))
  }

  /** Up to position `k` the texts are the same; there the first one ends or has the smaller character. */
  predicate LessFrom(a: string, b: string, k: nat) {
    && k <= |a| && k <= |b| && a[..k] == b[..k]
    && (k == |a| || (k < |b| && a[k] < b[k]))
  }

  lemma {:induction false} StringLeExactly(a: string, b: string)
    ensures StringLe(a, b) <==> exists k: nat :: LessFrom(a, b, k)
  {
    if a == "" {
      assert LessFrom(a, b, 0);
    } else if b != "" && a[0] < b[0] {
      assert LessFrom(a, b, 0);
    } else if b != "" && a[0] == b[0] {
      StringLeExactly(a[1..], b[1..]);
      if k: nat :| LessFrom(a[1..], b[1..], k) {
        assert a[..k + 1] == [a[0]] + a[1..][..k] && b[..k + 1] == [b[0]] + b[1..][..k];
        assert LessFrom(a, b, k + 1);
      }
      if k: nat :| LessFrom(a, b, k) {
        assert k > 0 && a[1..][..k - 1] == a[..k][1..] && b[1..][..k - 1] == b[..k][1..];
        assert LessFrom(a[1..], b[1..], k - 1);
      }
    } else if b != "" {
      forall k: nat ensures !LessFrom(a, b, k) {
        assert k > 0 && k <= |a| && k <= |b| ==> a[..k][0] == a[0] && b[..k][0] == b[0];
      }
    }
  }

  lemma {:induction false} StringTotal(a: string, b: string)
    ensures StringLe(a, b) || StringLe(b, a)
  {
    if a != "" && b != "" && a[0] == b[0] {
      StringTotal(a[1..], b[1..]);
    }
  }

  lemma {:induction false} StringTransitive(a: string, b: string, c: string)
    requires StringLe(a, b) && StringLe(b, c)
    ensures StringLe(a, c)
  {
    if a != "" && a[0] == b[0] && b[0] == c[0] {
      StringTransitive(a[1..], b[1..], c[1..]);
    }
  }

  lemma {:induction false} StringAntisymmetric(a: string, b: string)
    requires StringLe(a, b) && StringLe(b, a)
    ensures a == b
  {
    if a != "" {
      StringAntisymmetric(a[1..], b[1..]);
      assert a == [a[0]] + a[1..] && b == [b[0]] + b[1..];
    }
  }
}
