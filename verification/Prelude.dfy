/** Small vocabulary shared by every other module. */
module Prelude {

  datatype Option<+T> = None | Some(value: T)

  datatype Result<+T, +E> = Ok(value: T) | Err(error: E)

  function Min(a: int, b: int): int { if a <= b then a else b }

  /** The characters that Rust's `str::trim` removes: Unicode White_Space. */
  predicate IsWhitespace(c: char) {
    var n := c as int;
    9 <= n <= 13 || n == 0x20 || n == 0x85 || n == 0xA0 || n == 0x1680 || 0x2000 <= n <= 0x200A
    || n == 0x2028 || n == 0x2029 || n == 0x202F || n == 0x205F || n == 0x3000
  }

  /** `s.trim().is_empty()` */
  predicate IsBlank(s: string) {
    forall i :: 0 <= i < |s| ==> IsWhitespace(s[i])
  }

  predicate StartsWith(s: string, prefix: string) {
    |prefix| <= |s| && s[..|prefix|] == prefix
  }

  function Join(parts: seq<string>, separator: string): string {
    if |parts| == 0 then ""
    else if |parts| == 1 then parts[0]
    else parts[0] + separator + Join(parts[1..], separator)
  }

  lemma {:induction false} JoinSnoc(parts: seq<string>, last: string, separator: string)
    ensures Join(parts + [last], separator) == if parts == [] then last else Join(parts, separator) + separator + last
  {
    if |parts| == 1 {
      assert (parts + [last])[1..] == [last];
    } else if |parts| > 1 {
      var head, rest := parts[0] + separator, Join(parts[1..], separator);
      JoinSnoc(parts[1..], last, separator);
      assert (parts + [last])[1..] == parts[1..] + [last];
      assert head + (rest + separator + last) == head + rest + separator + last;
    }
  }

  /** Text added to the last part ends up at the end of the whole. */
  lemma JoinGrows(parts: seq<string>, c: char, separator: string)
    requires parts != []
    ensures Join(parts[|parts| - 1 := parts[|parts| - 1] + [c]], separator) == Join(parts, separator) + [c]
  {
    var n := |parts| - 1;
    JoinSnoc(parts[..n], parts[n], separator);
    JoinSnoc(parts[..n], parts[n] + [c], separator);
    assert parts[..n] + [parts[n]] == parts;
    assert parts[..n] + [parts[n] + [c]] == parts[n := parts[n] + [c]];
  }

  lemma {:induction false} JoinAppend(a: seq<string>, b: seq<string>, separator: string)
    requires a != [] && b != []
    ensures Join(a + b, separator) == Join(a, separator) + separator + Join(b, separator)
  {
    var tail := Join(b, separator);
    assert (a + b)[1..] == a[1..] + b;
    if |a| == 1 {
      assert a[1..] + b == b;
    } else {
      JoinAppend(a[1..], b, separator);
      var rest := Join(a[1..], separator);
      assert a[0] + separator + (rest + separator + tail) == a[0] + separator + rest + separator + tail;
    }
  }

  /** What the elements of `s` contribute, in order. */
  function Collect<T, U>(pick: T -> seq<U>, s: seq<T>): seq<U> {
    if s == [] then [] else Collect(pick, s[..|s| - 1]) + pick(s[|s| - 1])
  }

  lemma CollectNext<T, U>(pick: T -> seq<U>, s: seq<T>, x: T)
    ensures Collect(pick, s + [x]) == Collect(pick, s) + pick(x)
  {
    assert (s + [x])[..|s|] == s;
  }

  lemma {:induction false} CollectAppend<T, U>(pick: T -> seq<U>, a: seq<T>, b: seq<T>)
    ensures Collect(pick, a + b) == Collect(pick, a) + Collect(pick, b)
    decreases |b|
  {
    if b == [] {
      assert a + b == a;
    } else {
      var n := |b| - 1;
      assert (a + b)[..|a + b| - 1] == a + b[..n];
      CollectAppend(pick, a, b[..n]);
    }
  }

  lemma CollectOne<T, U>(pick: T -> seq<U>, x: T)
    ensures Collect(pick, [x]) == pick(x)
  {
    CollectNext(pick, [], x);
    assert [] + [x] == [x];
  }

  lemma CollectFirst<T, U>(pick: T -> seq<U>, x: T, s: seq<T>)
    ensures Collect(pick, [x] + s) == pick(x) + Collect(pick, s)
  {
    CollectOne(pick, x);
    CollectAppend(pick, [x], s);
  }

  /** A loop that has collected from `s[..i]` goes on with `s[i]`. */
  lemma CollectStep<T, U>(pick: T -> seq<U>, s: seq<T>, i: nat)
    requires i < |s|
    ensures Collect(pick, s[..i + 1]) == Collect(pick, s[..i]) + pick(s[i])
  {
    assert s[..i + 1] == s[..i] + [s[i]];
    CollectNext(pick, s[..i], s[i]);
  }

  lemma {:induction false} CollectAll<T>(pick: T -> seq<T>, s: seq<T>)
    requires forall x :: x in s ==> pick(x) == [x]
    ensures Collect(pick, s) == s
    decreases |s|
  {
    if s != [] {
      var n := |s| - 1;
      CollectAll(pick, s[..n]);
      assert s == s[..n] + [s[n]] && s[n] in s;
    }
  }

  lemma {:induction false} CollectNothing<T, U>(pick: T -> seq<U>, s: seq<T>)
    requires forall x :: x in s ==> pick(x) == []
    ensures Collect(pick, s) == []
    decreases |s|
  {
    if s != [] {
      CollectNothing(pick, s[..|s| - 1]);
      assert s[|s| - 1] in s;
    }
  }

  /** Two sequences whose elements contribute the same, one by one. */
  lemma {:induction false} CollectSame<S, T, U>(f: S -> seq<U>, a: seq<S>, g: T -> seq<U>, b: seq<T>)
    requires |a| == |b| && forall i :: 0 <= i < |a| ==> f(a[i]) == g(b[i])
    ensures Collect(f, a) == Collect(g, b)
    decreases |a|
  {
    if a != [] {
      CollectSame(f, a[..|a| - 1], g, b[..|a| - 1]);
    }
  }

  /** Collecting from what was collected. */
  lemma {:induction false} CollectTwice<T, U, V>(f: T -> seq<U>, g: U -> seq<V>, h: T -> seq<V>, s: seq<T>)
    requires forall x :: x in s ==> Collect(g, f(x)) == h(x)
    ensures Collect(g, Collect(f, s)) == Collect(h, s)
    decreases |s|
  {
    if s != [] {
      var n := |s| - 1;
      CollectTwice(f, g, h, s[..n]);
      CollectAppend(g, Collect(f, s[..n]), f(s[n]));
      assert s[n] in s;
    }
  }

  function Keeping<T>(keep: T -> bool): T -> seq<T> { (x: T) => if keep(x) then [x] else [] }

  /** The elements of `s` that satisfy `keep`, in order. */
  function Filter<T>(keep: T -> bool, s: seq<T>): seq<T> { Collect(Keeping(keep), s) }

  lemma {:induction false} FilterMembers<T(!new)>(keep: T -> bool, s: seq<T>)
    ensures forall x :: x in Filter(keep, s) <==> x in s && keep(x)
    decreases |s|
  {
    if s != [] {
      var n := |s| - 1;
      FilterMembers(keep, s[..n]);
      FilterNext(keep, s[..n], s[n]);
      assert s == s[..n] + [s[n]];
    }
  }

  lemma FilterNext<T>(keep: T -> bool, s: seq<T>, x: T)
    ensures Filter(keep, s + [x]) == Filter(keep, s) + (if keep(x) then [x] else [])
  {
    CollectNext(Keeping(keep), s, x);
  }

  lemma FilterStep<T>(keep: T -> bool, s: seq<T>, i: nat)
    requires i < |s|
    ensures Filter(keep, s[..i + 1]) == Filter(keep, s[..i]) + (if keep(s[i]) then [s[i]] else [])
  {
    CollectStep(Keeping(keep), s, i);
  }

  lemma FilterFirst<T>(keep: T -> bool, x: T, s: seq<T>)
    ensures Filter(keep, [x]) == if keep(x) then [x] else []
    ensures Filter(keep, [x] + s) == Filter(keep, [x]) + Filter(keep, s)
  {
    FilterNext(keep, [], x);
    assert [] + [x] == [x];
    FilterAppend(keep, [x], s);
  }

  lemma FilterAppend<T>(keep: T -> bool, a: seq<T>, b: seq<T>)
    ensures Filter(keep, a + b) == Filter(keep, a) + Filter(keep, b)
  {
    CollectAppend(Keeping(keep), a, b);
  }

  /** What contributes nothing can be filtered out. */
  lemma {:induction false} CollectFiltered<T, U>(pick: T -> seq<U>, keep: T -> bool, s: seq<T>)
    requires forall x :: x in s && !keep(x) ==> pick(x) == []
    ensures Collect(pick, Filter(keep, s)) == Collect(pick, s)
    decreases |s|
  {
    if s != [] {
      var n := |s| - 1;
      CollectFiltered(pick, keep, s[..n]);
      FilterStep(keep, s, n);
      CollectStep(pick, s, n);
      assert s[..n + 1] == s && s[n] in s;
      if keep(s[n]) {
        CollectNext(pick, Filter(keep, s[..n]), s[n]);
      } else {
        assert Filter(keep, s) == Filter(keep, s[..n]);
      }
    }
  }

  lemma FilterKeepsAll<T>(keep: T -> bool, s: seq<T>)
    requires forall x :: x in s ==> keep(x)
    ensures Filter(keep, s) == s
  {
    hide Collect;
    CollectAll(Keeping(keep), s);
  }
}
