/** Slugs: the lower-cased alphanumeric runs of a name, joined by single dashes. */
module Slug {
  import opened Prelude

  predicate IsAlphanumeric(c: char) {
    'a' <= c <= 'z' || 'A' <= c <= 'Z' || '0' <= c <= '9'
  }

  function Lower(c: char): char {
    if 'A' <= c <= 'Z' then c - 'A' + 'a' else c
  }

  function LowerAll(s: string): string {
    seq(|s|, i requires 0 <= i < |s| => Lower(s[i]))
  }

  predicate IsWord(w: string) {
    w != "" && forall i :: 0 <= i < |w| ==> IsAlphanumeric(w[i])
  }

  /** The maximal alphanumeric runs of a text; `open` when the last run reaches the end. */
  datatype Runs = Runs(words: seq<string>, open: bool)

  function RunsOf(s: string): (r: Runs)
    ensures r.open ==> r.words != []
    ensures forall i :: 0 <= i < |r.words| ==> IsWord(r.words[i])
  {
    if s == "" then Runs([], false)
    else
      var before, c := RunsOf(s[..|s| - 1]), s[|s| - 1];
      var n := |before.words|;
      if !IsAlphanumeric(c) then before.(open := false)
      else if before.open then Runs(before.words[n - 1 := before.words[n - 1] + [c]], true)
      else Runs(before.words + [[c]], true)
  }

  function SlugOf(s: string): string { Join(RunsOf(LowerAll(s)).words, "-") }

  /** Words joined by dashes neither start nor end with one. */
  lemma JoinEnds(ws: seq<string>)
    requires ws != [] && forall i :: 0 <= i < |ws| ==> IsWord(ws[i])
    ensures var s := Join(ws, "-"); s != "" && s[0] != '-' && s[|s| - 1] != '-'
  {
    var n := |ws| - 1;
    assert IsWord(ws[0]) && IsWord(ws[n]);
    assert ws[..n] + [ws[n]] == ws;
    JoinSnoc(ws[..n], ws[n], "-");
  }

  /** `trim_matches('-')` */
  method TrimDashes(s: string) returns (r: string)
    ensures s == "" ==> r == ""
    ensures s != "" && s[0] != '-' && s[|s| - 1] != '-' ==> r == s
    ensures |s| > 1 && s[0] != '-' && s[|s| - 1] == '-' && s[|s| - 2] != '-' ==> r == s[..|s| - 1]
    ensures r != "" ==> r[0] != '-' && r[|r| - 1] != '-'
  {
    var i, j := 0, |s|;
    while i < |s| && s[i] == '-'
      invariant 0 <= i <= |s|
      invariant forall k :: 0 <= k < i ==> s[k] == '-'
    {
      i := i + 1;
    }
    while i < j && s[j - 1] == '-'
      invariant i <= j <= |s|
      invariant forall k :: j <= k < |s| ==> s[k] == '-'
    {
      j := j - 1;
    }
    r := s[i..j];
  }

  /** The output buffer for these runs: a dash already follows the last one once it is closed. */
  ghost function Rendered(runs: Runs): string {
    Join(runs.words, "-") + (if !runs.open && runs.words != [] then "-" else "")
  }

  lemma LetterExtends(runs: Runs, c: char)
    requires runs.open && runs.words != []
    ensures var n := |runs.words| - 1;
      Rendered(Runs(runs.words[n := runs.words[n] + [c]], true)) == Rendered(runs) + [c]
  {
    hide Join;
    JoinGrows(runs.words, c, "-");
  }

  lemma LetterStarts(runs: Runs, c: char)
    requires !runs.open
    ensures Rendered(Runs(runs.words + [[c]], true)) == Rendered(runs) + [c]
  {
    hide Join;
    EmptyJoin();
    JoinSnoc(runs.words, [c], "-");
  }

  ghost function Built(s: string): string { Rendered(RunsOf(s)) }

  lemma BuiltNext(s: string, c: char)
    ensures RunsOf(s + [c]).open == IsAlphanumeric(c)
    ensures Built(s + [c]) == Built(s) + (if IsAlphanumeric(c) then [c] else if RunsOf(s).open then "-" else "")
  {
    assert (s + [c])[..|s|] == s;
    var runs := RunsOf(s);
    if IsAlphanumeric(c) {
      hide Rendered;
      if runs.open {
        LetterExtends(runs, c);
      } else {
        LetterStarts(runs, c);
      }
    } else {
      hide Join;
      assert RunsOf(s + [c]) == runs.(open := false);
    }
  }

  lemma EmptyJoin()
    ensures Join([], "-") == ""
  {
  }

  lemma BuiltTrimmed(s: string)
    ensures var words, out := RunsOf(s).words, Built(s);
      if words == [] then out == ""
      else Join(words, "-") != "" && out[0] != '-' && Join(words, "-")[|Join(words, "-")| - 1] != '-'
           && (out == Join(words, "-") || out == Join(words, "-") + "-")
  {
    if RunsOf(s).words != [] {
      JoinEnds(RunsOf(s).words);
    }
  }

  method Slugify(input: string) returns (r: string)
    ensures r == SlugOf(input)
  {
    hide Built, Join;
    var lowered := LowerAll(input);
    var out, lastDash := "", true;
    EmptyJoin();
    BuiltTrimmed("");
    var i := 0;
    while i < |lowered|
      invariant 0 <= i <= |lowered|
      invariant lastDash == !RunsOf(lowered[..i]).open
      invariant out == Built(lowered[..i])
    {
      var c := lowered[i];
      BuiltNext(lowered[..i], c);
      assert lowered[..i + 1] == lowered[..i] + [c];
      if IsAlphanumeric(c) {
        out := out + [c];
        lastDash := false;
      } else if !lastDash {
        out := out + "-";
        lastDash := true;
      }
      i := i + 1;
    }
    assert lowered[..i] == lowered;
    BuiltTrimmed(lowered);
    r := TrimDashes(out);
  }

  // ---- A slug is its own slug ---------------------------------------------------------------

  lemma {:induction false} RunsAppendWord(s: string, w: string)
    requires IsWord(w) && !RunsOf(s).open
    ensures RunsOf(s + w) == Runs(RunsOf(s).words + [w], true)
    decreases |w|
  {
    var n, words := |w| - 1, RunsOf(s).words;
    assert (s + w)[..|s + w| - 1] == s + w[..n];
    assert (s + w)[|s + w| - 1] == w[n];
    if n == 0 {
      assert s + w[..n] == s && w == [w[0]];
    } else {
      assert IsWord(w[..n]);
      RunsAppendWord(s, w[..n]);
      assert w == w[..n] + [w[n]];
      assert (words + [w[..n]])[|words| := w] == words + [w];
    }
  }

  lemma RunsAppendDash(s: string)
    ensures RunsOf(s + "-") == RunsOf(s).(open := false)
  {
    assert (s + "-")[..|s|] == s;
  }

  lemma {:induction false} RunsOfJoin(ws: seq<string>)
    requires forall i :: 0 <= i < |ws| ==> IsWord(ws[i])
    ensures RunsOf(Join(ws, "-")).words == ws
    decreases |ws|
  {
    if ws != [] {
      var n := |ws| - 1;
      RunsOfJoin(ws[..n]);
      JoinSnoc(ws[..n], ws[n], "-");
      assert ws[..n] + [ws[n]] == ws;
      if n == 0 {
        RunsAppendWord("", ws[0]);
        assert "" + ws[0] == ws[0];
      } else {
        RunsAppendDash(Join(ws[..n], "-"));
        RunsAppendWord(Join(ws[..n], "-") + "-", ws[n]);
      }
    }
  }

  // ---- What a slug is -----------------------------------------------------------------------------

  /** The slug of one word is the word in lower case. */
  lemma SlugOfWord(w: string)
    requires IsWord(w)
    ensures SlugOf(w) == LowerAll(w)
  {
    var l := LowerAll(w);
    assert IsWord(l);
    RunsAppendWord("", l);
    assert "" + l == l;
  }

  lemma {:induction false} RunsOfPieces(a: string, c: char, b: string)
    requires !IsAlphanumeric(c)
    ensures RunsOf(a + [c] + b) == Runs(RunsOf(a).words + RunsOf(b).words, RunsOf(b).open)
    decreases |b|
  {
    var s := a + [c] + b;
    if b == "" {
      assert s == a + [c] && s[..|s| - 1] == a;
      assert RunsOf(a).words + [] == RunsOf(a).words;
    } else {
      var n := |b| - 1;
      assert s[..|s| - 1] == a + [c] + b[..n] && s[|s| - 1] == b[n];
      RunsOfPieces(a, c, b[..n]);
      var words, more := RunsOf(a).words, RunsOf(b[..n]).words;
      if IsAlphanumeric(b[n]) && RunsOf(b[..n]).open {
        var k := |more| - 1;
        assert (words + more)[|words| + k := more[k] + [b[n]]] == words + more[k := more[k] + [b[n]]];
      }
    }
  }

  /** Anything that is neither a letter nor a digit separates: the slugs of both sides are joined by
      one dash, and an empty side leaves none. With `SlugOfWord` this determines every slug. */
  lemma SlugOfPieces(a: string, c: char, b: string)
    requires !IsAlphanumeric(c)
    ensures SlugOf(a + [c] + b) ==
      if SlugOf(a) == "" then SlugOf(b) else if SlugOf(b) == "" then SlugOf(a) else SlugOf(a) + "-" + SlugOf(b)
  {
    assert LowerAll(a + [c] + b) == LowerAll(a) + [c] + LowerAll(b);
    RunsOfPieces(LowerAll(a), c, LowerAll(b));
    var x, y := RunsOf(LowerAll(a)).words, RunsOf(LowerAll(b)).words;
    EmptyJoin();
    hide Join, RunsOf;
    if x != [] {
      JoinEnds(x);
    }
    if y != [] {
      JoinEnds(y);
    }
    if x != [] && y != [] {
      JoinAppend(x, y, "-");
    } else {
      assert x + y == if x == [] then y else x;
    }
  }

  predicate IsLower(s: string) { forall i :: 0 <= i < |s| ==> !('A' <= s[i] <= 'Z') }

  lemma {:induction false} RunsLower(s: string)
    requires IsLower(s)
    ensures forall i :: 0 <= i < |RunsOf(s).words| ==> IsLower(RunsOf(s).words[i])
    decreases |s|
  {
    if s != "" {
      RunsLower(s[..|s| - 1]);
    }
  }

  lemma {:induction false} JoinLower(ws: seq<string>)
    requires forall i :: 0 <= i < |ws| ==> IsLower(ws[i])
    ensures IsLower(Join(ws, "-"))
  {
    if |ws| > 1 {
      JoinLower(ws[1..]);
      assert IsLower(ws[0]);
    }
  }

  /** Normalizing twice changes nothing, so a stored slug finds its own app again. */
  lemma SlugIdempotent(s: string)
    ensures SlugOf(SlugOf(s)) == SlugOf(s)
  {
    var words := RunsOf(LowerAll(s)).words;
    RunsLower(LowerAll(s));
    JoinLower(words);
    assert LowerAll(SlugOf(s)) == SlugOf(s);
    RunsOfJoin(words);
  }
}
