/** The encoder for attachments, against the arithmetic of section 4 of RFC 4648. */
module Base64 {
  import opened Prelude

  const ALPHABET: string :=
    seq(26, i requires 0 <= i < 26 => 'A' + i as char) + seq(26, i requires 0 <= i < 26 => 'a' + i as char)
    + seq(10, i requires 0 <= i < 10 => '0' + i as char) + "+/"

  const PAD := '='

  // ---- The standard, in integers ---------------------------------------------------------------

  type Sextet = i: int | 0 <= i < 64

  function Letter(i: Sextet): (c: char)
    ensures c != PAD
  {
    if i < 26 then 'A' + i as char
    else if i < 52 then 'a' + (i - 26) as char
    else if i < 62 then '0' + (i - 52) as char
    else if i == 62 then '+' else '/'
  }

  function ValueOf(c: char): Option<Sextet> {
    if 'A' <= c <= 'Z' then Some(c as int - 'A' as int)
    else if 'a' <= c <= 'z' then Some(c as int - 'a' as int + 26)
    else if '0' <= c <= '9' then Some(c as int - '0' as int + 52)
    else if c == '+' then Some(62) else if c == '/' then Some(63) else None
  }

  lemma LetterValue(i: Sextet, c: char)
    ensures ValueOf(c) == Some(i) <==> c == Letter(i)
  {
  }

  type Octet = i: int | 0 <= i < 0x100

  function Number24(x: int, y: int, z: int): int { (x * 0x100 + y) * 0x100 + z }

  /** One group of one to three octets as a 24-bit number, zero bits added on the right. */
  function GroupNumber(group: seq<Octet>): (n: int)
    requires 1 <= |group| <= 3
    ensures 0 <= n < 0x100_0000
  {
    Number24(group[0], if |group| > 1 then group[1] else 0, if |group| > 2 then group[2] else 0)
  }

  /** The i-th six-bit digit of a 24-bit number, the most significant first. */
  function Digit(n: int, i: nat): Sextet
    requires 0 <= n < 0x100_0000 && i < 4
  {
    if i == 0 then n / 64 / 64 / 64 else if i == 1 then n / 64 / 64 % 64 else if i == 2 then n / 64 % 64 else n % 64
  }

  function Quad(group: seq<Octet>): string
    requires 1 <= |group| <= 3
  {
    var n := GroupNumber(group);
    [Letter(Digit(n, 0)), Letter(Digit(n, 1)),
     if |group| > 1 then Letter(Digit(n, 2)) else PAD,
     if |group| > 2 then Letter(Digit(n, 3)) else PAD]
  }

  /** Full groups become four letters; the last group of one or two octets is padded. */
  function Encode(octets: seq<Octet>): string {
    if octets == [] then ""
    else if |octets| <= 3 then Quad(octets)
    else Quad(octets[..3]) + Encode(octets[3..])
  }

  function NumberOf(a: Sextet, b: Sextet, c: Sextet, d: Sextet): (n: int)
    ensures 0 <= n < 0x100_0000
  {
    ((a * 64 + b) * 64 + c) * 64 + d
  }

  /** The first `count` octets of a 24-bit number, if all bits after them are zero. */
  function Octets(n: int, count: nat): Option<seq<Octet>>
    requires 0 <= n < 0x100_0000 && 1 <= count <= 3
  {
    var a, b, c: Octet := n / 0x100 / 0x100, n / 0x100 % 0x100, n % 0x100;
    if count == 3 then Some([a, b, c])
    else if count == 2 then if c == 0 then Some([a, b]) else None
    else if b == 0 && c == 0 then Some([a]) else None
  }

  /** Four characters; only the `last` four may be padded. */
  function DecodeQuad(q: string, last: bool): Option<seq<Octet>>
    requires |q| == 4
  {
    var a, b, c, d := ValueOf(q[0]), ValueOf(q[1]), ValueOf(q[2]), ValueOf(q[3]);
    if a.None? || b.None? then None
    else if last && q[2] == PAD && q[3] == PAD then Octets(NumberOf(a.value, b.value, 0, 0), 1)
    else if c.None? then None
    else if last && q[3] == PAD then Octets(NumberOf(a.value, b.value, c.value, 0), 2)
    else if d.None? then None
    else Octets(NumberOf(a.value, b.value, c.value, d.value), 3)
  }

  /** The strict decoder. */
  function Decode(s: string): Option<seq<Octet>> {
    if s == "" then Some([])
    else if |s| < 4 then None
    else
      var head := DecodeQuad(s[..4], |s| == 4);
      if head.None? then None
      else
        var tail := Decode(s[4..]);
        if tail.None? then None else Some(head.value + tail.value)
  }

  // ---- Encoding and decoding are inverse ------------------------------------------------------

  lemma Div64(n: int, q: int, r: int)
    requires n == q * 64 + r && 0 <= r < 64
    ensures n / 64 == q && n % 64 == r
  {
  }

  lemma Div256(n: int, q: int, r: int)
    requires n == q * 0x100 + r && 0 <= r < 0x100
    ensures n / 0x100 == q && n % 0x100 == r
  {
  }

  lemma DigitsOf(n: int)
    requires 0 <= n < 0x100_0000
    ensures NumberOf(Digit(n, 0), Digit(n, 1), Digit(n, 2), Digit(n, 3)) == n
  {
  }

  lemma DigitOfNumber(a: Sextet, b: Sextet, c: Sextet, d: Sextet)
    ensures var n := NumberOf(a, b, c, d); Digit(n, 0) == a && Digit(n, 1) == b && Digit(n, 2) == c && Digit(n, 3) == d
  {
    Div64(((a * 64 + b) * 64 + c) * 64 + d, (a * 64 + b) * 64 + c, d);
    Div64((a * 64 + b) * 64 + c, a * 64 + b, c);
    Div64(a * 64 + b, a, b);
  }

  lemma OctetsOfNumber(x: int, y: int, z: int)
    requires 0 <= x < 0x100 && 0 <= y < 0x100 && 0 <= z < 0x100
    ensures var n := Number24(x, y, z); n / 0x100 / 0x100 == x && n / 0x100 % 0x100 == y && n % 0x100 == z
  {
    Div256((x * 0x100 + y) * 0x100 + z, x * 0x100 + y, z);
    Div256(x * 0x100 + y, x, y);
  }

  lemma OctetsOfGroup(group: seq<Octet>)
    requires 1 <= |group| <= 3
    ensures Octets(GroupNumber(group), |group|) == Some(group)
  {
    hide Number24;
    OctetsOfNumber(group[0], if |group| > 1 then group[1] else 0, if |group| > 2 then group[2] else 0);
    assert group == if |group| == 1 then [group[0]]
                    else if |group| == 2 then [group[0], group[1]] else [group[0], group[1], group[2]];
  }

  lemma GroupOfOctets(n: int, count: nat)
    requires 0 <= n < 0x100_0000 && 1 <= count <= 3
    ensures var g := Octets(n, count); g.Some? ==> |g.value| == count && GroupNumber(g.value) == n
  {
  }

  /** The digits of a 24-bit number, read off its three octets. */
  lemma DigitsOfOctets(x: int, y: int, z: int)
    requires 0 <= x < 0x100 && 0 <= y < 0x100 && 0 <= z < 0x100
    ensures var n := Number24(x, y, z);
      && 0 <= n < 0x100_0000
      && Digit(n, 0) == x / 4
      && Digit(n, 1) == x % 4 * 16 + y / 16
      && Digit(n, 2) == y % 16 * 4 + z / 64
      && Digit(n, 3) == z % 64
  {
    var p := x * 16 + y / 16;
    var q := (x * 0x100 + y) * 4 + z / 64;
    Div64((x * 0x100 + y) * 0x100 + z, q, z % 64);
    Div64(q, p, y % 16 * 4 + z / 64);
    Div64(p, x / 4, x % 4 * 16 + y / 16);
  }

  /** A short group leaves its last digits zero. */
  lemma ShortDigits(group: seq<Octet>)
    requires 1 <= |group| <= 3
    ensures |group| < 3 ==> Digit(GroupNumber(group), 3) == 0
    ensures |group| < 2 ==> Digit(GroupNumber(group), 2) == 0
  {
    hide Digit, Number24;
    DigitsOfOctets(group[0], if |group| > 1 then group[1] else 0, if |group| > 2 then group[2] else 0);
  }

  lemma DecodeQuadOfGroup(group: seq<Octet>, last: bool)
    requires 1 <= |group| <= 3 && (|group| < 3 ==> last)
    ensures DecodeQuad(Quad(group), last) == Some(group)
  {
    hide Letter, ValueOf, Digit, NumberOf, Octets, GroupNumber;
    var n := GroupNumber(group);
    forall i: Sextet ensures ValueOf(Letter(i)) == Some(i) {
      LetterValue(i, Letter(i));
    }
    DigitsOf(n);
    ShortDigits(group);
    OctetsOfGroup(group);
  }

  lemma QuadOfDecoded(q: string, last: bool)
    requires |q| == 4
    ensures var g := DecodeQuad(q, last);
      g.Some? ==> 1 <= |g.value| <= 3 && Quad(g.value) == q && (!last ==> |g.value| == 3)
  {
    hide Letter, ValueOf, Digit, NumberOf, Octets, GroupNumber;
    var g := DecodeQuad(q, last);
    if g.Some? {
      var a, b := ValueOf(q[0]).value, ValueOf(q[1]).value;
      LetterValue(a, q[0]);
      LetterValue(b, q[1]);
      var short := last && q[2] == PAD && q[3] == PAD;
      var c := if short then 0 else ValueOf(q[2]).value;
      var d := if last && q[3] == PAD then 0 else ValueOf(q[3]).value;
      var count := if short then 1 else if last && q[3] == PAD then 2 else 3;
      if !short {
        LetterValue(c, q[2]);
      }
      if !(last && q[3] == PAD) {
        LetterValue(d, q[3]);
      }
      GroupOfOctets(NumberOf(a, b, c, d), count);
      DigitOfNumber(a, b, c, d);
    }
  }

  lemma {:induction false} DecodeEncode(octets: seq<Octet>)
    ensures Decode(Encode(octets)) == Some(octets)
  {
    hide DecodeQuad, Quad;
    if octets != [] {
      var n := if |octets| <= 3 then |octets| else 3;
      var s := Encode(octets);
      QuadLength(octets[..n]);
      DecodeQuadOfGroup(octets[..n], |octets| <= 3);
      DecodeEncode(octets[n..]);
      EncodeSplit(octets);
      assert s[..4] == Quad(octets[..n]) && s[4..] == Encode(octets[n..]);
      assert octets[..n] + octets[n..] == octets;
    }
  }

  lemma QuadLength(group: seq<Octet>)
    requires 1 <= |group| <= 3
    ensures |Quad(group)| == 4
  {
  }

  lemma EncodeSplit(octets: seq<Octet>)
    requires octets != []
    ensures var n := if |octets| <= 3 then |octets| else 3;
      Encode(octets) == Quad(octets[..n]) + Encode(octets[n..]) && (Encode(octets[n..]) == "" <==> |octets| <= 3)
  {
    hide Quad;
    if |octets| <= 3 {
      assert octets[..|octets|] == octets && octets[|octets|..] == [];
    } else {
      QuadLength(if |octets[3..]| <= 3 then octets[3..] else octets[3..][..3]);
    }
  }

  /** The encoding of a byte sequence is the only text the strict decoder maps to it. */
  lemma {:induction false} DecodeExactly(s: string, octets: seq<Octet>)
    ensures Decode(s) == Some(octets) <==> s == Encode(octets)
  {
    DecodeEncode(octets);
    if Decode(s) == Some(octets) && s != "" {
      hide DecodeQuad, Quad;
      QuadOfDecoded(s[..4], |s| == 4);
      var head, tail := DecodeQuad(s[..4], |s| == 4).value, Decode(s[4..]).value;
      DecodeExactly(s[4..], tail);
      assert s == s[..4] + s[4..];
      if |s| == 4 {
        assert s[4..] == "" && octets == head;
        assert s[..4] == s;
      } else {
        TailNonEmpty(s[4..], tail);
        assert octets[..3] == head && octets[3..] == tail;
      }
    }
  }

  lemma TailNonEmpty(s: string, octets: seq<Octet>)
    requires s == Encode(octets) && s != ""
    ensures octets != []
  {
  }

  // ---- Shape of the output --------------------------------------------------------------------

  function Pads(n: nat): nat { if n % 3 == 0 then 0 else 3 - n % 3 }

  lemma QuadShape(group: seq<Octet>)
    requires 1 <= |group| <= 3
    ensures |Quad(group)| == 4
    ensures forall i :: 0 <= i < 4 ==>
      if i < 4 - Pads(|group|) then ValueOf(Quad(group)[i]).Some? else Quad(group)[i] == PAD
  {
    forall i: Sextet ensures ValueOf(Letter(i)).Some? {
      LetterValue(i, Letter(i));
    }
    hide Letter, ValueOf, Digit, GroupNumber;
  }

  /** Four characters for every started group; letters first, then exactly the padding the length
      asks for. */
  lemma {:induction false} EncodeShape(octets: seq<Octet>)
    ensures |Encode(octets)| == (|octets| + 2) / 3 * 4
    ensures forall i :: 0 <= i < |Encode(octets)| ==>
      if i < |Encode(octets)| - Pads(|octets|) then ValueOf(Encode(octets)[i]).Some? else Encode(octets)[i] == PAD
  {
    hide Quad, ValueOf;
    if |octets| > 3 {
      QuadShape(octets[..3]);
      EncodeShape(octets[3..]);
    } else if octets != [] {
      QuadShape(octets);
    }
  }

  // ---- The encoder, with shifts and masks ------------------------------------------------------

  function Val(b: bv8): Octet { b as int }

  lemma LowTwo(b: bv8)
    ensures Val(b & 0x3) == Val(b) % 4 && (b & 0x3) < 4
  {
  }

  lemma LowFour(b: bv8)
    ensures Val(b & 0xF) == Val(b) % 16 && (b & 0xF) < 16
  {
  }

  lemma HighFour(b: bv8)
    ensures Val(b >> 4) == Val(b) / 16 && (b >> 4) < 16
  {
  }

  lemma HighTwo(b: bv8)
    ensures Val(b >> 6) == Val(b) / 64 && (b >> 6) < 4
  {
  }

  lemma ShiftFour(x: bv8)
    requires x < 4
    ensures Val(x << 4) == Val(x) * 16
  {
  }

  lemma ShiftTwo(x: bv8)
    requires x < 16
    ensures Val(x << 2) == Val(x) * 4
  {
  }

  lemma OrIsSum(x: bv8, y: bv8)
    requires x & y == 0
    ensures Val(x | y) == Val(x) + Val(y)
  {
  }

  lemma DisjointFour(x: bv8, y: bv8)
    requires x < 4 && y < 16
    ensures (x << 4) & y == 0
  {
  }

  lemma DisjointTwo(x: bv8, y: bv8)
    requires x < 16 && y < 4
    ensures (x << 2) & y == 0
  {
  }

  function FirstIndex(b0: bv8): bv8 { b0 >> 2 }

  function SecondIndex(b0: bv8, b1: bv8): bv8 { ((b0 & 0x3) << 4) | (b1 >> 4) }

  function ThirdIndex(b1: bv8, b2: bv8): bv8 { ((b1 & 0xF) << 2) | (b2 >> 6) }

  function FourthIndex(b2: bv8): bv8 { b2 & 0x3F }

  lemma FirstDigit(b: bv8)
    ensures Val(FirstIndex(b)) == Val(b) / 4
  {
  }

  lemma SecondDigit(b0: bv8, b1: bv8)
    ensures Val(SecondIndex(b0, b1)) == Val(b0) % 4 * 16 + Val(b1) / 16
  {
    hide Val;
    LowTwo(b0);
    HighFour(b1);
    ShiftFour(b0 & 0x3);
    DisjointFour(b0 & 0x3, b1 >> 4);
    OrIsSum((b0 & 0x3) << 4, b1 >> 4);
  }

  lemma ThirdDigit(b1: bv8, b2: bv8)
    ensures Val(ThirdIndex(b1, b2)) == Val(b1) % 16 * 4 + Val(b2) / 64
  {
    hide Val;
    LowFour(b1);
    HighTwo(b2);
    ShiftTwo(b1 & 0xF);
    DisjointTwo(b1 & 0xF, b2 >> 6);
    OrIsSum((b1 & 0xF) << 2, b2 >> 6);
  }

  lemma FourthDigit(b: bv8)
    ensures Val(FourthIndex(b)) == Val(b) % 64
  {
  }

  lemma TableEntry(i: int)
    requires 0 <= i < 64
    ensures |ALPHABET| == 64 && ALPHABET[i] == Letter(i)
  {
  }

  /** The octets as numbers. */
  function Values(bytes: seq<bv8>): (r: seq<Octet>)
    ensures |r| == |bytes|
  {
    seq(|bytes|, i requires 0 <= i < |bytes| => Val(bytes[i]))
  }

  lemma SameByte(a: bv8, b: bv8)
    requires Val(a) == Val(b)
    ensures a == b
  {
    ByteValue(a);
    ByteValue(b);
  }

  lemma ByteValue(b: bv8)
    ensures Val(b) as bv8 == b
  {
  }

  /** Different bytes have different encodings, and the strict decoder gives the bytes back. */
  lemma EncodingDetermines(a: seq<bv8>, b: seq<bv8>)
    ensures Decode(Encode(Values(a))) == Some(Values(a))
    ensures Encode(Values(a)) == Encode(Values(b)) <==> a == b
  {
    hide Val;
    DecodeEncode(Values(a));
    DecodeEncode(Values(b));
    if Values(a) == Values(b) {
      forall i | 0 <= i < |a| ensures a[i] == b[i] {
        assert Values(a)[i] == Values(b)[i];
        SameByte(a[i], b[i]);
      }
    }
  }

  /** Shifts and masks compute the digits of the group number. */
  lemma IndexDigits(b0: bv8, b1: bv8, b2: bv8)
    ensures var n := Number24(Val(b0), Val(b1), Val(b2));
      && 0 <= n < 0x100_0000
      && Val(FirstIndex(b0)) == Digit(n, 0)
      && Val(SecondIndex(b0, b1)) == Digit(n, 1)
      && Val(ThirdIndex(b1, b2)) == Digit(n, 2)
      && Val(FourthIndex(b2)) == Digit(n, 3)
  {
    hide FirstIndex, SecondIndex, ThirdIndex, FourthIndex, Digit, Val, Number24;
    FirstDigit(b0);
    SecondDigit(b0, b1);
    ThirdDigit(b1, b2);
    FourthDigit(b2);
    DigitsOfOctets(Val(b0), Val(b1), Val(b2));
  }

  lemma ZeroByte()
    ensures Val(0) == 0
  {
  }

  method EncodeChunk(chunk: seq<bv8>) returns (out: string)
    requires 1 <= |chunk| <= 3
    ensures out == Quad(Values(chunk))
  {
    hide Letter, Digit, ALPHABET, FirstIndex, SecondIndex, ThirdIndex, FourthIndex, Val, Number24;
    var b0 := chunk[0];
    var b1: bv8 := if |chunk| > 1 then chunk[1] else 0;
    var b2: bv8 := if |chunk| > 2 then chunk[2] else 0;
    ZeroByte();
    IndexDigits(b0, b1, b2);
    ghost var n := GroupNumber(Values(chunk));
    TableEntry(Digit(n, 0));
    TableEntry(Digit(n, 1));
    TableEntry(Digit(n, 2));
    TableEntry(Digit(n, 3));
    out := [ALPHABET[Val(FirstIndex(b0))], ALPHABET[Val(SecondIndex(b0, b1))]];
    if |chunk| > 1 {
      out := out + [ALPHABET[Val(ThirdIndex(b1, b2))]];
    } else {
      out := out + [PAD];
    }
    if |chunk| > 2 {
      out := out + [ALPHABET[Val(FourthIndex(b2))]];
    } else {
      out := out + [PAD];
    }
  }

  method Base64EncodeStandard(bytes: seq<bv8>) returns (out: string)
    ensures out == Encode(Values(bytes))
  {
    hide Quad;
    out := "";
    ghost var values := Values(bytes);
    var i := 0;
    while i < |bytes|
      invariant 0 <= i <= |bytes|
      invariant out + Encode(values[i..]) == Encode(values)
    {
      var n := if |bytes| - i <= 3 then |bytes| - i else 3;
      var quad := EncodeChunk(bytes[i..i + n]);
      EncodeSplit(values[i..]);
      assert values[i..][..n] == Values(bytes[i..i + n]) && values[i..][n..] == values[i + n..];
      assert out + quad + Encode(values[i + n..]) == out + Encode(values[i..]);
      out := out + quad;
      i := i + n;
    }
  }
}
