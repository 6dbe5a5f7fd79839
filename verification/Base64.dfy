/** The base64 of the Jira credentials, against section 4 of RFC 4648. */
module Base64 {
  import opened Prelude

  type Byte = x: nat | x < 256

  /** Table 1 of RFC 4648. */
  function Symbol(v: nat): (c: char)
    requires v < 64
    ensures Value(c) == Some(v)
  {
    if v < 26 then ('A' as int + v) as char
    else if v < 52 then ('a' as int + v - 26) as char
    else if v < 62 then ('0' as int + v - 52) as char
    else if v == 62 then '+'
    else '/'
  }

  /** The table read backwards. */
  function Value(c: char): (v: Option<nat>)
    ensures v.Some? ==> v.value < 64
  {
    if 'A' <= c <= 'Z' then Some(c as int - 'A' as int)
    else if 'a' <= c <= 'z' then Some(c as int - 'a' as int + 26)
    else if '0' <= c <= '9' then Some(c as int - '0' as int + 52)
    else if c == '+' then Some(62)
    else if c == '/' then Some(63)
    else None
  }

  /** Where the ranges of the alphabet begin and end. */
  lemma AlphabetRanges()
    ensures Value('A') == Some(0) && Value('Z') == Some(25) && Value('a') == Some(26) && Value('z') == Some(51)
    ensures Value('0') == Some(52) && Value('9') == Some(61) && Value('+') == Some(62) && Value('/') == Some(63)
    ensures Value('=').None? && Value('-').None? && Value('_').None?
  {
  }

  lemma ValueIsInjective(c: char, d: char)
    requires Value(c).Some? && Value(c) == Value(d)
    ensures c == d
  {
  }

  // ---- The decoder of the standard -----------------------------------------

  lemma MulGap(d: nat, p: nat, q: nat)
    requires p > q
    ensures d * p >= d * q + d
  {
    var k := p - q - 1;
    assert d * p == d * q + d + d * k;
  }

  /** Quotient and remainder are the only ones there are. */
  lemma QuotientIs(n: nat, d: nat, q: nat, r: nat)
    requires n == d * q + r && r < d
    ensures n / d == q && n % d == r
  {
    var p, m := n / d, n % d;
    assert n == d * p + m;
    if p > q {
      MulGap(d, p, q);
    } else if p < q {
      MulGap(d, q, p);
    }
  }

  /** Twenty-four bits from four symbols. */
  function Bits(v0: nat, v1: nat, v2: nat, v3: nat): nat {
    v0 * 0x40000 + v1 * 0x1000 + v2 * 0x40 + v3
  }

  /** Twenty-four bits from three bytes. */
  function Word(a: nat, b: nat, c: nat): nat {
    a * 0x10000 + b * 0x100 + c
  }

  lemma BitsAreUnique(v0: nat, v1: nat, v2: nat, v3: nat, w0: nat, w1: nat, w2: nat, w3: nat)
    requires v0 < 64 && v1 < 64 && v2 < 64 && v3 < 64 && w0 < 64 && w1 < 64 && w2 < 64 && w3 < 64
    requires Bits(v0, v1, v2, v3) == Bits(w0, w1, w2, w3)
    ensures v0 == w0 && v1 == w1 && v2 == w2 && v3 == w3
  {
  }

  lemma WordOfBytes(n: nat)
    ensures n == Word(n / 0x10000, n / 0x100 % 0x100, n % 0x100)
  {
    var m := n / 0x100;
    var h, l := m / 0x100, m % 0x100;
    assert n == 0x100 * m + n % 0x100 && m == 0x100 * h + l;
    QuotientIs(n, 0x10000, h, l * 0x100 + n % 0x100);
  }

  lemma BytesOfWord(a: Byte, b: Byte, c: Byte)
    ensures var n := Word(a, b, c); n < 0x100_0000 && n / 0x10000 == a && n / 0x100 % 0x100 == b && n % 0x100 == c
  {
    var n := Word(a, b, c);
    QuotientIs(n, 0x10000, a, b * 0x100 + c);
    QuotientIs(n, 0x100, a * 0x100 + b, c);
    QuotientIs(a * 0x100 + b, 0x100, a, b);
  }

  /** Four symbols stand for three bytes. */
  function Group(q: string): Option<seq<Byte>>
    requires |q| == 4
  {
    var v0, v1, v2, v3 := Value(q[0]), Value(q[1]), Value(q[2]), Value(q[3]);
    if v0.None? || v1.None? || v2.None? || v3.None? then None
    else
      var n := Bits(v0.value, v1.value, v2.value, v3.value);
      Some([n / 0x10000, n / 0x100 % 0x100, n % 0x100])
  }

  /** A padded group stands for one or two bytes; the bits that encode nothing are zero. */
  function PaddedGroup(q: string): Option<seq<Byte>>
    requires |q| == 4 && q[3] == '='
  {
    var v0, v1, v2 := Value(q[0]), Value(q[1]), Value(q[2]);
    if v0.None? || v1.None? then None
    else if q[2] == '=' then
      if v1.value % 16 == 0 then Some([Bits(v0.value, v1.value, 0, 0) / 0x10000]) else None
    else if v2.None? || v2.value % 4 != 0 then None
    else
      var n := Bits(v0.value, v1.value, v2.value, 0);
      Some([n / 0x10000, n / 0x100 % 0x100])
  }

  /** A run of unpadded groups. */
  function Groups(t: string): Option<seq<Byte>> {
    if t == "" then Some([])
    else if |t| < 4 then None
    else
      var front, last := Groups(t[..|t| - 4]), Group(t[|t| - 4..]);
      if front.None? || last.None? then None else Some(front.value + last.value)
  }

  /** The bytes a base64 text stands for: only the last group may be padded. */
  function Decode(t: string): Option<seq<Byte>> {
    if |t| >= 4 && t[|t| - 1] == '=' then
      var front, last := Groups(t[..|t| - 4]), PaddedGroup(t[|t| - 4..]);
      if front.None? || last.None? then None else Some(front.value + last.value)
    else Groups(t)
  }

  lemma {:induction false} GroupsShape(t: string)
    requires Groups(t).Some?
    ensures |t| % 4 == 0 && 4 * |Groups(t).value| == 3 * |t|
    ensures t != "" ==> t[|t| - 1] != '='
  {
    hide Bits;
    if t != "" {
      GroupsShape(t[..|t| - 4]);
      assert t[|t| - 4..][3] == t[|t| - 1];
      GroupShape(t[|t| - 4..]);
    }
  }

  lemma GroupShape(q: string)
    requires |q| == 4 && Group(q).Some?
    ensures |Group(q).value| == 3 && q[3] != '='
  {
    hide Bits;
  }

  lemma GroupIsInjective(q: string, r: string)
    requires |q| == 4 && |r| == 4 && Group(q).Some? && Group(q) == Group(r)
    ensures q == r
  {
    hide Bits, Value;
    var a0, a1, a2, a3 := Value(q[0]).value, Value(q[1]).value, Value(q[2]).value, Value(q[3]).value;
    var b0, b1, b2, b3 := Value(r[0]).value, Value(r[1]).value, Value(r[2]).value, Value(r[3]).value;
    SameWord(Bits(a0, a1, a2, a3), Bits(b0, b1, b2, b3), Group(q).value, Group(r).value);
    BitsAreUnique(a0, a1, a2, a3, b0, b1, b2, b3);
    forall i | 0 <= i < 4
      ensures q[i] == r[i]
    {
      ValueIsInjective(q[i], r[i]);
    }
  }

  lemma SameWord(n: nat, m: nat, x: seq<nat>, y: seq<nat>)
    requires x == [n / 0x10000, n / 0x100 % 0x100, n % 0x100] && y == [m / 0x10000, m / 0x100 % 0x100, m % 0x100]
    requires x == y
    ensures n == m
  {
    hide Word;
    WordOfBytes(n);
    WordOfBytes(m);
    assert x[0] == y[0] && x[1] == y[1] && x[2] == y[2];
  }

  /** What the bits left over in a padded group come to. */
  lemma PaddedPairBits(v0: nat, v1: nat, v2: nat)
    requires v2 % 4 == 0
    ensures Bits(v0, v1, v2, 0) % 0x100 == 0
  {
    var k := v2 / 4;
    assert v2 == 4 * k;
    QuotientIs(Bits(v0, v1, v2, 0), 0x100, v0 * 0x400 + v1 * 0x10 + k, 0);
  }

  lemma PaddedOneBits(v0: nat, v1: nat)
    requires v1 % 16 == 0
    ensures Bits(v0, v1, 0, 0) % 0x100 == 0 && Bits(v0, v1, 0, 0) / 0x100 % 0x100 == 0
  {
    var k := v1 / 16;
    assert v1 == 16 * k;
    QuotientIs(Bits(v0, v1, 0, 0), 0x100, 0x100 * (v0 * 4 + k), 0);
    QuotientIs(0x100 * (v0 * 4 + k), 0x100, v0 * 4 + k, 0);
  }

  lemma PaddedGroupIsInjective(q: string, r: string)
    requires |q| == 4 && |r| == 4 && q[3] == '=' && r[3] == '='
    requires PaddedGroup(q).Some? && PaddedGroup(q) == PaddedGroup(r)
    ensures q == r
  {
    hide Bits, Value;
    var a0, a1, b0, b1 := Value(q[0]).value, Value(q[1]).value, Value(r[0]).value, Value(r[1]).value;
    var x, y := PaddedGroup(q).value, PaddedGroup(r).value;
    if q[2] == '=' {
      assert |x| == 1 && x[0] == y[0];
      PaddedOneBits(a0, a1);
      PaddedOneBits(b0, b1);
      SameWord(Bits(a0, a1, 0, 0), Bits(b0, b1, 0, 0), [x[0], 0, 0], [y[0], 0, 0]);
      BitsAreUnique(a0, a1, 0, 0, b0, b1, 0, 0);
    } else {
      assert |x| == 2 && x[0] == y[0] && x[1] == y[1];
      var a2, b2 := Value(q[2]).value, Value(r[2]).value;
      PaddedPairBits(a0, a1, a2);
      PaddedPairBits(b0, b1, b2);
      SameWord(Bits(a0, a1, a2, 0), Bits(b0, b1, b2, 0), [x[0], x[1], 0], [y[0], y[1], 0]);
      BitsAreUnique(a0, a1, a2, 0, b0, b1, b2, 0);
      ValueIsInjective(q[2], r[2]);
    }
    ValueIsInjective(q[0], r[0]);
    ValueIsInjective(q[1], r[1]);
  }

  lemma {:induction false} GroupsAreInjective(t: string, u: string)
    requires Groups(t).Some? && Groups(t) == Groups(u)
    ensures t == u
    decreases |t|
  {
    hide Group;
    GroupsShape(t);
    GroupsShape(u);
    if t != "" {
      var k := |t| - 4;
      var x := Groups(t).value;
      assert x == Groups(t[..k]).value + Group(t[k..]).value;
      assert x == Groups(u[..k]).value + Group(u[k..]).value;
      GroupsShape(t[..k]);
      GroupsShape(u[..k]);
      GroupShape(t[k..]);
      GroupShape(u[k..]);
      SplitSame(Groups(t[..k]).value, Group(t[k..]).value, Groups(u[..k]).value, Group(u[k..]).value);
      GroupsAreInjective(t[..k], u[..k]);
      GroupIsInjective(t[k..], u[k..]);
      assert t == t[..k] + t[k..] && u == u[..k] + u[k..];
    }
  }

  lemma SplitSame<T>(a: seq<T>, b: seq<T>, c: seq<T>, d: seq<T>)
    requires a + b == c + d && |a| == |c|
    ensures a == c && b == d
  {
    assert a == (a + b)[..|a|] && c == (c + d)[..|a|];
    assert b == (a + b)[|a|..] && d == (c + d)[|a|..];
  }

  predicate IsPadded(t: string) {
    |t| >= 4 && t[|t| - 1] == '='
  }

  lemma DecodeShape(t: string)
    requires Decode(t).Some?
    ensures |t| % 4 == 0
    ensures IsPadded(t) <==> |Decode(t).value| % 3 != 0
    ensures |t| == (|Decode(t).value| + 2) / 3 * 4
  {
    hide Groups, Bits;
    var x := Decode(t).value;
    if IsPadded(t) {
      GroupsShape(t[..|t| - 4]);
      var j := (|t| - 4) / 4;
      PaddedShape(t[|t| - 4..]);
      ShapeOf(|t|, |x|, j, |x| - 3 * j);
    } else {
      GroupsShape(t);
      if |t| > 0 {
        ShapeOf(|t|, |x|, |t| / 4 - 1, 3);
      }
    }
  }

  lemma PaddedShape(q: string)
    requires |q| == 4 && q[3] == '=' && PaddedGroup(q).Some?
    ensures 1 <= |PaddedGroup(q).value| <= 2
  {
    hide Bits;
  }

  /** Lengths: `j` full groups and a last one of `e` bytes. */
  lemma ShapeOf(chars: nat, bytes: nat, j: nat, e: nat)
    requires chars == 4 * j + 4 && bytes == 3 * j + e && 1 <= e <= 3
    ensures chars % 4 == 0 && chars == (bytes + 2) / 3 * 4 && (bytes % 3 == 0 <==> e == 3)
  {
    QuotientIs(bytes + 2, 3, j + 1, e - 1);
    QuotientIs(bytes, 3, if e == 3 then j + 1 else j, if e == 3 then 0 else e);
  }

  /** Two texts that stand for the same bytes are the same: every byte string has one encoding. */
  lemma EncodingIsUnique(t: string, u: string)
    requires Decode(t).Some? && Decode(t) == Decode(u)
    ensures t == u
  {
    hide Groups, Group, PaddedGroup;
    DecodeShape(t);
    DecodeShape(u);
    if IsPadded(t) {
      var k := |t| - 4;
      GroupsShape(t[..k]);
      GroupsShape(u[..k]);
      SplitSame(Groups(t[..k]).value, PaddedGroup(t[k..]).value, Groups(u[..k]).value, PaddedGroup(u[k..]).value);
      GroupsAreInjective(t[..k], u[..k]);
      PaddedGroupIsInjective(t[k..], u[k..]);
      assert t == t[..k] + t[k..] && u == u[..k] + u[k..];
    } else {
      GroupsAreInjective(t, u);
    }
  }

  // ---- The encoder ---------------------------------------------------------

  /** The shifts, masks and ors of the code on 32-bit words are the sums and remainders used
      below. */
  lemma ShiftsAreDigits(a: bv32, b: bv32, c: bv32)
    requires a < 256 && b < 256 && c < 256
    ensures (a << 16) | (b << 8) | c == a * 0x10000 + b * 0x100 + c
    ensures var n := (a << 16) | (b << 8) | c;
      (n >> 18) & 63 == n / 0x40000 && (n >> 12) & 63 == n / 0x1000 % 64
      && (n >> 6) & 63 == n / 64 % 64 && n & 63 == n % 64
  {
  }

  function Sextet(n: nat, place: nat): (v: nat)
    requires place == 0x40000 || place == 0x1000 || place == 0x40 || place == 1
    ensures v < 64
  {
    n / place % 64
  }

  lemma SextetsAreDigits(n: nat)
    requires n < 0x100_0000
    ensures Bits(Sextet(n, 0x40000), Sextet(n, 0x1000), Sextet(n, 0x40), Sextet(n, 1)) == n
  {
    var a, d := n / 0x40, n % 0x40;
    var b, c := a / 0x40, a % 0x40;
    var e, f := b / 0x40, b % 0x40;
    assert n == 0x40 * a + d && a == 0x40 * b + c && b == 0x40 * e + f;
    QuotientIs(n, 0x1000, b, 0x40 * c + d);
    QuotientIs(n, 0x40000, e, 0x1000 * f + 0x40 * c + d);
    QuotientIs(e, 0x40, 0, e);
  }

  lemma GroupOfChunk(a: Byte, b: Byte, c: Byte)
    ensures var n := Word(a, b, c);
      Group([Symbol(Sextet(n, 0x40000)), Symbol(Sextet(n, 0x1000)), Symbol(Sextet(n, 0x40)), Symbol(Sextet(n, 1))])
      == Some([a, b, c])
  {
    hide Sextet, Symbol, Value, Bits, Word;
    BytesOfWord(a, b, c);
    SextetsAreDigits(Word(a, b, c));
  }

  /** The bits below the last byte of a pair, and of a single byte, are zero. */
  lemma PairTail(a: Byte, b: Byte)
    ensures var n := Word(a, b, 0); Sextet(n, 1) == 0 && Sextet(n, 0x40) % 4 == 0
  {
    var n, k := Word(a, b, 0), a * 0x100 + b;
    var h, l := k / 16, k % 16;
    assert k == 16 * h + l;
    QuotientIs(n, 0x40, 4 * k, 0);
    QuotientIs(4 * k, 0x40, h, 4 * l);
    QuotientIs(4 * l, 4, l, 0);
  }

  lemma OneTail(a: Byte)
    ensures var n := Word(a, 0, 0); Sextet(n, 1) == 0 && Sextet(n, 0x40) == 0 && Sextet(n, 0x1000) % 16 == 0
  {
    var n: nat := Word(a, 0, 0);
    var h, l := a / 4, a % 4;
    assert a == 4 * h + l;
    QuotientIs(n, 0x40, 0x400 * a, 0);
    QuotientIs(0x400 * a, 0x40, 16 * a, 0);
    QuotientIs(n, 0x1000, 16 * a, 0);
    QuotientIs(16 * a, 0x40, h, 16 * l);
    QuotientIs(16 * l, 16, l, 0);
  }

  lemma PaddedGroupOfPair(a: Byte, b: Byte)
    ensures var n := Word(a, b, 0);
      PaddedGroup([Symbol(Sextet(n, 0x40000)), Symbol(Sextet(n, 0x1000)), Symbol(Sextet(n, 0x40)), '='])
      == Some([a, b])
  {
    hide Sextet, Symbol, Bits, Word;
    BytesOfWord(a, b, 0);
    SextetsAreDigits(Word(a, b, 0));
    PairTail(a, b);
  }

  lemma PaddedGroupOfOne(a: Byte)
    ensures var n := Word(a, 0, 0);
      PaddedGroup([Symbol(Sextet(n, 0x40000)), Symbol(Sextet(n, 0x1000)), '=', '=']) == Some([a])
  {
    hide Sextet, Symbol, Bits, Word;
    BytesOfWord(a, 0, 0);
    SextetsAreDigits(Word(a, 0, 0));
    OneTail(a);
  }

  predicate IsAlphabet(c: char) {
    Value(c).Some?
  }

  lemma GroupsSnoc(t: string, q: string)
    requires |q| == 4 && Groups(t).Some? && Group(q).Some?
    ensures Groups(t + q) == Some(Groups(t).value + Group(q).value)
  {
    hide Group;
    assert (t + q)[..|t + q| - 4] == t && (t + q)[|t + q| - 4..] == q;
  }

  lemma DecodeSnoc(t: string, q: string)
    requires |q| == 4 && q[3] == '=' && Groups(t).Some? && PaddedGroup(q).Some?
    ensures Decode(t + q) == Some(Groups(t).value + PaddedGroup(q).value)
  {
    hide PaddedGroup, Groups;
    assert (t + q)[..|t + q| - 4] == t && (t + q)[|t + q| - 4..] == q;
  }

  /** The output decodes to the input, uses only the alphabet and at most two trailing padding
      characters, and has four characters for every three bytes begun. */
  method Encode(input: seq<Byte>) returns (out: string)
    ensures Decode(out) == Some(input)
    ensures |out| == (|input| + 2) / 3 * 4
    ensures forall i :: 0 <= i < |out| ==> IsAlphabet(out[i]) || (out[i] == '=' && i >= |out| - (3 - |input| % 3) % 3)
  {
    hide Sextet, Symbol, Value, Groups, Group, PaddedGroup, Decode, Word;
    out := "";
    var i := 0;
    EmptyGroups();
    while i + 3 <= |input|
      invariant 0 <= i <= |input| && i % 3 == 0 && |out| == i / 3 * 4
      invariant Groups(out) == Some(input[..i])
      invariant forall k :: 0 <= k < |out| ==> IsAlphabet(out[k])
    {
      var n := Word(input[i], input[i + 1], input[i + 2]);
      var q := [Symbol(Sextet(n, 0x40000)), Symbol(Sextet(n, 0x1000)), Symbol(Sextet(n, 0x40)), Symbol(Sextet(n, 1))];
      GroupOfChunk(input[i], input[i + 1], input[i + 2]);
      GroupsSnoc(out, q);
      assert input[..i + 3] == input[..i] + [input[i], input[i + 1], input[i + 2]];
      out := out + q;
      i := i + 3;
    }
    var rem := input[i..];
    assert input == input[..i] + rem;
    if rem == [] {
      assert input[..i] == input;
      UnpaddedDecodes(out);
    } else if |rem| == 2 {
      var n := Word(rem[0], rem[1], 0);
      var q := [Symbol(Sextet(n, 0x40000)), Symbol(Sextet(n, 0x1000)), Symbol(Sextet(n, 0x40)), '='];
      PaddedGroupOfPair(rem[0], rem[1]);
      DecodeSnoc(out, q);
      assert rem == [rem[0], rem[1]];
      out := out + q;
    } else {
      var n := Word(rem[0], 0, 0);
      var q := [Symbol(Sextet(n, 0x40000)), Symbol(Sextet(n, 0x1000)), '=', '='];
      PaddedGroupOfOne(rem[0]);
      DecodeSnoc(out, q);
      assert rem == [rem[0]];
      out := out + q;
    }
  }

  lemma EmptyGroups()
    ensures Groups("") == Some([])
  {
  }

  lemma UnpaddedDecodes(t: string)
    requires Groups(t).Some?
    ensures Decode(t) == Groups(t)
  {
    GroupsShape(t);
  }
}
