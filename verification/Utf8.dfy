// UTF-8 encoding of JavaScript strings, against RFC 3629 section 3.
module Utf8 {
  import opened Wrappers
  import opened JsonText

  type Octet = o: bv32 | o <= 0xff

  /** Any number `codePointAt` can give, lone surrogates included. */
  type CodePoint = c: bv32 | c <= 0x10ffff

  predicate IsSurrogate(c: CodePoint) {
    0xd800 <= c <= 0xdfff
  }

  // UTF-16

  function FromPair(high: CodeUnit, low: CodeUnit): CodePoint
    requires IsHigh(high) && IsLow(low)
  {
    ((high - 0xd800) << 10) + (low - 0xdc00) + 0x10000
  }

  /** `input.codePointAt(index)`. */
  function CodePointAt(s: Text, i: nat): CodePoint
    requires i < |s|
  {
    if IsHigh(s[i]) && i + 1 < |s| && IsLow(s[i + 1]) then FromPair(s[i], s[i + 1]) else s[i]
  }

  function HighOf(c: CodePoint): CodeUnit
    requires c > 0xffff
  {
    ((c - 0x10000) >> 10) + 0xd800
  }

  function LowOf(c: CodePoint): CodeUnit
    requires c > 0xffff
  {
    ((c - 0x10000) & 0x3ff) + 0xdc00
  }

  function UnitsOf(c: CodePoint): Text {
    if c <= 0xffff then [c] else [HighOf(c), LowOf(c)]
  }

  /** The code points of a string, in order. */
  function CodePoints(s: Text): seq<CodePoint>
    decreases |s|
  {
    if s == [] then []
    else
      var c := CodePointAt(s, 0);
      if c > 0xffff then [c] + CodePoints(s[2..]) else [c] + CodePoints(s[1..])
  }

  function Units(cs: seq<CodePoint>): Text {
    if cs == [] then [] else UnitsOf(cs[0]) + Units(cs[1..])
  }

  lemma PairBits(high: CodeUnit, low: CodeUnit)
    requires IsHigh(high) && IsLow(low)
    ensures var c := FromPair(high, low); c > 0xffff && HighOf(c) == high && LowOf(c) == low
  {
  }

  lemma PairUnits(high: CodeUnit, low: CodeUnit)
    requires IsHigh(high) && IsLow(low)
    ensures FromPair(high, low) > 0xffff && UnitsOf(FromPair(high, low)) == [high, low]
  {
    hide FromPair, HighOf, LowOf;
    PairBits(high, low);
  }

  /** No string is lost in its code points. */
  lemma {:induction false} CodePointsAreUnits(s: Text)
    ensures Units(CodePoints(s)) == s
    decreases |s|
  {
    hide FromPair, UnitsOf, HighOf, LowOf;
    if s != [] {
      var c := CodePointAt(s, 0);
      if IsHigh(s[0]) && 1 < |s| && IsLow(s[1]) {
        PairUnits(s[0], s[1]);
        CodePointsAreUnits(s[2..]);
        assert ([c] + CodePoints(s[2..]))[1..] == CodePoints(s[2..]);
        assert s == [s[0], s[1]] + s[2..];
      } else {
        SmallUnits(s[0]);
        CodePointsAreUnits(s[1..]);
        assert ([c] + CodePoints(s[1..]))[1..] == CodePoints(s[1..]);
      }
    }
  }

  predicate IsPair(c: CodePoint, d: CodePoint) {
    0xd800 <= c <= 0xdbff && 0xdc00 <= d <= 0xdfff
  }

  /** And pairs of surrogates never stay apart: there are no two code points left that form one. */
  lemma {:induction false} CodePointsArePaired(s: Text, k: nat)
    requires k + 1 < |CodePoints(s)|
    ensures !IsPair(CodePoints(s)[k], CodePoints(s)[k + 1])
    decreases |s|
  {
    hide FromPair;
    var c := CodePointAt(s, 0);
    if c > 0xffff {
      assert IsHigh(s[0]) && 1 < |s| && IsLow(s[1]);
      assert CodePoints(s)[1..] == CodePoints(s[2..]);
      if k > 0 {
        CodePointsArePaired(s[2..], k - 1);
      }
    } else {
      assert CodePoints(s)[1..] == CodePoints(s[1..]);
      if k > 0 {
        CodePointsArePaired(s[1..], k - 1);
      } else {
        NextPoint(s);
      }
    }
  }

  lemma NextPoint(s: Text)
    requires |CodePoints(s)| >= 2 && CodePointAt(s, 0) <= 0xffff
    ensures !IsPair(CodePoints(s)[0], CodePoints(s)[1])
  {
    assert CodePoints(s)[1..] == CodePoints(s[1..]);
    if IsHigh(s[0]) && |s| >= 2 && IsLow(s[1]) {
      PairUnits(s[0], s[1]);
    }
    if |s| >= 2 {
      assert CodePoints(s)[1] == CodePointAt(s[1..], 0);
      if |s| >= 3 && IsHigh(s[1]) && IsLow(s[2]) {
        PairUnits(s[1], s[2]);
      }
    }
  }

  lemma SmallUnits(u: CodeUnit)
    ensures UnitsOf(u) == [u]
  {
  }

  // Octets

  /** `appendUtf8CodePoint`: the octets it pushes. */
  function Octets(c: CodePoint): seq<Octet> {
    if c <= 0x7f then [c]
    else if c <= 0x7ff then [0xc0 | (c >> 6), 0x80 | (c & 0x3f)]
    else if c <= 0xffff then [0xe0 | (c >> 12), 0x80 | ((c >> 6) & 0x3f), 0x80 | (c & 0x3f)]
    else [0xf0 | (c >> 18), 0x80 | ((c >> 12) & 0x3f), 0x80 | ((c >> 6) & 0x3f), 0x80 | (c & 0x3f)]
  }

  predicate IsTail(o: Octet) {
    o & 0xc0 == 0x80
  }

  function Number2(a: Octet, b: Octet): bv32 {
    ((a & 0x1f) << 6) | (b & 0x3f)
  }

  function Number3(a: Octet, b: Octet, c: Octet): bv32 {
    ((a & 0x0f) << 12) | ((b & 0x3f) << 6) | (c & 0x3f)
  }

  function Number4(a: Octet, b: Octet, c: Octet, d: Octet): bv32 {
    ((a & 0x07) << 18) | ((b & 0x3f) << 12) | ((c & 0x3f) << 6) | (d & 0x3f)
  }

  /** The table of RFC 3629 section 3: ranges, leading bits, and the number's bits in the places marked x. */
  predicate IsRow(c: CodePoint, os: seq<Octet>) {
    if c <= 0x7f then |os| == 1 && os[0] & 0x80 == 0 && os[0] == c
    else if c <= 0x7ff then |os| == 2 && os[0] & 0xe0 == 0xc0 && IsTail(os[1]) && Number2(os[0], os[1]) == c
    else if c <= 0xffff then
      |os| == 3 && os[0] & 0xf0 == 0xe0 && IsTail(os[1]) && IsTail(os[2]) && Number3(os[0], os[1], os[2]) == c
    else
      && |os| == 4 && os[0] & 0xf8 == 0xf0 && IsTail(os[1]) && IsTail(os[2]) && IsTail(os[3])
      && Number4(os[0], os[1], os[2], os[3]) == c
  }

  /** RFC 3629 encodes the Unicode scalar values only. */
  predicate IsRfc3629(c: CodePoint, os: seq<Octet>) {
    !IsSurrogate(c) && IsRow(c, os)
  }

  lemma OneOctet(c: CodePoint, a: Octet)
    requires c <= 0x7f
    ensures a & 0x80 == 0 && a == c <==> a == c
  {
  }

  lemma TwoOctets(c: CodePoint, a: Octet, b: Octet)
    requires 0x7f < c <= 0x7ff
    ensures a & 0xe0 == 0xc0 && IsTail(b) && Number2(a, b) == c <==> a == 0xc0 | (c >> 6) && b == 0x80 | (c & 0x3f)
  {
  }

  lemma ThreeOctetsFit(c: CodePoint)
    requires 0x7ff < c <= 0xffff
    ensures var x, y, z: bv32 := 0xe0 | (c >> 12), 0x80 | ((c >> 6) & 0x3f), 0x80 | (c & 0x3f);
      && x <= 0xff && y <= 0xff && z <= 0xff
      && x & 0xf0 == 0xe0 && IsTail(y) && IsTail(z) && Number3(x, y, z) == c
  {
  }

  lemma ThreeOctetsOnly(c: CodePoint, x: Octet, y: Octet, z: Octet)
    ensures x & 0xf0 == 0xe0 && IsTail(y) && IsTail(z) && Number3(x, y, z) == c
        ==> x == 0xe0 | (c >> 12) && y == 0x80 | ((c >> 6) & 0x3f) && z == 0x80 | (c & 0x3f)
  {
  }

  lemma FourOctetsFit(c: CodePoint)
    requires 0xffff < c
    ensures var w, x, y, z: bv32 :=
        0xf0 | (c >> 18), 0x80 | ((c >> 12) & 0x3f), 0x80 | ((c >> 6) & 0x3f), 0x80 | (c & 0x3f);
      && w <= 0xff && x <= 0xff && y <= 0xff && z <= 0xff
      && w & 0xf8 == 0xf0 && IsTail(x) && IsTail(y) && IsTail(z) && Number4(w, x, y, z) == c
  {
  }

  lemma FourOctetsOnly(c: CodePoint, w: Octet, x: Octet, y: Octet, z: Octet)
    ensures w & 0xf8 == 0xf0 && IsTail(x) && IsTail(y) && IsTail(z) && Number4(w, x, y, z) == c
        ==> && w == 0xf0 | (c >> 18) && x == 0x80 | ((c >> 12) & 0x3f) && y == 0x80 | ((c >> 6) & 0x3f)
            && z == 0x80 | (c & 0x3f)
  {
  }

  /** The table determines the octets of every number, and they are the ones pushed. */
  lemma OctetsAreRow(c: CodePoint, os: seq<Octet>)
    ensures IsRow(c, os) <==> os == Octets(c)
  {
    hide IsTail, Number2, Number3, Number4;
    var t := Octets(c);
    if c <= 0x7f {
      OneOctet(c, t[0]);
    } else if c <= 0x7ff {
      TwoOctets(c, t[0], t[1]);
      if |os| == 2 {
        TwoOctets(c, os[0], os[1]);
      }
    } else if c <= 0xffff {
      ThreeOctetsFit(c);
      if |os| == 3 {
        ThreeOctetsOnly(c, os[0], os[1], os[2]);
      }
    } else {
      FourOctetsFit(c);
      if |os| == 4 {
        FourOctetsOnly(c, os[0], os[1], os[2], os[3]);
      }
    }
  }

  /** The octets pushed for a Unicode scalar value are its UTF-8 encoding, and no others are. */
  lemma OctetsAreRfc3629(c: CodePoint, os: seq<Octet>)
    requires !IsSurrogate(c)
    ensures IsRfc3629(c, os) <==> os == Octets(c)
  {
    hide IsRow, Octets;
    OctetsAreRow(c, os);
  }

  // Whole strings

  function EncodePoints(cs: seq<CodePoint>): seq<Octet> {
    if cs == [] then [] else Octets(cs[0]) + EncodePoints(cs[1..])
  }

  function Encode(s: Text): seq<Octet> {
    EncodePoints(CodePoints(s))
  }

  /** `utf8Bytes`: a loop over code units that steps over the second unit of a pair. */
  method Utf8Bytes(input: Text) returns (bytes: seq<Octet>)
    ensures bytes == Encode(input)
  {
    hide FromPair, Octets, CodePointAt, EncodePoints, CodePoints;
    bytes := [];
    var index := 0;
    assert input[0..] == input;
    while index < |input|
      invariant index <= |input|
      invariant Encode(input) == bytes + EncodePoints(CodePoints(input[index..]))
    {
      var codePoint := CodePointAt(input, index);
      ghost var rest := input[index..];
      StepOver(input, index);
      if codePoint > 0xffff {
        index := index + 1;
      }
      bytes := bytes + Octets(codePoint);
      index := index + 1;
    }
    NothingEncoded();
    assert input[index..] == [] && bytes + [] == bytes;
  }

  lemma NothingEncoded()
    ensures EncodePoints(CodePoints([])) == []
  {
  }

  lemma StepOver(input: Text, index: nat)
    requires index < |input|
    ensures var c := CodePointAt(input, index);
      var next := if c > 0xffff then index + 2 else index + 1;
      && next <= |input|
      && EncodePoints(CodePoints(input[index..])) == Octets(c) + EncodePoints(CodePoints(input[next..]))
  {
    hide FromPair, Octets;
    var s := input[index..];
    assert CodePointAt(s, 0) == CodePointAt(input, index);
    if IsHigh(s[0]) && 1 < |s| && IsLow(s[1]) {
      PairUnits(s[0], s[1]);
      assert s[2..] == input[index + 2..];
      assert CodePoints(s)[1..] == CodePoints(s[2..]);
    } else {
      assert s[1..] == input[index + 1..];
      assert CodePoints(s)[1..] == CodePoints(s[1..]);
    }
  }

  // Decoding

  /** How many octets the first octet announces. */
  function Announced(o: Octet): nat {
    if o & 0x80 == 0 then 1 else if o & 0xe0 == 0xc0 then 2 else if o & 0xf0 == 0xe0 then 3 else 4
  }

  lemma AnnouncedOctets(c: CodePoint)
    ensures |Octets(c)| == Announced(Octets(c)[0])
  {
  }

  /** The number that octets in the form of the table stand for. */
  function NumberOf(os: seq<Octet>): bv32 {
    if |os| == 1 then os[0]
    else if |os| == 2 then Number2(os[0], os[1])
    else if |os| == 3 then Number3(os[0], os[1], os[2])
    else if |os| == 4 then Number4(os[0], os[1], os[2], os[3])
    else 0
  }

  lemma RowNumber(c: CodePoint, os: seq<Octet>)
    requires IsRow(c, os)
    ensures NumberOf(os) == c
  {
    hide Number2, Number3, Number4, IsTail;
  }

  lemma OctetsTellApart(c: CodePoint, d: CodePoint)
    requires Octets(c) == Octets(d)
    ensures c == d
  {
    hide Octets, IsRow, NumberOf;
    OctetsAreRow(c, Octets(c));
    OctetsAreRow(d, Octets(d));
    RowNumber(c, Octets(c));
    RowNumber(d, Octets(d));
  }

  /** A concatenation of encodings comes apart in one way only. */
  lemma {:induction false} EncodingsTellApart(cs: seq<CodePoint>, ds: seq<CodePoint>)
    requires EncodePoints(cs) == EncodePoints(ds)
    ensures cs == ds
  {
    hide Octets, Announced;
    if cs == [] || ds == [] {
      SomethingEncoded(cs);
      SomethingEncoded(ds);
    } else {
      var x, y := Octets(cs[0]), Octets(ds[0]);
      AnnouncedOctets(cs[0]);
      AnnouncedOctets(ds[0]);
      SomethingEncoded([cs[0]]);
      SomethingEncoded([ds[0]]);
      var all := EncodePoints(cs);
      assert all[0] == x[0] && all[0] == y[0];
      assert all[..|x|] == x && all[..|y|] == y;
      assert all[|x|..] == EncodePoints(cs[1..]) && all[|y|..] == EncodePoints(ds[1..]);
      OctetsTellApart(cs[0], ds[0]);
      EncodingsTellApart(cs[1..], ds[1..]);
      assert cs == [cs[0]] + cs[1..] && ds == [ds[0]] + ds[1..];
    }
  }

  lemma SomethingEncoded(cs: seq<CodePoint>)
    ensures cs != [] ==> EncodePoints(cs) != [] && |Octets(cs[0])| >= 1
  {
  }

  /** Different strings have different octets, lone surrogates included. */
  lemma EncodeIsInjective(s: Text, t: Text)
    ensures Encode(s) == Encode(t) <==> s == t
  {
    hide EncodePoints;
    if Encode(s) == Encode(t) {
      EncodingsTellApart(CodePoints(s), CodePoints(t));
      CodePointsAreUnits(s);
      CodePointsAreUnits(t);
    }
  }
}
