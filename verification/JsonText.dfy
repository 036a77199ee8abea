// JSON text: how JavaScript writes strings (RFC 8259 section 7, with lone
// surrogates escaped) and how a parser reads values back (RFC 8259 sections 2
// to 7).  Texts are sequences of UTF-16 code units, as JavaScript's are.
module JsonText {
  import opened Wrappers

  type CodeUnit = u: bv32 | u <= 0xffff

  type Text = seq<CodeUnit>

  const TAB: CodeUnit := 0x09
  const LINE_FEED: CodeUnit := 0x0a
  const RETURN: CodeUnit := 0x0d
  const SPACE: CodeUnit := 0x20
  const QUOTE: CodeUnit := 0x22
  const COMMA: CodeUnit := 0x2c
  const SLASH: CodeUnit := 0x2f
  const COLON: CodeUnit := 0x3a
  const OPEN_BRACKET: CodeUnit := 0x5b
  const BACKSLASH: CodeUnit := 0x5c
  const CLOSE_BRACKET: CodeUnit := 0x5d
  const OPEN_BRACE: CodeUnit := 0x7b
  const CLOSE_BRACE: CodeUnit := 0x7d

  const NULL_TEXT: Text := [0x6e, 0x75, 0x6c, 0x6c]
  const TRUE_TEXT: Text := [0x74, 0x72, 0x75, 0x65]
  const FALSE_TEXT: Text := [0x66, 0x61, 0x6c, 0x73, 0x65]

  // Values

  /** A number is named by an integer, one for each finite double other than negative zero. */
  datatype JsValue =
    | JNull
    | JBool(b: bool)
    | JNumber(n: int)
    | JString(s: Text)
    | JArray(items: seq<JsValue>)
    | JObject(entries: seq<Entry>)

  /** Own properties in the order `Object.entries` gives them. */
  datatype Entry = Entry(key: Text, value: JsValue)

  /** How numbers are written and read. */
  datatype NumberFormat = NumberFormat(write: int -> Text, read: Text -> Option<int>)

  predicate IsNumberUnit(u: CodeUnit) {
    0x30 <= u <= 0x39 || u in {0x2b, 0x2d, 0x2e, 0x45, 0x65}
  }

  predicate IsNumberStart(u: CodeUnit) {
    0x30 <= u <= 0x39 || u == 0x2d
  }

  /** A number's text is made of number characters and reads back as the number. */
  ghost predicate IsFaithful(f: NumberFormat) {
    forall n :: && f.write(n) != [] && IsNumberStart(f.write(n)[0])
                && (forall u :: u in f.write(n) ==> IsNumberUnit(u))
                && f.read(f.write(n)) == Some(n)
  }

  // Writing strings

  predicate IsHigh(u: CodeUnit) { 0xd800 <= u < 0xdc00 }

  predicate IsLow(u: CodeUnit) { 0xdc00 <= u < 0xe000 }

  function HexDigit(n: bv32): CodeUnit
    requires n < 16
  {
    if n < 10 then 0x30 + n else 0x57 + n
  }

  function Hex4(u: CodeUnit): Text {
    [HexDigit(u >> 12), HexDigit((u >> 8) & 0xf), HexDigit((u >> 4) & 0xf), HexDigit(u & 0xf)]
  }

  function EscapeUnit(u: CodeUnit): Text {
    if u == QUOTE then [BACKSLASH, QUOTE]
    else if u == BACKSLASH then [BACKSLASH, BACKSLASH]
    else if u == 0x08 then [BACKSLASH, 0x62]
    else if u == 0x0c then [BACKSLASH, 0x66]
    else if u == LINE_FEED then [BACKSLASH, 0x6e]
    else if u == RETURN then [BACKSLASH, 0x72]
    else if u == TAB then [BACKSLASH, 0x74]
    else if u < 0x20 || IsHigh(u) || IsLow(u) then [BACKSLASH, 0x75] + Hex4(u)
    else [u]
  }

  function Escape(s: Text): Text {
    if s == [] then []
    else if |s| >= 2 && IsHigh(s[0]) && IsLow(s[1]) then [s[0], s[1]] + Escape(s[2..])
    else EscapeUnit(s[0]) + Escape(s[1..])
  }

  /** `JSON.stringify` of a string. */
  function Quote(s: Text): Text {
    [QUOTE] + Escape(s) + [QUOTE]
  }

  // Reading

  /** The value of a hexadecimal digit; the result is below 16. */
  function HexValue(u: CodeUnit): (r: Option<bv32>)
    ensures r.Some? ==> r.value < 16
  {
    if 0x30 <= u <= 0x39 then Some(u - 0x30)
    else if 0x61 <= u <= 0x66 then Some(u - 0x57)
    else if 0x41 <= u <= 0x46 then Some(u - 0x37)
    else None
  }

  function FromDigits(a: bv32, b: bv32, c: bv32, d: bv32): CodeUnit
    requires a < 16 && b < 16 && c < 16 && d < 16
  {
    (a << 12) | (b << 8) | (c << 4) | d
  }

  function ReadHex4(t: Text): Option<CodeUnit>
    requires |t| >= 4
  {
    var a, b, c, d := HexValue(t[0]), HexValue(t[1]), HexValue(t[2]), HexValue(t[3]);
    if a.Some? && b.Some? && c.Some? && d.Some? then Some(FromDigits(a.value, b.value, c.value, d.value)) else None
  }

  function SimpleEscape(u: CodeUnit): Option<CodeUnit> {
    if u == QUOTE || u == BACKSLASH || u == SLASH then Some(u)
    else if u == 0x62 then Some(0x08)
    else if u == 0x66 then Some(0x0c)
    else if u == 0x6e then Some(LINE_FEED)
    else if u == 0x72 then Some(RETURN)
    else if u == 0x74 then Some(TAB)
    else None
  }

  /** One character of a string: its unit and what follows it. */
  function ReadUnit(t: Text): (r: Option<(CodeUnit, Text)>)
    ensures r.Some? ==> |r.value.1| < |t|
  {
    if t == [] || t[0] == QUOTE || t[0] < 0x20 then None
    else if t[0] != BACKSLASH then Some((t[0], t[1..]))
    else if |t| < 2 then None
    else if t[1] == 0x75 then
      if |t| < 6 then None
      else
        var u := ReadHex4(t[2..]);
        if u.Some? then Some((u.value, t[6..])) else None
    else
      var u := SimpleEscape(t[1]);
      if u.Some? then Some((u.value, t[2..])) else None
  }

  /** The characters of a string after its opening quote, and what follows its closing one. */
  function ReadString(t: Text): (r: Option<(Text, Text)>)
    ensures r.Some? ==> |r.value.1| < |t|
    decreases |t|
  {
    if t != [] && t[0] == QUOTE then Some(([], t[1..]))
    else
      match ReadUnit(t)
      case None => None
      case Some((u, rest)) =>
        match ReadString(rest)
        case None => None
        case Some((s, after)) => Some(([u] + s, after))
  }

  function SkipSpace(t: Text): (r: Text)
    ensures |r| <= |t|
  {
    if t != [] && t[0] in {SPACE, TAB, LINE_FEED, RETURN} then SkipSpace(t[1..]) else t
  }

  function NumberLength(t: Text): (n: nat)
    ensures n <= |t|
  {
    if t != [] && IsNumberUnit(t[0]) then 1 + NumberLength(t[1..]) else 0
  }

  predicate StartsWith(t: Text, prefix: Text) {
    |prefix| <= |t| && t[..|prefix|] == prefix
  }

  function ReadValue(f: NumberFormat, t0: Text): (r: Option<(JsValue, Text)>)
    ensures r.Some? ==> |r.value.1| < |t0|
    decreases |t0|, 1
  {
    var t := SkipSpace(t0);
    if t == [] then None
    else if t[0] == QUOTE then
      match ReadString(t[1..])
      case None => None
      case Some((s, rest)) => Some((JString(s), rest))
    else if t[0] == OPEN_BRACKET then
      var inner := SkipSpace(t[1..]);
      if inner != [] && inner[0] == CLOSE_BRACKET then Some((JArray([]), inner[1..]))
      else
        match ReadItems(f, t[1..])
        case None => None
        case Some((items, rest)) => Some((JArray(items), rest))
    else if t[0] == OPEN_BRACE then
      var inner := SkipSpace(t[1..]);
      if inner != [] && inner[0] == CLOSE_BRACE then Some((JObject([]), inner[1..]))
      else
        match ReadEntries(f, t[1..])
        case None => None
        case Some((entries, rest)) => Some((JObject(entries), rest))
    else if StartsWith(t, NULL_TEXT) then Some((JNull, t[4..]))
    else if StartsWith(t, TRUE_TEXT) then Some((JBool(true), t[4..]))
    else if StartsWith(t, FALSE_TEXT) then Some((JBool(false), t[5..]))
    else if IsNumberStart(t[0]) then
      var n := NumberLength(t);
      var number := f.read(t[..n]);
      if number.Some? && n > 0 then Some((JNumber(number.value), t[n..])) else None
    else None
  }

  /** One or more values with commas between them, up to the closing bracket. */
  function ReadItems(f: NumberFormat, t: Text): (r: Option<(seq<JsValue>, Text)>)
    ensures r.Some? ==> |r.value.1| < |t|
    decreases |t|, 2
  {
    match ReadValue(f, t)
    case None => None
    case Some((v, rest)) =>
      var next := SkipSpace(rest);
      if next == [] then None
      else if next[0] == CLOSE_BRACKET then Some(([v], next[1..]))
      else if next[0] != COMMA then None
      else
        match ReadItems(f, next[1..])
        case None => None
        case Some((items, after)) => Some(([v] + items, after))
  }

  /** One or more members with commas between them, up to the closing brace. */
  function ReadEntries(f: NumberFormat, t0: Text): (r: Option<(seq<Entry>, Text)>)
    ensures r.Some? ==> |r.value.1| < |t0|
    decreases |t0|, 2
  {
    var t := SkipSpace(t0);
    if t == [] || t[0] != QUOTE then None
    else
      match ReadString(t[1..])
      case None => None
      case Some((key, afterKey)) =>
        var colon := SkipSpace(afterKey);
        if colon == [] || colon[0] != COLON then None
        else
          match ReadValue(f, colon[1..])
          case None => None
          case Some((v, rest)) =>
            var next := SkipSpace(rest);
            if next == [] then None
            else if next[0] == CLOSE_BRACE then Some(([Entry(key, v)], next[1..]))
            else if next[0] != COMMA then None
            else
              match ReadEntries(f, next[1..])
              case None => None
              case Some((entries, after)) => Some(([Entry(key, v)] + entries, after))
  }

  /** `JSON.parse`, which keeps the last of several members with one name. */
  function Parse(f: NumberFormat, t: Text): Option<JsValue> {
    match ReadValue(f, t)
    case None => None
    case Some((v, rest)) => if SkipSpace(rest) == [] then Some(v) else None
  }

  // Strings read back

  lemma DigitReadsBack(n: bv32)
    requires n < 16
    ensures HexValue(HexDigit(n)) == Some(n)
  {
  }

  lemma FourDigits(u: CodeUnit)
    ensures u >> 12 < 16 && (u >> 8) & 0xf < 16 && (u >> 4) & 0xf < 16 && u & 0xf < 16
    ensures FromDigits(u >> 12, (u >> 8) & 0xf, (u >> 4) & 0xf, u & 0xf) == u
  {
  }

  lemma Hex4ReadsBack(u: CodeUnit, rest: Text)
    ensures ReadHex4(Hex4(u) + rest) == Some(u)
  {
    hide HexValue, HexDigit, FromDigits;
    FourDigits(u);
    DigitReadsBack(u >> 12);
    DigitReadsBack((u >> 8) & 0xf);
    DigitReadsBack((u >> 4) & 0xf);
    DigitReadsBack(u & 0xf);
  }

  lemma UnitReadsBack(u: CodeUnit, rest: Text)
    ensures ReadUnit(EscapeUnit(u) + rest) == Some((u, rest))
  {
    var t := EscapeUnit(u) + rest;
    if |EscapeUnit(u)| == 6 {
      assert t == [BACKSLASH, 0x75] + (Hex4(u) + rest);
      assert t[2..] == Hex4(u) + rest;
      assert t[6..] == rest;
      Hex4ReadsBack(u, rest);
    } else if |EscapeUnit(u)| == 2 {
      assert t[2..] == rest;
    } else {
      assert t == [u] + rest && t[1..] == rest;
    }
  }

  lemma Regroup(first: Text, others: Text, rest: Text)
    ensures first + others + [QUOTE] + rest == first + (others + [QUOTE] + rest)
  {
  }

  /** A unit that reads as u, in front of a text that reads as a string. */
  lemma ReadOneMore(u: CodeUnit, written: Text, tail: Text, s: Text, rest: Text)
    requires ReadUnit(written + tail) == Some((u, tail)) && written != [] && written[0] != QUOTE
    requires ReadString(tail) == Some((s, rest))
    ensures ReadString(written + tail) == Some(([u] + s, rest))
  {
    hide ReadUnit;
  }

  /** Every string, lone surrogates included, is read back from its JSON text. */
  lemma {:induction false} StringReadsBack(s: Text, rest: Text)
    ensures ReadString(Escape(s) + [QUOTE] + rest) == Some((s, rest))
    decreases |s|
  {
    hide EscapeUnit, ReadUnit, ReadString;
    if s == [] {
      assert [] + [QUOTE] + rest == [QUOTE] + rest;
      EndReadsBack(rest);
    } else if |s| >= 2 && IsHigh(s[0]) && IsLow(s[1]) {
      StringReadsBack(s[2..], rest);
      var tail := Escape(s[2..]) + [QUOTE] + rest;
      Regroup([s[0], s[1]], Escape(s[2..]), rest);
      assert [s[0], s[1]] + tail == [s[0]] + ([s[1]] + tail);
      RawUnitReadsBack(s[1], tail);
      ReadOneMore(s[1], [s[1]], tail, s[2..], rest);
      RawUnitReadsBack(s[0], [s[1]] + tail);
      ReadOneMore(s[0], [s[0]], [s[1]] + tail, [s[1]] + s[2..], rest);
      assert s == [s[0]] + ([s[1]] + s[2..]);
    } else {
      StringReadsBack(s[1..], rest);
      var tail := Escape(s[1..]) + [QUOTE] + rest;
      Regroup(EscapeUnit(s[0]), Escape(s[1..]), rest);
      UnitReadsBack(s[0], tail);
      EscapedIsNoQuote(s[0]);
      ReadOneMore(s[0], EscapeUnit(s[0]), tail, s[1..], rest);
      assert s == [s[0]] + s[1..];
    }
  }

  lemma EndReadsBack(rest: Text)
    ensures ReadString([QUOTE] + rest) == Some(([], rest))
  {
    assert ([QUOTE] + rest)[1..] == rest;
  }

  lemma RawUnitReadsBack(u: CodeUnit, rest: Text)
    requires IsHigh(u) || IsLow(u)
    ensures ReadUnit([u] + rest) == Some((u, rest))
  {
    assert ([u] + rest)[1..] == rest;
  }

  lemma EscapedIsNoQuote(u: CodeUnit)
    ensures EscapeUnit(u) != [] && EscapeUnit(u)[0] != QUOTE
  {
  }

  // What is written

  predicate IsLowerHex(u: CodeUnit) {
    0x30 <= u <= 0x39 || 0x61 <= u <= 0x66
  }

  /** Text that stands for this unit inside a JSON string (RFC 8259 section 7). */
  predicate StandsFor(t: Text, u: CodeUnit) {
    ReadUnit(t) == Some((u, []))
  }

  /**
   * What is written for a unit is the shortest text that stands for it, with lower-case digits; only a surrogate on its
   * own is written longer, as its escape.
   */
  lemma EscapeIsShortest(u: CodeUnit, t: Text)
    requires StandsFor(t, u)
    ensures StandsFor(EscapeUnit(u), u)
    ensures if IsHigh(u) || IsLow(u) then |EscapeUnit(u)| == 6 else |EscapeUnit(u)| <= |t|
    ensures |EscapeUnit(u)| == 6 ==>
      EscapeUnit(u)[..2] == [BACKSLASH, 0x75] && forall k :: 2 <= k < 6 ==> IsLowerHex(EscapeUnit(u)[k])
  {
    hide ReadHex4, Hex4;
    UnitReadsBack(u, []);
    assert EscapeUnit(u) + [] == EscapeUnit(u);
    LowerDigits(u);
  }

  lemma LowerDigits(u: CodeUnit)
    ensures |Hex4(u)| == 4 && forall k :: 0 <= k < 4 ==> IsLowerHex(Hex4(u)[k])
  {
  }

  /** The escapes of two characters (RFC 8259 section 7): a letter for each of five control characters. */
  lemma TwoCharacterEscapes()
    ensures StandsFor([BACKSLASH, 0x62], 0x08) && StandsFor([BACKSLASH, 0x66], 0x0c)
    ensures StandsFor([BACKSLASH, 0x6e], 0x0a) && StandsFor([BACKSLASH, 0x72], 0x0d)
    ensures StandsFor([BACKSLASH, 0x74], 0x09) && StandsFor([BACKSLASH, 0x22], 0x22)
    ensures StandsFor([BACKSLASH, 0x5c], 0x5c) && StandsFor([BACKSLASH, 0x2f], 0x2f)
  {
  }
}
