// Canonical JSON: object members in key order at every depth, and nothing else
// left to choose.
module CanonicalJson {
  import opened Wrappers
  import opened JsonText

  /** `localeCompare`, a parameter: its results depend on the host's locale data. */
  type Compare = (Text, Text) -> int

  /** The comparator orders all keys and ties only equal ones. */
  ghost predicate IsTotalOrder(compare: Compare) {
    && (forall a, b :: compare(a, b) <= 0 || compare(b, a) <= 0)
    && (forall a, b :: compare(a, b) <= 0 && compare(b, a) <= 0 ==> a == b)
    && (forall a, b, c :: compare(a, b) <= 0 && compare(b, c) <= 0 ==> compare(a, c) <= 0)
  }

  // Sizes, for recursion over sorted members

  function Size(v: JsValue): nat
    decreases v
  {
    match v
    case JArray(items) => 1 + SizeItems(items)
    case JObject(entries) => 1 + SizeEntries(entries)
    case _ => 0
  }

  function SizeItems(items: seq<JsValue>): nat
    decreases items
  {
    if items == [] then 0 else SizeItems(items[..|items| - 1]) + 1 + Size(items[|items| - 1])
  }

  function SizeEntries(entries: seq<Entry>): nat
    decreases entries
  {
    if entries == [] then 0 else SizeEntries(entries[..|entries| - 1]) + 1 + Size(entries[|entries| - 1].value)
  }

  // Sorting members

  function Insert(e: Entry, sorted: seq<Entry>, compare: Compare): (r: seq<Entry>)
    ensures SizeEntries(r) == SizeEntries(sorted) + 1 + Size(e.value)
  {
    if sorted == [] then [e]
    else
      var n := |sorted| - 1;
      if compare(sorted[n].key, e.key) <= 0 then
        assert (sorted + [e])[..n + 1] == sorted;
        sorted + [e]
      else
        var front := Insert(e, sorted[..n], compare);
        assert (front + [sorted[n]])[..|front|] == front;
        front + [sorted[n]]
  }

  /** `Object.entries(value).sort(...)`, a stable sort. */
  function SortEntries(entries: seq<Entry>, compare: Compare): (r: seq<Entry>)
    ensures SizeEntries(r) == SizeEntries(entries)
  {
    if entries == [] then []
    else
      var n := |entries| - 1;
      Insert(entries[n], SortEntries(entries[..n], compare), compare)
  }

  // Serialization

  function Join(texts: seq<Text>): Text {
    if texts == [] then []
    else if |texts| == 1 then texts[0]
    else Join(texts[..|texts| - 1]) + [COMMA] + texts[|texts| - 1]
  }

  /** `serializeJsonValue`. */
  function Serialize(f: NumberFormat, compare: Compare, v: JsValue): Text
    decreases Size(v), 0
  {
    match v
    case JNull => NULL_TEXT
    case JBool(b) => if b then TRUE_TEXT else FALSE_TEXT
    case JNumber(n) => f.write(n)
    case JString(s) => Quote(s)
    case JArray(items) => [OPEN_BRACKET] + Join(ItemTexts(f, compare, items)) + [CLOSE_BRACKET]
    case JObject(entries) =>
      [OPEN_BRACE] + Join(MemberTexts(f, compare, SortEntries(entries, compare))) + [CLOSE_BRACE]
  }

  function ItemTexts(f: NumberFormat, compare: Compare, items: seq<JsValue>): (r: seq<Text>)
    ensures |r| == |items|
    decreases SizeItems(items), 1
  {
    if items == [] then []
    else ItemTexts(f, compare, items[..|items| - 1]) + [Serialize(f, compare, items[|items| - 1])]
  }

  function MemberTexts(f: NumberFormat, compare: Compare, entries: seq<Entry>): (r: seq<Text>)
    ensures |r| == |entries|
    decreases SizeEntries(entries), 1
  {
    if entries == [] then []
    else
      MemberTexts(f, compare, entries[..|entries| - 1])
      + [Quote(entries[|entries| - 1].key) + [COLON] + Serialize(f, compare, entries[|entries| - 1].value)]
  }

  // Meaning: values up to the order of members

  datatype Meaning =
    | MNull
    | MBool(b: bool)
    | MNumber(n: int)
    | MString(s: Text)
    | MArray(items: seq<Meaning>)
    | MObject(members: map<Text, Meaning>)

  function MeaningOf(v: JsValue): Meaning
    decreases v
  {
    match v
    case JNull => MNull
    case JBool(b) => MBool(b)
    case JNumber(n) => MNumber(n)
    case JString(s) => MString(s)
    case JArray(items) => MArray(MeaningsOf(items))
    case JObject(entries) => MObject(MembersOf(entries))
  }

  function MeaningsOf(items: seq<JsValue>): seq<Meaning>
    decreases items
  {
    if items == [] then [] else MeaningsOf(items[..|items| - 1]) + [MeaningOf(items[|items| - 1])]
  }

  function MembersOf(entries: seq<Entry>): map<Text, Meaning>
    decreases entries
  {
    if entries == [] then map[]
    else
      var last := entries[|entries| - 1];
      MembersOf(entries[..|entries| - 1])[last.key := MeaningOf(last.value)]
  }

  /** Own property names are distinct, at every depth. */
  predicate IsProper(v: JsValue)
    decreases v
  {
    match v
    case JArray(items) => AllProper(items)
    case JObject(entries) => ProperEntries(entries)
    case _ => true
  }

  predicate AllProper(items: seq<JsValue>)
    decreases items
  {
    items != [] ==> AllProper(items[..|items| - 1]) && IsProper(items[|items| - 1])
  }

  predicate ProperEntries(entries: seq<Entry>)
    decreases entries
  {
    entries != [] ==>
      var front, last := entries[..|entries| - 1], entries[|entries| - 1];
      ProperEntries(front) && IsProper(last.value) && !HasKey(front, last.key)
  }

  predicate HasKey(entries: seq<Entry>, key: Text) {
    exists e :: e in entries && e.key == key
  }

  // What sorting keeps

  predicate AllBefore(entries: seq<Entry>, key: Text, compare: Compare) {
    forall e :: e in entries ==> compare(e.key, key) <= 0
  }

  predicate IsSorted(entries: seq<Entry>, compare: Compare) {
    entries != [] ==>
      IsSorted(entries[..|entries| - 1], compare)
      && AllBefore(entries[..|entries| - 1], entries[|entries| - 1].key, compare)
  }

  lemma BeforeLater(entries: seq<Entry>, key: Text, later: Text, compare: Compare)
    requires IsTotalOrder(compare) && AllBefore(entries, key, compare) && compare(key, later) <= 0
    ensures AllBefore(entries, later, compare)
  {
    forall e | e in entries
      ensures compare(e.key, later) <= 0
    {
      assert compare(e.key, key) <= 0;
    }
  }

  lemma OneWayOrTheOther(a: Text, b: Text, compare: Compare)
    requires IsTotalOrder(compare)
    ensures compare(a, b) <= 0 || compare(b, a) <= 0
    ensures compare(a, b) <= 0 && compare(b, a) <= 0 ==> a == b
  {
  }

  lemma {:induction false} MembersKeys(entries: seq<Entry>, key: Text)
    ensures key in MembersOf(entries) <==> HasKey(entries, key)
  {
    if entries != [] {
      var n := |entries| - 1;
      assert entries == entries[..n] + [entries[n]];
      MembersKeys(entries[..n], key);
    }
  }

  lemma {:induction false} InsertSorts(e: Entry, sorted: seq<Entry>, compare: Compare)
    requires IsTotalOrder(compare) && IsSorted(sorted, compare)
    ensures IsSorted(Insert(e, sorted, compare), compare)
    ensures forall x :: x in Insert(e, sorted, compare) <==> x == e || x in sorted
  {
    hide IsTotalOrder;
    var r := Insert(e, sorted, compare);
    if sorted != [] {
      var n := |sorted| - 1;
      var last := sorted[n];
      assert sorted == sorted[..n] + [last];
      if compare(last.key, e.key) <= 0 {
        assert r[..n + 1] == sorted;
        BeforeLater(sorted[..n], last.key, e.key, compare);
      } else {
        InsertSorts(e, sorted[..n], compare);
        OneWayOrTheOther(e.key, last.key, compare);
        assert r[..|r| - 1] == Insert(e, sorted[..n], compare);
      }
    }
  }

  lemma ProperLast(front: seq<Entry>, last: Entry)
    requires ProperEntries(front) && IsProper(last.value) && !HasKey(front, last.key)
    ensures ProperEntries(front + [last])
    ensures MembersOf(front + [last]) == MembersOf(front)[last.key := MeaningOf(last.value)]
  {
    hide IsProper, MeaningOf;
    assert (front + [last])[..|front|] == front;
  }

  lemma {:induction false} InsertMembers(e: Entry, sorted: seq<Entry>, compare: Compare)
    requires IsTotalOrder(compare) && IsSorted(sorted, compare) && ProperEntries(sorted) && IsProper(e.value)
    requires !HasKey(sorted, e.key)
    ensures ProperEntries(Insert(e, sorted, compare))
    ensures MembersOf(Insert(e, sorted, compare)) == MembersOf(sorted)[e.key := MeaningOf(e.value)]
  {
    hide MeaningOf, IsProper, IsTotalOrder, AllBefore, MembersOf;
    if sorted == [] {
      ProperLast([], e);
      assert [] + [e] == [e];
    } else {
      var n := |sorted| - 1;
      var front, last := sorted[..n], sorted[n];
      assert sorted == front + [last];
      if compare(last.key, e.key) <= 0 {
        ProperLast(sorted, e);
      } else {
        assert last in sorted && last.key != e.key;
        InsertMembers(e, front, compare);
        InsertSorts(e, front, compare);
        ProperLast(front, last);
        ProperLast(Insert(e, front, compare), last);
      }
    }
  }

  /** Sorting changes the order of an object's members and nothing else. */
  lemma {:induction false} SortKeeps(entries: seq<Entry>, compare: Compare)
    requires IsTotalOrder(compare) && ProperEntries(entries)
    ensures var r := SortEntries(entries, compare);
      && IsSorted(r, compare) && ProperEntries(r) && MembersOf(r) == MembersOf(entries)
      && forall x :: x in r <==> x in entries
  {
    hide MeaningOf, IsProper;
    if entries != [] {
      var n := |entries| - 1;
      assert entries == entries[..n] + [entries[n]];
      SortKeeps(entries[..n], compare);
      InsertSorts(entries[n], SortEntries(entries[..n], compare), compare);
      InsertMembers(entries[n], SortEntries(entries[..n], compare), compare);
    }
  }

  // Canonical: equal meanings, equal texts

  /** The last of the sorted members has the greatest key. */
  lemma LastKeysAgree(a: seq<Entry>, b: seq<Entry>, compare: Compare)
    requires IsTotalOrder(compare) && a != [] && b != []
    requires IsSorted(a, compare) && IsSorted(b, compare) && MembersOf(a) == MembersOf(b)
    ensures a[|a| - 1].key == b[|b| - 1].key
  {
    hide MembersOf, IsTotalOrder, IsSorted;
    var x, y := a[|a| - 1], b[|b| - 1];
    MembersKeys(a, x.key);
    MembersKeys(b, x.key);
    MembersKeys(a, y.key);
    MembersKeys(b, y.key);
    var p :| p in b && p.key == x.key;
    var q :| q in a && q.key == y.key;
    LastIsGreatest(a, q, compare);
    LastIsGreatest(b, p, compare);
    OneWayOrTheOther(x.key, y.key, compare);
  }

  lemma LastIsGreatest(a: seq<Entry>, e: Entry, compare: Compare)
    requires IsTotalOrder(compare) && IsSorted(a, compare) && e in a
    ensures compare(e.key, a[|a| - 1].key) <= 0
  {
    var n := |a| - 1;
    assert a == a[..n] + [a[n]];
    OneWayOrTheOther(e.key, e.key, compare);
  }

  lemma {:induction false} SameMeaningSameText(f: NumberFormat, compare: Compare, v: JsValue, w: JsValue)
    requires IsTotalOrder(compare) && IsProper(v) && IsProper(w) && MeaningOf(v) == MeaningOf(w)
    ensures Serialize(f, compare, v) == Serialize(f, compare, w)
    decreases Size(v), 0
  {
    hide SortEntries, Join, MembersOf, MeaningsOf;
    match v {
      case JArray(items) => SameItems(f, compare, items, w.items);
      case JObject(entries) =>
        SortKeeps(entries, compare);
        SortKeeps(w.entries, compare);
        SameMembers(f, compare, SortEntries(entries, compare), SortEntries(w.entries, compare));
      case _ =>
    }
  }

  lemma {:induction false} SameItems(f: NumberFormat, compare: Compare, a: seq<JsValue>, b: seq<JsValue>)
    requires IsTotalOrder(compare) && AllProper(a) && AllProper(b) && MeaningsOf(a) == MeaningsOf(b)
    ensures ItemTexts(f, compare, a) == ItemTexts(f, compare, b)
    decreases SizeItems(a), 1
  {
    hide Serialize, MeaningOf, IsProper;
    if a != [] && b != [] {
      var m, n := |a| - 1, |b| - 1;
      assert MeaningsOf(a)[..|MeaningsOf(a)| - 1] == MeaningsOf(a[..m]);
      assert MeaningsOf(b)[..|MeaningsOf(b)| - 1] == MeaningsOf(b[..n]);
      assert MeaningsOf(a)[|MeaningsOf(a)| - 1] == MeaningsOf(b)[|MeaningsOf(b)| - 1];
      SameItems(f, compare, a[..m], b[..n]);
      SameMeaningSameText(f, compare, a[m], b[n]);
    }
  }

  /** Without its last member an object means what is left. */
  lemma FrontMembers(a: seq<Entry>)
    requires a != [] && ProperEntries(a)
    ensures var n := |a| - 1;
      && MembersOf(a[..n]) == MembersOf(a) - {a[n].key}
      && a[n].key in MembersOf(a) && MembersOf(a)[a[n].key] == MeaningOf(a[n].value)
  {
    hide MeaningOf, IsProper, HasKey;
    var front, last := a[..|a| - 1], a[|a| - 1];
    MembersKeys(front, last.key);
    Removed(MembersOf(front), last.key, MeaningOf(last.value));
  }

  lemma Removed(m: map<Text, Meaning>, key: Text, value: Meaning)
    requires key !in m
    ensures m[key := value] - {key} == m
  {
  }

  lemma {:induction false} SameMembers(f: NumberFormat, compare: Compare, a: seq<Entry>, b: seq<Entry>)
    requires IsTotalOrder(compare) && ProperEntries(a) && ProperEntries(b)
    requires IsSorted(a, compare) && IsSorted(b, compare) && MembersOf(a) == MembersOf(b)
    ensures MemberTexts(f, compare, a) == MemberTexts(f, compare, b)
    decreases SizeEntries(a), 1
  {
    hide Serialize, MeaningOf, IsProper, Quote, MembersOf, IsTotalOrder, AllBefore, HasKey;
    if a == [] || b == [] {
      NoMembers(a);
      NoMembers(b);
    } else {
      var m, n := |a| - 1, |b| - 1;
      LastKeysAgree(a, b, compare);
      FrontMembers(a);
      FrontMembers(b);
      SameMembers(f, compare, a[..m], b[..n]);
      SameMeaningSameText(f, compare, a[m].value, b[n].value);
    }
  }

  lemma NoMembers(a: seq<Entry>)
    ensures MembersOf(a) == map[] <==> a == []
  {
    if a != [] {
      assert a[|a| - 1].key in MembersOf(a);
    }
  }

  // Unambiguous: the text reads back as the value, members in key order

  function Ordered(compare: Compare, v: JsValue): JsValue
    decreases Size(v), 0
  {
    match v
    case JArray(items) => JArray(OrderedItems(compare, items))
    case JObject(entries) => JObject(OrderedEntries(compare, SortEntries(entries, compare)))
    case _ => v
  }

  function OrderedItems(compare: Compare, items: seq<JsValue>): (r: seq<JsValue>)
    ensures |r| == |items|
    decreases SizeItems(items), 1
  {
    if items == [] then []
    else OrderedItems(compare, items[..|items| - 1]) + [Ordered(compare, items[|items| - 1])]
  }

  function OrderedEntries(compare: Compare, entries: seq<Entry>): (r: seq<Entry>)
    ensures |r| == |entries|
    decreases SizeEntries(entries), 1
  {
    if entries == [] then []
    else
      var last := entries[|entries| - 1];
      OrderedEntries(compare, entries[..|entries| - 1]) + [Entry(last.key, Ordered(compare, last.value))]
  }

  /** Ordering members keeps the meaning. */
  lemma {:induction false} OrderedMeans(compare: Compare, v: JsValue)
    requires IsTotalOrder(compare) && IsProper(v)
    ensures MeaningOf(Ordered(compare, v)) == MeaningOf(v)
    decreases Size(v), 0
  {
    hide SortEntries, MembersOf, MeaningsOf, OrderedItems, OrderedEntries;
    match v {
      case JArray(items) => OrderedItemsMean(compare, items);
      case JObject(entries) =>
        SortKeeps(entries, compare);
        OrderedEntriesMean(compare, SortEntries(entries, compare));
      case _ =>
    }
  }

  lemma {:induction false} OrderedItemsMean(compare: Compare, items: seq<JsValue>)
    requires IsTotalOrder(compare) && AllProper(items)
    ensures MeaningsOf(OrderedItems(compare, items)) == MeaningsOf(items)
    decreases SizeItems(items), 1
  {
    hide MeaningOf, Ordered, IsProper;
    if items != [] {
      var n := |items| - 1;
      OrderedItemsMean(compare, items[..n]);
      OrderedMeans(compare, items[n]);
      assert OrderedItems(compare, items)[..n] == OrderedItems(compare, items[..n]);
    }
  }

  lemma {:induction false} OrderedEntriesMean(compare: Compare, entries: seq<Entry>)
    requires IsTotalOrder(compare) && ProperEntries(entries)
    ensures MembersOf(OrderedEntries(compare, entries)) == MembersOf(entries)
    decreases SizeEntries(entries), 1
  {
    hide MeaningOf, Ordered, IsProper;
    if entries != [] {
      var n := |entries| - 1;
      OrderedEntriesMean(compare, entries[..n]);
      OrderedMeans(compare, entries[n].value);
      assert OrderedEntries(compare, entries)[..n] == OrderedEntries(compare, entries[..n]);
    }
  }

  /** A number's text may not run into what follows it. */
  predicate EndsNumber(rest: Text) {
    rest == [] || !IsNumberUnit(rest[0])
  }

  lemma {:induction false} NumberStops(t: Text, rest: Text)
    requires (forall u :: u in t ==> IsNumberUnit(u)) && EndsNumber(rest)
    ensures NumberLength(t + rest) == |t|
  {
    if t == [] {
      assert t + rest == rest;
    } else {
      assert (t + rest)[1..] == t[1..] + rest;
      NumberStops(t[1..], rest);
    }
  }

  lemma NumberReadsBack(f: NumberFormat, n: int, rest: Text)
    requires IsFaithful(f) && EndsNumber(rest)
    ensures ReadValue(f, f.write(n) + rest) == Some((JNumber(n), rest))
  {
    var t := f.write(n) + rest;
    assert IsNumberStart(t[0]) && SkipSpace(t) == t;
    NumberStops(f.write(n), rest);
    assert t[..|f.write(n)|] == f.write(n) && t[|f.write(n)|..] == rest;
  }

  lemma {:induction false} JoinFirst(texts: seq<Text>)
    requires |texts| >= 2
    ensures Join(texts) == texts[0] + [COMMA] + Join(texts[1..])
  {
    var n := |texts| - 1;
    assert texts[1..][..n - 1] == texts[..n][1..] && texts[1..][n - 1] == texts[n];
    if n > 1 {
      JoinFirst(texts[..n]);
      assert Join(texts) == texts[0] + [COMMA] + (Join(texts[1..][..n - 1]) + [COMMA] + texts[n]);
    } else {
      assert texts[1..] == [texts[1]] && texts[..1] == [texts[0]];
    }
  }

  /** What follows the ith of the joined texts. */
  function Following(texts: seq<Text>, i: nat, close: CodeUnit, rest: Text): Text
    requires i < |texts|
  {
    if i == |texts| - 1 then [close] + rest else [COMMA] + (Join(texts[i + 1..]) + [close] + rest)
  }

  lemma Regroup(first: Text, others: Text, close: CodeUnit, rest: Text)
    ensures first + [COMMA] + others + [close] + rest == first + ([COMMA] + (others + [close] + rest))
    ensures first + [close] + rest == first + ([close] + rest)
  {
  }

  lemma JoinFollows(texts: seq<Text>, i: nat, close: CodeUnit, rest: Text)
    requires i < |texts|
    ensures Join(texts[i..]) + [close] + rest == texts[i] + Following(texts, i, close, rest)
  {
    if i == |texts| - 1 {
      assert texts[i..] == [texts[i]];
      Regroup(texts[i], [], close, rest);
    } else {
      hide Join;
      JoinFirst(texts[i..]);
      assert texts[i..][1..] == texts[i + 1..];
      Regroup(texts[i], Join(texts[i + 1..]), close, rest);
    }
  }

  lemma {:induction false} ItemTextsAt(f: NumberFormat, compare: Compare, items: seq<JsValue>, i: nat)
    requires i < |items|
    ensures ItemTexts(f, compare, items)[i] == Serialize(f, compare, items[i])
    ensures OrderedItems(compare, items)[i] == Ordered(compare, items[i])
    ensures Size(items[i]) < SizeItems(items)
  {
    hide Serialize, Ordered;
    var n := |items| - 1;
    if i < n {
      ItemTextsAt(f, compare, items[..n], i);
    }
  }

  lemma {:induction false} MemberTextsAt(f: NumberFormat, compare: Compare, entries: seq<Entry>, i: nat)
    requires i < |entries|
    ensures MemberTexts(f, compare, entries)[i]
         == Quote(entries[i].key) + [COLON] + Serialize(f, compare, entries[i].value)
    ensures OrderedEntries(compare, entries)[i] == Entry(entries[i].key, Ordered(compare, entries[i].value))
    ensures Size(entries[i].value) < SizeEntries(entries)
  {
    hide Serialize, Ordered, Quote;
    var n := |entries| - 1;
    if i < n {
      MemberTextsAt(f, compare, entries[..n], i);
    }
  }

  lemma {:induction false} ValueReadsBack(f: NumberFormat, compare: Compare, v: JsValue, rest: Text)
    requires IsFaithful(f) && EndsNumber(rest)
    ensures ReadValue(f, Serialize(f, compare, v) + rest) == Some((Ordered(compare, v), rest))
    decreases Size(v), 0, 0
  {
    hide ItemTexts, MemberTexts, SortEntries, ReadString, ReadItems, ReadEntries, Escape;
    match v {
      case JNumber(n) => NumberReadsBack(f, n, rest);
      case JString(s) =>
        StringReadsBack(s, rest);
        assert (Quote(s) + rest)[1..] == Escape(s) + [QUOTE] + rest;
      case JArray(items) => ArrayReadsBack(f, compare, items, rest);
      case JObject(entries) => ObjectReadsBack(f, compare, entries, rest);
      case _ => WordReadsBack(f, compare, v, rest);
    }
  }

  lemma WordReadsBack(f: NumberFormat, compare: Compare, v: JsValue, rest: Text)
    requires v.JNull? || v.JBool?
    ensures ReadValue(f, Serialize(f, compare, v) + rest) == Some((v, rest))
  {
    hide ReadString, ReadItems, ReadEntries;
    var word := Serialize(f, compare, v);
    var t := word + rest;
    assert t[..|word|] == word && t[|word|..] == rest;
    assert t[0] == word[0] && t[1] == word[1];
  }

  lemma ArrayReadsBack(f: NumberFormat, compare: Compare, items: seq<JsValue>, rest: Text)
    requires IsFaithful(f)
    ensures ReadValue(f, Serialize(f, compare, JArray(items)) + rest)
         == Some((Ordered(compare, JArray(items)), rest))
    decreases SizeItems(items), 2, 0
  {
    hide ReadString, ReadItems, ReadEntries, ItemTexts, Join, OrderedItems;
    var inner := Join(ItemTexts(f, compare, items)) + [CLOSE_BRACKET] + rest;
    var t := Serialize(f, compare, JArray(items)) + rest;
    assert t == [OPEN_BRACKET] + inner && t[1..] == inner;
    if items == [] {
      assert inner == [CLOSE_BRACKET] + rest by { EmptyJoin(f, compare); }
      assert OrderedItems(compare, items) == [];
    } else {
      ItemsReadBack(f, compare, items, 0, rest);
      assert ItemTexts(f, compare, items)[0..] == ItemTexts(f, compare, items);
      assert OrderedItems(compare, items)[0..] == OrderedItems(compare, items);
      StartOfItems(f, compare, items, rest);
    }
  }

  lemma EmptyJoin(f: NumberFormat, compare: Compare)
    ensures Join(ItemTexts(f, compare, [])) == [] && Join(MemberTexts(f, compare, [])) == []
  {
  }

  /** A value's text begins with neither space nor a closing bracket. */
  lemma ValueStarts(f: NumberFormat, compare: Compare, v: JsValue)
    requires IsFaithful(f)
    ensures var t := Serialize(f, compare, v);
      t != [] && t[0] !in {SPACE, TAB, LINE_FEED, RETURN, CLOSE_BRACKET, CLOSE_BRACE, COMMA}
  {
    hide ItemTexts, MemberTexts, SortEntries, Escape;
    if v.JNumber? {
      assert IsNumberStart(f.write(v.n)[0]);
    }
  }

  lemma {:induction false} JoinStarts(texts: seq<Text>)
    requires texts != [] && texts[0] != []
    ensures Join(texts) != [] && Join(texts)[0] == texts[0][0]
  {
    if |texts| > 1 {
      JoinStarts(texts[..|texts| - 1]);
    }
  }

  lemma StartOfItems(f: NumberFormat, compare: Compare, items: seq<JsValue>, rest: Text)
    requires IsFaithful(f) && items != []
    ensures var inner := Join(ItemTexts(f, compare, items)) + [CLOSE_BRACKET] + rest;
      SkipSpace(inner) == inner && inner[0] != CLOSE_BRACKET
  {
    hide Serialize, ItemTexts, Join;
    ItemTextsAt(f, compare, items, 0);
    ValueStarts(f, compare, items[0]);
    JoinStarts(ItemTexts(f, compare, items));
  }

  lemma {:induction false} ItemsReadBack(f: NumberFormat, compare: Compare, items: seq<JsValue>, i: nat, rest: Text)
    requires IsFaithful(f) && i < |items|
    ensures ReadItems(f, Join(ItemTexts(f, compare, items)[i..]) + [CLOSE_BRACKET] + rest)
         == Some((OrderedItems(compare, items)[i..], rest))
    decreases SizeItems(items), 1, |items| - i
  {
    hide ReadValue, Serialize, Ordered, ItemTexts, OrderedItems, Join, IsFaithful;
    var texts, ordered := ItemTexts(f, compare, items), OrderedItems(compare, items);
    ItemTextsAt(f, compare, items, i);
    JoinFollows(texts, i, CLOSE_BRACKET, rest);
    var after := Following(texts, i, CLOSE_BRACKET, rest);
    ValueReadsBack(f, compare, items[i], after);
    if i == |items| - 1 {
      assert ordered[i..] == [ordered[i]];
      assert after[1..] == rest;
    } else {
      ItemsReadBack(f, compare, items, i + 1, rest);
      assert after[1..] == Join(texts[i + 1..]) + [CLOSE_BRACKET] + rest;
      assert ordered[i..] == [ordered[i]] + ordered[i + 1..];
    }
  }

  lemma ObjectReadsBack(f: NumberFormat, compare: Compare, entries: seq<Entry>, rest: Text)
    requires IsFaithful(f)
    ensures ReadValue(f, Serialize(f, compare, JObject(entries)) + rest)
         == Some((Ordered(compare, JObject(entries)), rest))
    decreases SizeEntries(entries), 2, 0
  {
    hide ReadString, ReadItems, ReadEntries, MemberTexts, Join, OrderedEntries, SortEntries;
    var sorted := SortEntries(entries, compare);
    var inner := Join(MemberTexts(f, compare, sorted)) + [CLOSE_BRACE] + rest;
    var t := Serialize(f, compare, JObject(entries)) + rest;
    assert t == [OPEN_BRACE] + inner && t[1..] == inner;
    if sorted == [] {
      assert inner == [CLOSE_BRACE] + rest by { EmptyJoin(f, compare); }
      assert OrderedEntries(compare, sorted) == [];
    } else {
      EntriesReadBack(f, compare, sorted, 0, rest);
      assert MemberTexts(f, compare, sorted)[0..] == MemberTexts(f, compare, sorted);
      assert OrderedEntries(compare, sorted)[0..] == OrderedEntries(compare, sorted);
      MemberTextsAt(f, compare, sorted, 0);
      JoinStarts(MemberTexts(f, compare, sorted));
      assert inner[0] == QUOTE;
    }
  }

  /** A member's key and the colon after it. */
  lemma KeyReadsBack(key: Text, value: Text, rest: Text)
    ensures var t := Quote(key) + [COLON] + value + rest;
      && SkipSpace(t) == t && t[0] == QUOTE
      && ReadString(t[1..]) == Some((key, [COLON] + (value + rest)))
  {
    hide ReadString, Escape;
    var t := Quote(key) + [COLON] + value + rest;
    StringReadsBack(key, [COLON] + (value + rest));
    assert t[1..] == Escape(key) + [QUOTE] + ([COLON] + (value + rest));
  }

  /** One member, and what reading goes on with. */
  lemma MemberReadsBack(f: NumberFormat, key: Text, value: Text, v: JsValue, after: Text)
    requires ReadValue(f, value + after) == Some((v, after))
    requires after != [] && after[0] in {CLOSE_BRACE, COMMA}
    ensures var r := ReadEntries(f, Quote(key) + [COLON] + value + after);
      r == if after[0] == CLOSE_BRACE then Some(([Entry(key, v)], after[1..]))
           else
             match ReadEntries(f, after[1..])
             case None => None
             case Some((entries, rest)) => Some(([Entry(key, v)] + entries, rest))
  {
    hide ReadValue, ReadString, Quote;
    KeyReadsBack(key, value, after);
    assert ([COLON] + (value + after))[1..] == value + after;
    assert SkipSpace(after) == after;
  }

  lemma {:induction false} EntriesReadBack(f: NumberFormat, compare: Compare, entries: seq<Entry>, i: nat, rest: Text)
    requires IsFaithful(f) && i < |entries|
    ensures ReadEntries(f, Join(MemberTexts(f, compare, entries)[i..]) + [CLOSE_BRACE] + rest)
         == Some((OrderedEntries(compare, entries)[i..], rest))
    decreases SizeEntries(entries), 1, |entries| - i
  {
    hide ReadValue, ReadEntries, Serialize, Ordered, MemberTexts, OrderedEntries, Quote, Join, IsFaithful;
    var texts, ordered := MemberTexts(f, compare, entries), OrderedEntries(compare, entries);
    MemberTextsAt(f, compare, entries, i);
    JoinFollows(texts, i, CLOSE_BRACE, rest);
    var after := Following(texts, i, CLOSE_BRACE, rest);
    ValueReadsBack(f, compare, entries[i].value, after);
    MemberReadsBack(f, entries[i].key, Serialize(f, compare, entries[i].value), Ordered(compare, entries[i].value),
                    after);
    if i == |entries| - 1 {
      assert ordered[i..] == [ordered[i]];
      assert after[1..] == rest;
    } else {
      EntriesReadBack(f, compare, entries, i + 1, rest);
      assert after[1..] == Join(texts[i + 1..]) + [CLOSE_BRACE] + rest;
      assert ordered[i..] == [ordered[i]] + ordered[i + 1..];
    }
  }

  /** Parsing a canonical text gives the value back, up to the order of members. */
  lemma CanonicalReadsBack(f: NumberFormat, compare: Compare, v: JsValue)
    requires IsFaithful(f) && IsTotalOrder(compare) && IsProper(v)
    ensures Parse(f, Serialize(f, compare, v)) == Some(Ordered(compare, v))
    ensures MeaningOf(Ordered(compare, v)) == MeaningOf(v)
  {
    hide ReadValue, Serialize, Ordered, MeaningOf;
    ValueReadsBack(f, compare, v, []);
    assert Serialize(f, compare, v) + [] == Serialize(f, compare, v);
    OrderedMeans(compare, v);
  }

  /** One text for each meaning: two values have the same canonical text exactly when they mean the same. */
  lemma CanonicalIsExact(f: NumberFormat, compare: Compare, v: JsValue, w: JsValue)
    requires IsFaithful(f) && IsTotalOrder(compare) && IsProper(v) && IsProper(w)
    ensures Serialize(f, compare, v) == Serialize(f, compare, w) <==> MeaningOf(v) == MeaningOf(w)
  {
    hide Serialize, Parse, Ordered, MeaningOf;
    if MeaningOf(v) == MeaningOf(w) {
      SameMeaningSameText(f, compare, v, w);
    }
    CanonicalReadsBack(f, compare, v);
    CanonicalReadsBack(f, compare, w);
  }

  // Nothing but the value is written

  function LengthOfTexts(texts: seq<Text>): nat {
    if texts == [] then 0 else LengthOfTexts(texts[..|texts| - 1]) + |texts[|texts| - 1]|
  }

  /** How long a canonical text is: brackets, commas, colons, and the texts of names and values; no blanks. */
  function CompactLength(f: NumberFormat, v: JsValue): nat
    decreases v
  {
    match v
    case JNull => 4
    case JBool(b) => if b then 4 else 5
    case JNumber(n) => |f.write(n)|
    case JString(s) => |Escape(s)| + 2
    case JArray(items) => 2 + CompactItems(f, items) + Commas(|items|)
    case JObject(entries) => 2 + CompactEntries(f, entries) + Commas(|entries|)
  }

  function Commas(n: nat): nat {
    if n == 0 then 0 else n - 1
  }

  function CompactItems(f: NumberFormat, items: seq<JsValue>): nat
    decreases items
  {
    if items == [] then 0 else CompactItems(f, items[..|items| - 1]) + CompactLength(f, items[|items| - 1])
  }

  function CompactEntry(f: NumberFormat, e: Entry): nat
    decreases e, 1
  {
    |Escape(e.key)| + 2 + 1 + CompactLength(f, e.value)
  }

  function CompactEntries(f: NumberFormat, entries: seq<Entry>): nat
    decreases entries, 0
  {
    if entries == [] then 0 else CompactEntries(f, entries[..|entries| - 1]) + CompactEntry(f, entries[|entries| - 1])
  }

  lemma {:induction false} JoinLength(texts: seq<Text>)
    ensures |Join(texts)| == LengthOfTexts(texts) + Commas(|texts|)
  {
    if |texts| > 1 {
      JoinLength(texts[..|texts| - 1]);
    } else if |texts| == 1 {
      assert texts[..0] == [];
    }
  }

  lemma CompactOneMore(f: NumberFormat, front: seq<Entry>, e: Entry)
    ensures CompactEntries(f, front + [e]) == CompactEntries(f, front) + CompactEntry(f, e)
  {
    assert (front + [e])[..|front|] == front;
  }

  /** Sorting does not change how long the members are. */
  lemma {:induction false} InsertLength(f: NumberFormat, e: Entry, sorted: seq<Entry>, compare: Compare)
    ensures |Insert(e, sorted, compare)| == |sorted| + 1
    ensures CompactEntries(f, Insert(e, sorted, compare)) == CompactEntries(f, sorted) + CompactEntry(f, e)
  {
    hide CompactEntry, CompactEntries, SizeEntries, Size;
    if sorted == [] {
      CompactOneMore(f, [], e);
      assert [] + [e] == [e];
    } else {
      var n := |sorted| - 1;
      if compare(sorted[n].key, e.key) <= 0 {
        CompactOneMore(f, sorted, e);
      } else {
        InsertLength(f, e, sorted[..n], compare);
        CompactOneMore(f, Insert(e, sorted[..n], compare), sorted[n]);
        CompactOneMore(f, sorted[..n], sorted[n]);
        assert sorted == sorted[..n] + [sorted[n]];
      }
    }
  }

  lemma {:induction false} SortLength(f: NumberFormat, entries: seq<Entry>, compare: Compare)
    ensures |SortEntries(entries, compare)| == |entries|
    ensures CompactEntries(f, SortEntries(entries, compare)) == CompactEntries(f, entries)
  {
    hide CompactEntry;
    if entries != [] {
      var n := |entries| - 1;
      SortLength(f, entries[..n], compare);
      InsertLength(f, entries[n], SortEntries(entries[..n], compare), compare);
    }
  }

  /** A canonical text has nothing in it that its value does not need: in particular no blanks and no line ends. */
  lemma {:induction false} CanonicalIsCompact(f: NumberFormat, compare: Compare, v: JsValue)
    ensures |Serialize(f, compare, v)| == CompactLength(f, v)
    decreases Size(v), 0
  {
    hide SortEntries, Join, Escape;
    match v {
      case JArray(items) =>
        ItemsAreCompact(f, compare, items);
        JoinLength(ItemTexts(f, compare, items));
      case JObject(entries) =>
        SortLength(f, entries, compare);
        MembersAreCompact(f, compare, SortEntries(entries, compare));
        JoinLength(MemberTexts(f, compare, SortEntries(entries, compare)));
      case _ =>
    }
  }

  lemma {:induction false} ItemsAreCompact(f: NumberFormat, compare: Compare, items: seq<JsValue>)
    ensures LengthOfTexts(ItemTexts(f, compare, items)) == CompactItems(f, items)
    decreases SizeItems(items), 1
  {
    if items != [] {
      var n := |items| - 1;
      ItemsAreCompact(f, compare, items[..n]);
      CanonicalIsCompact(f, compare, items[n]);
      assert ItemTexts(f, compare, items)[..n] == ItemTexts(f, compare, items[..n]);
    }
  }

  lemma {:induction false} MembersAreCompact(f: NumberFormat, compare: Compare, entries: seq<Entry>)
    ensures LengthOfTexts(MemberTexts(f, compare, entries)) == CompactEntries(f, entries)
    decreases SizeEntries(entries), 1
  {
    hide Escape;
    if entries != [] {
      var n := |entries| - 1;
      MembersAreCompact(f, compare, entries[..n]);
      CanonicalIsCompact(f, compare, entries[n].value);
      assert MemberTexts(f, compare, entries)[..n] == MemberTexts(f, compare, entries[..n]);
    }
  }
}
