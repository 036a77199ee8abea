// Splitting a server-sent event stream into frames, chunk by chunk, against
// splitting the whole text at once.
module EventStream {
  import opened Wrappers

  // The separator: the pattern \r?\n\r?\n

  /** The length of a line end at index i, if there is one. */
  function LineEnd(text: string, i: nat): Option<nat>
    requires i <= |text|
  {
    if i < |text| && text[i] == '\n' then Some(1)
    else if i + 1 < |text| && text[i] == '\r' && text[i + 1] == '\n' then Some(2)
    else None
  }

  /** The length of a match of the pattern at index i; it can match in one way only. */
  function MatchAt(text: string, i: nat): (r: Option<nat>)
    requires i <= |text|
    ensures r.Some? ==> 2 <= r.value <= 4 && i + r.value <= |text|
  {
    match LineEnd(text, i)
    case None => None
    case Some(n) =>
      match LineEnd(text, i + n)
      case None => None
      case Some(m) => Some(n + m)
  }

  /** `text.search(pattern)` from index i on: the leftmost match. */
  function SearchFrom(text: string, i: nat): (r: Option<nat>)
    requires i <= |text|
    ensures r.Some? ==> i <= r.value < |text| && MatchAt(text, r.value).Some?
    ensures forall j :: i <= j < (if r.Some? then r.value else |text|) ==> MatchAt(text, j).None?
    decreases |text| - i
  {
    if i == |text| then None
    else if MatchAt(text, i).Some? then Some(i)
    else SearchFrom(text, i + 1)
  }

  function Search(text: string): (r: Option<nat>)
    ensures r.Some? ==> r.value < |text| && MatchAt(text, r.value).Some?
    ensures forall j :: 0 <= j < (if r.Some? then r.value else |text|) ==> MatchAt(text, j).None?
  {
    SearchFrom(text, 0)
  }

  /** What is left of the text behind its first separator. */
  function AfterFirst(text: string): string
    requires Search(text).Some?
  {
    text[Search(text).value + MatchAt(text, Search(text).value).value..]
  }

  /** The frames of a whole text; the last one ends with the text. */
  function Frames(text: string): (r: seq<string>)
    ensures r != []
    decreases |text|
  {
    match Search(text)
    case None => [text]
    case Some(i) => [text[..i]] + Frames(AfterFirst(text))
  }

  // What frames are

  /** A list of separators that puts the text together again. */
  ghost predicate PutsTogether(text: string, frames: seq<string>, separators: seq<string>)
    decreases |frames|
  {
    && |frames| == |separators| + 1
    && (forall s :: s in separators ==> s in {"\n\n", "\r\n\n", "\n\r\n", "\r\n\r\n"})
    && if separators == [] then text == frames[0]
       else
         && frames[0] + separators[0] <= text
         && PutsTogether(text[|frames[0] + separators[0]|..], frames[1..], separators[1..])
  }

  lemma LineEndIs(text: string, i: nat)
    requires i <= |text| && LineEnd(text, i).Some?
    ensures i + LineEnd(text, i).value <= |text|
    ensures text[i..i + LineEnd(text, i).value] == "\n" || text[i..i + LineEnd(text, i).value] == "\r\n"
  {
    var s := text[i..i + LineEnd(text, i).value];
    if text[i] == '\n' {
      assert s == "\n";
    } else {
      assert s == "\r\n";
    }
  }

  lemma MatchIsSeparator(text: string, i: nat)
    requires i <= |text| && MatchAt(text, i).Some?
    ensures text[i..i + MatchAt(text, i).value] in {"\n\n", "\r\n\n", "\n\r\n", "\r\n\r\n"}
  {
    LineEndIs(text, i);
    var n := LineEnd(text, i).value;
    LineEndIs(text, i + n);
    var m := LineEnd(text, i + n).value;
    var first, second := text[i..i + n], text[i + n..i + n + m];
    assert text[i..i + n + m] == first + second;
    assert "\n" + "\n" == "\n\n" && "\r\n" + "\n" == "\r\n\n";
    assert "\n" + "\r\n" == "\n\r\n" && "\r\n" + "\r\n" == "\r\n\r\n";
  }

  lemma FirstFrame(text: string)
    requires Search(text).Some?
    ensures Search(text).value + MatchAt(text, Search(text).value).value <= |text|
    ensures AfterFirst(text) == text[Search(text).value + MatchAt(text, Search(text).value).value..]
    ensures |AfterFirst(text)| < |text|
    ensures Frames(text) == [text[..Search(text).value]] + Frames(AfterFirst(text))
  {
  }

  lemma OnlyFrame(text: string)
    requires Search(text).None?
    ensures Frames(text) == [text]
  {
  }

  const SEPARATORS := {"\n\n", "\r\n\n", "\n\r\n", "\r\n\r\n"}

  /** One of the separators stands at this index. */
  predicate SeparatorAt(text: string, i: nat, s: string) {
    s in SEPARATORS && i + |s| <= |text| && text[i..i + |s|] == s
  }

  /** The pattern matches exactly where one of the four separators stands, and matches it. */
  lemma MatchesSeparators(text: string, i: nat, s: string)
    requires i <= |text|
    ensures SeparatorAt(text, i, s) <==> MatchAt(text, i).Some? && text[i..i + MatchAt(text, i).value] == s
  {
    if MatchAt(text, i).Some? {
      MatchIsSeparator(text, i);
    }
    if SeparatorAt(text, i, s) {
      SeparatorMatches(text, i, s);
    }
  }

  lemma SeparatorMatches(text: string, i: nat, s: string)
    requires SeparatorAt(text, i, s)
    ensures MatchAt(text, i) == Some(|s|)
  {
    assert forall k :: 0 <= k < |s| ==> text[i + k] == s[k];
    if s == "\n\n" {
      assert s[0] == '\n' && s[1] == '\n';
    } else if s == "\r\n\n" {
      assert s[0] == '\r' && s[1] == '\n' && s[2] == '\n';
    } else if s == "\n\r\n" {
      assert s[0] == '\n' && s[1] == '\r' && s[2] == '\n';
    } else {
      assert s[0] == '\r' && s[1] == '\n' && s[2] == '\r' && s[3] == '\n';
    }
  }

  /** So a frame holds no separator anywhere. */
  lemma FramesHoldNone(text: string, frame: string, i: nat, s: string)
    requires frame in Frames(text)
    ensures !SeparatorAt(frame, i, s)
  {
    hide Frames, Search, MatchAt;
    var separators := FramesAreTheText(text);
    if SeparatorAt(frame, i, s) {
      SeparatorMatches(frame, i, s);
      SearchFinds(frame, i);
    }
  }

  lemma SearchFinds(text: string, i: nat)
    requires i < |text| && MatchAt(text, i).Some?
    ensures Search(text).Some?
  {
    hide MatchAt;
  }

  /** Nothing is lost or invented: frames and separators are the text, and no frame holds a separator. */
  lemma {:induction false} FramesAreTheText(text: string) returns (separators: seq<string>)
    ensures PutsTogether(text, Frames(text), separators)
    ensures forall frame :: frame in Frames(text) ==> Search(frame).None?
    decreases |text|
  {
    hide Frames, Search, MatchAt, AfterFirst;
    var found := Search(text);
    if found.None? {
      separators := [];
      OnlyFrame(text);
    } else {
      var i := found.value;
      var n := MatchAt(text, i).value;
      FirstFrame(text);
      MatchIsSeparator(text, i);
      NothingBefore(text, i);
      var rest := FramesAreTheText(AfterFirst(text));
      var first := text[i..i + n];
      separators := [first] + rest;
      assert text[..i] + first == text[..i + n];
      assert Frames(text)[1..] == Frames(AfterFirst(text)) && separators[1..] == rest;
    }
  }

  /** The text in front of the leftmost match has no match of its own. */
  lemma NothingBefore(text: string, i: nat)
    requires Search(text) == Some(i)
    ensures Search(text[..i]).None?
  {
    var front := text[..i];
    assert front + text[i..] == text;
    forall j | 0 <= j < i
      ensures MatchAt(front, j).None?
    {
      MatchesLonger(front, text[i..], j);
      assert MatchAt(text, j).None?;
    }
  }

  // Extending a text

  /** A match stays a match, of the same length, in every longer text. */
  lemma MatchesLonger(text: string, more: string, i: nat)
    requires i <= |text|
    ensures MatchAt(text, i).Some? ==> MatchAt(text + more, i) == MatchAt(text, i)
  {
  }

  /** No match can begin earlier by running over the end of the shorter text. */
  lemma NoEarlierMatch(text: string, more: string, i: nat, j: nat)
    requires j < i <= |text| && MatchAt(text, i).Some?
    ensures MatchAt(text + more, j) == MatchAt(text, j)
  {
  }

  /** A separator found in a text is still the leftmost one in every extension of the text. */
  lemma LeftmostStays(text: string, more: string)
    requires Search(text).Some?
    ensures Search(text + more) == Search(text)
    ensures AfterFirst(text + more) == AfterFirst(text) + more
  {
    hide MatchAt, SearchFrom;
    var i, all := Search(text).value, text + more;
    MatchesLonger(text, more, i);
    forall j | 0 <= j < i
      ensures MatchAt(all, j).None?
    {
      NoEarlierMatch(text, more, i, j);
      assert MatchAt(text, j).None?;
    }
    assert Search(all) == Some(i);
    var n := MatchAt(text, i).value;
    assert all[i + n..] == text[i + n..] + more;
  }

  /** Splitting goes on where a prefix of the text left off. */
  lemma {:induction false} FramesGoOn(text: string, more: string)
    ensures var done := Frames(text);
      Frames(text + more) == done[..|done| - 1] + Frames(done[|done| - 1] + more)
    decreases |text|
  {
    hide Frames, Search, MatchAt, AfterFirst;
    if Search(text).None? {
      OnlyFrame(text);
      assert [text][..0] + Frames(text + more) == Frames(text + more);
    } else {
      var i := Search(text).value;
      FirstFrame(text);
      LeftmostStays(text, more);
      FirstFrame(text + more);
      FramesGoOn(AfterFirst(text), more);
      var first, rest := text[..i], Frames(AfterFirst(text));
      assert (text + more)[..i] == first;
      assert ([first] + rest)[..|rest|] == [first] + rest[..|rest| - 1];
    }
  }

  function Concat(chunks: seq<string>): string {
    if chunks == [] then "" else Concat(chunks[..|chunks| - 1]) + chunks[|chunks| - 1]
  }

  /** A tail without a line feed completes no separator. */
  lemma FlushAddsNothing(text: string, flush: string)
    requires Search(text).None? && '\n' !in flush
    ensures Search(text + flush).None?
  {
    hide SearchFrom;
    forall j | 0 <= j < |text + flush|
      ensures MatchAt(text + flush, j).None?
    {
      if j < |text| {
        assert MatchAt(text, j).None?;
      }
      NoMatchInFlush(text, flush, j);
    }
  }

  lemma NoMatchInFlush(text: string, flush: string, j: nat)
    requires j <= |text + flush| && '\n' !in flush && (j < |text| ==> MatchAt(text, j).None?)
    ensures MatchAt(text + flush, j).None?
  {
    var all := text + flush;
    assert forall k :: |text| <= k < |all| ==> all[k] in flush;
  }

  /**
   * `parseOpenAIEventStream`, splitting only: the buffer grows by each decoded chunk and gives up its complete frames;
   * what the decoder flushes at the end joins the last frame unsplit.
   */
  method SplitFrames(chunks: seq<string>, flush: string) returns (frames: seq<string>)
    ensures '\n' !in flush ==> frames == Frames(Concat(chunks) + flush)
    ensures var whole := Frames(Concat(chunks));
      frames == whole[..|whole| - 1] + [whole[|whole| - 1] + flush]
  {
    hide Frames, Search, AfterFirst, MatchAt;
    frames := [];
    var buffer := "";
    NoFrames();
    for i := 0 to |chunks|
      invariant Frames(Concat(chunks[..i])) == frames + [buffer]
      invariant Search(buffer).None?
    {
      ghost var soFar := Concat(chunks[..i]);
      assert chunks[..i + 1][..i] == chunks[..i];
      FramesGoOn(soFar, chunks[i]);
      buffer := buffer + chunks[i];
      var boundary := Search(buffer);
      while boundary.Some?
        invariant boundary == Search(buffer)
        invariant Frames(soFar + chunks[i]) == frames + Frames(buffer)
        decreases |buffer|
      {
        FirstFrame(buffer);
        var frame := buffer[..boundary.value];
        var separator := MatchAt(buffer, boundary.value).value;
        assert frames + ([frame] + Frames(AfterFirst(buffer))) == (frames + [frame]) + Frames(AfterFirst(buffer));
        buffer := buffer[boundary.value + separator..];
        frames := frames + [frame];
        boundary := Search(buffer);
      }
      OnlyFrame(buffer);
    }
    assert chunks[..|chunks|] == chunks;
    if '\n' !in flush {
      FlushAddsNothing(buffer, flush);
      FramesGoOn(Concat(chunks), flush);
      OnlyFrame(buffer + flush);
    }
    frames := frames + [buffer + flush];
  }

  lemma NoFrames()
    ensures Frames(Concat([])) == [""] && Search("").None?
  {
  }
}
