/** Gemini grounding: supports name a range of bytes of a content part; Chat annotations name a
    range of characters of the rendered text. */
module Grounding {
  import opened Basics
  import opened Utf8

  datatype Part = Part(text: Bytes, thought: bool)

  /** A part and the byte of the rendered text at which it begins, if it was found there. */
  datatype RenderedPart = RenderedPart(text: Bytes, startByte: Option<nat>)

  datatype Range = Range(start: nat, end: nat)

  // ---- locating parts ---------------------------------------------------------------------

  predicate Located(p: RenderedPart, rendered: Bytes) {
    p.startByte.Some? ==> p.text != [] && Occurs(rendered, p.text, p.startByte.value)
  }

  /** Where a located part ends; a part that was not found ends where it began. */
  function EndOf(p: RenderedPart, otherwise: nat): nat {
    if p.startByte.Some? then p.startByte.value + |p.text| else otherwise
  }

  /** The end of the last located part: everything located later begins at or after it. */
  function Cursor(parts: seq<RenderedPart>): nat {
    if parts == [] then 0 else EndOf(parts[|parts| - 1], Cursor(parts[..|parts| - 1]))
  }

  /** A part is found exactly when it is text that stands somewhere after the parts found
      before it, and then it is found at the first such place. */
  ghost predicate FoundFirst(part: Part, p: RenderedPart, rendered: Bytes, cursor: nat) {
    && p.text == part.text
    && (part.text == [] || part.thought ==> p.startByte.None?)
    && (part.text != [] && !part.thought ==>
          match p.startByte
          case None => forall at: nat :: cursor <= at ==> !Occurs(rendered, part.text, at)
          case Some(start) =>
            && cursor <= start && Occurs(rendered, part.text, start)
            && forall at: nat :: cursor <= at < start ==> !Occurs(rendered, part.text, at))
  }

  ghost predicate AllFoundFirst(parts: seq<Part>, located: seq<RenderedPart>, rendered: Bytes) {
    && |located| == |parts|
    && forall i :: 0 <= i < |parts| ==> FoundFirst(parts[i], located[i], rendered, Cursor(located[..i]))
  }

  lemma OccursFrom(text: Bytes, part: Bytes, cursor: nat, at: nat)
    requires cursor <= |text| && cursor <= at
    ensures Occurs(text, part, at) <==> Occurs(text[cursor..], part, at - cursor)
  {
    if at + |part| <= |text| {
      assert text[cursor..][at - cursor..at - cursor + |part|] == text[at..at + |part|];
    }
  }

  lemma IndexFrom(rendered: Bytes, part: Part, cursor: nat, p: RenderedPart)
    requires cursor <= |rendered| && part.text != [] && !part.thought
    requires p.text == part.text
    requires var relative := Index(rendered[cursor..], part.text);
             p.startByte == if relative.Some? then Some(cursor + relative.value) else None
    ensures FoundFirst(part, p, rendered, cursor)
    ensures EndOf(p, cursor) <= |rendered|
  {
    hide Occurs, Index;
    IndexIsFirst(rendered[cursor..], part.text);
    forall at: nat | cursor <= at
      ensures Occurs(rendered, part.text, at) <==> Occurs(rendered[cursor..], part.text, at - cursor)
    {
      OccursFrom(rendered, part.text, cursor, at);
    }
    assert p.startByte.Some? ==> Occurs(rendered, part.text, p.startByte.value);
    if p.startByte.Some? {
      OccursWithin(rendered, part.text, p.startByte.value);
    }
  }

  lemma OccursWithin(text: Bytes, part: Bytes, at: nat)
    requires Occurs(text, part, at)
    ensures at + |part| <= |text|
  {
  }

  method LocateRenderedGeminiParts(parts: seq<Part>, rendered: Bytes) returns (located: seq<RenderedPart>)
    ensures AllFoundFirst(parts, located, rendered)
  {
    hide Occurs, Index, FoundFirst, AllFoundFirst, Cursor;
    located := [];
    FoundNothing(rendered);
    var cursor := 0;
    for i := 0 to |parts|
      invariant |located| == i
      invariant cursor == Cursor(located) && cursor <= |rendered|
      invariant AllFoundFirst(parts[..i], located, rendered)
    {
      var p := RenderedPart(parts[i].text, None);
      if parts[i].text == [] || parts[i].thought || cursor > |rendered| {
        NotText(parts[i], p, rendered, cursor);
      } else {
        var relative := Index(rendered[cursor..], parts[i].text);
        if relative.Some? {
          p := p.(startByte := Some(cursor + relative.value));
        }
        IndexFrom(rendered, parts[i], cursor, p);
      }
      FoundNext(parts[..i], located, parts[i], p, rendered);
      CursorNext(located, p);
      assert parts[..i + 1] == parts[..i] + [parts[i]];
      cursor := EndOf(p, cursor);
      located := located + [p];
    }
    assert parts[..|parts|] == parts;
  }

  lemma FoundNothing(rendered: Bytes)
    ensures AllFoundFirst([], [], rendered) && Cursor([]) == 0
  {
  }

  lemma CursorNext(located: seq<RenderedPart>, p: RenderedPart)
    ensures Cursor(located + [p]) == EndOf(p, Cursor(located))
  {
    assert (located + [p])[..|located|] == located;
  }

  lemma NotText(part: Part, p: RenderedPart, rendered: Bytes, cursor: nat)
    requires part.text == [] || part.thought
    requires p == RenderedPart(part.text, None)
    ensures FoundFirst(part, p, rendered, cursor)
  {
  }

  lemma FoundNext(parts: seq<Part>, located: seq<RenderedPart>, part: Part, p: RenderedPart, rendered: Bytes)
    requires AllFoundFirst(parts, located, rendered)
    requires FoundFirst(part, p, rendered, Cursor(located))
    ensures AllFoundFirst(parts + [part], located + [p], rendered)
  {
    hide FoundFirst;
    forall i | 0 <= i < |parts| + 1
      ensures FoundFirst((parts + [part])[i], (located + [p])[i], rendered, Cursor((located + [p])[..i]))
    {
      assert (located + [p])[..i] == located[..i];
      if i == |parts| {
        assert located[..i] == located;
      }
    }
  }

  lemma {:induction false} CursorGrows(parts: seq<Part>, located: seq<RenderedPart>, rendered: Bytes, i: nat, j: nat)
    requires AllFoundFirst(parts, located, rendered) && i <= j <= |located|
    ensures Cursor(located[..i]) <= Cursor(located[..j])
  {
    if i < j {
      CursorGrows(parts, located, rendered, i, j - 1);
      assert located[..j][..j - 1] == located[..j - 1];
      assert FoundFirst(parts[j - 1], located[j - 1], rendered, Cursor(located[..j - 1]));
    }
  }

  /** Located parts stand in the rendered text in their order, without overlapping. */
  lemma LocatedInOrder(parts: seq<Part>, located: seq<RenderedPart>, rendered: Bytes, i: nat, j: nat)
    requires AllFoundFirst(parts, located, rendered) && i < j < |located|
    requires located[i].startByte.Some? && located[j].startByte.Some?
    ensures Located(located[i], rendered) && Located(located[j], rendered)
    ensures located[i].startByte.value + |located[i].text| <= located[j].startByte.value
  {
    CursorGrows(parts, located, rendered, i + 1, j);
    assert located[..i + 1][..i] == located[..i];
    assert FoundFirst(parts[i], located[i], rendered, Cursor(located[..i]));
    assert FoundFirst(parts[j], located[j], rendered, Cursor(located[..j]));
  }

  // ---- a whole response -------------------------------------------------------------------

  /** groundingRuneRange for a part located in the rendered text. */
  function GroundingRuneRange(rendered: Bytes, part: RenderedPart, startByte: int, endByte: int): Option<Range>
    requires part.startByte.Some? && Located(part, rendered)
  {
    if startByte < 0 || endByte <= startByte || endByte > |part.text| then None
    else if !Valid(part.text[..startByte]) || !Valid(part.text[..endByte]) then None
    else
      var partStartRunes := Count(rendered[..part.startByte.value]);
      Some(Range(partStartRunes + Count(part.text[..startByte]), partStartRunes + Count(part.text[..endByte])))
  }

  /** The range names the characters of the bytes asked for. */
  predicate Names(range: Range, rendered: Bytes, bytes: Bytes) {
    range.start < range.end <= Count(rendered) && Runes(rendered)[range.start..range.end] == Runes(bytes)
  }

  /** Whenever the range is computed, it cuts exactly the requested bytes of the part out of the
      rendered text, whatever else the text holds; and it is computed exactly when the request
      begins and ends between characters. */
  lemma GroundingRangeIsExact(rendered: Bytes, part: RenderedPart, startByte: int, endByte: int)
    requires part.startByte.Some? && Located(part, rendered)
    ensures var r := GroundingRuneRange(rendered, part, startByte, endByte);
            && (r.Some? <==>
                  && 0 <= startByte < endByte <= |part.text|
                  && Valid(part.text[..startByte]) && Valid(part.text[startByte..endByte]))
            && (r.Some? ==> Names(r.value, rendered, part.text[startByte..endByte]))
  {
    hide Runes, Valid, Names;
    if 0 <= startByte < endByte <= |part.text| && Valid(part.text[..startByte]) {
      ValidToEnd(part.text, startByte, endByte);
      if Valid(part.text[..endByte]) { RangeNames(rendered, part, startByte, endByte); }
    }
  }

  lemma ValidToEnd(text: Bytes, startByte: nat, endByte: nat)
    requires startByte < endByte <= |text| && Valid(text[..startByte])
    ensures Valid(text[..endByte]) <==> Valid(text[startByte..endByte])
  {
    hide Runes, Valid;
    if Valid(text[startByte..endByte]) {
      assert text[..endByte] == text[..startByte] + text[startByte..endByte];
      ValidConcat(text[..startByte], text[startByte..endByte]);
    }
    if Valid(text[..endByte]) { RunesOfSlice(text, startByte, endByte); }
  }

  /** The runes between two boundaries of a text are those of the bytes between them. */
  lemma RunesOfSlice(text: Bytes, startByte: nat, endByte: nat)
    requires startByte < endByte <= |text| && Valid(text[..startByte]) && Valid(text[..endByte])
    ensures Valid(text[startByte..endByte])
    ensures Count(text[..startByte]) < Count(text[..endByte])
    ensures Runes(text[..endByte])[Count(text[..startByte])..Count(text[..endByte])] == Runes(text[startByte..endByte])
  {
    hide Runes, Valid;
    var head := text[..endByte];
    assert head[..startByte] == text[..startByte] && head[..endByte] == head;
    assert head[startByte..endByte] == text[startByte..endByte];
    RunesBetween(head, startByte, endByte);
    NonemptyRunes(text[startByte..endByte]);
  }

  lemma RangeNames(rendered: Bytes, part: RenderedPart, startByte: nat, endByte: nat)
    requires part.startByte.Some? && Located(part, rendered)
    requires startByte < endByte <= |part.text| && Valid(part.text[..startByte]) && Valid(part.text[..endByte])
    ensures var at := Count(rendered[..part.startByte.value]);
            Names(Range(at + Count(part.text[..startByte]), at + Count(part.text[..endByte])), rendered,
                  part.text[startByte..endByte])
  {
    hide Runes, Valid;
    var at, from, to := Count(rendered[..part.startByte.value]), Count(part.text[..startByte]),
        Count(part.text[..endByte]);
    RunesOfSlice(part.text, startByte, endByte);
    PartRunes(rendered, part.text, part.startByte.value, endByte);
    SliceOfSlice(Runes(rendered), at, from, to);
  }

  lemma SliceOfSlice(runes: seq<Rune>, at: nat, from: nat, to: nat)
    requires from <= to && at + to <= |runes|
    ensures runes[at..at + to][from..to] == runes[at + from..at + to]
  {
  }

  lemma NonemptyRunes(s: Bytes)
    requires s != []
    ensures |Runes(s)| > 0
  {
  }

  lemma PartRunes(rendered: Bytes, text: Bytes, at: nat, endByte: nat)
    requires Occurs(rendered, text, at) && 0 < endByte <= |text| && Valid(text[..endByte])
    ensures Count(rendered[..at]) + Count(text[..endByte]) <= Count(rendered)
    ensures Runes(rendered)[Count(rendered[..at])..Count(rendered[..at]) + Count(text[..endByte])]
            == Runes(text[..endByte])
  {
    var head, tail := text[..endByte], rendered[at + endByte..];
    assert rendered == rendered[..at] + head + tail by {
      assert rendered[at..at + |text|][..endByte] == head;
    }
    RunesOfPart(rendered[..at], head, tail);
  }
}
