/** Gemini grounding over a stream: supports arrive after the text they describe, and name bytes
    of a part that was delivered and rendered in pieces. */
module GroundingStream {
  import opened Basics
  import opened Utf8
  import opened Grounding

  /** A piece of a part and where it stands in the rendered text. */
  datatype Span = Span(partStart: nat, partEnd: nat, renderedStart: nat)

  datatype StreamedPart = StreamedPart(text: Bytes, spans: seq<Span>)

  // ---- one piece --------------------------------------------------------------------------

  const NEWLINE: Bytes := [10]

  function AppendPiece(p: StreamedPart, text: Bytes, renderedStart: Option<nat>): StreamedPart {
    StreamedPart(p.text + text,
      if text == NEWLINE || renderedStart.None? then p.spans
      else p.spans + [Span(|p.text|, |p.text| + |text|, renderedStart.value)])
  }

  function AppendOne(parts: map<int, StreamedPart>, index: nat, part: Part, located: RenderedPart, base: nat)
    : map<int, StreamedPart>
  {
    if part.text == [] || part.thought then parts
    else
      var p := if index in parts then parts[index] else StreamedPart([], []);
      var start := if located.startByte.Some? then Some(base + located.startByte.value) else None;
      parts[index := AppendPiece(p, part.text, start)]
  }

  function AppendAll(parts: map<int, StreamedPart>, content: seq<Part>, located: seq<RenderedPart>,
                     base: nat): map<int, StreamedPart>
    requires |located| == |content|
  {
    if content == [] then parts
    else
      var n := |content| - 1;
      AppendOne(AppendAll(parts, content[..n], located[..n], base), n, content[n], located[n], base)
  }

  // ---- looking up a range -----------------------------------------------------------------

  predicate HoldsStart(span: Span, startByte: int) { span.partStart <= startByte < span.partEnd }

  predicate HoldsEnd(span: Span, endByte: int) { span.partStart < endByte <= span.partEnd }

  /** The rendered place of a first byte: by the first span that holds it. */
  function RenderedStart(spans: seq<Span>, startByte: int): Option<nat> {
    if spans == [] then None
    else
      var before, span := RenderedStart(spans[..|spans| - 1], startByte), spans[|spans| - 1];
      if before.None? && HoldsStart(span, startByte) then Some(span.renderedStart + startByte - span.partStart)
      else before
  }

  /** The rendered place of an end: by the last span that holds it. */
  function RenderedEnd(spans: seq<Span>, endByte: int): Option<nat> {
    if spans == [] then None
    else
      var span := spans[|spans| - 1];
      if HoldsEnd(span, endByte) then Some(span.renderedStart + endByte - span.partStart)
      else RenderedEnd(spans[..|spans| - 1], endByte)
  }

  predicate BetweenCharacters(text: Bytes, start: int, end: int) {
    0 <= start < end <= |text| && Valid(text[..start]) && Valid(text[..end])
  }

  function RuneRange(rendered: Bytes, part: StreamedPart, startByte: int, endByte: int): Option<Range> {
    if !BetweenCharacters(part.text, startByte, endByte) then None
    else
      var start, end := RenderedStart(part.spans, startByte), RenderedEnd(part.spans, endByte);
      if start.None? || end.None? || end.value <= start.value || end.value > |rendered| then None
      else if rendered[start.value..end.value] != part.text[startByte..endByte] then None
      else if !BetweenCharacters(rendered, start.value, end.value) then None
      else Some(Range(Count(rendered[..start.value]), Count(rendered[..end.value])))
  }

  /** A range that is found cuts exactly the requested bytes out of the rendered text, and still
      does so whatever is rendered later. */
  lemma RangeStaysExact(rendered: Bytes, part: StreamedPart, startByte: int, endByte: int, later: Bytes)
    requires RuneRange(rendered, part, startByte, endByte).Some?
    ensures Names(RuneRange(rendered, part, startByte, endByte).value, rendered + later, part.text[startByte..endByte])
  {
    hide Runes, Valid, RenderedStart, RenderedEnd;
    var start, end := RenderedStart(part.spans, startByte).value, RenderedEnd(part.spans, endByte).value;
    var whole := rendered + later;
    assert whole[..start] == rendered[..start] && whole[..end] == rendered[..end];
    assert whole[start..end] == rendered[start..end];
    RunesBetween(whole, start, end);
    NonemptyRunes(whole[start..end]);
  }

  // ---- what the spans say -----------------------------------------------------------------

  /** The span's bytes of the part are its bytes of the rendered text. */
  predicate SpanTrue(span: Span, text: Bytes, rendered: Bytes) {
    && span.partStart < span.partEnd <= |text|
    && Occurs(rendered, text[span.partStart..span.partEnd], span.renderedStart)
  }

  function SpanLength(span: Span): int { span.partEnd - span.partStart }

  /** The first span ends before the second begins, in the part and in the rendered text. */
  predicate Before(a: Span, b: Span) {
    a.partEnd <= b.partStart && a.renderedStart + SpanLength(a) <= b.renderedStart
  }

  ghost predicate PartTrue(p: StreamedPart, rendered: Bytes) {
    && (forall i :: 0 <= i < |p.spans| ==> SpanTrue(p.spans[i], p.text, rendered))
    && (forall i, j :: 0 <= i < j < |p.spans| ==> Before(p.spans[i], p.spans[j]))
  }

  ghost predicate AllTrue(parts: map<int, StreamedPart>, rendered: Bytes) {
    forall k :: k in parts ==> PartTrue(parts[k], rendered)
  }

  /** Everything a part has so far ends by this byte of the rendered text. */
  ghost predicate EndsBy(p: StreamedPart, base: nat) {
    forall i :: 0 <= i < |p.spans| ==> p.spans[i].renderedStart + SpanLength(p.spans[i]) <= base
  }

  lemma SpanKept(span: Span, text: Bytes, rendered: Bytes, more: Bytes, later: Bytes)
    requires SpanTrue(span, text, rendered)
    ensures SpanTrue(span, text + more, rendered + later)
    ensures span.renderedStart + SpanLength(span) <= |rendered|
  {
    var n := SpanLength(span);
    assert (text + more)[span.partStart..span.partEnd] == text[span.partStart..span.partEnd];
    assert (rendered + later)[span.renderedStart..span.renderedStart + n]
        == rendered[span.renderedStart..span.renderedStart + n];
  }

  lemma PartKept(p: StreamedPart, rendered: Bytes, more: Bytes, later: Bytes)
    requires PartTrue(p, rendered)
    ensures PartTrue(p.(text := p.text + more), rendered + later) && EndsBy(p, |rendered|)
  {
    hide SpanTrue, Before;
    forall i | 0 <= i < |p.spans|
      ensures SpanTrue(p.spans[i], p.text + more, rendered + later)
      ensures p.spans[i].renderedStart + SpanLength(p.spans[i]) <= |rendered|
    {
      SpanKept(p.spans[i], p.text, rendered, more, later);
    }
  }

  lemma PieceKeepsTrue(p: StreamedPart, text: Bytes, start: Option<nat>, rendered: Bytes, later: Bytes)
    requires PartTrue(p, rendered) && text != []
    requires start.Some? ==> |rendered| <= start.value && Occurs(rendered + later, text, start.value)
    ensures PartTrue(AppendPiece(p, text, start), rendered + later)
  {
    hide Occurs;
    PartKept(p, rendered, text, later);
    var q := AppendPiece(p, text, start);
    if q.spans != p.spans {
      var span := q.spans[|p.spans|];
      assert q.text[span.partStart..span.partEnd] == text;
      assert forall i :: 0 <= i < |p.spans| ==> q.spans[i] == p.spans[i];
      forall i, j | 0 <= i < j < |q.spans| ensures Before(q.spans[i], q.spans[j]) {
        if j == |p.spans| {
          assert SpanTrue(p.spans[i], p.text, rendered);
        }
      }
    }
  }

  /** An index the content has not reached yet is as it was. */
  lemma {:induction false} Untouched(parts: map<int, StreamedPart>, content: seq<Part>, located: seq<RenderedPart>,
                                     base: nat, k: int)
    requires |located| == |content| && !(0 <= k < |content|)
    ensures var after := AppendAll(parts, content, located, base);
            (k in after <==> k in parts) && (k in parts ==> after[k] == parts[k])
  {
    if content != [] {
      var n := |content| - 1;
      Untouched(parts, content[..n], located[..n], base, k);
    }
  }

  lemma LocatedAfterBase(part: Part, p: RenderedPart, rendered: Bytes, cursor: nat, before: Bytes)
    requires FoundFirst(part, p, rendered, cursor) && p.startByte.Some?
    ensures Occurs(before + rendered, part.text, |before| + p.startByte.value)
  {
    var at := p.startByte.value;
    assert (before + rendered)[|before| + at..|before| + at + |part.text|] == rendered[at..at + |part.text|];
  }

  lemma {:induction false} AppendKeepsTrue(parts: map<int, StreamedPart>, before: Bytes, content: seq<Part>,
                                           located: seq<RenderedPart>, rendered: Bytes)
    requires AllTrue(parts, before) && AllFoundFirst(content, located, rendered)
    ensures AllTrue(AppendAll(parts, content, located, |before|), before + rendered)
  {
    hide PartTrue, FoundFirst, Occurs, AppendPiece, Cursor;
    if content == [] {
      forall k | k in parts ensures PartTrue(parts[k], before + rendered) {
        PartKept(parts[k], before, [], rendered);
        assert parts[k].text + [] == parts[k].text;
      }
    } else {
      var n := |content| - 1;
      FoundInit(content, located, rendered);
      AppendKeepsTrue(parts, before, content[..n], located[..n], rendered);
      Untouched(parts, content[..n], located[..n], |before|, n);
      if content[n].text != [] && !content[n].thought {
        var p := if n in parts then parts[n] else StreamedPart([], []);
        var start := if located[n].startByte.Some? then Some(|before| + located[n].startByte.value) else None;
        if start.Some? {
          LocatedAfterBase(content[n], located[n], rendered, Cursor(located[..n]), before);
        }
        NoSpans(before);
        PieceKeepsTrue(p, content[n].text, start, before, rendered);
      }
    }
  }

  lemma NoSpans(rendered: Bytes)
    ensures PartTrue(StreamedPart([], []), rendered)
  {
  }

  lemma FoundInit(content: seq<Part>, located: seq<RenderedPart>, rendered: Bytes)
    requires AllFoundFirst(content, located, rendered) && content != []
    ensures AllFoundFirst(content[..|content| - 1], located[..|content| - 1], rendered)
  {
    hide FoundFirst;
    var n := |content| - 1;
    forall i | 0 <= i < n
      ensures FoundFirst(content[..n][i], located[..n][i], rendered, Cursor(located[..n][..i]))
    {
      assert located[..n][..i] == located[..i];
    }
  }

  // ---- every range of a piece is found ----------------------------------------------------

  /** All pieces were whole characters. */
  ghost predicate PartWhole(p: StreamedPart) {
    Valid(p.text) && forall i :: 0 <= i < |p.spans| ==> SpanWhole(p.spans[i], p.text)
  }

  predicate SpanWhole(span: Span, text: Bytes) {
    span.partStart < span.partEnd <= |text| && Valid(text[..span.partStart]) && Valid(text[..span.partEnd])
  }

  ghost predicate AllWhole(parts: map<int, StreamedPart>) {
    forall k :: k in parts ==> PartWhole(parts[k])
  }

  lemma SpanStaysWhole(span: Span, text: Bytes, more: Bytes)
    requires SpanWhole(span, text)
    ensures SpanWhole(span, text + more)
  {
    assert (text + more)[..span.partStart] == text[..span.partStart];
    assert (text + more)[..span.partEnd] == text[..span.partEnd];
  }

  lemma NewSpanWhole(text: Bytes, more: Bytes, renderedStart: nat)
    requires Valid(text) && Valid(more) && more != []
    ensures Valid(text + more) && SpanWhole(Span(|text|, |text| + |more|, renderedStart), text + more)
  {
    ValidConcat(text, more);
    assert (text + more)[..|text|] == text && (text + more)[..|text + more|] == text + more;
  }

  lemma PieceKeepsWhole(p: StreamedPart, text: Bytes, start: Option<nat>)
    requires PartWhole(p) && Valid(text) && text != []
    ensures PartWhole(AppendPiece(p, text, start))
  {
    hide Valid, SpanWhole;
    var q := AppendPiece(p, text, start);
    NewSpanWhole(p.text, text, start.GetOr(0));
    forall i | 0 <= i < |p.spans| ensures SpanWhole(p.spans[i], q.text) {
      SpanStaysWhole(p.spans[i], p.text, text);
    }
  }

  lemma {:induction false} AppendKeepsWhole(parts: map<int, StreamedPart>, content: seq<Part>,
                                            located: seq<RenderedPart>, base: nat)
    requires AllWhole(parts) && |located| == |content|
    requires forall i :: 0 <= i < |content| ==> Valid(content[i].text)
    ensures AllWhole(AppendAll(parts, content, located, base))
  {
    hide PartWhole, Valid, AppendPiece;
    if content != [] {
      var n := |content| - 1;
      AppendKeepsWhole(parts, content[..n], located[..n], base);
      Untouched(parts, content[..n], located[..n], base, n);
      if content[n].text != [] && !content[n].thought {
        var p := if n in parts then parts[n] else StreamedPart([], []);
        NoSpansWhole();
        var start := if located[n].startByte.Some? then Some(base + located[n].startByte.value) else None;
        PieceKeepsWhole(p, content[n].text, start);
      }
    }
  }

  lemma NoSpansWhole()
    ensures PartWhole(StreamedPart([], []))
  {
  }

  lemma {:induction false} StartInSpan(spans: seq<Span>, k: nat, startByte: int)
    requires k < |spans| && HoldsStart(spans[k], startByte)
    requires forall i, j :: 0 <= i < j < |spans| ==> Before(spans[i], spans[j])
    requires forall i :: 0 <= i < |spans| ==> spans[i].partStart < spans[i].partEnd
    ensures RenderedStart(spans, startByte) == Some(spans[k].renderedStart + startByte - spans[k].partStart)
  {
    var n := |spans| - 1;
    if k < n {
      assert Before(spans[k], spans[n]);
      StartInSpan(spans[..n], k, startByte);
    } else {
      NoStart(spans[..n], startByte, spans[n].partStart);
    }
  }

  lemma {:induction false} NoStart(spans: seq<Span>, startByte: int, bound: nat)
    requires forall i :: 0 <= i < |spans| ==> spans[i].partEnd <= bound
    requires bound <= startByte
    ensures RenderedStart(spans, startByte).None?
  {
    if spans != [] {
      NoStart(spans[..|spans| - 1], startByte, bound);
    }
  }

  lemma {:induction false} EndInSpan(spans: seq<Span>, k: nat, endByte: int)
    requires k < |spans| && HoldsEnd(spans[k], endByte)
    requires forall i, j :: 0 <= i < j < |spans| ==> Before(spans[i], spans[j])
    ensures RenderedEnd(spans, endByte) == Some(spans[k].renderedStart + endByte - spans[k].partStart)
  {
    var n := |spans| - 1;
    if k < n {
      assert Before(spans[k], spans[n]);
      EndInSpan(spans[..n], k, endByte);
    }
  }

  lemma SliceOfSlice<T>(s: seq<T>, from: nat, to: nat, start: nat, end: nat)
    requires from <= to <= |s| && start <= end <= to - from
    ensures s[from..to][start..end] == s[from + start..from + end]
  {
    var piece := s[from..to];
    assert forall i :: start <= i < end ==> piece[i] == s[from + i];
    assert forall i :: 0 <= i < end - start ==> piece[start..end][i] == s[from + start..from + end][i];
  }

  lemma CutOccurrence(rendered: Bytes, piece: Bytes, at: nat, start: nat, end: nat)
    requires Occurs(rendered, piece, at) && start <= end <= |piece|
    ensures at + end <= |rendered|
    ensures rendered[at + start..at + end] == piece[start..end]
    ensures rendered[..at + end] == rendered[..at] + piece[..end]
  {
    SliceOfSlice(rendered, at, at + |piece|, start, end);
    assert rendered[at..at + |piece|][..end] == piece[..end];
  }

  lemma PieceIsValid(text: Bytes, start: nat, end: nat)
    requires start <= end <= |text| && Valid(text[..start]) && Valid(text[..end])
    ensures Valid(text[start..end])
  {
    RunesBetween(text, start, end);
  }

  /** A boundary of the part inside a piece is a boundary of the rendered text. */
  lemma BoundaryIsRendered(rendered: Bytes, text: Bytes, span: Span, at: nat)
    requires SpanTrue(span, text, rendered) && span.partStart <= at <= span.partEnd
    requires Valid(rendered) && Valid(text[..span.partStart]) && Valid(text[..span.partEnd]) && Valid(text[..at])
    ensures span.renderedStart + at - span.partStart <= |rendered|
    ensures Valid(rendered[..span.renderedStart + at - span.partStart])
  {
    hide Valid, Occurs, Runes, Count;
    var piece, n := text[span.partStart..span.partEnd], at - span.partStart;
    PieceIsValid(text, span.partStart, span.partEnd);
    SelfSynchronising(rendered, piece, span.renderedStart);
    PieceIsValid(text, span.partStart, at);
    assert piece[..n] == text[span.partStart..at];
    CutOccurrence(rendered, piece, span.renderedStart, 0, n);
    ValidConcat(rendered[..span.renderedStart], piece[..n]);
  }

  predicate InPiece(part: StreamedPart, k: int, startByte: int, endByte: int) {
    && BetweenCharacters(part.text, startByte, endByte)
    && 0 <= k < |part.spans| && part.spans[k].partStart <= startByte && endByte <= part.spans[k].partEnd
  }

  /** With whole characters everywhere, every request that begins and ends between characters
      inside one rendered piece is answered. */
  lemma PieceRangeIsFound(rendered: Bytes, part: StreamedPart, k: nat, startByte: int, endByte: int)
    requires Valid(rendered) && PartTrue(part, rendered) && PartWhole(part)
    requires InPiece(part, k, startByte, endByte)
    ensures RuneRange(rendered, part, startByte, endByte).Some?
  {
    hide Valid, Occurs, RenderedStart, RenderedEnd, Runes, PartTrue, PartWhole, SpanTrue;
    var span := part.spans[k];
    PieceEnds(rendered, part, k, startByte, endByte);
    PieceIsRendered(rendered, part.text, span, startByte, endByte);
  }

  lemma PieceEnds(rendered: Bytes, part: StreamedPart, k: nat, startByte: int, endByte: int)
    requires PartTrue(part, rendered) && PartWhole(part) && InPiece(part, k, startByte, endByte)
    ensures var span := part.spans[k];
            && SpanTrue(span, part.text, rendered)
            && Valid(part.text[..span.partStart]) && Valid(part.text[..span.partEnd])
            && RenderedStart(part.spans, startByte) == Some(span.renderedStart + startByte - span.partStart)
            && RenderedEnd(part.spans, endByte) == Some(span.renderedStart + endByte - span.partStart)
  {
    hide Valid, Occurs, RenderedStart, RenderedEnd;
    assert SpanTrue(part.spans[k], part.text, rendered) && SpanWhole(part.spans[k], part.text);
    StartInSpan(part.spans, k, startByte);
    EndInSpan(part.spans, k, endByte);
  }

  lemma PieceIsRendered(rendered: Bytes, text: Bytes, span: Span, startByte: int, endByte: int)
    requires Valid(rendered) && SpanTrue(span, text, rendered)
    requires Valid(text[..span.partStart]) && Valid(text[..span.partEnd])
    requires BetweenCharacters(text, startByte, endByte)
    requires span.partStart <= startByte && endByte <= span.partEnd
    ensures var start := span.renderedStart + startByte - span.partStart;
            var end := span.renderedStart + endByte - span.partStart;
            && BetweenCharacters(rendered, start, end)
            && rendered[start..end] == text[startByte..endByte]
  {
    hide Valid, Occurs;
    BoundaryIsRendered(rendered, text, span, startByte);
    BoundaryIsRendered(rendered, text, span, endByte);
    var piece := text[span.partStart..span.partEnd];
    CutOccurrence(rendered, piece, span.renderedStart, startByte - span.partStart, endByte - span.partStart);
    SliceOfSlice(text, span.partStart, span.partEnd, startByte - span.partStart, endByte - span.partStart);
  }

  // ---- the candidate ----------------------------------------------------------------------

  class GroundingStreamCandidate {
    var rendered: Bytes
    var parts: map<int, StreamedPart>

    /** Every span tells the truth about the rendered text, and spans are in order. */
    ghost predicate Sound()
      reads this
    {
      AllTrue(parts, rendered)
    }

    constructor ()
      ensures Sound() && rendered == [] && parts == map[]
    {
      rendered, parts := [], map[];
    }

    method AppendContent(content: seq<Part>, renderedContent: Bytes) returns (ghost located: seq<RenderedPart>)
      requires Sound()
      modifies this
      ensures Sound()
      ensures AllFoundFirst(content, located, renderedContent)
      ensures rendered == old(rendered) + renderedContent
      ensures parts == AppendAll(old(parts), content, located, |old(rendered)|)
      ensures AllWhole(old(parts)) && (forall i :: 0 <= i < |content| ==> Valid(content[i].text)) ==> AllWhole(parts)
    {
      hide FoundFirst, PartTrue, PartWhole, Valid, Cursor;
      var renderedParts := LocateRenderedGeminiParts(content, renderedContent);
      located := renderedParts;
      var renderedBase := |rendered|;
      for index := 0 to |content|
        invariant rendered == old(rendered)
        invariant parts == AppendAll(old(parts), content[..index], renderedParts[..index], renderedBase)
      {
        assert content[..index + 1][..index] == content[..index];
        assert renderedParts[..index + 1][..index] == renderedParts[..index];
        var text := content[index].text;
        if text != [] && !content[index].thought {
          var part := if index in parts then parts[index] else StreamedPart([], []);
          var partStart := |part.text|;
          var spans := part.spans;
          if text != NEWLINE && renderedParts[index].startByte.Some? {
            var renderedStart := renderedBase + renderedParts[index].startByte.value;
            spans := spans + [Span(partStart, partStart + |text|, renderedStart)];
          }
          parts := parts[index := StreamedPart(part.text + text, spans)];
        }
      }
      assert content[..|content|] == content && renderedParts[..|content|] == renderedParts;
      AppendKeepsTrue(old(parts), old(rendered), content, renderedParts, renderedContent);
      if AllWhole(old(parts)) && forall i :: 0 <= i < |content| ==> Valid(content[i].text) {
        AppendKeepsWhole(old(parts), content, renderedParts, renderedBase);
      }
      rendered := rendered + renderedContent;
    }

    /** Go visits a map's keys in an unspecified order; the answer does not depend on it. */
    method GroundingPartIndex(partIndex: Option<int>, order: seq<int>) returns (r: Option<int>)
      requires forall k :: k in order <==> k in parts
      requires forall i, j :: 0 <= i < j < |order| ==> order[i] != order[j]
      ensures partIndex.Some? ==> r == if HasSpans(partIndex.value) then partIndex else None
      ensures partIndex.None? ==> forall k :: r == Some(k) <==> Sole(k)
    {
      if partIndex.Some? {
        return if HasSpans(partIndex.value) then partIndex else None;
      }
      r := None;
      for i := 0 to |order|
        invariant r.None? ==> forall j :: 0 <= j < i ==> !HasSpans(order[j])
        invariant r.Some? ==> HasSpans(r.value)
        invariant r.Some? ==> exists j :: 0 <= j < i && order[j] == r.value
        invariant r.Some? ==> forall j :: 0 <= j < i && HasSpans(order[j]) ==> order[j] == r.value
      {
        if HasSpans(order[i]) {
          if r.Some? {
            assert order[i] in parts && r.value in parts;
            return None;
          }
          r := Some(order[i]);
        }
      }
    }

    predicate HasSpans(k: int)
      reads this
    {
      k in parts && parts[k].spans != []
    }

    ghost predicate Sole(k: int)
      reads this
    {
      HasSpans(k) && forall j :: HasSpans(j) ==> j == k
    }

    method GroundingRuneRange(partIndex: int, startByte: int, endByte: int) returns (r: Option<Range>)
      requires Sound()
      ensures r == if partIndex in parts then RuneRange(rendered, parts[partIndex], startByte, endByte) else None
      ensures r.Some? ==> forall later ::
                Names(r.value, rendered + later, parts[partIndex].text[startByte..endByte])
      ensures partIndex in parts && Valid(rendered) && PartWhole(parts[partIndex]) ==>
                (exists k :: InPiece(parts[partIndex], k, startByte, endByte)) ==> r.Some?
    {
      hide Valid, Runes, Names, PartTrue, PartWhole;
      if partIndex !in parts {
        return None;
      }
      var part := parts[partIndex];
      if startByte < 0 || endByte <= startByte || endByte > |part.text| {
        return None;
      }
      if !Valid(part.text[..startByte]) || !Valid(part.text[..endByte]) {
        return None;
      }
      var renderedStart, renderedEnd := -1, -1;
      for i := 0 to |part.spans|
        invariant renderedStart == if RenderedStart(part.spans[..i], startByte).Some?
                  then RenderedStart(part.spans[..i], startByte).value else -1
        invariant renderedEnd == if RenderedEnd(part.spans[..i], endByte).Some?
                  then RenderedEnd(part.spans[..i], endByte).value else -1
      {
        assert part.spans[..i + 1][..i] == part.spans[..i];
        var span := part.spans[i];
        if renderedStart < 0 && startByte >= span.partStart && startByte < span.partEnd {
          renderedStart := span.renderedStart + startByte - span.partStart;
        }
        if endByte > span.partStart && endByte <= span.partEnd {
          renderedEnd := span.renderedStart + endByte - span.partStart;
        }
      }
      assert part.spans[..|part.spans|] == part.spans;
      r := None;
      if renderedStart >= 0 && renderedEnd > renderedStart {
        if renderedEnd <= |rendered| && rendered[renderedStart..renderedEnd] == part.text[startByte..endByte] {
          if Valid(rendered[..renderedStart]) && Valid(rendered[..renderedEnd]) {
            r := Some(Range(Count(rendered[..renderedStart]), Count(rendered[..renderedEnd])));
          }
        }
      }
      assert r == RuneRange(rendered, part, startByte, endByte);
      ghost var text := rendered;
      if r.Some? {
        forall later: Bytes ensures Names(r.value, text + later, part.text[startByte..endByte]) {
          RangeStaysExact(text, part, startByte, endByte, later);
        }
      }
      if Valid(rendered) && PartWhole(part) {
        forall k | InPiece(part, k, startByte, endByte) ensures r.Some? {
          PieceRangeIsFound(rendered, part, k, startByte, endByte);
        }
      }
    }
  }
}
