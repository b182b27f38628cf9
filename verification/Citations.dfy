/** Citations of Claude text blocks as Chat url annotations, and back. Claude quotes the cited
    text; Chat gives its place in the whole message, counted in characters. */
module Citations {
  import opened Basics
  import opened Utf8
  import Text

  datatype ClaudeCitation = ClaudeCitation(url: string, title: string, citedText: Bytes, encryptedIndex: string)

  /** A number as it stands in an annotation: decoded from JSON, kept as text, or a Go int. */
  datatype IndexValue = Float(number: real) | Int(n: int) | Number(parsed: Option<int>) | Absent

  datatype UrlCitation = UrlCitation(
    url: string, title: string, citedText: Bytes,
    startIndex: IndexValue, endIndex: IndexValue, encryptedIndex: string)

  datatype ChatAnnotation = ChatAnnotation(kind: string, citation: UrlCitation)

  /** A content block of a Claude message; citations that do not decode are None. */
  datatype Block = ToolUse | Thinking | TextBlock(text: Bytes, citations: Option<seq<ClaudeCitation>>)

  // ---- Claude to Chat -------------------------------------------------------------------

  function CitationToChat(c: ClaudeCitation, text: Bytes, textOffset: nat): ChatAnnotation {
    var found := if c.citedText == [] then None else Index(text, c.citedText);
    var start := if found.Some? then textOffset + Count(text[..found.value]) else 0;
    ChatAnnotation("url_citation", UrlCitation(
      Text.Trim(c.url), Text.Trim(c.title), c.citedText,
      if found.Some? then Int(start) else Absent,
      if found.Some? then Int(start + Count(c.citedText)) else Absent,
      c.encryptedIndex))
  }

  function ToChat(citations: seq<ClaudeCitation>, text: Bytes, textOffset: nat): seq<ChatAnnotation> {
    if citations == [] then []
    else
      var c := citations[|citations| - 1];
      ToChat(citations[..|citations| - 1], text, textOffset)
      + if Text.Trim(c.url) == "" then [] else [CitationToChat(c, text, textOffset)]
  }

  method ClaudeCitationsToChat(citations: seq<ClaudeCitation>, text: Bytes, textOffset: nat)
    returns (annotations: seq<ChatAnnotation>)
    ensures annotations == ToChat(citations, text, textOffset)
  {
    hide CitationToChat, Text.Trim;
    annotations := [];
    for i := 0 to |citations|
      invariant annotations == ToChat(citations[..i], text, textOffset)
    {
      assert citations[..i + 1][..i] == citations[..i];
      if Text.Trim(citations[i].url) != "" {
        annotations := annotations + [CitationToChat(citations[i], text, textOffset)];
      }
    }
    assert citations[..|citations|] == citations;
  }

  /** The text of the message: its text blocks in order. */
  function FullText(blocks: seq<Block>): Bytes {
    if blocks == [] then []
    else FullText(blocks[..|blocks| - 1]) + TextOf(blocks[|blocks| - 1])
  }

  function TextOf(block: Block): Bytes { if block.TextBlock? then block.text else [] }

  /** How many characters the text blocks have, each counted by itself. */
  function Offset(blocks: seq<Block>): nat {
    if blocks == [] then 0 else Offset(blocks[..|blocks| - 1]) + Count(TextOf(blocks[|blocks| - 1]))
  }

  function Annotations(blocks: seq<Block>): seq<ChatAnnotation> {
    if blocks == [] then []
    else
      var before, block := blocks[..|blocks| - 1], blocks[|blocks| - 1];
      Annotations(before)
      + if block.TextBlock? then ToChat(block.citations.GetOr([]), block.text, Offset(before)) else []
  }

  /** The loop over the content blocks of a Claude message, with its running offset. */
  method ConvertText(blocks: seq<Block>) returns (text: Bytes, annotations: seq<ChatAnnotation>)
    ensures text == FullText(blocks)
    ensures annotations == Annotations(blocks)
  {
    hide ToChat;
    text, annotations := [], [];
    var textOffset := 0;
    for i := 0 to |blocks|
      invariant text == FullText(blocks[..i])
      invariant annotations == Annotations(blocks[..i])
      invariant textOffset == Offset(blocks[..i])
    {
      assert blocks[..i + 1][..i] == blocks[..i];
      if blocks[i].TextBlock? {
        var offset := textOffset;
        text := text + blocks[i].text;
        textOffset := textOffset + Count(blocks[i].text);
        var converted := ClaudeCitationsToChat(blocks[i].citations.GetOr([]), blocks[i].text, offset);
        annotations := annotations + converted;
      }
    }
    assert blocks[..|blocks|] == blocks;
  }

  // ---- Chat to Claude -------------------------------------------------------------------

  const INT_LIMIT: int := 0x8000_0000_0000_0000

  /** annotationIndex: the whole number a value stands for, if it is one and not negative. */
  function AnnotationIndex(value: IndexValue): (r: Option<int>)
    ensures r.Some? ==> 0 <= r.value
  {
    match value
    case Float(x) =>
      if 0.0 <= x < INT_LIMIT as real && x.Floor as real == x then Some(x.Floor) else None
    case Int(n) => if n >= 0 then Some(n) else None
    case Number(parsed) => if parsed.Some? && parsed.value >= 0 then parsed else None
    case Absent => None
  }

  function CitedTextFromAnnotation(text: Bytes, citation: UrlCitation): Bytes {
    var start, end := AnnotationIndex(citation.startIndex), AnnotationIndex(citation.endIndex);
    if start.None? || end.None? || end.value <= start.value || end.value > Count(text) then []
    else EncodeAll(Runes(text)[start.value..end.value])
  }

  function CitationToClaude(citation: UrlCitation, text: Bytes): ClaudeCitation {
    ClaudeCitation(
      Text.Trim(citation.url), Text.Trim(citation.title),
      if citation.citedText != [] then citation.citedText else CitedTextFromAnnotation(text, citation),
      citation.encryptedIndex)
  }

  predicate IsUrlCitation(a: ChatAnnotation) {
    Text.Trim(a.kind) == "url_citation" && Text.Trim(a.citation.url) != ""
  }

  function ToClaude(annotations: seq<ChatAnnotation>, text: Bytes): seq<ClaudeCitation> {
    if annotations == [] then []
    else
      var a := annotations[|annotations| - 1];
      ToClaude(annotations[..|annotations| - 1], text)
      + if IsUrlCitation(a) then [CitationToClaude(a.citation, text)] else []
  }

  method ChatAnnotationsToClaude(annotations: seq<ChatAnnotation>, text: Bytes)
    returns (citations: seq<ClaudeCitation>)
    ensures citations == ToClaude(annotations, text)
  {
    hide IsUrlCitation, CitationToClaude;
    citations := [];
    for i := 0 to |annotations|
      invariant citations == ToClaude(annotations[..i], text)
    {
      assert annotations[..i + 1][..i] == annotations[..i];
      if IsUrlCitation(annotations[i]) {
        citations := citations + [CitationToClaude(annotations[i].citation, text)];
      }
    }
    assert annotations[..|annotations|] == annotations;
  }

  // ---- the offsets are exact --------------------------------------------------------------

  predicate TextsValid(blocks: seq<Block>) {
    forall i :: 0 <= i < |blocks| ==> Valid(TextOf(blocks[i]))
  }

  /** Valid blocks are counted alike one by one and all together. */
  lemma {:induction false} OffsetIsCount(blocks: seq<Block>)
    requires TextsValid(blocks)
    ensures Valid(FullText(blocks)) && Offset(blocks) == Count(FullText(blocks))
  {
    if blocks != [] {
      var before := blocks[..|blocks| - 1];
      assert forall i :: 0 <= i < |before| ==> before[i] == blocks[i];
      OffsetIsCount(before);
      ValidConcat(FullText(before), TextOf(blocks[|blocks| - 1]));
      RunesAfterValid(FullText(before), TextOf(blocks[|blocks| - 1]));
    }
  }

  lemma CountPositive(s: Bytes)
    requires s != []
    ensures Count(s) > 0
  {
  }

  /** Cutting the whole text at the indexes computed for a citation gives the cited text, in a
      block after any valid text and before anything, exactly when the cited text is valid. */
  lemma SpanIsExact(c: ClaudeCitation, before: Bytes, text: Bytes, after: Bytes)
    requires Valid(before)
    requires c.citedText != [] && Index(text, c.citedText).Some?
    ensures var a := CitationToChat(c, text, Count(before)).citation;
            CitedTextFromAnnotation(before + text + after, a) == c.citedText <==> Valid(c.citedText)
  {
    hide Runes, Valid, Text.Trim, Index, Surrogate, Text.IsSpace, WellFormed, Width;
    var a := CitationToChat(c, text, Count(before)).citation;
    var whole := before + text + after;
    var at := Index(text, c.citedText).value;
    IndexIsFirst(text, c.citedText);
    if Valid(c.citedText) {
      var head, tail := text[..at], text[at + |c.citedText|..];
      assert whole == (before + head) + c.citedText + (tail + after) by {
        assert text == head + c.citedText + tail;
      }
      RunesAfterValid(before, head);
      RunesOfPart(before + head, c.citedText, tail + after);
      CountPositive(c.citedText);
      assert Runes(whole)[a.startIndex.n..a.endIndex.n] == Runes(c.citedText);
      EncodeInvertsRunes(c.citedText);
    } else {
      SliceIsValid(whole, a);
    }
  }

  lemma SliceIsValid(text: Bytes, a: UrlCitation)
    ensures Valid(CitedTextFromAnnotation(text, a))
  {
    var start, end := AnnotationIndex(a.startIndex), AnnotationIndex(a.endIndex);
    if start.Some? && end.Some? && start.value < end.value <= Count(text) {
      EncodeAllValid(Runes(text)[start.value..end.value]);
    }
  }

  // ---- citations come back ----------------------------------------------------------------

  /** What survives of a block's citations: those with a url, trimmed. */
  function Kept(citations: seq<ClaudeCitation>): seq<ClaudeCitation> {
    if citations == [] then []
    else
      var c := citations[|citations| - 1];
      Kept(citations[..|citations| - 1])
      + if Text.Trim(c.url) == "" then []
        else [c.(url := Text.Trim(c.url), title := Text.Trim(c.title))]
  }

  function KeptOf(blocks: seq<Block>): seq<ClaudeCitation> {
    if blocks == [] then []
    else
      var block := blocks[|blocks| - 1];
      KeptOf(blocks[..|blocks| - 1]) + if block.TextBlock? then Kept(block.citations.GetOr([])) else []
  }

  /** An annotation without the copy of the cited text: only its place remains. */
  function Stripped(annotations: seq<ChatAnnotation>): (r: seq<ChatAnnotation>)
    ensures |r| == |annotations|
    ensures forall i :: 0 <= i < |r| ==> r[i] == Strip(annotations[i])
  {
    seq(|annotations|, i requires 0 <= i < |annotations| => Strip(annotations[i]))
  }

  function Strip(a: ChatAnnotation): ChatAnnotation { a.(citation := a.citation.(citedText := [])) }

  /** Every text is valid, and every citation quotes text of its block. */
  predicate Quotes(block: Block) {
    block.TextBlock? ==>
      && Valid(block.text)
      && forall i :: 0 <= i < |block.citations.GetOr([])| ==> QuotesIn(block.citations.GetOr([])[i], block.text)
  }

  predicate QuotesIn(c: ClaudeCitation, text: Bytes) {
    c.citedText == [] || (Valid(c.citedText) && Index(text, c.citedText).Some?)
  }

  lemma {:induction false} ToClaudeConcat(a: seq<ChatAnnotation>, b: seq<ChatAnnotation>, text: Bytes)
    ensures ToClaude(a + b, text) == ToClaude(a, text) + ToClaude(b, text)
  {
    hide IsUrlCitation, CitationToClaude;
    if b == [] {
      assert a + b == a;
    } else {
      ToClaudeConcat(a, b[..|b| - 1], text);
      assert (a + b)[..|a + b| - 1] == a + b[..|b| - 1];
    }
  }

  lemma StrippedConcat(a: seq<ChatAnnotation>, b: seq<ChatAnnotation>)
    ensures Stripped(a + b) == Stripped(a) + Stripped(b)
  {
  }

  lemma CitationComesBack(c: ClaudeCitation, before: Bytes, text: Bytes, after: Bytes)
    requires Valid(before) && QuotesIn(c, text) && Text.Trim(c.url) != ""
    ensures var a := Strip(CitationToChat(c, text, Count(before)));
            IsUrlCitation(a)
            && CitationToClaude(a.citation, before + text + after)
               == c.(url := Text.Trim(c.url), title := Text.Trim(c.title))
  {
    hide Valid, Runes, EncodeAll, Text.Trim;
    Text.TrimIdempotent(c.url);
    Text.TrimIdempotent(c.title);
    KindIsTrimmed();
    if c.citedText != [] {
      SpanIsExact(c, before, text, after);
    }
  }

  lemma KindIsTrimmed()
    ensures Text.Trim("url_citation") == "url_citation"
  {
    Text.TrimFixpoint("url_citation");
  }

  lemma {:induction false} BlockComesBack(cs: seq<ClaudeCitation>, before: Bytes, text: Bytes, after: Bytes)
    requires Valid(before)
    requires forall i :: 0 <= i < |cs| ==> QuotesIn(cs[i], text)
    ensures ToClaude(Stripped(ToChat(cs, text, Count(before))), before + text + after) == Kept(cs)
  {
    hide Valid, QuotesIn, CitationToChat, CitationToClaude, IsUrlCitation, Strip, Count, Text.Trim;
    if cs != [] {
      var init, c := cs[..|cs| - 1], cs[|cs| - 1];
      BlockComesBack(init, before, text, after);
      if Text.Trim(c.url) != "" {
        CitationComesBack(c, before, text, after);
        var a := CitationToChat(c, text, Count(before));
        StrippedConcat(ToChat(init, text, Count(before)), [a]);
        assert Stripped([a]) == [Strip(a)];
        ToClaudeOne(Strip(a), before + text + after);
        ToClaudeConcat(Stripped(ToChat(init, text, Count(before))), [Strip(a)], before + text + after);
      } else {
        assert ToChat(cs, text, Count(before)) == ToChat(init, text, Count(before));
      }
    }
  }

  lemma ToClaudeOne(a: ChatAnnotation, text: Bytes)
    requires IsUrlCitation(a)
    ensures ToClaude([a], text) == [CitationToClaude(a.citation, text)]
  {
    assert [a][..0] == [];
  }

  /** The indexes alone bring every citation back: Claude to Chat, the copies of the cited text
      dropped, and back to Claude gives the citations there were. */
  lemma {:induction false} CitationsComeBack(blocks: seq<Block>, after: Bytes)
    requires forall i :: 0 <= i < |blocks| ==> Quotes(blocks[i])
    ensures ToClaude(Stripped(Annotations(blocks)), FullText(blocks) + after) == KeptOf(blocks)
  {
    hide Valid, Count, ToChat, ToClaude, Kept, QuotesIn;
    if blocks == [] {
      ToClaudeNothing(FullText(blocks) + after);
    } else {
      var before, block := blocks[..|blocks| - 1], blocks[|blocks| - 1];
      assert forall i :: 0 <= i < |before| ==> before[i] == blocks[i];
      var text := TextOf(block);
      assert FullText(blocks) + after == FullText(before) + (text + after);
      CitationsComeBack(before, text + after);
      if block.TextBlock? {
        EmptyIsValid();
        assert TextsValid(before);
        OffsetIsCount(before);
        assert FullText(before) + (text + after) == FullText(before) + text + after;
        var added := ToChat(block.citations.GetOr([]), text, Offset(before));
        BlockComesBack(block.citations.GetOr([]), FullText(before), text, after);
        StrippedConcat(Annotations(before), added);
        ToClaudeConcat(Stripped(Annotations(before)), Stripped(added), FullText(blocks) + after);
      } else {
        assert Annotations(blocks) == Annotations(before);
      }
    }
  }

  lemma EmptyIsValid()
    ensures Valid([])
  {
  }

  lemma ToClaudeNothing(text: Bytes)
    ensures ToClaude(Stripped([]), text) == []
  {
  }
}
