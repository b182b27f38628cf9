/** The paths of partial arguments: the scan of the program's parser, and that it inverts
    printing. A subset of the JSONPath of RFC 9535, sections 2.3.1 and 2.3.3. */
module ArgumentPath {
  import opened Basics
  import opened PartialArguments
  import Text

  const MAX_INDEX := 4095

  /** The JSON string a quoted member stands for, with its quotes; None if it is none. */
  type Unquote = string -> Option<string>

  // ---- the parser as a function of what is left ----------------------------------------------

  /** The characters of a dot member: all up to the next selector. */
  function MemberLength(rest: string): (n: nat)
    ensures n <= |rest|
  {
    if rest == "" || rest[0] == '.' || rest[0] == '[' then 0 else 1 + MemberLength(rest[1..])
  }

  function DigitsLength(rest: string): (n: nat)
    ensures n <= |rest| && Text.AllDigits(rest[..n])
    ensures n < |rest| ==> !Text.IsDigit(rest[n])
  {
    if rest == "" || !Text.IsDigit(rest[0]) then 0 else
      var n := 1 + DigitsLength(rest[1..]);
      assert forall i :: 0 < i < n ==> rest[..n][i] == rest[1..][..n - 1][i - 1];
      n
  }

  /** The length of a quoted member, both quotes included: a backslash hides the next
      character. None if it does not end. */
  function QuotedLength(rest: string, quote: char, at: nat): (n: Option<nat>)
    ensures n.Some? ==> at < n.value <= |rest|
    decreases |rest| - at
  {
    if at >= |rest| then None
    else if rest[at] == '\\' then QuotedLength(rest, quote, at + 2)
    else if rest[at] == quote then Some(at + 1)
    else QuotedLength(rest, quote, at + 1)
  }

  predicate Unsupported(c: char) { c == ']' || c == '*' || c == '?' }

  predicate IsQuote(c: char) { c == '\'' || c == '"' }

  /** One selector and how many characters it takes. */
  function ParseSelector(rest: string, unquote: Unquote): (r: Option<(Segment, nat)>)
    requires rest != ""
    ensures r.Some? ==> 0 < r.value.1 <= |rest|
  {
    if rest[0] == '.' then
      var n := MemberLength(rest[1..]);
      if n == 0 || exists i :: 1 <= i <= n && Unsupported(rest[i]) then None
      else Some((Member(rest[1..n + 1]), n + 1))
    else if rest[0] != '[' || |rest| == 1 then None
    else if IsQuote(rest[1]) then
      var end := QuotedLength(rest, rest[1], 2);
      if end.None? || unquote(rest[1..end.value]).None? then None
      else if end.value >= |rest| || rest[end.value] != ']' then None
      else Some((Member(unquote(rest[1..end.value]).value), end.value + 1))
    else
      var n := DigitsLength(rest[1..]);
      if n == 0 || n + 1 >= |rest| || rest[n + 1] != ']' then None
      else if Text.ParseDecimal(rest[1..][..n]) > MAX_INDEX then None
      else Some((Index(Text.ParseDecimal(rest[1..][..n])), n + 2))
  }

  function ParseSelectors(rest: string, unquote: Unquote): Option<Path>
    decreases |rest|
  {
    if rest == "" then Some([]) else
      var first := ParseSelector(rest, unquote);
      if first.None? then None else
        var more := ParseSelectors(rest[first.value.1..], unquote);
        if more.None? then None else Some([first.value.0] + more.value)
  }

  /** parseGeminiPartialArgPath: the root itself is no target. */
  function Parse(jsonPath: string, unquote: Unquote): Option<Path> {
    var path := Text.Trim(jsonPath);
    if path == "" || path[0] != '$' then None else
      var segments := ParseSelectors(path[1..], unquote);
      if segments.None? || segments.value == [] then None else segments
  }

  // ---- the parser as it runs --------------------------------------------------------------------

  method ScanMember(path: string, start: nat) returns (end: nat)
    requires start <= |path|
    ensures end == start + MemberLength(path[start..]) <= |path|
  {
    end := start;
    while end < |path| && path[end] != '.' && path[end] != '['
      invariant start <= end <= |path|
      invariant MemberLength(path[start..]) == (end - start) + MemberLength(path[end..])
    {
      assert path[end..][1..] == path[end + 1..];
      end := end + 1;
    }
  }

  method ScanDigits(path: string, start: nat) returns (end: nat)
    requires start <= |path|
    ensures end == start + DigitsLength(path[start..]) <= |path|
  {
    end := start;
    while end < |path| && Text.IsDigit(path[end])
      invariant start <= end <= |path|
      invariant DigitsLength(path[start..]) == (end - start) + DigitsLength(path[end..])
    {
      assert path[end..][1..] == path[end + 1..];
      end := end + 1;
    }
  }

  /** parseGeminiPartialArgMember, up to the decoding of what it finds. */
  method ScanQuoted(path: string, start: nat, quote: char) returns (end: Option<nat>)
    requires start + 1 < |path|
    ensures var length := QuotedLength(path[start..], quote, 2);
            end == if length.None? then None else Some(start + length.value)
  {
    var offset := start + 2;
    while offset < |path|
      invariant start + 2 <= offset
      invariant QuotedLength(path[start..], quote, 2) == QuotedLength(path[start..], quote, offset - start)
    {
      assert path[start..][offset - start] == path[offset];
      if path[offset] == '\\' {
        offset := offset + 2;
      } else if path[offset] == quote {
        return Some(offset + 1);
      } else {
        offset := offset + 1;
      }
    }
    end := None;
  }

  method HasUnsupported(path: string, start: nat, end: nat) returns (found: bool)
    requires start <= end <= |path|
    ensures found <==> exists i :: start <= i < end && Unsupported(path[i])
  {
    found := false;
    for k := start to end
      invariant found <==> exists i :: start <= i < k && Unsupported(path[i])
    {
      if Unsupported(path[k]) { found := true; }
    }
  }

  /** One turn of the parser's loop; None is an error. */
  method ScanSelector(path: string, offset: nat, unquote: Unquote) returns (r: Option<(Segment, nat)>)
    requires offset < |path|
    ensures var selector := ParseSelector(path[offset..], unquote);
            r == if selector.None? then None else Some((selector.value.0, offset + selector.value.1))
  {
    ghost var rest := path[offset..];
    if path[offset] == '.' {
      assert rest[1..] == path[offset + 1..];
      var end := ScanMember(path, offset + 1);
      if end == offset + 1 { return None; }
      var bad := HasUnsupported(path, offset + 1, end);
      UnsupportedShifts(path, offset, end);
      if bad { return None; }
      assert rest[1..end - offset] == path[offset + 1..end];
      r := Some((Member(path[offset + 1..end]), end));
    } else if path[offset] != '[' || offset + 1 >= |path| {
      r := None;
    } else if IsQuote(path[offset + 1]) {
      var end := ScanQuoted(path, offset, path[offset + 1]);
      if end.None? { return None; }
      assert rest[1..end.value - offset] == path[offset + 1..end.value];
      var member := unquote(path[offset + 1..end.value]);
      if member.None? || end.value >= |path| || path[end.value] != ']' { return None; }
      r := Some((Member(member.value), end.value + 1));
    } else {
      assert rest[1..] == path[offset + 1..];
      var end := ScanDigits(path, offset + 1);
      if end == offset + 1 || end >= |path| || path[end] != ']' { return None; }
      assert rest[1..][..end - offset - 1] == path[offset + 1..end];
      var index := Text.ParseDecimal(path[offset + 1..end]);
      if index > MAX_INDEX { return None; }
      r := Some((Index(index), end + 1));
    }
  }

  lemma UnsupportedShifts(path: string, offset: nat, end: nat)
    requires offset < end <= |path|
    ensures (exists i :: offset + 1 <= i < end && Unsupported(path[i])) <==>
            (exists i :: 1 <= i <= end - offset - 1 && Unsupported(path[offset..][i]))
  {
    var rest := path[offset..];
    if i :| offset + 1 <= i < end && Unsupported(path[i]) { assert Unsupported(rest[i - offset]); }
    if i :| 1 <= i <= end - offset - 1 && Unsupported(rest[i]) { assert Unsupported(path[offset + i]); }
  }

  /** Segments found so far, in front of what the rest parses to. */
  function Before(segments: Path, rest: Option<Path>): Option<Path> {
    if rest.None? then None else Some(segments + rest.value)
  }

  lemma NextSelector(path: string, offset: nat, segments: Path, unquote: Unquote)
    requires offset < |path|
    ensures var selector := ParseSelector(path[offset..], unquote);
            Before(segments, ParseSelectors(path[offset..], unquote)) ==
            if selector.None? then None
            else Before(segments + [selector.value.0], ParseSelectors(path[offset + selector.value.1..], unquote))
  {
    hide ParseSelector;
    var selector := ParseSelector(path[offset..], unquote);
    if selector.Some? {
      assert path[offset..][selector.value.1..] == path[offset + selector.value.1..];
      var rest := ParseSelectors(path[offset + selector.value.1..], unquote);
      if rest.Some? {
        assert segments + ([selector.value.0] + rest.value) == segments + [selector.value.0] + rest.value;
      }
    }
  }

  method ParsePath(jsonPath: string, unquote: Unquote) returns (r: Option<Path>)
    ensures r == Parse(jsonPath, unquote)
  {
    hide ParseSelector, Text.Trim;
    var path := Text.Trim(jsonPath);
    if path == "" || path[0] != '$' { return None; }
    var segments: Path := [];
    var offset := 1;
    ghost var all := ParseSelectors(path[1..], unquote);
    if all.Some? { assert segments + all.value == all.value; }
    while offset < |path|
      invariant 1 <= offset <= |path|
      invariant all == Before(segments, ParseSelectors(path[offset..], unquote))
    {
      NextSelector(path, offset, segments, unquote);
      var selector := ScanSelector(path, offset, unquote);
      if selector.None? { return None; }
      segments := segments + [selector.value.0];
      offset := selector.value.1;
    }
    assert segments + [] == segments;
    if segments == [] { return None; }
    r := Some(segments);
  }

  // ---- printing -----------------------------------------------------------------------------------

  function PrintSegment(segment: Segment): (s: string)
    ensures s != "" && (s[0] == '.' || s[0] == '[')
  {
    match segment
    case Member(name) => "." + name
    case Index(i) => "[" + Text.Decimal(i) + "]"
  }

  function PrintSegments(path: Path): string {
    if path == [] then "" else PrintSegment(path[0]) + PrintSegments(path[1..])
  }

  function Print(path: Path): string { "$" + PrintSegments(path) }

  /** A member that can be written after a dot. */
  predicate Plain(segment: Segment) {
    segment.Member? ==>
      && segment.name != ""
      && forall i :: 0 <= i < |segment.name| ==>
            segment.name[i] != '.' && segment.name[i] != '[' && !Unsupported(segment.name[i])
  }

  predicate Indexable(segment: Segment) { segment.Index? ==> segment.index <= MAX_INDEX }

  /** Trimming must not take anything off the last member. */
  predicate EndsSolid(path: Path) {
    path != [] && (path[|path| - 1].Member? ==>
      var name := path[|path| - 1].name; name != "" && !Text.IsSpace(name[|name| - 1]))
  }

  lemma {:induction false} MemberLengthIs(name: string, tail: string)
    requires forall i :: 0 <= i < |name| ==> name[i] != '.' && name[i] != '['
    requires tail == "" || tail[0] == '.' || tail[0] == '['
    ensures MemberLength(name + tail) == |name|
  {
    if name == "" {
      assert name + tail == tail;
    } else {
      assert (name + tail)[1..] == name[1..] + tail;
      MemberLengthIs(name[1..], tail);
    }
  }

  lemma {:induction false} DigitsLengthIs(digits: string, tail: string)
    requires Text.AllDigits(digits) && tail != "" && !Text.IsDigit(tail[0])
    ensures DigitsLength(digits + tail) == |digits|
  {
    if digits == "" {
      assert digits + tail == tail;
    } else {
      assert (digits + tail)[1..] == digits[1..] + tail;
      assert Text.AllDigits(digits[1..]);
      DigitsLengthIs(digits[1..], tail);
    }
  }

  lemma MemberReadsBack(name: string, tail: string, unquote: Unquote)
    requires Plain(Member(name)) && (tail == "" || tail[0] == '.' || tail[0] == '[')
    ensures ParseSelector(PrintSegment(Member(name)) + tail, unquote) == Some((Member(name), |name| + 1))
  {
    hide QuotedLength, MemberLength, DigitsLength, Text.ParseDecimal, Text.Decimal;
    var rest := PrintSegment(Member(name)) + tail;
    assert rest[1..] == name + tail;
    MemberLengthIs(name, tail);
    assert rest[1..|name| + 1] == name;
    forall i | 1 <= i <= |name| ensures !Unsupported(rest[i]) { assert rest[i] == name[i - 1]; }
  }

  lemma IndexReadsBack(i: nat, tail: string, unquote: Unquote)
    ensures ParseSelector(PrintSegment(Index(i)) + tail, unquote) ==
            if i <= MAX_INDEX then Some((Index(i), |PrintSegment(Index(i))|)) else None
  {
    hide QuotedLength, MemberLength, DigitsLength, Text.ParseDecimal, Text.Decimal;
    var rest, digits := PrintSegment(Index(i)) + tail, Text.Decimal(i);
    assert rest[1..] == digits + ("]" + tail);
    DigitsLengthIs(digits, "]" + tail);
    assert rest[1..][..|digits|] == digits && rest[|digits| + 1] == ']';
    assert rest[1] == digits[0] && Text.IsDigit(digits[0]);
    Text.ParseDecimalInvertsDecimal(i);
  }

  lemma SelectorReadsBack(segment: Segment, tail: string, unquote: Unquote)
    requires Plain(segment) && (tail == "" || tail[0] == '.' || tail[0] == '[')
    ensures ParseSelector(PrintSegment(segment) + tail, unquote) ==
            if Indexable(segment) then Some((segment, |PrintSegment(segment)|)) else None
  {
    hide ParseSelector;
    match segment
    case Member(name) => MemberReadsBack(name, tail, unquote);
    case Index(i) => IndexReadsBack(i, tail, unquote);
  }

  predicate AllIndexable(path: Path) { forall k :: 0 <= k < |path| ==> Indexable(path[k]) }

  lemma {:induction false} SelectorsReadBack(path: Path, unquote: Unquote)
    requires forall k :: 0 <= k < |path| ==> Plain(path[k])
    ensures ParseSelectors(PrintSegments(path), unquote) == if AllIndexable(path) then Some(path) else None
  {
    if path != [] {
      var first, tail := PrintSegment(path[0]), PrintSegments(path[1..]);
      SelectorReadsBack(path[0], tail, unquote);
      SelectorsReadBack(path[1..], unquote);
      assert (first + tail)[|first|..] == tail;
      assert path == [path[0]] + path[1..];
      assert AllIndexable(path) <==> Indexable(path[0]) && AllIndexable(path[1..]);
    }
  }

  lemma {:induction false} PrintedEnd(path: Path)
    requires EndsSolid(path)
    ensures PrintSegments(path) != "" && !Text.IsSpace(PrintSegments(path)[|PrintSegments(path)| - 1])
  {
    if |path| > 1 {
      assert EndsSolid(path[1..]);
      PrintedEnd(path[1..]);
    } else {
      assert PrintSegments(path) == PrintSegment(path[0]) + "";
    }
  }

  /** Parsing a printed path gives it back, as long as its indexes may be materialized;
      a larger index is refused wherever it stands. */
  lemma ParseInvertsPrint(path: Path, unquote: Unquote)
    requires EndsSolid(path) && forall k :: 0 <= k < |path| ==> Plain(path[k])
    ensures Parse(Print(path), unquote) == if AllIndexable(path) then Some(path) else None
  {
    var printed := Print(path);
    PrintedEnd(path);
    Text.TrimFixpoint(printed);
    assert printed[0] == '$' && printed[1..] == PrintSegments(path);
    SelectorsReadBack(path, unquote);
  }

  lemma {:induction false} SelectorsIndexable(rest: string, unquote: Unquote)
    requires ParseSelectors(rest, unquote).Some?
    ensures AllIndexable(ParseSelectors(rest, unquote).value)
    decreases |rest|
  {
    if rest != "" {
      SelectorsIndexable(rest[ParseSelector(rest, unquote).value.1..], unquote);
    }
  }

  /** A parsed path is never empty and never has a larger index, whatever was parsed. */
  lemma ParsedIsIndexable(jsonPath: string, unquote: Unquote)
    requires Parse(jsonPath, unquote).Some?
    ensures Parse(jsonPath, unquote).value != [] && AllIndexable(Parse(jsonPath, unquote).value)
  {
    SelectorsIndexable(Text.Trim(jsonPath)[1..], unquote);
  }
}
