/** Server-sent events: frames written to a byte stream and read back from it. */
module Sse {
  import opened Basics

  /** A line of this many bytes no longer fits the reader's buffer. */
  const MAX_EVENT_BYTES := 0x40_0000

  datatype Event = Event(name: string, data: string)

  // ---- writing ----------------------------------------------------------------------------

  /** What a writer is asked to write. */
  datatype Write = WriteData(data: string) | WriteEvent(name: string, payload: string) | WriteComment(text: string)

  function DataFrame(data: string): string { "data: " + data + "\n\n" }

  function Written(w: Write): string {
    match w
    case WriteData(data) => DataFrame(data)
    case WriteEvent(name, payload) => "event: " + name + "\n" + DataFrame(payload)
    case WriteComment(text) => ": " + text + "\n\n"
  }

  function Output(writes: seq<Write>): string {
    if writes == [] then "" else Written(writes[0]) + Output(writes[1..])
  }

  /** The frames among the writes: comments are none. */
  function Frames(writes: seq<Write>): seq<Event> {
    if writes == [] then [] else FramesOf(writes[0]) + Frames(writes[1..])
  }

  function FramesOf(w: Write): seq<Event> {
    match w
    case WriteData(data) => [Event("", data)]
    case WriteEvent(name, payload) => [Event(name, payload)]
    case WriteComment(_) => []
  }

  class Writer {
    var out: string

    constructor ()
      ensures out == ""
    {
      out := "";
    }

    method WriteData(data: string)
      modifies this
      ensures out == old(out) + Written(Write.WriteData(data))
    {
      out := out + DataFrame(data);
    }

    method WriteEvent(name: string, data: string)
      modifies this
      ensures out == old(out) + Written(Write.WriteEvent(name, data))
    {
      out := out + ("event: " + name + "\n");
      out := out + DataFrame(data);
    }

    method WriteDone()
      modifies this
      ensures out == old(out) + Written(Write.WriteData("[DONE]"))
    {
      WriteData("[DONE]");
    }

    method WriteComment(text: string)
      modifies this
      ensures out == old(out) + Written(Write.WriteComment(text))
    {
      out := out + (": " + text + "\n\n");
    }
  }

  // ---- lines ------------------------------------------------------------------------------

  function FirstIndex(s: string, c: char): (i: nat)
    ensures i <= |s|
    ensures i < |s| ==> s[i] == c
    ensures forall j :: 0 <= j < i ==> s[j] != c
  {
    if s == "" || s[0] == c then 0 else 1 + FirstIndex(s[1..], c)
  }

  function DropCR(line: string): string {
    if line != "" && line[|line| - 1] == '\r' then line[..|line| - 1] else line
  }

  /** strings.TrimRight(line, "\r"). */
  function TrimCR(line: string): (r: string)
    ensures r <= line
  {
    if line != "" && line[|line| - 1] == '\r' then TrimCR(line[..|line| - 1]) else line
  }

  datatype Scan = Line(text: string, rest: string) | End | TooLong

  /** One step of a bufio.Scanner over lines. */
  function ScanLine(rest: string): (r: Scan)
    ensures r.Line? ==> |r.rest| < |rest|
  {
    var i := FirstIndex(rest, '\n');
    if i >= MAX_EVENT_BYTES then TooLong
    else if i < |rest| then Line(DropCR(rest[..i]), rest[i + 1..])
    else if rest == "" then End
    else Line(DropCR(rest), "")
  }

  // ---- reading ----------------------------------------------------------------------------

  /** The frame read so far. */
  datatype Partial = Partial(name: string, datas: seq<string>, sawAny: bool)

  const NOTHING := Partial("", [], false)

  /** strings.Join(datas, "\n"). */
  function Join(datas: seq<string>): string {
    if datas == [] then ""
    else if |datas| == 1 then datas[0]
    else Join(datas[..|datas| - 1]) + "\n" + datas[|datas| - 1]
  }

  function EventOf(p: Partial): Event { Event(p.name, Join(p.datas)) }

  function TrimSpacePrefix(s: string): string { if s != "" && s[0] == ' ' then s[1..] else s }

  /** A line that is not blank. */
  function Take(p: Partial, line: string): Partial {
    if line != "" && line[0] == ':' then p
    else
      var colon := FirstIndex(line, ':');
      if colon == |line| then p.(sawAny := true)
      else
        var field, value := line[..colon], TrimSpacePrefix(line[colon + 1..]);
        if field == "event" then p.(name := value, sawAny := true)
        else if field == "data" then p.(datas := p.datas + [value], sawAny := true)
        else p.(sawAny := true)
  }

  datatype Outcome = Got(event: Event, rest: string) | Ended | Failed

  function Read(rest: string, p: Partial): (r: Outcome)
    ensures r.Got? ==> |r.rest| <= |rest| && (!p.sawAny ==> |r.rest| < |rest|)
    decreases |rest|
  {
    match ScanLine(rest)
    case TooLong => Failed
    case End => if p.sawAny then Got(EventOf(p), "") else Ended
    case Line(text, more) =>
      var line := TrimCR(text);
      if line != "" then Read(more, Take(p, line))
      else if p.sawAny then Got(EventOf(p), more)
      else Read(more, p)
  }

  /** Every frame of a stream, or None if a line is too long. */
  function ReadAll(rest: string): Option<seq<Event>>
    decreases |rest|
  {
    match Read(rest, NOTHING)
    case Failed => None
    case Ended => Some([])
    case Got(event, more) =>
      var others := ReadAll(more);
      if others.None? then None else Some([event] + others.value)
  }

  class Reader {
    /** The bytes the scanner has not delivered yet. */
    var rest: string
    var failed: bool

    constructor (stream: string)
      ensures rest == stream && !failed
    {
      rest, failed := stream, false;
    }

    /** Once it failed, the reader keeps failing. */
    method Next() returns (event: Option<Event>, error: bool)
      modifies this
      ensures old(failed) ==> error
      ensures !old(failed) ==>
                var r := Read(old(rest), NOTHING);
                && (r.Got? ==> !error && event == Some(r.event) && rest == r.rest && !failed)
                && (r.Ended? ==> !error && event == None && !failed)
                && (r.Failed? ==> error && failed)
      ensures error ==> failed && event == None
    {
      hide Join, FirstIndex, TrimCR, DropCR, ScanLine, TrimSpacePrefix;
      if failed {
        return None, true;
      }
      var name, datas, sawAny := "", [], false;
      while true
        invariant !failed
        invariant Read(rest, Partial(name, datas, sawAny)) == Read(old(rest), NOTHING)
        decreases |rest|
      {
        var scan := ScanLine(rest);
        if scan.TooLong? {
          failed := true;
          return None, true;
        } else if scan.End? {
          if sawAny {
            rest := "";
            return Some(Event(name, Join(datas))), false;
          }
          return None, false;
        }
        var line := TrimCR(scan.text);
        rest := scan.rest;
        if line == "" {
          if sawAny {
            return Some(Event(name, Join(datas))), false;
          }
          continue;
        }
        if line[0] == ':' {
          continue;
        }
        var colon := FirstIndex(line, ':');
        FirstIndexWithin(line, ':');
        if colon < |line| {
          var field, value := line[..colon], TrimSpacePrefix(line[colon + 1..]);
          if field == "event" {
            name := value;
          } else if field == "data" {
            datas := datas + [value];
          }
        }
        sawAny := true;
      }
    }
  }

  lemma FirstIndexWithin(s: string, c: char)
    ensures FirstIndex(s, c) <= |s|
  {
  }

  // ---- reading what was written -------------------------------------------------------------

  /** Text that one line can carry: no line feed, no carriage return at its end, and short enough
      after the field name. */
  predicate Plain(text: string, fieldLength: nat) {
    && (forall i :: 0 <= i < |text| ==> text[i] != '\n')
    && (text != "" ==> text[|text| - 1] != '\r')
    && |text| + fieldLength < MAX_EVENT_BYTES
  }

  /** Comments may end in a carriage return. */
  predicate PlainComment(text: string) {
    (forall i :: 0 <= i < |text| ==> text[i] != '\n') && |text| + 2 < MAX_EVENT_BYTES
  }

  predicate PlainWrite(w: Write) {
    match w
    case WriteData(data) => Plain(data, 6)
    case WriteEvent(name, payload) => Plain(name, 7) && Plain(payload, 6)
    case WriteComment(text) => PlainComment(text)
  }

  lemma {:induction false} FirstIndexIs(before: string, c: char, after: string)
    requires forall i :: 0 <= i < |before| ==> before[i] != c
    ensures FirstIndex(before + [c] + after, c) == |before|
    ensures FirstIndex(before, c) == |before|
  {
    if before == "" {
      assert before + [c] + after == [c] + after;
    } else {
      FirstIndexIs(before[1..], c, after);
      assert (before + [c] + after)[1..] == before[1..] + [c] + after;
    }
  }

  lemma ScanOf(line: string, more: string)
    requires forall i :: 0 <= i < |line| ==> line[i] != '\n'
    ensures ScanLine(line + "\n" + more)
         == if |line| < MAX_EVENT_BYTES then Line(DropCR(line), more) else TooLong
  {
    hide FirstIndex;
    FirstIndexIs(line, '\n', more);
    var s := line + "\n" + more;
    assert s[..|line|] == line && s[|line| + 1..] == more;
  }

  lemma NoTrailingCR(line: string)
    requires line != "" && line[|line| - 1] != '\r'
    ensures DropCR(line) == line && TrimCR(line) == line
  {
  }

  /** The field name and the space before a value are taken off again. */
  lemma TakeField(p: Partial, field: string, value: string)
    requires field == "data" || field == "event"
    ensures Take(p, field + ": " + value)
         == if field == "data" then p.(datas := p.datas + [value], sawAny := true)
            else p.(name := value, sawAny := true)
  {
    hide FirstIndex;
    var line := field + ": " + value;
    assert line == field + [':'] + (" " + value);
    FirstIndexIs(field, ':', " " + value);
    assert line[..|field|] == field && line[|field| + 1..] == " " + value;
    assert (" " + value)[1..] == value;
    assert "data" != "event";
  }

  lemma ReadField(p: Partial, field: string, value: string, more: string)
    requires field == "data" || field == "event"
    requires Plain(value, |field| + 2)
    ensures Read(field + ": " + value + "\n" + more, p)
         == Read(more, if field == "data" then p.(datas := p.datas + [value], sawAny := true)
                       else p.(name := value, sawAny := true))
  {
    hide ScanLine, DropCR, TrimCR, Take, EventOf;
    var line := field + ": " + value;
    assert forall i :: 0 <= i < |line| ==> line[i] != '\n';
    ScanOf(line, more);
    NoTrailingCR(line);
    TakeField(p, field, value);
  }

  lemma ReadBlank(p: Partial, more: string)
    ensures Read("\n" + more, p) == if p.sawAny then Got(EventOf(p), more) else Read(more, p)
  {
    hide ScanLine, Take, EventOf;
    assert "" + "\n" + more == "\n" + more;
    ScanOf("", more);
  }

  lemma ReadDataFrame(p: Partial, data: string, more: string)
    requires Plain(data, 6) && p.datas == []
    ensures Read(DataFrame(data) + more, p) == Got(Event(p.name, data), more)
  {
    hide Read;
    assert DataFrame(data) + more == "data" + ": " + data + "\n" + ("\n" + more);
    ReadField(p, "data", data, "\n" + more);
    var q := p.(datas := p.datas + [data], sawAny := true);
    assert q.datas == [data];
    ReadBlank(q, more);
  }

  lemma ReadComment(text: string, more: string)
    requires PlainComment(text)
    ensures Read(": " + text + "\n\n" + more, NOTHING) == Read(more, NOTHING)
  {
    hide ScanLine, EventOf;
    var line := ": " + text;
    assert line + "\n" + ("\n" + more) == ": " + text + "\n\n" + more;
    assert forall i :: 0 <= i < |line| ==> line[i] != '\n';
    ScanOf(line, "\n" + more);
    CommentStays(line);
    ReadBlank(NOTHING, more);
  }

  lemma {:induction false} CommentStays(line: string)
    requires line != "" && line[0] == ':'
    ensures TrimCR(DropCR(line)) != "" && TrimCR(DropCR(line))[0] == ':'
    ensures TrimCR(line) == TrimCR(DropCR(line))
  {
    if line[|line| - 1] == '\r' {
      CommentStays(line[..|line| - 1]);
    }
  }

  lemma ReadWritten(w: Write, more: string)
    requires PlainWrite(w)
    ensures Read(Written(w) + more, NOTHING)
         == if w.WriteComment? then Read(more, NOTHING) else Got(FramesOf(w)[0], more)
  {
    hide Read;
    match w
    case WriteData(data) => ReadDataFrame(NOTHING, data, more);
    case WriteEvent(name, payload) =>
      assert Written(w) + more == "event" + ": " + name + "\n" + (DataFrame(payload) + more);
      ReadField(NOTHING, "event", name, DataFrame(payload) + more);
      ReadDataFrame(NOTHING.(name := name, sawAny := true), payload, more);
    case WriteComment(text) =>
      assert Written(w) + more == ": " + text + "\n\n" + more;
      ReadComment(text, more);
  }

  lemma NothingToRead()
    ensures Read("", NOTHING) == Ended
  {
  }

  // ---- exactly the plain writes --------------------------------------------------------------

  /** Lines after the first can only add less than they are long. */
  lemma {:induction false} ReadShrinks(rest: string, p: Partial)
    requires p.datas != [] && p.sawAny
    ensures Read(rest, p).Got? ==>
              |Read(rest, p).event.data| <= |Join(p.datas)| + if |rest| < 4 then 0 else |rest| - 4
    decreases |rest|
  {
    hide Take, ScanLine, TrimCR, Join;
    var scan := ScanLine(rest);
    if scan.Line? {
      var line := TrimCR(scan.text);
      LineFits(rest);
      if line != "" {
        var q := Take(p, line);
        TakeAdds(p, line);
        ReadShrinks(scan.rest, q);
      }
    }
  }

  lemma LineFits(rest: string)
    requires ScanLine(rest).Line?
    ensures |TrimCR(ScanLine(rest).text)| + |ScanLine(rest).rest| <= |rest|
  {
    hide TrimCR;
  }

  lemma TakeAdds(p: Partial, line: string)
    requires p.datas != [] && p.sawAny
    ensures var q := Take(p, line);
            && q.datas != [] && q.sawAny
            && (|Join(q.datas)| == |Join(p.datas)|
                || (|line| >= 5 && |Join(q.datas)| <= |Join(p.datas)| + |line| - 4))
  {
    hide FirstIndex, Join;
    var colon := FirstIndex(line, ':');
    FirstIndexWithin(line, ':');
    var q := Take(p, line);
    if q.datas != p.datas {
      var value := TrimSpacePrefix(line[colon + 1..]);
      assert line[..colon] == "data";
      JoinNext(p.datas, value);
    }
  }

  lemma JoinNext(datas: seq<string>, value: string)
    requires datas != []
    ensures Join(datas + [value]) == Join(datas) + "\n" + value
  {
    assert (datas + [value])[..|datas|] == datas;
  }

  /** A first line "data: " with text adds no more than the text, and less if that ends in a
      carriage return. */
  lemma FirstLine(p: Partial, text: string)
    requires p.datas == []
    ensures var line := TrimCR(DropCR("data: " + text));
            var q := Take(p, line);
            && line != ""
            && |q.datas| == 1 && q.sawAny && |Join(q.datas)| <= |text|
            && (text != "" && text[|text| - 1] == '\r' ==> |Join(q.datas)| < |text|)
  {
    hide TrimCR, DropCR, Take;
    var kept := KeptText(text);
    assert "data: " + kept == "data" + ": " + kept;
    assert p.datas + [kept] == [kept] && Join([kept]) == kept;
    TakeField(p, "data", kept);
  }

  /** Carriage returns are only ever taken off the text. */
  lemma {:induction false} KeptText(text: string) returns (kept: string)
    ensures TrimCR(DropCR("data: " + text)) == "data: " + kept
    ensures kept <= text
    ensures text != "" && text[|text| - 1] == '\r' ==> |kept| < |text|
  {
    var line := "data: " + text;
    if text != "" && text[|text| - 1] == '\r' {
      var init := text[..|text| - 1];
      assert line[..|line| - 1] == "data: " + init;
      kept := KeptText(init);
      TrimDropped("data: " + init);
    } else {
      kept := text;
      assert line[|line| - 1] == if text == "" then ' ' else text[|text| - 1];
    }
  }

  lemma TrimDropped(line: string)
    ensures TrimCR(line) == TrimCR(DropCR(line))
  {
  }

  /** The blank line that ends a frame is as far as the reader looks. */
  function Before(r: Outcome, more: string): Outcome { if r.Got? then r.(rest := r.rest + more) else r }

  predicate EndsBlank(s: string) { s == "\n" || (|s| >= 2 && s[|s| - 2] == s[|s| - 1] == '\n') }

  lemma ScanStops(s: string, more: string)
    requires EndsBlank(s)
    ensures var scan := ScanLine(s);
            && !scan.End?
            && ScanLine(s + more) == (if scan.Line? then Line(scan.text, scan.rest + more) else TooLong)
            && (scan.Line? && TrimCR(scan.text) != "" ==> EndsBlank(scan.rest))
  {
    hide FirstIndex;
    var i := FirstIndex(s, '\n');
    FirstIndexSplits(s);
    assert i < |s| by { assert s[|s| - 1] == '\n'; }
    assert s == s[..i] + ['\n'] + s[i + 1..] && s + more == s[..i] + ['\n'] + (s[i + 1..] + more);
    FirstIndexIs(s[..i], '\n', s[i + 1..] + more);
    assert (s + more)[..i] == s[..i] && (s + more)[i + 1..] == s[i + 1..] + more;
    if i == |s| - 1 {
      assert s == "\n" && s[..i] == "";
    }
  }

  lemma {:induction false} ReadStops(s: string, more: string, p: Partial)
    requires p.sawAny && EndsBlank(s)
    ensures Read(s + more, p) == Before(Read(s, p), more) && !Read(s, p).Ended?
    decreases |s|
  {
    hide ScanLine, TrimCR, Take, EndsBlank, EventOf;
    ScanStops(s, more);
    var scan := ScanLine(s);
    if scan.Line? && TrimCR(scan.text) != "" {
      TakeSees(p, TrimCR(scan.text));
      ReadStops(scan.rest, more, Take(p, TrimCR(scan.text)));
    }
  }

  lemma TakeSees(p: Partial, line: string)
    ensures p.sawAny || (line != "" && line[0] != ':') ==> Take(p, line).sawAny
  {
  }

  /** Data that is not plain makes the reader fail, or give back less. */
  lemma DataShrinks(p: Partial, data: string, more: string)
    requires p.datas == [] && !Plain(data, 6)
    ensures var r := Read(DataFrame(data) + more, p);
            r.Failed? || (r.Got? && |r.event.data| < |data|)
  {
    hide Take, DropCR, TrimCR, FirstIndex, Join, EventOf, ScanLine;
    var i := FirstIndex(data, '\n');
    FirstIndexSplits(data);
    var first, rest := data[..i], if i < |data| then data[i + 1..] + "\n\n" else "\n";
    assert DataFrame(data) + more == ("data: " + first) + "\n" + (rest + more);
    assert forall j :: 0 <= j < |"data: " + first| ==> ("data: " + first)[j] != '\n';
    ScanOf("data: " + first, rest + more);
    if i + 6 < MAX_EVENT_BYTES {
      FirstLine(p, first);
      var q := Take(p, TrimCR(DropCR("data: " + first)));
      ReadStops(rest, more, q);
      ReadShrinks(rest, q);
    }
  }

  /** A name the reader can give: without a line feed, and without a carriage return at its end. */
  predicate Clean(name: string) {
    (forall i :: 0 <= i < |name| ==> name[i] != '\n') && (name != "" ==> name[|name| - 1] != '\r')
  }

  lemma LineIsClean(rest: string)
    requires ScanLine(rest).Line?
    ensures Clean(TrimCR(ScanLine(rest).text))
  {
    hide FirstIndex;
    var i := FirstIndex(rest, '\n');
    FirstIndexSplits(rest);
    var line := if i < |rest| then rest[..i] else rest;
    TrimIsClean(line);
    TrimDropped(line);
  }

  lemma {:induction false} TrimIsClean(line: string)
    requires forall i :: 0 <= i < |line| ==> line[i] != '\n'
    ensures Clean(TrimCR(line))
  {
    if line != "" && line[|line| - 1] == '\r' {
      TrimIsClean(line[..|line| - 1]);
    }
  }

  lemma TakeKeepsClean(p: Partial, line: string)
    requires Clean(line) && Clean(p.name)
    ensures Clean(Take(p, line).name)
  {
    hide FirstIndex;
  }

  lemma {:induction false} ReadIsClean(rest: string, p: Partial)
    requires Clean(p.name)
    ensures Read(rest, p).Got? ==> Clean(Read(rest, p).event.name)
    decreases |rest|
  {
    hide ScanLine, TrimCR, Take, Clean, Join;
    var scan := ScanLine(rest);
    if scan.Line? {
      LineIsClean(rest);
      var line := TrimCR(scan.text);
      if line != "" {
        TakeKeepsClean(p, line);
        ReadIsClean(scan.rest, Take(p, line));
      } else if !p.sawAny {
        ReadIsClean(scan.rest, p);
      }
    }
  }

  lemma {:induction false} TrimKeepsFirst(line: string)
    requires line != "" && line[0] != '\r'
    ensures TrimCR(line) != "" && TrimCR(line)[0] == line[0]
  {
    if line[|line| - 1] == '\r' {
      TrimKeepsFirst(line[..|line| - 1]);
    }
  }

  /** A frame that begins with its event line is given, or the reader fails. */
  lemma EventBegins(name: string, rest: string)
    ensures var r := Read("event: " + name + "\n" + rest, NOTHING);
            && !r.Ended?
            && ((forall i :: 0 <= i < |name| ==> name[i] != '\n') && |name| + 7 >= MAX_EVENT_BYTES ==> r.Failed?)
  {
    hide Take, DropCR, TrimCR, FirstIndex, Join;
    var i := FirstIndex(name, '\n');
    FirstIndexSplits(name);
    var line := "event: " + name[..i];
    var more := if i < |name| then name[i + 1..] + "\n" + rest else rest;
    assert "event: " + name + "\n" + rest == line + "\n" + more;
    assert forall j :: 0 <= j < |line| ==> line[j] != '\n';
    ScanOf(line, more);
    if i + 7 < MAX_EVENT_BYTES {
      assert line[0] == 'e';
      TrimKeepsFirst(line);
      TrimDropped(line);
      var q := Take(NOTHING, TrimCR(DropCR(line)));
      TakeSees(NOTHING, TrimCR(DropCR(line)));
      ReadEnds(more, q);
    }
  }

  /** A name that is not plain makes the reader fail, or give another name. */
  lemma NameChanges(name: string, rest: string)
    requires !Plain(name, 7)
    ensures var r := Read("event: " + name + "\n" + rest, NOTHING);
            r.Failed? || (r.Got? && r.event.name != name)
  {
    hide Read, Join;
    EventBegins(name, rest);
    assert Clean("");
    ReadIsClean("event: " + name + "\n" + rest, NOTHING);
  }

  /** A write that is not plain does not come back. */
  lemma WriteIsLost(w: Write, more: string)
    requires !w.WriteComment? && !PlainWrite(w)
    ensures var r := Read(Written(w) + more, NOTHING);
            r.Failed? || (r.Got? && r.event != FramesOf(w)[0])
  {
    hide Read, Plain, Join;
    match w
    case WriteData(data) => DataShrinks(NOTHING, data, more);
    case WriteEvent(name, payload) =>
      assert Written(w) + more == "event: " + name + "\n" + (DataFrame(payload) + more);
      if Plain(name, 7) {
        assert "event: " + name + "\n" == "event" + ": " + name + "\n";
        ReadField(NOTHING, "event", name, DataFrame(payload) + more);
        DataShrinks(NOTHING.(name := name, sawAny := true), payload, more);
      } else {
        NameChanges(name, DataFrame(payload) + more);
      }
  }

  predicate AllPlain(writes: seq<Write>) { forall i :: 0 <= i < |writes| ==> PlainWrite(writes[i]) }

  predicate CommentsPlain(writes: seq<Write>) {
    forall i :: 0 <= i < |writes| && writes[i].WriteComment? ==> PlainWrite(writes[i])
  }

  /** What the first write does to the stream and to its frames. */
  lemma FirstWrite(w: Write, writes: seq<Write>)
    ensures Output([w] + writes) == Written(w) + Output(writes)
    ensures Frames([w] + writes) == FramesOf(w) + Frames(writes)
    ensures AllPlain([w] + writes) <==> PlainWrite(w) && AllPlain(writes)
  {
    hide PlainWrite, Written, FramesOf;
    assert ([w] + writes)[1..] == writes;
    if AllPlain([w] + writes) {
      assert PlainWrite(([w] + writes)[0]);
      forall i | 0 <= i < |writes| ensures PlainWrite(writes[i]) {
        assert PlainWrite(([w] + writes)[i + 1]);
      }
    }
  }

  lemma SameFirst(event: Event, a: seq<Event>, b: seq<Event>)
    ensures [event] + a == [event] + b <==> a == b
  {
    assert ([event] + a)[1..] == a && ([event] + b)[1..] == b;
  }

  /** A reader gets back exactly the frames that were written, in order, and none of the comments
      between them, if and only if every frame is plain. */
  lemma {:induction false} ReadInvertsWrite(writes: seq<Write>)
    requires CommentsPlain(writes)
    ensures ReadAll(Output(writes)) == Some(Frames(writes)) <==> AllPlain(writes)
  {
    hide Read, Written, PlainWrite, AllPlain, Output, Frames;
    if writes == [] {
      NothingToRead();
      NothingWritten();
    } else {
      var w, rest := writes[0], writes[1..];
      assert writes == [w] + rest;
      FirstWrite(w, rest);
      ReadInvertsWrite(rest);
      OneFrame(w);
      if PlainWrite(w) {
        ReadWritten(w, Output(rest));
        if w.WriteComment? {
          assert [] + Frames(rest) == Frames(rest);
        } else if ReadAll(Output(rest)).Some? {
          SameFirst(FramesOf(w)[0], ReadAll(Output(rest)).value, Frames(rest));
        }
      } else {
        WriteIsLost(w, Output(rest));
        assert (FramesOf(w) + Frames(rest))[0] == FramesOf(w)[0];
      }
    }
  }

  lemma OneFrame(w: Write)
    ensures FramesOf(w) == if w.WriteComment? then [] else [FramesOf(w)[0]]
  {
  }

  lemma NothingWritten()
    ensures Output([]) == "" && Frames([]) == [] && AllPlain([])
  {
  }

  /** In particular a single data frame comes back as it was exactly when its data is plain. */
  lemma PlainIsExact(data: string)
    ensures ReadAll(DataFrame(data)) == Some([Event("", data)]) <==> Plain(data, 6)
  {
    hide ReadAll, Plain, Output, Frames, AllPlain;
    var w := Write.WriteData(data);
    FirstWrite(w, []);
    NothingWritten();
    assert [w] + [] == [w] && DataFrame(data) + "" == DataFrame(data) && [Event("", data)] + [] == [Event("", data)];
    ReadInvertsWrite([w]);
  }

  /** A second line of data is lost, for instance. */
  lemma LineFeedIsLost()
    ensures ReadAll(DataFrame("a\nb")) == Some([Event("", "a")])
  {
    hide Read, FirstIndex;
    assert DataFrame("a\nb") == "data" + ": " + "a" + "\n" + ("b" + "\n" + "\n");
    ReadField(NOTHING, "data", "a", "b" + "\n" + "\n");
    var p := Partial("", ["a"], true);
    assert NOTHING.datas + ["a"] == ["a"];
    ReadWord(p, "b", "\n");
    assert "\n" + "" == "\n";
    ReadBlank(p, "");
    NothingToRead();
    OneEvent(DataFrame("a\nb"), Event("", "a"));
  }

  lemma OneEvent(stream: string, event: Event)
    requires Read(stream, NOTHING) == Got(event, "")
    ensures ReadAll(stream) == Some([event])
  {
    hide Read;
    NothingToRead();
    assert ReadAll("") == Some([]) && [event] + [] == [event];
  }

  /** A line without a colon says nothing. */
  lemma ReadWord(p: Partial, word: string, more: string)
    requires word != "" && |word| < MAX_EVENT_BYTES && p.sawAny
    requires forall i :: 0 <= i < |word| ==> word[i] != '\n' && word[i] != ':' && word[i] != '\r'
    ensures Read(word + "\n" + more, p) == Read(more, p)
  {
    hide ScanLine, DropCR, TrimCR, EventOf, FirstIndex;
    ScanOf(word, more);
    NoTrailingCR(word);
    FirstIndexIs(word, ':', "");
  }

  lemma FirstIndexSplits(data: string)
    ensures var i := FirstIndex(data, '\n');
            && i <= |data| && (i < |data| ==> data[i] == '\n')
            && forall j :: 0 <= j < i ==> data[j] != '\n'
  {
  }

  /** Once a frame has begun the reader gives it or fails. */
  lemma {:induction false} ReadEnds(rest: string, p: Partial)
    requires p.sawAny
    ensures Read(rest, p).Got? || Read(rest, p).Failed?
    decreases |rest|
  {
    hide ScanLine, TrimCR;
    var scan := ScanLine(rest);
    if scan.Line? && TrimCR(scan.text) != "" {
      ReadEnds(scan.rest, Take(p, TrimCR(scan.text)));
    }
  }
}
