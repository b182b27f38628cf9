/** Chat to Claude and back: a well-formed Claude stream always converts, and every tool call a
    Chat stream named comes back under one index. */
module ClaudeRoundTrip {
  import opened Basics
  import ChatDto
  import ChatToClaude
  import ChatToClaudeGrammar
  import opened ChatToClaudeSpeech
  import opened ChatToClaudeStarts
  import opened ChatToClaudeTools
  import opened ClaudeTrace
  import C = ClaudeToChat
  import Text

  // ---- a trace on the wire ----------------------------------------------------------------

  function BlockOnWire(content: Content): C.Block {
    match content
    case TextBlock => C.Block.Block("text", "", "", Some(""))
    case ThinkingBlock => C.Block.Block("thinking", "", "", None)
    case ToolBlock(id, name) => C.Block.Block("tool_use", id, name, None)
  }

  function DeltaOnWire(delta: Delta): C.Delta {
    match delta
    case TextDelta(text) => C.Delta.Delta("text_delta", Some(text), None, None)
    case ThinkingDelta(text) => C.Delta.Delta("thinking_delta", None, None, Some(text))
    case InputJsonDelta(text) => C.Delta.Delta("input_json_delta", None, Some(text), None)
    case CitationDelta(_) => C.Delta.Delta("citations_delta", None, None, None)
    case SignatureDelta => C.Delta.Delta("signature_delta", None, None, None)
  }

  function OnWire(e: Event): C.Event {
    match e
    case MessageStart => C.MessageStart
    case BlockStart(index, content) => C.BlockStart(Some(index), Some(BlockOnWire(content)))
    case BlockDelta(index, delta) => C.BlockDelta(Some(index), Some(DeltaOnWire(delta)))
    case BlockStop(index) => C.BlockStop(Some(index))
    case MessageDelta(reason) => C.MessageDelta(Some(reason))
    case MessageStop => C.Other
  }

  function Wire(trace: seq<Event>): seq<C.Event> {
    if trace == [] then [] else Wire(trace[..|trace| - 1]) + [OnWire(trace[|trace| - 1])]
  }

  // ---- tool blocks of an accepted trace -----------------------------------------------------

  lemma StartOnWire(e: Event)
    ensures C.StartsTool(OnWire(e)) <==> e.BlockStart? && e.content.ToolBlock?
    ensures e.BlockStart? && e.content.ToolBlock? ==> C.BlockOf(OnWire(e)) == e.index
    ensures e.BlockStart? ==> Text.Trim(BlockOnWire(e.content).kind) == BlockOnWire(e.content).kind
  {
    C.KindIsTrimmed();
  }

  lemma WireNext(trace: seq<Event>)
    requires trace != []
    ensures var w, e := Wire(trace[..|trace| - 1]), OnWire(trace[|trace| - 1]);
            && Wire(trace) == w + [e]
            && Wire(trace)[..|Wire(trace)| - 1] == w && Wire(trace)[|Wire(trace)| - 1] == e
  {
  }

  /** A started tool block is open as a tool or closed, and an open tool block was started. */
  ghost predicate ToolsKnown(c: Cursor, blocks: seq<int>) {
    && (forall b :: b in blocks ==> (b in c.open && c.open[b] == ToolKind) || (b in c.closed && b !in c.open))
    && (forall b :: b in c.open && c.open[b] == ToolKind ==> b in blocks)
  }

  lemma {:induction false} AcceptedToolsKnown(signed: bool, trace: seq<Event>)
    requires Follows(signed, START, trace)
    ensures ToolsKnown(After(START, trace), C.ToolBlocks(Wire(trace)))
  {
    hide C.StartsTool, C.BlockOf, OnWire;
    if trace != [] {
      var before, e := trace[..|trace| - 1], trace[|trace| - 1];
      Snoc(signed, trace);
      AcceptedToolsKnown(signed, before);
      WireNext(trace);
      StartOnWire(e);
      ClosedApart(signed, before);
      ToolsStayKnown(signed, After(START, before), e, C.ToolBlocks(Wire(before)));
    }
  }

  lemma ClosedApart(signed: bool, trace: seq<Event>)
    requires Follows(signed, START, trace)
    ensures forall b :: b in After(START, trace).open ==> b !in After(START, trace).closed
  {
    forall b | b in After(START, trace).open ensures b !in After(START, trace).closed {
      CursorCounts(signed, trace, b);
    }
  }

  lemma ToolsStayKnown(signed: bool, c: Cursor, e: Event, blocks: seq<int>)
    requires Allowed(signed, c, e) && ToolsKnown(c, blocks)
    requires forall b :: b in c.open ==> b !in c.closed
    ensures ToolsKnown(Advance(c, e),
              if e.BlockStart? && e.content.ToolBlock? && e.index !in blocks then blocks + [e.index] else blocks)
  {
  }

  /** A stream in the Claude grammar is never refused. */
  lemma {:induction false} AcceptedConverts(signed: bool, trace: seq<Event>)
    requires Follows(signed, START, trace)
    ensures C.RunOf(Wire(trace)).Ok?
  {
    hide C.Step, C.Dense, OnWire, ToolsKnown;
    if trace != [] {
      var before, e := trace[..|trace| - 1], trace[|trace| - 1];
      Snoc(signed, trace);
      AcceptedConverts(signed, before);
      AcceptedToolsKnown(signed, before);
      C.ToolsAreDenseAndConserved(Wire(before));
      WireNext(trace);
      AllowedConverts(signed, After(START, before), e, C.RunOf(Wire(before)).value.state, C.ToolBlocks(Wire(before)));
    }
  }

  lemma AllowedConverts(signed: bool, c: Cursor, e: Event, s: C.State, blocks: seq<int>)
    requires Allowed(signed, c, e) && ToolsKnown(c, blocks) && C.Dense(s, blocks)
    ensures C.Step(s, OnWire(e)).Ok?
  {
    hide C.IsHosted, Text.Trim;
    if e.BlockDelta? && e.delta.InputJsonDelta? {
      assert e.index in blocks;
      var k :| 0 <= k < |blocks| && blocks[k] == e.index;
    }
  }

  /** The wire carries for a tool block what the trace shows of it, and nothing for others. */
  ghost predicate Carries(trace: seq<Event>, b: int) {
    var start, blocks := StartOf(trace, b), C.ToolBlocks(Wire(trace));
    && (start.None? ==> DeliveredTo(trace, b) == "")
    && (b in blocks <==> start.Some? && start.value.ToolBlock?)
    && C.Sent(Wire(trace), b)
       == if b in blocks then C.ToolText(start.value.id, start.value.name, DeliveredTo(trace, b)) else C.NOTHING
  }

  lemma {:induction false} StartCounts(trace: seq<Event>, b: int)
    ensures StartOf(trace, b).Some? <==> Starts(trace, b) > 0
  {
    if trace != [] {
      StartCounts(trace[..|trace| - 1], b);
    }
  }

  /** What an event adds to what is sent for a block. */
  lemma AddedOnWire(e: Event, b: int, isTool: bool)
    ensures C.Added(OnWire(e), b, isTool)
         == if e.BlockStart? && e.index == b && e.content.ToolBlock? then C.ToolText(e.content.id, e.content.name, "")
            else if e.BlockDelta? && e.index == b && e.delta.InputJsonDelta?
              && isTool then C.ToolText("", "", e.delta.text)
            else C.NOTHING
  {
    C.KindIsTrimmed();
  }

  lemma {:induction false} AcceptedCarries(signed: bool, trace: seq<Event>, b: int)
    requires Follows(signed, START, trace)
    ensures Carries(trace, b)
  {
    hide C.Added, C.StartsTool, C.BlockOf, OnWire, C.Sent, Follows, After, BlockOnWire, Text.IsSpace, Text.TrimRight;
    if trace == [] {
      NothingSent(b);
    } else {
      var before, e := trace[..|trace| - 1], trace[|trace| - 1];
      Snoc(signed, trace);
      AcceptedCarries(signed, before, b);
      AcceptedToolsKnown(signed, before);
      CursorCounts(signed, before, b);
      StartCounts(before, b);
      WireNext(trace);
      StartOnWire(e);
      C.SentNext(Wire(before), OnWire(e), b);
      AddedOnWire(e, b, b in C.ToolBlocks(Wire(before)));
    }
  }

  lemma NothingSent(b: int)
    ensures C.Sent([], b) == C.NOTHING
  {
  }

  /** In a complete Claude stream the k-th tool block comes out at tool index k with its id, its
      name and all its arguments, and nothing else comes out at any index. */
  lemma TraceToolsArrive(signed: bool, trace: seq<Event>, k: int)
    requires Follows(signed, START, trace)
    ensures C.RunOf(Wire(trace)).Ok?
    ensures var blocks := C.ToolBlocks(Wire(trace));
            if 0 <= k < |blocks| then
              match StartOf(trace, blocks[k])
              case Some(ToolBlock(id, name)) =>
                C.Assembled(C.RunOf(Wire(trace)).value.chunks, k) == C.ToolText(id, name, DeliveredTo(trace, blocks[k]))
              case _ => false
            else C.Assembled(C.RunOf(Wire(trace)).value.chunks, k) == C.NOTHING
  {
    hide C.RunOf, C.Sent, C.Assembled, C.ToolBlocks;
    AcceptedConverts(signed, trace);
    C.ToolsAreDenseAndConserved(Wire(trace));
    var blocks := C.ToolBlocks(Wire(trace));
    if 0 <= k < |blocks| {
      AcceptedCarries(signed, trace, blocks[k]);
    }
  }

  // ---- tools come back --------------------------------------------------------------------

  /** The tool blocks of a trace, in the order in which they are started. */
  function StartedTools(trace: seq<Event>): seq<int> {
    if trace == [] then []
    else
      var e := trace[|trace| - 1];
      StartedTools(trace[..|trace| - 1]) + if e.BlockStart? && e.content.ToolBlock? then [e.index] else []
  }

  /** An accepted trace starts no block twice, so the converter numbers its starts. */
  lemma {:induction false} NumberedByStart(signed: bool, trace: seq<Event>)
    requires Follows(signed, START, trace)
    ensures C.ToolBlocks(Wire(trace)) == StartedTools(trace)
  {
    hide C.StartsTool, C.BlockOf, OnWire, Follows, After;
    if trace != [] {
      var before, e := trace[..|trace| - 1], trace[|trace| - 1];
      Snoc(signed, trace);
      NumberedByStart(signed, before);
      AcceptedToolsKnown(signed, before);
      WireNext(trace);
      StartOnWire(e);
      FreshStart(signed, After(START, before), e, C.ToolBlocks(Wire(before)));
    }
  }

  lemma FreshStart(signed: bool, c: Cursor, e: Event, blocks: seq<int>)
    requires Allowed(signed, c, e) && ToolsKnown(c, blocks)
    ensures e.BlockStart? ==> e.index !in blocks
  {
  }

  lemma {:induction false} StartedBy(trace: seq<Event>, b: int) returns (k: nat)
    requires StartOf(trace, b).Some?
    ensures k < |trace| && IsStart(trace[k], b) && trace[k].content == StartOf(trace, b).value
  {
    if IsStart(trace[|trace| - 1], b) {
      k := |trace| - 1;
    } else {
      k := StartedBy(trace[..|trace| - 1], b);
    }
  }

  /** The call a client has to end up with for a block. */
  function Whole(frags: seq<Fragment>, b: int, uuid: ChatToClaude.Uuid): C.ToolText {
    C.ToolText(if IdOf(frags, b) == "" then "toolu_" + uuid(b) else IdOf(frags, b), NameOf(frags, b),
               Received(frags, b))
  }

  predicate Named(frags: seq<Fragment>, b: int) { NameOf(frags, b) != "" }

  /** A block is started as a tool exactly when one of its fragments had a name. */
  lemma StartedWhenNamed(chunks: seq<ChatDto.Chunk>, uuid: ChatToClaude.Uuid, b: int)
    ensures var start := StartOf(ChatToClaude.Output(chunks, uuid), b);
            && (start.Some? && start.value.ToolBlock? <==> Named(Fragments(chunks, uuid), b))
            && (start.Some? && start.value.ToolBlock? ==>
                  C.ToolText(start.value.id, start.value.name, DeliveredTo(ChatToClaude.Output(chunks, uuid), b))
                  == Whole(Fragments(chunks, uuid), b, uuid))
  {
    hide ChatToClaude.Output, Fragments, Touched, NameOf, IdOf, Received, StartOf, DeliveredTo;
    var trace, frags := ChatToClaude.Output(chunks, uuid), Fragments(chunks, uuid);
    if Touched(frags, b) {
      OutputDeliversTools(chunks, uuid, b);
    } else {
      UntouchedSaysNothing(frags, b);
      if StartOf(trace, b).Some? {
        var k := StartedBy(trace, b);
        OnlyTouchedToolsStart(chunks, uuid);
      }
    }
  }

  lemma ToolArrives(chunks: seq<ChatDto.Chunk>, uuid: ChatToClaude.Uuid, b: int)
    requires chunks != []
    ensures var trace, frags := ChatToClaude.Output(chunks, uuid), Fragments(chunks, uuid);
            && (b in StartedTools(trace) <==> Named(frags, b))
            && (b in StartedTools(trace) ==> C.Sent(Wire(trace), b) == Whole(frags, b, uuid))
  {
    hide ChatToClaude.Output, Fragments, Follows, After, C.Sent, C.ToolBlocks, StartedTools, StartOf, DeliveredTo,
         Whole, NameOf;
    var trace := ChatToClaude.Output(chunks, uuid);
    ChatToClaudeGrammar.OutputIsComplete(chunks, uuid);
    NumberedByStart(false, trace);
    AcceptedCarries(false, trace, b);
    StartedWhenNamed(chunks, uuid, b);
  }

  /** Chat to Claude and back to Chat: the calls that come back are those that were ever named, one
      index each, numbered by their start, with their id, their name and all their fragments in
      order; nothing else comes back. */
  lemma ToolsComeBack(chunks: seq<ChatDto.Chunk>, uuid: ChatToClaude.Uuid)
    requires chunks != []
    ensures var trace, frags := ChatToClaude.Output(chunks, uuid), Fragments(chunks, uuid);
            var back, blocks := C.RunOf(Wire(trace)), StartedTools(trace);
            && back.Ok? && back.value.state.next == |blocks|
            && (forall b :: b in blocks <==> Named(frags, b))
            && (forall i, j :: 0 <= i < j < |blocks| ==> blocks[i] != blocks[j])
            && (forall k: int :: C.Assembled(back.value.chunks, k)
                             == if 0 <= k < |blocks| then Whole(frags, blocks[k], uuid) else C.NOTHING)
  {
    hide C.RunOf, C.Assembled, C.ToolBlocks, ChatToClaude.Output, Fragments, Follows, After, C.Sent, StartedTools,
         Whole, NameOf;
    var trace, frags := ChatToClaude.Output(chunks, uuid), Fragments(chunks, uuid);
    ChatToClaudeGrammar.OutputIsComplete(chunks, uuid);
    AcceptedConverts(false, trace);
    NumberedByStart(false, trace);
    C.ToolsAreDenseAndConserved(Wire(trace));
    var back, blocks := C.RunOf(Wire(trace)), StartedTools(trace);
    forall b ensures b in blocks <==> Named(frags, b) {
      ToolArrives(chunks, uuid, b);
    }
    DenseIsDistinct(back.value.state, blocks);
    forall k: int ensures C.Assembled(back.value.chunks, k)
                       == if 0 <= k < |blocks| then Whole(frags, blocks[k], uuid) else C.NOTHING
    {
      if 0 <= k < |blocks| {
        ToolArrives(chunks, uuid, blocks[k]);
      }
    }
  }

  lemma DenseIsDistinct(s: C.State, blocks: seq<int>)
    requires C.Dense(s, blocks)
    ensures forall i, j :: 0 <= i < j < |blocks| ==> blocks[i] != blocks[j]
  {
  }

  // ---- speech comes back ------------------------------------------------------------------

  /** The content and the reasoning a client adds up. */
  datatype Voice = Voice(content: string, reasoning: string)

  function Heard(chunks: seq<C.Chunk>): Voice {
    if chunks == [] then Voice("", "")
    else
      var before, c := Heard(chunks[..|chunks| - 1]), chunks[|chunks| - 1];
      Voice(before.content + c.content.GetOr(""), before.reasoning + c.reasoning.GetOr(""))
  }

  function VoiceOf(deltas: seq<Delta>): Voice {
    if deltas == [] then Voice("", "")
    else
      var before, d := VoiceOf(deltas[..|deltas| - 1]), deltas[|deltas| - 1];
      match d
      case TextDelta(text) => Voice(before.content + text, before.reasoning)
      case ThinkingDelta(text) => Voice(before.content, before.reasoning + text)
      case SignatureDelta => Voice(before.content, before.reasoning + "\n")
      case CitationDelta(_) => before
      case InputJsonDelta(_) => before
  }

  lemma VoiceNext(deltas: seq<Delta>, d: Delta)
    ensures var before, after := VoiceOf(deltas), VoiceOf(deltas + [d]);
            && after.content == before.content + (if d.TextDelta? then d.text else "")
            && after.reasoning == before.reasoning
                 + if d.ThinkingDelta? then d.text else if d.SignatureDelta? then "\n" else ""
  {
    assert (deltas + [d])[..|deltas|] == deltas;
  }

  lemma HeardNext(chunks: seq<C.Chunk>, c: C.Chunk)
    ensures Heard(chunks + [c])
         == Voice(Heard(chunks).content + c.content.GetOr(""), Heard(chunks).reasoning + c.reasoning.GetOr(""))
  {
    assert (chunks + [c])[..|chunks|] == chunks;
  }

  /** What an event says, and what a client hears of it. */
  function SpokenIn(e: Event): seq<Delta> { if e.BlockDelta? && !e.delta.InputJsonDelta? then [e.delta] else [] }

  function HeardIn(e: Event): Voice {
    Voice(
      if e.BlockDelta? && e.delta.TextDelta? then e.delta.text else "",
      if e.BlockDelta? && e.delta.ThinkingDelta? then e.delta.text
      else if e.BlockDelta? && e.delta.SignatureDelta? then "\n" else "")
  }

  lemma VoiceGrows(deltas: seq<Delta>, e: Event)
    ensures VoiceOf(deltas + SpokenIn(e))
         == Voice(VoiceOf(deltas).content + HeardIn(e).content, VoiceOf(deltas).reasoning + HeardIn(e).reasoning)
  {
    if SpokenIn(e) == [] {
      assert deltas + SpokenIn(e) == deltas;
    } else {
      VoiceNext(deltas, e.delta);
    }
  }

  lemma StepHeard(s: C.State, e: Event)
    requires C.Step(s, OnWire(e)).Ok?
    ensures var r := C.Step(s, OnWire(e)).value;
            var c := r.chunk.GetOr(C.EMPTY);
            Voice(c.content.GetOr(""), c.reasoning.GetOr("")) == HeardIn(e)
  {
    hide C.IsHosted, C.FinishReason, Text.Trim;
  }

  lemma HeardGrows(run: C.Run, e: Event)
    requires C.Step(run.state, OnWire(e)).Ok?
    ensures var r := C.Step(run.state, OnWire(e)).value;
            var chunks := run.chunks + if r.chunk.Some? then [r.chunk.value] else [];
            Heard(chunks)
            == Voice(Heard(run.chunks).content + HeardIn(e).content, Heard(run.chunks).reasoning + HeardIn(e).reasoning)
  {
    hide C.Step, OnWire;
    var r := C.Step(run.state, OnWire(e)).value;
    StepHeard(run.state, e);
    if r.chunk.Some? {
      HeardNext(run.chunks, r.chunk.value);
    } else {
      assert run.chunks + [] == run.chunks;
    }
  }

  /** Whatever a Claude stream says comes out as content and reasoning, in order. */
  lemma {:induction false} SpeechArrives(trace: seq<Event>)
    requires C.RunOf(Wire(trace)).Ok?
    ensures Heard(C.RunOf(Wire(trace)).value.chunks) == VoiceOf(Spoken(trace))
  {
    hide C.Step, OnWire, Heard, VoiceOf, HeardIn;
    if trace == [] {
      NothingHeard();
    } else {
      var before, e := trace[..|trace| - 1], trace[|trace| - 1];
      WireNext(trace);
      SpeechArrives(before);
      HeardGrows(C.RunOf(Wire(before)).value, e);
      VoiceGrows(Spoken(before), e);
    }
  }

  lemma NothingHeard()
    ensures Heard([]) == VoiceOf([])
  {
  }

  /** Chat to Claude and back keeps the text and the reasoning of every chunk the first machine
      speaks, in order. */
  lemma SpeechComesBack(chunks: seq<ChatDto.Chunk>, uuid: ChatToClaude.Uuid)
    requires chunks != []
    ensures var back := C.RunOf(Wire(ChatToClaude.Output(chunks, uuid)));
            back.Ok? && Heard(back.value.chunks) == VoiceOf(Speech(chunks, uuid))
  {
    hide C.RunOf, ChatToClaude.Output, Speech;
    var trace := ChatToClaude.Output(chunks, uuid);
    ChatToClaudeGrammar.OutputIsComplete(chunks, uuid);
    AcceptedConverts(false, trace);
    SpeechArrives(trace);
    OutputSpeaks(chunks, uuid);
  }

  // ---- finish reasons ---------------------------------------------------------------------

  /** The finish reasons and stop reasons the two tables know, in lower case. */
  predicate Known(reason: string) {
    reason in ["stop", "stop_sequence", "length", "max_tokens", "content_filter", "tool_calls",
               "end_turn", "pause_turn", "tool_use", "refusal"]
  }

  /** The finish reasons a client is given, in order. */
  function FinishReasons(chunks: seq<C.Chunk>): seq<string> {
    if chunks == [] then []
    else
      var c := chunks[|chunks| - 1];
      FinishReasons(chunks[..|chunks| - 1]) + if c.finishReason.Some? then [c.finishReason.value] else []
  }

  /** What a client is told of an event: the mapped stop reason, unless that is null. */
  function ReasonIn(e: Event): seq<string> {
    if e.MessageDelta? && C.FinishReason(e.stopReason) != "null" then [C.FinishReason(e.stopReason)] else []
  }

  function ReasonsIn(trace: seq<Event>): seq<string> {
    if trace == [] then [] else ReasonsIn(trace[..|trace| - 1]) + ReasonIn(trace[|trace| - 1])
  }

  lemma StepTells(s: C.State, e: Event)
    requires C.Step(s, OnWire(e)).Ok?
    ensures var c := C.Step(s, OnWire(e)).value.chunk;
            FinishReasons(if c.Some? then [c.value] else []) == ReasonIn(e)
  {
    hide C.IsHosted, C.FinishReason, Text.Trim;
    var c := C.Step(s, OnWire(e)).value.chunk;
    if c.Some? {
      assert [c.value][..0] == [];
    }
  }

  lemma {:induction false} FinishReasonsConcat(a: seq<C.Chunk>, b: seq<C.Chunk>)
    ensures FinishReasons(a + b) == FinishReasons(a) + FinishReasons(b)
  {
    if b == [] {
      assert a + b == a;
    } else {
      assert (a + b)[..|a + b| - 1] == a + b[..|b| - 1];
      FinishReasonsConcat(a, b[..|b| - 1]);
    }
  }

  /** Every message_delta of a Claude stream is one finish reason, in order, unless it says null. */
  lemma {:induction false} FinishReasonsArrive(trace: seq<Event>)
    requires C.RunOf(Wire(trace)).Ok?
    ensures FinishReasons(C.RunOf(Wire(trace)).value.chunks) == ReasonsIn(trace)
  {
    hide C.Step, OnWire, FinishReasons, ReasonIn;
    if trace == [] {
      NothingFinished();
    } else {
      var before, e := trace[..|trace| - 1], trace[|trace| - 1];
      WireNext(trace);
      FinishReasonsArrive(before);
      var run := C.RunOf(Wire(before)).value;
      var c := C.Step(run.state, OnWire(e)).value.chunk;
      StepTells(run.state, e);
      FinishReasonsConcat(run.chunks, if c.Some? then [c.value] else []);
    }
  }

  lemma NothingFinished()
    ensures FinishReasons([]) == []
  {
  }

  lemma {:induction false} NoReasonsIn(trace: seq<Event>)
    requires forall k :: 0 <= k < |trace| ==> !trace[k].MessageDelta?
    ensures ReasonsIn(trace) == []
  {
    if trace != [] {
      NoReasonsIn(trace[..|trace| - 1]);
    }
  }

  /** A complete stream has one message_delta, the last event but one. */
  lemma OneReason(signed: bool, trace: seq<Event>)
    requires Complete(signed, trace)
    ensures |trace| >= 3 && ReasonsIn(trace) == ReasonIn(trace[|trace| - 2])
  {
    hide Follows, After, ReasonIn;
    CompleteFrame(signed, trace);
    var n := |trace| - 2;
    NoReasonsIn(trace[..n]);
    assert trace[..n + 1][..n] == trace[..n];
    LastIsSilent(trace);
  }

  lemma LastIsSilent(trace: seq<Event>)
    requires trace != [] && !trace[|trace| - 1].MessageDelta?
    ensures ReasonsIn(trace) == ReasonsIn(trace[..|trace| - 1])
  {
  }

  /** What the finish reason of a Chat stream is after the two tables. */
  function Returned(reason: string): string { C.FinishReason(ChatToClaude.StopReasonOrEnd(reason)) }

  /** Chat to Claude and back to Chat: whatever finish reasons the stream carried, a client is given
      one, the last live one through both tables, or none when that is null. */
  lemma FinishReasonsComeBack(chunks: seq<ChatDto.Chunk>, uuid: ChatToClaude.Uuid)
    requires chunks != []
    ensures var back := C.RunOf(Wire(ChatToClaude.Output(chunks, uuid)));
            var reason := Returned(FinishReason(chunks, uuid));
            back.Ok? && FinishReasons(back.value.chunks) == if reason == "null" then [] else [reason]
  {
    hide C.RunOf, C.FinishReason, ChatToClaude.Output, ChatToClaude.StopReasonOrEnd, ReasonsIn, Follows, After,
         FinishReason, FinishReasons;
    var trace := ChatToClaude.Output(chunks, uuid);
    ChatToClaudeGrammar.OutputIsComplete(chunks, uuid);
    OutputStopReason(chunks, uuid);
    AcceptedConverts(false, trace);
    FinishReasonsArrive(trace);
    OneReason(false, trace);
  }

  /** The finish reason of a stream comes back, alone, exactly when it is one of the four that both
      tables name, or one that neither knows and that is not null. */
  lemma FinishComesBack(chunks: seq<ChatDto.Chunk>, uuid: ChatToClaude.Uuid)
    requires chunks != []
    ensures var back := C.RunOf(Wire(ChatToClaude.Output(chunks, uuid)));
            var reason := FinishReason(chunks, uuid);
            && back.Ok?
            && (FinishReasons(back.value.chunks) == [reason]
                <==> reason in ["stop", "length", "content_filter", "tool_calls"]
                     || (reason != "" && reason != "null" && !Known(Text.Lower(reason))))
  {
    hide C.RunOf, ChatToClaude.Output, FinishReason, FinishReasons, Known, Text.Lower, Returned;
    FinishReasonsComeBack(chunks, uuid);
    ReturnedIsExact(FinishReason(chunks, uuid));
  }

  lemma ReturnedIsExact(reason: string)
    ensures Returned(reason) == reason <==> reason in ["stop", "length", "content_filter", "tool_calls"]
                                            || (reason != "" && !Known(Text.Lower(reason)))
  {
    LowerWords();
  }

  /** A stream whose one chunk ends with the finish reason null. */
  const ENDS_NULL := [ChatDto.Chunk("", [ChatDto.Choice(0, Some("null"), [], "", "hi", ChatDto.NoAnnotations, [])],
                                    ChatDto.NoUsage)]

  /** Neither table knows null, yet it does not come back. */
  lemma NullIsLost(uuid: ChatToClaude.Uuid)
    ensures FinishReason(ENDS_NULL, uuid) == "null" && !Known(Text.Lower("null"))
    ensures var back := C.RunOf(Wire(ChatToClaude.Output(ENDS_NULL, uuid)));
            back.Ok? && FinishReasons(back.value.chunks) == []
  {
    hide C.RunOf, ChatToClaude.Output, FinishReasons;
    assert ENDS_NULL[..0] == [];
    FinishReasonsComeBack(ENDS_NULL, uuid);
    LowerWords();
    ReturnedIsExact("null");
  }

  lemma LowerWords()
    ensures Text.Lower("end_turn") == "end_turn" && Text.Lower("max_tokens") == "max_tokens"
    ensures Text.Lower("refusal") == "refusal" && Text.Lower("tool_use") == "tool_use"
    ensures Text.Lower("stop_sequence") == "stop_sequence" && Text.Lower("stop") == "stop"
    ensures Text.Lower("length") == "length" && Text.Lower("content_filter") == "content_filter"
    ensures Text.Lower("tool_calls") == "tool_calls" && Text.Lower("") == "" && Text.Lower("null") == "null"
  {
  }
}
