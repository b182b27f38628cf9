/** Claude stream events as Chat chunks: content-block indexes become the dense index space of
    tool calls. */
module ClaudeToChat {
  import opened Basics
  import Text

  datatype Block = Block(kind: string, id: string, name: string, text: Option<string>)

  datatype Delta = Delta(kind: string, text: Option<string>, partialJson: Option<string>, thinking: Option<string>)

  datatype Event =
    | MessageStart
    | BlockStart(index: Option<int>, block: Option<Block>)
    | BlockDelta(index: Option<int>, delta: Option<Delta>)
    | BlockStop(index: Option<int>)
    | MessageDelta(stopReason: Option<string>)
    | Other

  datatype ToolPart = ToolPart(index: int, id: string, name: string, arguments: string)

  datatype Chunk = Chunk(
    content: Option<string>, reasoning: Option<string>, tool: Option<ToolPart>, finishReason: Option<string>)

  datatype Error = MissingIndex | MissingJson | UnknownBlock(index: int)

  const EMPTY := Chunk(None, None, None, None)

  // ---- the converter ----------------------------------------------------------------------

  datatype State = State(toolIndex: map<int, int>, blockType: map<int, string>, next: nat)

  const INITIAL := State(map[], map[], 0)

  datatype Stepped = Stepped(state: State, chunk: Option<Chunk>)

  predicate IsHosted(kind: string) {
    kind in ["server_tool_use", "mcp_tool_use", "web_search_tool_result", "mcp_tool_result",
             "code_execution_tool_result", "web_fetch_tool_result"]
  }

  /** ClaudeStopReasonToOpenAIFinishReason. */
  function FinishReason(stopReason: string): string {
    var reason := Text.Lower(stopReason);
    if reason == "stop_sequence" || reason == "end_turn" then "stop"
    else if reason == "max_tokens" || reason == "pause_turn" then "length"
    else if reason == "tool_use" then "tool_calls"
    else if reason == "refusal" then "content_filter"
    else stopReason
  }

  function StartChunk(block: Block, toolIndex: int): Chunk {
    EMPTY.(
      content := if block.kind == "text" then block.text else None,
      tool := if block.kind == "tool_use" then Some(ToolPart(toolIndex, block.id, block.name, "")) else None)
  }

  function DeltaChunk(delta: Delta): Chunk {
    EMPTY.(
      content := delta.text,
      reasoning := if delta.kind == "signature_delta" then Some("\n")
                   else if delta.kind == "thinking_delta" then delta.thinking
                   else None)
  }

  function FinishChunk(stopReason: Option<string>): Chunk {
    if stopReason.Some? && FinishReason(stopReason.value) != "null"
    then EMPTY.(finishReason := Some(FinishReason(stopReason.value)))
    else EMPTY
  }

  function StartStep(s: State, index: Option<int>, block: Block): Result<Stepped, Error> {
    var kind := Text.Trim(block.kind);
    if kind == "" then Ok(Stepped(s, Some(StartChunk(block, index.GetOr(0)))))
    else if index.None? then Err(MissingIndex)
    else
      var i: int := index.GetOr(0);
      var s1 := s.(blockType := s.blockType[i := kind]);
      if kind == "tool_use" then
        if i in s.toolIndex then Ok(Stepped(s1, Some(StartChunk(block, s.toolIndex[i]))))
        else Ok(Stepped(s1.(toolIndex := s.toolIndex[i := s.next], next := s.next + 1),
                        Some(StartChunk(block, s.next))))
      else if IsHosted(kind) then Ok(Stepped(s1, None))
      else Ok(Stepped(s1, Some(StartChunk(block, i))))
  }

  function DeltaStep(s: State, index: Option<int>, delta: Option<Delta>): Result<Stepped, Error> {
    if delta.None? then Ok(Stepped(s, Some(EMPTY)))
    else if delta.value.kind != "input_json_delta" then Ok(Stepped(s, Some(DeltaChunk(delta.value))))
    else if index.None? then Err(MissingIndex)
    else if delta.value.partialJson.None? then Err(MissingJson)
    else
      var i: int := index.GetOr(0);
      if i in s.toolIndex then
        Ok(Stepped(s, Some(EMPTY.(tool := Some(ToolPart(s.toolIndex[i], "", "", delta.value.partialJson.value))))))
      else if i in s.blockType && IsHosted(s.blockType[i]) then Ok(Stepped(s, None))
      else Err(UnknownBlock(i))
  }

  function Step(s: State, e: Event): Result<Stepped, Error> {
    match e
    case MessageStart => Ok(Stepped(s, Some(EMPTY.(content := Some("")))))
    case BlockStart(index, block) => if block.None? then Ok(Stepped(s, None)) else StartStep(s, index, block.value)
    case BlockDelta(index, delta) => DeltaStep(s, index, delta)
    case BlockStop(index) =>
      var i: int := index.GetOr(0);
      Ok(Stepped(if index.Some? then s.(blockType := s.blockType - {i}) else s, None))
    case MessageDelta(stopReason) => Ok(Stepped(s, Some(FinishChunk(stopReason))))
    case Other => Ok(Stepped(s, None))
  }

  datatype Run = Run(state: State, chunks: seq<Chunk>)

  function RunOf(events: seq<Event>): Result<Run, Error> {
    if events == [] then Ok(Run(INITIAL, []))
    else
      var before := RunOf(events[..|events| - 1]);
      if before.Err? then before
      else
        var r := Step(before.value.state, events[|events| - 1]);
        if r.Err? then Err(r.error)
        else Ok(Run(r.value.state, before.value.chunks + if r.value.chunk.Some? then [r.value.chunk.value] else []))
  }

  class ClaudeToChatStreamState {
    var toolIndexByContentBlock: map<int, int>
    var blockTypeByContentBlock: map<int, string>
    var nextToolIndex: nat

    function View(): State
      reads this
    {
      State(toolIndexByContentBlock, blockTypeByContentBlock, nextToolIndex)
    }

    constructor ()
      ensures View() == INITIAL
    {
      toolIndexByContentBlock, blockTypeByContentBlock, nextToolIndex := map[], map[], 0;
    }

    method ConvertChunk(e: Event) returns (r: Result<Option<Chunk>, Error>)
      modifies this
      ensures var step := Step(old(View()), e);
              if step.Ok? then r == Ok(step.value.chunk) && View() == step.value.state
              else r == Err(step.error) && View() == old(View())
    {
      hide IsHosted, FinishReason, Text.Trim;
      match e
      case MessageStart =>
        return Ok(Some(EMPTY.(content := Some(""))));
      case BlockStart(index, block) =>
        if block.None? {
          return Ok(None);
        }
        var blockType := Text.Trim(block.value.kind);
        if blockType == "" {
          return Ok(Some(StartChunk(block.value, index.GetOr(0))));
        }
        if index.None? {
          return Err(MissingIndex);
        }
        var contentBlockIndex: int := index.GetOr(0);
        blockTypeByContentBlock := blockTypeByContentBlock[contentBlockIndex := blockType];
        if blockType != "tool_use" {
          if IsHosted(blockType) {
            return Ok(None);
          }
          return Ok(Some(StartChunk(block.value, contentBlockIndex)));
        }
        var toolIndex: int;
        if contentBlockIndex in toolIndexByContentBlock {
          toolIndex := toolIndexByContentBlock[contentBlockIndex];
        } else {
          toolIndex := nextToolIndex;
          nextToolIndex := nextToolIndex + 1;
          toolIndexByContentBlock := toolIndexByContentBlock[contentBlockIndex := toolIndex];
        }
        return Ok(Some(StartChunk(block.value, toolIndex)));
      case BlockDelta(index, delta) =>
        if delta.None? {
          return Ok(Some(EMPTY));
        }
        if delta.value.kind != "input_json_delta" {
          return Ok(Some(DeltaChunk(delta.value)));
        }
        if index.None? {
          return Err(MissingIndex);
        }
        if delta.value.partialJson.None? {
          return Err(MissingJson);
        }
        var contentBlockIndex: int := index.GetOr(0);
        if contentBlockIndex !in toolIndexByContentBlock {
          if contentBlockIndex in blockTypeByContentBlock && IsHosted(blockTypeByContentBlock[contentBlockIndex]) {
            return Ok(None);
          }
          return Err(UnknownBlock(contentBlockIndex));
        }
        return Ok(Some(EMPTY.(
          tool := Some(ToolPart(toolIndexByContentBlock[contentBlockIndex], "", "", delta.value.partialJson.value)))));
      case BlockStop(index) =>
        if index.Some? {
          var contentBlockIndex: int := index.GetOr(0);
          blockTypeByContentBlock := blockTypeByContentBlock - {contentBlockIndex};
        }
        return Ok(None);
      case MessageDelta(stopReason) =>
        return Ok(Some(FinishChunk(stopReason)));
      case Other =>
        return Ok(None);
    }
  }

  // ---- dense indexes ----------------------------------------------------------------------

  predicate StartsTool(e: Event) {
    e.BlockStart? && e.index.Some? && e.block.Some? && Text.Trim(e.block.value.kind) == "tool_use"
  }

  /** The content blocks started as tools, each once, by first appearance. */
  function ToolBlocks(events: seq<Event>): seq<int> {
    if events == [] then []
    else
      var before, e := ToolBlocks(events[..|events| - 1]), events[|events| - 1];
      if StartsTool(e) && BlockOf(e) !in before then before + [BlockOf(e)] else before
  }

  function BlockOf(e: Event): int
    requires StartsTool(e)
  {
    e.index.GetOr(0)
  }

  /** What a client that adds up the parts of a tool call has at an index. */
  datatype ToolText = ToolText(id: string, name: string, arguments: string)

  const NOTHING := ToolText("", "", "")

  function Add(t: ToolText, id: string, name: string, arguments: string): ToolText {
    ToolText(t.id + id, t.name + name, t.arguments + arguments)
  }

  function Assembled(chunks: seq<Chunk>, k: int): ToolText {
    if chunks == [] then NOTHING
    else
      var before, tool := Assembled(chunks[..|chunks| - 1], k), chunks[|chunks| - 1].tool;
      if tool.Some? && tool.value.index == k then Add(before, tool.value.id, tool.value.name, tool.value.arguments)
      else before
  }

  /** What the upstream sent for a tool block. */
  function Sent(events: seq<Event>, b: int): ToolText {
    if events == [] then NOTHING
    else
      var before, e := Sent(events[..|events| - 1], b), events[|events| - 1];
      if StartsTool(e) && BlockOf(e) == b && e.block.value.kind == "tool_use" then
        Add(before, e.block.value.id, e.block.value.name, "")
      else if IsJson(e, b) && b in ToolBlocks(events[..|events| - 1]) then Add(before, "", "", Json(e, b))
      else before
  }

  predicate IsJson(e: Event, b: int) {
    && e.BlockDelta? && e.index == Some(b) && e.delta.Some? && e.delta.value.kind == "input_json_delta"
    && e.delta.value.partialJson.Some?
  }

  function Json(e: Event, b: int): string
    requires IsJson(e, b)
  {
    e.delta.value.partialJson.value
  }

  /** The k-th tool block has index k; nothing else has an index. */
  ghost predicate Dense(s: State, blocks: seq<int>) {
    && s.next == |blocks|
    && (forall k :: 0 <= k < |blocks| ==> blocks[k] in s.toolIndex && s.toolIndex[blocks[k]] == k)
    && (forall b :: b in s.toolIndex ==> 0 <= s.toolIndex[b] < |blocks| && blocks[s.toolIndex[b]] == b)
  }

  /** Each index holds what was sent for its block, and no index beyond holds anything. */
  ghost predicate Conserved(chunks: seq<Chunk>, events: seq<Event>) {
    && (forall k :: 0 <= k < |ToolBlocks(events)| ==> Assembled(chunks, k) == Sent(events, ToolBlocks(events)[k]))
    && (forall k :: !(0 <= k < |ToolBlocks(events)|) ==> Assembled(chunks, k) == NOTHING)
  }

  lemma AssembledNext(chunks: seq<Chunk>, chunk: Chunk, k: int)
    ensures Assembled(chunks + [chunk], k)
         == if chunk.tool.Some? && chunk.tool.value.index == k
            then Add(Assembled(chunks, k), chunk.tool.value.id, chunk.tool.value.name, chunk.tool.value.arguments)
            else Assembled(chunks, k)
  {
    assert (chunks + [chunk])[..|chunks|] == chunks;
  }

  /** How a step moves the tool indexes. */
  lemma StepIndexes(s: State, e: Event, blocks: seq<int>)
    requires Step(s, e).Ok? && Dense(s, blocks)
    ensures var s' := Step(s, e).value.state;
            Dense(s', if StartsTool(e) && BlockOf(e) !in blocks then blocks + [BlockOf(e)] else blocks)
  {
    hide IsHosted, Text.Trim;
    if StartsTool(e) && BlockOf(e) in blocks {
      var k :| 0 <= k < |blocks| && blocks[k] == BlockOf(e);
    }
  }

  /** The part a step emits, by the block it is about. */
  lemma StepPart(s: State, e: Event)
    requires Step(s, e).Ok?
    ensures var r := Step(s, e).value;
            var part := if r.chunk.Some? then r.chunk.value.tool else None;
            if StartsTool(e) && e.block.value.kind == "tool_use" then
              BlockOf(e) in r.state.toolIndex
              && part == Some(ToolPart(r.state.toolIndex[BlockOf(e)], e.block.value.id, e.block.value.name, ""))
            else if part.Some? then
              exists b :: IsJson(e, b) && b in s.toolIndex && part == Some(ToolPart(s.toolIndex[b], "", "", Json(e, b)))
            else forall b :: IsJson(e, b) ==> b !in s.toolIndex
  {
    hide IsHosted;
    KindIsTrimmed();
    if e.BlockDelta? && e.delta.Some? && e.delta.value.kind == "input_json_delta" {
      var i: int := e.index.GetOr(0);
      assert e.index == Some(i) && IsJson(e, i);
    }
  }

  lemma KindIsTrimmed()
    ensures Text.Trim("tool_use") == "tool_use" && Text.Trim("text") == "text" && Text.Trim("thinking") == "thinking"
    ensures Text.Trim("") == ""
  {
    Text.TrimFixpoint("tool_use");
    Text.TrimFixpoint("text");
    Text.TrimFixpoint("thinking");
    Text.TrimFixpoint("");
  }

  lemma {:induction false} SentOnlyToTools(events: seq<Event>, b: int)
    ensures b !in ToolBlocks(events) ==> Sent(events, b) == NOTHING
  {
    hide StartsTool, IsJson, Json;
    if events != [] {
      SentOnlyToTools(events[..|events| - 1], b);
    }
  }

  /** What an event adds to the block b. */
  function Added(e: Event, b: int, isTool: bool): ToolText {
    if StartsTool(e) && BlockOf(e) == b && e.block.value.kind == "tool_use" then
      ToolText(e.block.value.id, e.block.value.name, "")
    else if IsJson(e, b) && isTool then ToolText("", "", Json(e, b))
    else NOTHING
  }

  function Sum(t: ToolText, u: ToolText): ToolText { Add(t, u.id, u.name, u.arguments) }

  lemma SentNext(events: seq<Event>, e: Event, b: int)
    ensures Sent(events + [e], b) == Sum(Sent(events, b), Added(e, b, b in ToolBlocks(events)))
  {
    assert (events + [e])[..|events|] == events;
  }

  /** A step's part goes to the index of the block it adds to. */
  lemma PartIsAdded(s: State, e: Event, blocks: seq<int>, k: int)
    requires Dense(s, blocks) && Step(s, e).Ok?
    ensures var r := Step(s, e).value;
            var blocks' := if StartsTool(e) && BlockOf(e) !in blocks then blocks + [BlockOf(e)] else blocks;
            var part := if r.chunk.Some? then r.chunk.value.tool else None;
            var here := part.Some? && part.value.index == k;
            && (here ==> 0 <= k < |blocks'|)
            && (0 <= k < |blocks'| ==>
                  Added(e, blocks'[k], blocks'[k] in blocks)
                  == if here then ToolText(part.value.id, part.value.name, part.value.arguments) else NOTHING)
  {
    hide Step, Text.Trim, IsJson, Json;
    StepIndexes(s, e, blocks);
    StepPart(s, e);
    var r := Step(s, e).value;
    var blocks' := if StartsTool(e) && BlockOf(e) !in blocks then blocks + [BlockOf(e)] else blocks;
    assert Dense(r.state, blocks');
    var part := if r.chunk.Some? then r.chunk.value.tool else None;
    if StartsTool(e) && e.block.value.kind == "tool_use" {
      assert blocks'[part.value.index] == BlockOf(e);
    } else if part.Some? {
      var b :| IsJson(e, b) && b in s.toolIndex && part == Some(ToolPart(s.toolIndex[b], "", "", Json(e, b)));
      JsonOf(e, b);
    }
    if 0 <= k < |blocks'| {
      JsonOf(e, blocks'[k]);
    }
  }

  lemma StepConserves(events: seq<Event>, run: Run, e: Event)
    requires Dense(run.state, ToolBlocks(events)) && Conserved(run.chunks, events) && Step(run.state, e).Ok?
    ensures var r := Step(run.state, e).value;
            Conserved(run.chunks + if r.chunk.Some? then [r.chunk.value] else [], events + [e])
  {
    hide Step, StartsTool, Added;
    var blocks := ToolBlocks(events);
    var r := Step(run.state, e).value;
    assert (events + [e])[..|events|] == events;
    var blocks' := ToolBlocks(events + [e]);
    var chunks' := run.chunks + if r.chunk.Some? then [r.chunk.value] else [];
    forall k: int ensures Assembled(chunks', k) == if 0 <= k < |blocks'| then Sent(events + [e], blocks'[k])
      else NOTHING {
      if r.chunk.Some? {
        AssembledNext(run.chunks, r.chunk.value, k);
      } else {
        assert chunks' == run.chunks;
      }
      PartIsAdded(run.state, e, blocks, k);
      if 0 <= k < |blocks'| {
        SentOnlyToTools(events, blocks'[k]);
        SentNext(events, e, blocks'[k]);
        NothingAdds(Sent(events, blocks'[k]));
      }
    }
  }

  lemma NothingAdds(t: ToolText)
    ensures Sum(t, NOTHING) == t
  {
  }

  lemma JsonOf(e: Event, b: int)
    ensures IsJson(e, b) ==> !StartsTool(e) && forall c :: IsJson(e, c) ==> c == b
  {
    forall c | IsJson(e, b) && IsJson(e, c) ensures c == b {
      var i: int := e.index.GetOr(0);
      assert i == b && i == c;
    }
  }

  lemma NothingRun()
    ensures Dense(INITIAL, ToolBlocks([])) && Conserved([], [])
  {
  }

  /** Over every run without an error, tool blocks get the indexes 0, 1, 2 and so on by their first
      appearance, and each index receives exactly what was sent for its block, in order. */
  lemma {:induction false} ToolsAreDenseAndConserved(events: seq<Event>)
    requires RunOf(events).Ok?
    ensures Dense(RunOf(events).value.state, ToolBlocks(events))
    ensures Conserved(RunOf(events).value.chunks, events)
  {
    hide Step, Dense, Conserved, StartsTool;
    if events == [] {
      NothingRun();
    } else {
      var before, e := events[..|events| - 1], events[|events| - 1];
      ToolsAreDenseAndConserved(before);
      StepConserves(before, RunOf(before).value, e);
      StepIndexes(RunOf(before).value.state, e, ToolBlocks(before));
      assert before + [e] == events;
    }
  }
}
