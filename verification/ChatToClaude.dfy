/** The OpenAI Chat to Claude Messages stream converter: the state kept between
    chunks, one chunk's step, and the finalizer. Tools are named by their position
    in the phase's tool list. */
module ChatToClaude {
  import opened ChatDto
  import opened ClaudeTrace
  import Text

  // ---- state -----------------------------------------------------------------

  datatype Last = LastNone | LastText | LastThinking | LastTools

  datatype Tool = Tool(blockIndex: int, id: string, name: string, pending: string, started: bool)

  datatype Info = Info(
    sent: nat,
    last: Last,
    index: int,
    hasUsage: bool,
    finishReason: string,
    done: bool,
    base: int,
    maxOffset: int,
    tools: seq<Tool>,
    byIndex: map<int, nat>,
    byId: map<string, nat>)

  const INITIAL := Info(0, LastNone, 0, false, "", false, 0, 0, [], map[], map[])

  /** A generated identifier for a tool block the upstream never named: uuid is the
      source of fresh values, asked once per block. */
  type Uuid = int -> string

  /** The tool list holds consecutive blocks from base, and the two maps point into it. */
  predicate Shaped(s: Info) {
    && (forall i :: 0 <= i < |s.tools| ==> s.tools[i].blockIndex == s.base + i)
    && (forall k :: k in s.byIndex ==> s.byIndex[k] < |s.tools|)
    && (forall k :: k in s.byId ==> s.byId[k] < |s.tools|)
    && (s.last == LastTools ==> s.tools != [] && s.index == s.base + |s.tools| - 1 && s.maxOffset == |s.tools| - 1)
    && (s.last != LastTools ==> s.tools == [] && s.byIndex == map[] && s.byId == map[])
  }

  /** What closing and opening blocks leaves alone. */
  predicate SameMessage(s: Info, s': Info) {
    s'.sent == s.sent && s'.done == s.done && s'.hasUsage == s.hasUsage && s'.finishReason == s.finishReason
  }

  // ---- closing and opening blocks --------------------------------------------

  function Start(tool: Tool): (evs: seq<Event>) {
    [BlockStart(tool.blockIndex, ToolBlock(tool.id, tool.name))] +
    if tool.pending != "" then [BlockDelta(tool.blockIndex, InputJsonDelta(tool.pending))] else []
  }

  function Identified(tool: Tool, uuid: Uuid): Tool {
    if tool.id == "" then tool.(id := "toolu_" + uuid(tool.blockIndex)) else tool
  }

  predicate Startable(tool: Tool) { !tool.started && tool.name != "" }

  function StartedTool(tool: Tool): Tool { tool.(started := true, pending := "") }

  /** startPendingToolBlocks, over the list of tools. */
  function StartPending(tools: seq<Tool>, uuid: Uuid): (r: (seq<Tool>, seq<Event>))
    ensures |r.0| == |tools|
    ensures forall i :: 0 <= i < |tools| ==> r.0[i].blockIndex == tools[i].blockIndex
  {
    if tools == [] then ([], []) else
      var (rest, evs) := StartPending(tools[..|tools| - 1], uuid);
      var tool := tools[|tools| - 1];
      if Startable(tool) then
        var named := Identified(tool, uuid);
        (rest + [StartedTool(named)], evs + Start(named))
      else (rest + [tool], evs)
  }

  function StopStarted(tools: seq<Tool>): seq<Event> {
    if tools == [] then [] else
      StopStarted(tools[..|tools| - 1]) +
      if tools[|tools| - 1].started then [BlockStop(tools[|tools| - 1].blockIndex)] else []
  }

  function StopOffsets(base: int, count: nat): seq<Event> {
    if count == 0 then [] else StopOffsets(base, count - 1) + [BlockStop(base + count - 1)]
  }

  function StopOpen(s: Info): seq<Event> {
    match s.last
    case LastNone => []
    case LastText => [BlockStop(s.index)]
    case LastThinking => [BlockStop(s.index)]
    case LastTools =>
      if s.tools == [] then StopOffsets(s.base, if s.maxOffset < 0 then 0 else s.maxOffset + 1)
      else StopStarted(s.tools)
  }

  /** appendStopOpenBlocks: name and start what can be started, then stop all. */
  function CloseBlocks(s: Info, uuid: Uuid): (r: (Info, seq<Event>))
    requires Shaped(s)
    ensures SameMessage(s, r.0)
    ensures Shaped(r.0)
  {
    if s.last == LastTools then
      var (tools, evs) := StartPending(s.tools, uuid);
      var s' := s.(tools := tools);
      (s', evs + StopOpen(s'))
    else (s, StopOpen(s))
  }

  /** stopOpenBlocksAndAdvance. */
  function CloseAndAdvance(s: Info, uuid: Uuid): (r: (Info, seq<Event>))
    requires Shaped(s)
    ensures SameMessage(s, r.0)
    ensures Shaped(r.0)
  {
    if s.last == LastNone then (s, []) else
      var (s', evs) := CloseBlocks(s, uuid);
      (if s.last == LastTools then
         s'.(index := s'.base + |s'.tools|, base := 0, maxOffset := 0,
             tools := [], byIndex := map[], byId := map[], last := LastNone)
       else s'.(index := s'.index + 1, last := LastNone),
       evs)
  }

  /** The first index no block of the state has used. */
  function NextFree(s: Info): int {
    if s.last == LastTools then s.base + |s.tools| else if s.last == LastNone then s.index else s.index + 1
  }

  /** Make a text or thinking block the open one. */
  function OpenBlock(s: Info, last: Last, content: Content, uuid: Uuid): (r: (Info, seq<Event>))
    requires Shaped(s) && (last == LastText || last == LastThinking)
    ensures SameMessage(s, r.0)
    ensures Shaped(r.0)
  {
    if s.last == last then (s, []) else
      var (s', evs) := CloseAndAdvance(s, uuid);
      (s'.(last := last), evs + [BlockStart(s'.index, content)])
  }

  // ---- tool deltas -----------------------------------------------------------

  /** The shape while the tool deltas of one chunk are being applied: index and
      maxOffset catch up at the end of the chunk. */
  predicate InPhase(s: Info) {
    && s.last == LastTools
    && (forall i :: 0 <= i < |s.tools| ==> s.tools[i].blockIndex == s.base + i)
    && (forall k :: k in s.byIndex ==> s.byIndex[k] < |s.tools|)
    && (forall k :: k in s.byId ==> s.byId[k] < |s.tools|)
  }

  /** Which tool a delta belongs to: the one with its id, else the one last seen at
      its index unless that one has another id; |s.tools| stands for a new tool. */
  function Lookup(s: Info, toolIndex: int, id: string): (p: nat)
    requires InPhase(s)
    ensures p <= |s.tools|
  {
    var found: nat := if id != "" && id in s.byId then s.byId[id]
                      else if toolIndex in s.byIndex then s.byIndex[toolIndex]
                      else |s.tools|;
    if found < |s.tools| && id != "" && s.tools[found].id != "" && s.tools[found].id != id
    then |s.tools| else found
  }

  /** The state in which the delta's tool exists and is the active one at its index. */
  function Routed(s: Info, toolIndex: int, id: string): (r: Info)
    requires InPhase(s)
    ensures InPhase(r) && Lookup(s, toolIndex, id) < |r.tools|
  {
    var p := Lookup(s, toolIndex, id);
    s.(tools := if p < |s.tools| then s.tools else s.tools + [Tool(s.base + p, "", "", "", false)],
       byIndex := s.byIndex[toolIndex := p])
  }

  /** The identity a delta gives to its tool. */
  function Identify(tool: Tool, id: string, name: string): Tool {
    tool.(id := if tool.id == "" then id else tool.id,
          name := if tool.name == "" then name else tool.name)
  }

  /** Deliver a fragment to an identified tool. */
  function Deliver(tool: Tool, arguments: string): (Tool, seq<Event>) {
    if tool.started then
      (tool, if arguments != "" then [BlockDelta(tool.blockIndex, InputJsonDelta(arguments))] else [])
    else
      var buffered := tool.(pending := tool.pending + arguments);
      if tool.id != "" && tool.name != "" then (StartedTool(buffered), Start(buffered))
      else (buffered, [])
  }

  function IndexOf(delta: ToolDelta, position: int): int {
    if delta.index.Some? then delta.index.value else position
  }

  function ApplyToolDelta(s: Info, position: int, delta: ToolDelta): (r: (Info, seq<Event>))
    requires InPhase(s)
    ensures SameMessage(s, r.0) && r.0.base == s.base
    ensures InPhase(r.0)
  {
    var id := Text.Trim(delta.id);
    var p := Lookup(s, IndexOf(delta, position), id);
    var routed := Routed(s, IndexOf(delta, position), id);
    var before := routed.tools[p];
    var (tool, evs) := Deliver(Identify(before, id, Text.Trim(delta.name)), delta.arguments);
    (routed.(tools := routed.tools[p := tool],
             byId := if before.id == "" && id != "" then routed.byId[id := p] else routed.byId),
     evs)
  }

  function ApplyToolDeltas(s: Info, deltas: seq<ToolDelta>): (r: (Info, seq<Event>))
    requires InPhase(s)
    ensures SameMessage(s, r.0) && r.0.base == s.base
    ensures InPhase(r.0)
    ensures deltas != [] ==> r.0.tools != []
  {
    if deltas == [] then (s, []) else
      var n := |deltas| - 1;
      var (s1, evs1) := ApplyToolDeltas(s, deltas[..n]);
      var (s2, evs2) := ApplyToolDelta(s1, n, deltas[n]);
      (s2, evs1 + evs2)
  }

  function EnterTools(s: Info, uuid: Uuid): (r: (Info, seq<Event>))
    requires Shaped(s)
    ensures SameMessage(s, r.0)
    ensures InPhase(r.0)
  {
    if s.last == LastTools then (s, []) else
      var (s', evs) := CloseAndAdvance(s, uuid);
      (s'.(base := s'.index, maxOffset := 0, tools := [], byIndex := map[], byId := map[], last := LastTools), evs)
  }

  // ---- one chunk -------------------------------------------------------------

  function ToolPart(s: Info, deltas: seq<ToolDelta>, uuid: Uuid): (r: (Info, seq<Event>))
    requires Shaped(s) && deltas != []
    ensures SameMessage(s, r.0)
    ensures Shaped(r.0)
  {
    var (s1, evs1) := EnterTools(s, uuid);
    var (s2, evs2) := ApplyToolDeltas(s1, deltas);
    (s2.(maxOffset := |s2.tools| - 1, index := s2.base + |s2.tools| - 1), evs1 + evs2)
  }

  /** Reasoning hides the text of its chunk. */
  function ProsePart(s: Info, reasoning: string, text: string, uuid: Uuid): (r: (Info, seq<Event>))
    requires Shaped(s)
    ensures SameMessage(s, r.0)
    ensures Shaped(r.0)
  {
    if reasoning != "" then
      var (s', evs) := OpenBlock(s, LastThinking, ThinkingBlock, uuid);
      (s', evs + [BlockDelta(s'.index, ThinkingDelta(reasoning))])
    else if text != "" then
      var (s', evs) := OpenBlock(s, LastText, TextBlock, uuid);
      (s', evs + [BlockDelta(s'.index, TextDelta(text))])
    else (s, [])
  }

  function CitationDeltas(index: int, citations: seq<Citation>): seq<Event> {
    if citations == [] then [] else
      CitationDeltas(index, citations[..|citations| - 1]) +
      [BlockDelta(index, CitationDelta(citations[|citations| - 1]))]
  }

  function CitationPart(s: Info, citations: seq<Citation>, uuid: Uuid): (r: (Info, seq<Event>))
    requires Shaped(s)
    ensures SameMessage(s, r.0)
    ensures Shaped(r.0)
  {
    if citations == [] then (s, []) else
      var (s', evs) := OpenBlock(s, LastText, TextBlock, uuid);
      (s', evs + CitationDeltas(s'.index, citations))
  }

  /** What the first choice of a chunk adds before its finish reason is looked at. */
  function ChoicePart(s: Info, choice: Choice, uuid: Uuid): (r: (Info, seq<Event>))
    requires Shaped(s)
    ensures SameMessage(s, r.0)
    ensures Shaped(r.0)
  {
    var (s1, evs1) := if choice.toolCalls != [] then ToolPart(s, choice.toolCalls, uuid)
                      else ProsePart(s, choice.reasoning, choice.text, uuid);
    var (s2, evs2) := CitationPart(s1, choice.citations, uuid);
    (s2, evs1 + evs2)
  }

  /** OpenAIFinishReasonToClaudeStopReason. */
  function StopReason(reason: string): string {
    var lower := Text.Lower(reason);
    if lower == "stop" then "end_turn"
    else if lower == "stop_sequence" then "stop_sequence"
    else if lower == "length" || lower == "max_tokens" then "max_tokens"
    else if lower == "content_filter" then "refusal"
    else if lower == "tool_calls" then "tool_use"
    else reason
  }

  function StopReasonOrEnd(reason: string): string {
    if StopReason(reason) == "" then "end_turn" else StopReason(reason)
  }

  function Conclude(s: Info, reason: string, uuid: Uuid): (r: (Info, seq<Event>))
    requires Shaped(s)
    ensures Shaped(r.0)
  {
    var (s', evs) := CloseBlocks(s, uuid);
    (s'.(done := true), evs + [MessageDelta(reason), MessageStop])
  }

  /** message_start, when this is the first chunk sent. */
  function OpenMessage(s: Info, usage: Usage): (r: (Info, seq<Event>))
    requires Shaped(s)
    ensures Shaped(r.0)
  {
    if s.sent == 1 then (s.(hasUsage := s.hasUsage || usage == TokenUsage), [MessageStart]) else (s, [])
  }

  function Reported(s: Info, usage: Usage): Info { s.(hasUsage := s.hasUsage || usage != NoUsage) }

  predicate Finishes(choice: Choice) { choice.finishReason.Some? && choice.finishReason.value != "" }

  function Noted(s: Info, choice: Choice): (r: Info)
    requires Shaped(s)
    ensures Shaped(r)
  {
    if Finishes(choice) then s.(finishReason := choice.finishReason.value) else s
  }

  /** A finishing choice ends the message, unless no usage is known yet: then the
      blocks stay open for a later usage-only chunk. */
  function Finishing(s: Info, choice: Choice, usage: Usage, uuid: Uuid): (r: (Info, seq<Event>))
    requires Shaped(s)
    ensures Shaped(r.0)
  {
    if !Finishes(choice) then (s, []) else
      var s1 := Reported(s, usage);
      if s1.hasUsage then Conclude(s1, StopReason(s1.finishReason), uuid) else (s1, [])
  }

  /** The chunk once message_start is out of the way. */
  function ChunkPart(s: Info, chunk: Chunk, uuid: Uuid): (r: (Info, seq<Event>))
    requires Shaped(s)
    ensures Shaped(r.0)
  {
    if chunk.choices == [] then
      var s1 := Reported(s, chunk.usage);
      if s1.hasUsage then Conclude(s1, StopReasonOrEnd(s1.finishReason), uuid) else (s1, [])
    else
      var choice := chunk.choices[0];
      var (s1, evs1) := ChoicePart(Noted(s, choice), choice, uuid);
      var (s2, evs2) := Finishing(s1, choice, chunk.usage, uuid);
      (s2, evs1 + evs2)
  }

  /** IncrSendResponseCount followed by StreamResponseOpenAI2Claude. */
  function Step(s: Info, chunk: Chunk, uuid: Uuid): (r: (Info, seq<Event>))
    requires Shaped(s)
    ensures Shaped(r.0)
  {
    var s0 := s.(sent := s.sent + 1);
    if s.done then (s0, []) else
      var (s1, evs1) := OpenMessage(s0, chunk.usage);
      var (s2, evs2) := ChunkPart(s1, chunk, uuid);
      (s2, evs1 + evs2)
  }

  /** FinalizeStreamResponseOpenAI2Claude. */
  function Final(s: Info, uuid: Uuid): (r: (Info, seq<Event>))
    requires Shaped(s)
    ensures Shaped(r.0)
  {
    if s.done then (s, []) else Conclude(s, StopReasonOrEnd(s.finishReason), uuid)
  }

  // ---- runs ------------------------------------------------------------------

  /** A stream of chunks, converted one by one. */
  function Run(chunks: seq<Chunk>, uuid: Uuid): (r: (Info, seq<Event>))
    ensures Shaped(r.0)
  {
    if chunks == [] then (INITIAL, []) else
      var n := |chunks| - 1;
      var (s, evs) := Run(chunks[..n], uuid);
      var (s', evs') := Step(s, chunks[n], uuid);
      (s', evs + evs')
  }

  /** The whole output of a stream: its chunks, then the finalizer. */
  function Output(chunks: seq<Chunk>, uuid: Uuid): seq<Event> {
    var (s, evs) := Run(chunks, uuid);
    evs + Final(s, uuid).1
  }
}
