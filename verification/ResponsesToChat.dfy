/** The Responses to Chat stream converter. A tool call is reachable under several keys,
    argument deltas that arrive before their tool are kept aside, and a cursor per tool
    says how much of its arguments was sent. */
module ResponsesToChat {
  import opened Basics
  import opened ResponsesDto
  import opened ToolKeys
  import Text

  datatype Chunk =
    | RoleChunk
    | ContentChunk(text: string)
    | ReasoningChunk(text: string)
    | ToolChunk(index: nat, id: string, name: string, arguments: string)
    | FinishChunk(reason: string)
    | UsageChunk

  /** The Chat index of a tool is its position in the list. */
  datatype Tool = Tool(
    key: Key,
    callId: string,
    itemId: string,
    name: string,
    arguments: string,
    sent: bool,
    nameSent: bool,
    argsSentAt: nat)

  datatype Tools = Tools(
    list: seq<Tool>,
    byKey: map<Key, nat>,
    outputKeys: map<int, Key>,
    itemKeys: map<string, Key>,
    callKeys: map<string, Key>,
    pendingOutput: map<int, string>,
    pendingItem: map<string, string>)

  const NO_TOOLS := Tools([], map[], map[], map[], map[], map[], map[])

  predicate Linked(ts: Tools) {
    && (forall k :: k in ts.byKey ==> ts.byKey[k] < |ts.list|)
    && (forall i :: i in ts.outputKeys ==> ts.outputKeys[i] in ts.byKey)
    && (forall i :: i in ts.itemKeys ==> ts.itemKeys[i] in ts.byKey)
    && (forall i :: i in ts.callKeys ==> ts.callKeys[i] in ts.byKey)
  }

  // ---- finding the tool of an event ---------------------------------------------------

  function CallIdOf(event: StreamEvent): string {
    if event.item.Some? then Text.Trim(event.item.value.callId) else ""
  }

  /** keyForEvent. */
  function KeyFor(event: StreamEvent): Option<Key> {
    if event.outputIndex.Some? then Some(OutputKey(event.outputIndex.value))
    else if event.item.Some? && Text.Trim(event.item.value.id) != "" then Some(ItemKey(Text.Trim(event.item.value.id)))
    else if CallIdOf(event) != "" then Some(CallKey(CallIdOf(event)))
    else if Text.Trim(event.itemId) != "" then Some(ItemKey(Text.Trim(event.itemId)))
    else None
  }

  function ToolAt(ts: Tools, key: Key): (t: nat)
    requires Linked(ts) && key in ts.byKey
    ensures t < |ts.list|
  {
    ts.byKey[key]
  }

  function ToolAtOutput(ts: Tools, index: int): (t: Option<nat>)
    requires Linked(ts)
    ensures t.Some? ==> t.value < |ts.list|
  {
    if index in ts.outputKeys then Some(ToolAt(ts, ts.outputKeys[index])) else None
  }

  function ToolAtItem(ts: Tools, id: string): (t: Option<nat>)
    requires Linked(ts)
    ensures t.Some? ==> t.value < |ts.list|
  {
    if id != "" && id in ts.itemKeys then Some(ToolAt(ts, ts.itemKeys[id])) else None
  }

  function ToolAtCall(ts: Tools, id: string): (t: Option<nat>)
    requires Linked(ts)
    ensures t.Some? ==> t.value < |ts.list|
  {
    if id != "" && id in ts.callKeys then Some(ToolAt(ts, ts.callKeys[id])) else None
  }

  /** findToolForEvent. */
  function Find(ts: Tools, event: StreamEvent): (t: Option<nat>)
    requires Linked(ts)
    ensures t.Some? ==> t.value < |ts.list|
  {
    if event.outputIndex.Some? && ToolAtOutput(ts, event.outputIndex.value).Some?
      then ToolAtOutput(ts, event.outputIndex.value)
    else if ToolAtItem(ts, Text.Trim(event.itemId)).Some? then ToolAtItem(ts, Text.Trim(event.itemId))
    else if event.item.Some? && KeyFor(event).Some?
      && KeyFor(event).value in ts.byKey then Some(ToolAt(ts, KeyFor(event).value))
    else None
  }

  /** The tool an item belongs to: the one under its key, else under its item id, else
      under its call id; |ts.list| stands for a new one. */
  function Locate(ts: Tools, event: StreamEvent, key: Key): (t: nat)
    requires Linked(ts)
    ensures t <= |ts.list|
  {
    if key in ts.byKey then ToolAt(ts, key)
    else if ToolAtItem(ts, ItemIdOf(event)).Some? then ToolAtItem(ts, ItemIdOf(event)).value
    else if ToolAtCall(ts, CallIdOf(event)).Some? then ToolAtCall(ts, CallIdOf(event)).value
    else |ts.list|
  }

  function NewTool(key: Key, callId: string): Tool { Tool(key, callId, "", "", "", false, false, 0) }

  /** The tool at t, created if t is past the end, becomes known under the key. */
  function Known(ts: Tools, t: nat, key: Key, callId: string): (r: Tools)
    requires Linked(ts) && t <= |ts.list|
    ensures Linked(r) && t < |r.list| && |ts.list| <= |r.list| && key in r.byKey
  {
    ts.(list := if t < |ts.list| then ts.list else ts.list + [NewTool(key, callId)], byKey := ts.byKey[key := t])
  }

  function PendingAtOutput(ts: Tools, index: Option<int>): string {
    if index.Some? && index.GetOr(0) in ts.pendingOutput then ts.pendingOutput[index.GetOr(0)] else ""
  }

  function PendingAtItem(ts: Tools, id: string): string {
    if id != "" && id in ts.pendingItem then ts.pendingItem[id] else ""
  }

  /** The tool takes its item id, and what was kept aside for the event's identifiers. */
  function AttachedTool(ts: Tools, tool: Tool, event: StreamEvent): Tool {
    var id := ItemIdOf(event);
    tool.(itemId := if id != "" then id else tool.itemId,
          arguments := tool.arguments + PendingAtOutput(ts, event.outputIndex) + PendingAtItem(ts, id))
  }

  function AttachedKeys(ts: Tools, key: Key, event: StreamEvent): (r: Tools)
    requires Linked(ts) && key in ts.byKey
    ensures Linked(r) && r.list == ts.list && r.byKey == ts.byKey
  {
    var id := ItemIdOf(event);
    ts.(outputKeys := if event.outputIndex.Some? then ts.outputKeys[event.outputIndex.value := key] else ts.outputKeys,
        itemKeys := if id != "" then ts.itemKeys[id := key] else ts.itemKeys,
        pendingOutput := if event.outputIndex.Some? then ts.pendingOutput - {event.outputIndex.value}
          else ts.pendingOutput,
        pendingItem := if id != "" then ts.pendingItem - {id} else ts.pendingItem)
  }

  /** Remember the event's identifiers for the tool, and hand over what was kept aside for them. */
  function Attach(ts: Tools, t: nat, key: Key, event: StreamEvent): (r: Tools)
    requires Linked(ts) && t < |ts.list| && key in ts.byKey
    ensures Linked(r) && |r.list| == |ts.list| && r.byKey == ts.byKey
  {
    AttachedKeys(ts.(list := ts.list[t := AttachedTool(ts, ts.list[t], event)]), key, event)
  }

  /** The call id and the name an item gives to its tool. */
  function DescribedTool(tool: Tool, event: StreamEvent): Tool
    requires event.item.Some?
  {
    var callId, name := CallIdOf(event), Text.Trim(event.item.value.name);
    tool.(callId := if callId != "" then callId else if tool.callId == "" then Text.Trim(event.item.value.id)
          else tool.callId,
          name := if name != "" then name else tool.name)
  }

  function Described(ts: Tools, t: nat, key: Key, event: StreamEvent): (r: Tools)
    requires Linked(ts) && t < |ts.list| && key in ts.byKey && event.item.Some?
    ensures Linked(r) && |r.list| == |ts.list|
  {
    ts.(list := ts.list[t := DescribedTool(ts.list[t], event)],
        callKeys := if CallIdOf(event) != "" then ts.callKeys[CallIdOf(event) := key] else ts.callKeys)
  }

  /** ensureToolForEvent, for an item with some identifier. */
  function EnsureTool(ts: Tools, event: StreamEvent, key: Key): (r: (Tools, nat))
    requires Linked(ts) && event.item.Some?
    ensures Linked(r.0) && r.1 < |r.0.list| && |ts.list| <= |r.0.list|
  {
    var t := Locate(ts, event, key);
    var ts1 := Attach(Known(ts, t, key, ""), t, key, event);
    (Described(ts1, t, key, event), t)
  }

  function FallbackKey(event: StreamEvent): Option<Key> {
    if event.outputIndex.Some? then Some(OutputKey(event.outputIndex.value))
    else if Text.Trim(event.itemId) != "" then Some(ItemKey(Text.Trim(event.itemId)))
    else None
  }

  function FallbackCallId(event: StreamEvent): string {
    if Text.Trim(event.itemId) != "" then Text.Trim(event.itemId)
    else if event.outputIndex.Some? then "call_output_" + Text.SignedDecimal(event.outputIndex.value)
    else ""
  }

  /** ensureFallbackToolForEvent, for an event with an output index or item id. */
  function EnsureFallback(ts: Tools, event: StreamEvent, key: Key): (r: (Tools, nat))
    requires Linked(ts)
    ensures Linked(r.0) && r.1 < |r.0.list| && |ts.list| <= |r.0.list|
  {
    var t := if key in ts.byKey then ToolAt(ts, key) else |ts.list|;
    (Attach(Known(ts, t, key, FallbackCallId(event)), t, key, event), t)
  }

  // ---- sending ----------------------------------------------------------------------------

  /** What of the arguments was not sent. */
  function Unsent(tool: Tool): string {
    if |tool.arguments| > tool.argsSentAt then tool.arguments[tool.argsSentAt..] else ""
  }

  function DeltaOf(tool: Tool, explicit: string): string { if explicit == "" then Unsent(tool) else explicit }

  /** A tool that was shown, with its name if it has one, and has nothing new. */
  predicate Quiet(tool: Tool, delta: string) { tool.sent && delta == "" && (tool.name == "" || tool.nameSent) }

  function SentTool(tool: Tool, delta: string): Tool {
    tool.(sent := true, nameSent := tool.nameSent || tool.name != "", argsSentAt := tool.argsSentAt + |delta|)
  }

  function SentChunk(t: nat, tool: Tool, delta: string): Chunk {
    ToolChunk(t, if Text.Trim(tool.callId) == "" then tool.key.Render() else Text.Trim(tool.callId),
              if tool.nameSent then "" else tool.name, delta)
  }

  /** toolDelta: the tool's next chunk, if there is anything to say. */
  function Send(ts: Tools, t: nat, explicit: string): (r: (Tools, seq<Chunk>))
    requires Linked(ts) && t < |ts.list|
    ensures Linked(r.0) && |r.0.list| == |ts.list|
  {
    var tool := ts.list[t];
    var delta := DeltaOf(tool, explicit);
    if Quiet(tool, delta) then (ts, []) else
      (ts.(list := ts.list[t := SentTool(tool, delta)]), [SentChunk(t, tool, delta)])
  }

  function WithArguments(ts: Tools, t: nat, arguments: string): (r: Tools)
    requires Linked(ts) && t < |ts.list|
    ensures Linked(r) && |r.list| == |ts.list|
  {
    ts.(list := ts.list[t := ts.list[t].(arguments := arguments)])
  }

  // ---- tool events ----------------------------------------------------------------------------

  /** toolItem: an item with arguments replaces what was gathered. */
  function ToolItem(ts: Tools, event: StreamEvent): (r: (Tools, seq<Chunk>))
    requires Linked(ts) && event.item.Some?
    ensures Linked(r.0) && |ts.list| <= |r.0.list|
  {
    if KeyFor(event).None? then (ts, []) else
      var (ts1, t) := EnsureTool(ts, event, KeyFor(event).value);
      var arguments := event.item.value.arguments;
      Send(if arguments != "" then WithArguments(ts1, t, arguments) else ts1, t, "")
  }

  /** A delta nobody can claim yet; without any identifier it is lost. */
  function KeepAside(ts: Tools, event: StreamEvent): (r: Tools)
    requires Linked(ts)
    ensures Linked(r) && r.list == ts.list
  {
    var id := Text.Trim(event.itemId);
    if event.outputIndex.Some? then
      var index: int := event.outputIndex.GetOr(0);
      ts.(pendingOutput := ts.pendingOutput[index := PendingAtOutput(ts, event.outputIndex) + event.delta])
    else if id != "" then ts.(pendingItem := ts.pendingItem[id := PendingAtItem(ts, id) + event.delta])
    else ts
  }

  /** toolArgumentsDelta. */
  function ArgumentsStep(ts: Tools, event: StreamEvent): (r: (Tools, seq<Chunk>))
    requires Linked(ts)
    ensures Linked(r.0) && |ts.list| <= |r.0.list|
  {
    if event.delta == "" then (ts, []) else
      var t := Find(ts, event);
      if t.None? then (KeepAside(ts, event), [])
      else Send(WithArguments(ts, t.value, ts.list[t.value].arguments + event.delta), t.value, event.delta)
  }

  /** flushPendingTool. */
  function DoneStep(ts: Tools, event: StreamEvent): (r: (Tools, seq<Chunk>))
    requires Linked(ts)
    ensures Linked(r.0) && |ts.list| <= |r.0.list|
  {
    var t := Find(ts, event);
    if t.Some? then Send(ts, t.value, "")
    else if FallbackKey(event).None? then (ts, [])
    else
      var (ts1, t1) := EnsureFallback(ts, event, FallbackKey(event).value);
      Send(ts1, t1, "")
  }

  predicate IsToolItem(event: StreamEvent) { event.item.Some? && event.item.value.itemType.ToolType? }

  /** Whether an event is about tool calls. */
  predicate IsToolEvent(event: StreamEvent) {
    match event.eventType
    case ItemAdded => IsToolItem(event)
    case ItemDone => IsToolItem(event)
    case ArgumentsDelta => true
    case ArgumentsDone => true
    case _ => false
  }

  function ToolStep(ts: Tools, event: StreamEvent): (r: (Tools, seq<Chunk>))
    requires Linked(ts) && IsToolEvent(event)
    ensures Linked(r.0) && |ts.list| <= |r.0.list|
  {
    if event.eventType.ArgumentsDelta? then ArgumentsStep(ts, event)
    else if event.eventType.ArgumentsDone? then DoneStep(ts, event)
    else ToolItem(ts, event)
  }

  // ---- the end of the tools ---------------------------------------------------------------------

  function FlushCallId(key: Key): string {
    match key
    case OutputKey(index) => "call_output_" + Text.SignedDecimal(index)
    case ItemKey(id) => id
    case CallKey(_) => key.Render()
  }

  /** What was kept aside under a key. */
  function PendingFor(ts: Tools, key: Key): string {
    match key
    case OutputKey(index) => if index in ts.pendingOutput then ts.pendingOutput[index] else ""
    case ItemKey(id) => if id in ts.pendingItem then ts.pendingItem[id] else ""
    case CallKey(_) => ""
  }

  function Forget(ts: Tools, key: Key): (r: Tools)
    requires Linked(ts)
    ensures Linked(r) && r.list == ts.list
  {
    match key
    case OutputKey(index) => ts.(pendingOutput := ts.pendingOutput - {index})
    case ItemKey(id) => ts.(pendingItem := ts.pendingItem - {id})
    case CallKey(_) => ts
  }

  /** The tool of a key takes what was kept aside under it. */
  function TakePending(ts: Tools, key: Key): (r: (Tools, nat))
    requires Linked(ts)
    ensures Linked(r.0) && r.1 < |r.0.list| && |ts.list| <= |r.0.list|
  {
    var t := if key in ts.byKey then ToolAt(ts, key) else |ts.list|;
    var ts1 := Known(ts, t, key, FlushCallId(key));
    (Forget(WithArguments(ts1, t, ts1.list[t].arguments + PendingFor(ts1, key)), key), t)
  }

  /** One key of flushAllPendingTools. */
  function FlushKey(ts: Tools, key: Key): (r: (Tools, seq<Chunk>))
    requires Linked(ts)
    ensures Linked(r.0) && |ts.list| <= |r.0.list|
  {
    var (ts1, t) := TakePending(ts, key);
    Send(ts1, t, "")
  }

  function FlushKeys(ts: Tools, keys: seq<Key>): (r: (Tools, seq<Chunk>))
    requires Linked(ts)
    ensures Linked(r.0) && |ts.list| <= |r.0.list|
  {
    if keys == [] then (ts, []) else
      var (ts1, chunks1) := FlushKeys(ts, keys[..|keys| - 1]);
      var (ts2, chunks2) := FlushKey(ts1, keys[|keys| - 1]);
      (ts2, chunks1 + chunks2)
  }

  function AllKeys(ts: Tools): set<Key> {
    ts.byKey.Keys + (set i | i in ts.pendingOutput :: OutputKey(i)) + (set i | i in ts.pendingItem :: ItemKey(i))
  }

  /** flushAllPendingTools. */
  ghost function FlushAll(ts: Tools): (r: (Tools, seq<Chunk>))
    requires Linked(ts)
    ensures Linked(r.0) && |ts.list| <= |r.0.list|
  {
    FlushKeys(ts, Sorted(AllKeys(ts)))
  }

  // ---- the stream -------------------------------------------------------------------------------

  datatype State = State(
    sentStart: bool,
    finalized: bool,
    hasSentText: bool,
    sawToolCall: bool,
    hasSentReasoning: bool,
    needsBreak: bool,
    tools: Tools)

  const INITIAL := State(false, false, false, false, false, false, NO_TOOLS)

  /** The first chunk sent opens the message. */
  function Opening(s: State): seq<Chunk> { if s.sentStart then [] else [RoleChunk] }

  function Said(s: State, chunks: seq<Chunk>): (r: (State, seq<Chunk>))
    ensures r.0.tools == s.tools && r.0.finalized == s.finalized
  {
    if chunks == [] then (s, []) else (s.(sentStart := true), Opening(s) + chunks)
  }

  function TextStep(s: State, text: string): (r: (State, seq<Chunk>))
    ensures r.0.tools == s.tools && r.0.finalized == s.finalized
  {
    if text == "" then (s, []) else Said(s.(hasSentText := true), [ContentChunk(text)])
  }

  /** A new reasoning part is set apart from the one before. */
  function Separated(delta: string): string {
    if "\n\n" <= delta then delta else if "\n" <= delta then "\n" + delta else "\n\n" + delta
  }

  function ReasoningStep(s: State, text: string): (r: (State, seq<Chunk>))
    ensures r.0.tools == s.tools && r.0.finalized == s.finalized
  {
    if text == "" then (s, []) else
      Said(s.(needsBreak := false, hasSentReasoning := true),
           [ReasoningChunk(if s.needsBreak then Separated(text) else text)])
  }

  /** The chunks of a tool step, in the stream. */
  function ToolsSaid(s: State, step: (Tools, seq<Chunk>)): (r: (State, seq<Chunk>))
    ensures r.0.tools == step.0 && r.0.finalized == s.finalized
  {
    Said(s.(tools := step.0, sawToolCall := s.sawToolCall || step.1 != []), step.1)
  }

  function TerminalEvent(item: Item): StreamEvent {
    StreamEvent(ItemDone, None, "", None, None, Some(item), NoAnnotation, None, "")
  }

  /** One output item of the terminal response: text and reasoning only when none was streamed. */
  function TerminalItem(s: State, item: Item, hadText: bool, hadReasoning: bool): (r: (State, seq<Chunk>))
    requires Linked(s.tools)
    ensures Linked(r.0.tools) && r.0.finalized == s.finalized
  {
    match item.itemType
    case MessageType => if hadText then (s, []) else TextStep(s, MessageText(item.content))
    case ReasoningType => if hadReasoning then (s, []) else ReasoningStep(s, ReasoningText(item))
    case ToolType => ToolsSaid(s, ToolStep(s.tools, TerminalEvent(item)))
    case OtherType(_) => (s, [])
  }

  function TerminalItems(s: State, output: seq<Item>, hadText: bool, hadReasoning: bool): (r: (State, seq<Chunk>))
    requires Linked(s.tools)
    ensures Linked(r.0.tools) && r.0.finalized == s.finalized
  {
    if output == [] then (s, []) else
      var (s1, chunks1) := TerminalItems(s, output[..|output| - 1], hadText, hadReasoning);
      var (s2, chunks2) := TerminalItem(s1, output[|output| - 1], hadText, hadReasoning);
      (s2, chunks1 + chunks2)
  }

  /** ensureIncompleteResponse: response.incomplete counts as incomplete without a status too. */
  function TerminalResponse(event: StreamEvent): Option<Response> {
    if !event.eventType.Incomplete? then event.response
    else if event.response.None? then Some(Response(Some("incomplete"), None, []))
    else if event.response.value.status.None? then Some(event.response.value.(status := Some("incomplete")))
    else event.response
  }

  function FinishReason(response: Option<Response>, sawToolCall: bool): string {
    if FinishReasonFromStatus(response).Some? then FinishReasonFromStatus(response).value
    else if sawToolCall then "tool_calls" else "stop"
  }

  /** finalize. */
  ghost function Finalize(s: State, response: Option<Response>, includeUsage: bool): (r: (State, seq<Chunk>))
    requires Linked(s.tools)
    ensures Linked(r.0.tools)
  {
    if s.finalized then (s, []) else
      var (s1, chunks) := ToolsSaid(s.(finalized := true), FlushAll(s.tools));
      (s1.(sentStart := true),
       chunks + Opening(s1) + [FinishChunk(FinishReason(response, s1.sawToolCall))] + if includeUsage then [UsageChunk]
         else [])
  }

  ghost function Terminal(s: State, response: Option<Response>, includeUsage: bool): (r: (State, seq<Chunk>))
    requires Linked(s.tools)
    ensures Linked(r.0.tools)
  {
    var (s1, chunks1) := if response.Some? then TerminalItems(s, response.value.output, s.hasSentText,
                                                              s.hasSentReasoning)
                         else (s, []);
    var (s2, chunks2) := Finalize(s1, response, includeUsage);
    (s2, chunks1 + chunks2)
  }

  /** ResponsesStreamEventToChatChunks; None is an error. */
  ghost function Step(s: State, event: StreamEvent, includeUsage: bool): (r: Option<(State, seq<Chunk>)>)
    requires Linked(s.tools)
    ensures r.Some? ==> Linked(r.value.0.tools)
  {
    if IsToolEvent(event) then Some(ToolsSaid(s, ToolStep(s.tools, event))) else
      match event.eventType
      case Created => Some((s.(sentStart := true), Opening(s)))
      case ReasoningDelta => Some(ReasoningStep(s, event.delta))
      case ReasoningDone => Some((s.(needsBreak := s.needsBreak || s.hasSentReasoning), []))
      case OutputTextDelta => Some(TextStep(s, event.delta))
      case Completed => Some(Terminal(s, TerminalResponse(event), includeUsage))
      case Incomplete => Some(Terminal(s, TerminalResponse(event), includeUsage))
      case Failed => None
      case _ => Some((s, []))
  }

  // ---- runs ----------------------------------------------------------------------------------------

  ghost function Run(events: seq<StreamEvent>, includeUsage: bool): (r: Option<(State, seq<Chunk>)>)
    ensures r.Some? ==> Linked(r.value.0.tools)
  {
    if events == [] then Some((INITIAL, [])) else
      var before := Run(events[..|events| - 1], includeUsage);
      if before.None? then None else
        var after := Step(before.value.0, events[|events| - 1], includeUsage);
        if after.None? then None else Some((after.value.0, before.value.1 + after.value.1))
  }

  /** The whole output of an error-free stream, finalizer included. */
  ghost function Output(events: seq<StreamEvent>, includeUsage: bool): seq<Chunk>
    requires Run(events, includeUsage).Some?
  {
    var (s, chunks) := Run(events, includeUsage).value;
    chunks + Finalize(s, None, includeUsage).1
  }
}
