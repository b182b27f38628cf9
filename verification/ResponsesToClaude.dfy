/** The Responses to Claude stream converter: every event is routed to a content block,
    or opens one, and then acts on it. */
module ResponsesToClaude {
  import opened ClaudeTrace
  import opened Basics
  import opened ResponsesDto
  import Text

  /** index of a block is its position in the list. */
  datatype Block = Block(
    kind: Kind,
    itemId: string,
    callId: string,
    name: string,
    started: bool,
    stopped: bool,
    value: string,
    sent: nat,
    annotationCount: nat,
    needsBreak: bool)

  datatype State = State(
    sentStart: bool,
    done: bool,
    sawToolCall: bool,
    blocks: seq<Block>,
    byOutputIndex: map<int, nat>,
    byItemId: map<string, nat>,
    lastByKind: map<Kind, nat>)

  const INITIAL := State(false, false, false, [], map[], map[], map[])

  /** The conversion of annotations to citations, over the text they refer to. */
  type Cite = (seq<Annotation>, string) -> seq<Citation>

  predicate Linked(s: State) {
    && (forall k :: k in s.byOutputIndex ==> s.byOutputIndex[k] < |s.blocks|)
    && (forall k :: k in s.byItemId ==> s.byItemId[k] < |s.blocks|)
    && (forall k :: k in s.lastByKind ==> s.lastByKind[k] < |s.blocks|)
    && (forall b :: 0 <= b < |s.blocks| ==> s.blocks[b].sent <= |s.blocks[b].value|)
  }

  /** Blocks are only added, and keep their kind. */
  predicate Extends(s: State, s': State) {
    && |s.blocks| <= |s'.blocks|
    && (forall b :: 0 <= b < |s.blocks| ==> s'.blocks[b].kind == s.blocks[b].kind)
  }

  // ---- routing --------------------------------------------------------------------

  /** findBlock. */
  function Find(s: State, event: StreamEvent): (p: Option<nat>)
    requires Linked(s)
    ensures p.Some? ==> p.value < |s.blocks|
  {
    var id := ItemIdOf(event);
    var index: int := event.outputIndex.GetOr(0);
    if event.outputIndex.Some? && index in s.byOutputIndex then Some(s.byOutputIndex[index])
    else if id != "" && id in s.byItemId then Some(s.byItemId[id])
    else None
  }

  /** The block an event belongs to; |s.blocks| stands for a new one. */
  function Route(s: State, event: StreamEvent, kind: Kind): (p: nat)
    requires Linked(s)
    ensures p <= |s.blocks|
  {
    var found := Find(s, event);
    if found.Some? then found.value
    else if && kind in s.lastByKind && !s.blocks[s.lastByKind[kind]].stopped
            && event.outputIndex.None? && ItemIdOf(event) == "" then s.lastByKind[kind]
    else |s.blocks|
  }

  /** applyBlockMetadata, as far as the block is concerned. */
  function Described(block: Block, event: StreamEvent): Block {
    var block1 := if ItemIdOf(event) != "" then block.(itemId := ItemIdOf(event)) else block;
    if event.item.None? then block1 else
      var item := event.item.value;
      block1.(callId := if Text.Trim(item.callId) != "" then Text.Trim(item.callId)
                        else if block1.callId == "" then Text.Trim(item.id) else block1.callId,
              name := if Text.Trim(item.name) != "" then Text.Trim(item.name) else block1.name)
  }

  function NewBlock(kind: Kind): Block { Block(kind, "", "", "", false, false, "", 0, 0, false) }

  /** The block list with the routed block in it. */
  function Opened(s: State, p: nat, kind: Kind): (blocks: seq<Block>)
    requires p <= |s.blocks|
    ensures p < |blocks|
  {
    if p < |s.blocks| then s.blocks else s.blocks + [NewBlock(kind)]
  }

  /** The event's identifiers, and its kind, lead to the block from now on. */
  function Registered(s: State, event: StreamEvent, kind: Kind, p: nat): (r: State)
    requires Linked(s) && p < |s.blocks|
    ensures Linked(r) && r.blocks == s.blocks
  {
    s.(byOutputIndex := if event.outputIndex.Some? then s.byOutputIndex[event.outputIndex.value := p]
                        else s.byOutputIndex,
       byItemId := if ItemIdOf(event) != "" then s.byItemId[ItemIdOf(event) := p] else s.byItemId,
       lastByKind := s.lastByKind[kind := p])
  }

  /** ensureBlock: the block must keep its kind. */
  function EnsureBlock(s: State, event: StreamEvent, kind: Kind): (r: Option<(State, nat)>)
    requires Linked(s)
    ensures r.Some? ==> Linked(r.value.0) && r.value.1 < |r.value.0.blocks| && Extends(s, r.value.0)
    ensures r.Some? ==> r.value.0.blocks[r.value.1].kind == kind
  {
    var p := Route(s, event, kind);
    var blocks := Opened(s, p, kind);
    if blocks[p].kind != kind then None else
      Some((Registered(s.(blocks := blocks[p := Described(blocks[p], event)]), event, kind, p), p))
  }

  // ---- acting on a block --------------------------------------------------------------

  function MessageOpened(s: State): seq<Event> { if s.sentStart then [] else [MessageStart] }

  function ContentOf(block: Block): Content {
    match block.kind
    case TextKind => TextBlock
    case ThinkingKind => ThinkingBlock
    case ToolKind => ToolBlock(if block.callId == "" then block.itemId else block.callId, block.name)
  }

  /** A tool block needs a name to be started. */
  predicate Startable(block: Block) { block.kind != ToolKind || block.name != "" }

  /** startBlock. */
  function StartBlock(s: State, p: nat): (r: (State, seq<Event>))
    requires Linked(s) && p < |s.blocks|
    ensures Linked(r.0) && |r.0.blocks| == |s.blocks| && Extends(s, r.0)
  {
    var block := s.blocks[p];
    if block.started || block.stopped || !Startable(block) then (s, []) else
      (s.(sentStart := true,
          sawToolCall := s.sawToolCall || block.kind == ToolKind,
          blocks := s.blocks[p := block.(started := true)]),
       MessageOpened(s) + [BlockStart(p, ContentOf(block))])
  }

  function DeltaOf(kind: Kind, text: string): Delta {
    match kind
    case TextKind => TextDelta(text)
    case ThinkingKind => ThinkingDelta(text)
    case ToolKind => InputJsonDelta(text)
  }

  /** flushBlock: start the block if possible, and send what was not sent. */
  function Flush(s: State, p: nat): (r: (State, seq<Event>))
    requires Linked(s) && p < |s.blocks|
    ensures Linked(r.0) && |r.0.blocks| == |s.blocks| && Extends(s, r.0)
  {
    if s.blocks[p].stopped then (s, []) else
      var (s1, evs) := StartBlock(s, p);
      var block := s1.blocks[p];
      if !block.started || block.sent >= |block.value| then (s1, evs) else
        (s1.(blocks := s1.blocks[p := block.(sent := |block.value|)]),
         evs + [BlockDelta(p, DeltaOf(block.kind, block.value[block.sent..]))])
  }

  /** Give a block a new value, at least as long, and flush it. */
  function Revalue(s: State, p: nat, value: string): (r: (State, seq<Event>))
    requires Linked(s) && p < |s.blocks| && s.blocks[p].value <= value
    ensures Linked(r.0) && |r.0.blocks| == |s.blocks| && Extends(s, r.0)
  {
    Flush(s.(blocks := s.blocks[p := s.blocks[p].(value := value)]), p)
  }

  /** mergeFinalValue: a snapshot that does not extend the value is ignored. */
  function Merged(value: string, snapshot: string): (r: string)
    ensures value <= r
  {
    if value == "" then snapshot else if value <= snapshot then value + snapshot[|value|..] else value
  }

  /** separatedResponsesDelta. */
  function Separated(delta: string): string {
    if "\n\n" <= delta then delta else if "\n" <= delta then "\n" + delta else "\n\n" + delta
  }

  datatype Act =
    | Append(text: string)
    | Merge(text: string)
    | Break
    | Cited(annotations: seq<Annotation>, snapshot: bool)
    | Close

  /** A delta, kept apart from the finished reasoning part before it. */
  function AppendAct(s: State, p: nat, text: string): (r: (State, seq<Event>))
    requires Linked(s) && p < |s.blocks|
    ensures Linked(r.0) && |r.0.blocks| == |s.blocks| && Extends(s, r.0)
  {
    var block := s.blocks[p];
    if text == "" then (s, [])
    else if block.kind == ThinkingKind && block.needsBreak then
      var s1 := s.(blocks := s.blocks[p := block.(needsBreak := false)]);
      if block.stopped then (s1, []) else Revalue(s1, p, block.value + Separated(text))
    else if block.stopped then (s, []) else Revalue(s, p, block.value + text)
  }

  function CitationDeltas(index: int, citations: seq<Citation>): seq<Event> {
    if citations == [] then [] else
      CitationDeltas(index, citations[..|citations| - 1]) +
      [BlockDelta(index, CitationDelta(citations[|citations| - 1]))]
  }

  /** How many annotations of a block were seen. */
  function Counted(s: State, p: nat, count: nat): (r: State)
    requires Linked(s) && p < |s.blocks|
    ensures Linked(r) && |r.blocks| == |s.blocks| && Extends(s, r)
  {
    s.(blocks := s.blocks[p := s.blocks[p].(annotationCount := count)])
  }

  /** appendAnnotations. */
  function CiteAct(s: State, p: nat, annotations: seq<Annotation>, snapshot: bool, cite: Cite): (r: (State, seq<Event>))
    requires Linked(s) && p < |s.blocks|
    ensures Linked(r.0) && |r.0.blocks| == |s.blocks| && Extends(s, r.0)
  {
    var block := s.blocks[p];
    if block.kind != TextKind || block.stopped || annotations == [] then (s, [])
    else if snapshot && |annotations| <= block.annotationCount then (s, [])
    else
      var remaining := if snapshot then annotations[block.annotationCount..] else annotations;
      var count := if snapshot then |annotations| else block.annotationCount + |annotations|;
      var s1 := Counted(s, p, count);
      var citations := cite(remaining, block.value);
      if citations == [] then (s1, []) else
        var (s2, evs) := StartBlock(s1, p);
        (s2, evs + CitationDeltas(p, citations))
  }

  /** stopBlock: a thinking block is signed first. */
  function CloseAct(s: State, p: nat): (r: (State, seq<Event>))
    requires Linked(s) && p < |s.blocks|
    ensures Linked(r.0) && |r.0.blocks| == |s.blocks| && Extends(s, r.0)
  {
    if s.blocks[p].stopped then (s, []) else
      var (s1, evs1) := Flush(s, p);
      var (s2, evs2) := StartBlock(s1, p);
      if !s2.blocks[p].started then (s2, evs1 + evs2) else
        (s2.(blocks := s2.blocks[p := s2.blocks[p].(stopped := true)]),
         evs1 + evs2 + (if s2.blocks[p].kind == ThinkingKind then [BlockDelta(p, SignatureDelta)] else [])
           + [BlockStop(p)])
  }

  /** mergeFinalValue. */
  function MergeAct(s: State, p: nat, text: string): (r: (State, seq<Event>))
    requires Linked(s) && p < |s.blocks|
    ensures Linked(r.0) && |r.0.blocks| == |s.blocks| && Extends(s, r.0)
  {
    if s.blocks[p].stopped then (s, []) else Revalue(s, p, Merged(s.blocks[p].value, text))
  }

  /** A finished reasoning part: what comes next in the block is set apart from it. */
  function BreakAct(s: State, p: nat): (r: State)
    requires Linked(s) && p < |s.blocks|
    ensures Linked(r) && |r.blocks| == |s.blocks| && Extends(s, r)
  {
    if s.blocks[p].value != "" then s.(blocks := s.blocks[p := s.blocks[p].(needsBreak := true)]) else s
  }

  function Perform(s: State, p: nat, act: Act, cite: Cite): (r: (State, seq<Event>))
    requires Linked(s) && p < |s.blocks|
    ensures Linked(r.0) && |r.0.blocks| == |s.blocks| && Extends(s, r.0)
  {
    match act
    case Append(text) => AppendAct(s, p, text)
    case Merge(text) => MergeAct(s, p, text)
    case Break => (BreakAct(s, p), [])
    case Cited(annotations, snapshot) => CiteAct(s, p, annotations, snapshot, cite)
    case Close => CloseAct(s, p)
  }

  function PerformAll(s: State, p: nat, acts: seq<Act>, cite: Cite): (r: (State, seq<Event>))
    requires Linked(s) && p < |s.blocks|
    ensures Linked(r.0) && |r.0.blocks| == |s.blocks| && Extends(s, r.0)
  {
    if acts == [] then (s, []) else
      var (s1, evs1) := PerformAll(s, p, acts[..|acts| - 1], cite);
      var (s2, evs2) := Perform(s1, p, acts[|acts| - 1], cite);
      (s2, evs1 + evs2)
  }

  // ---- what an event asks for ------------------------------------------------------------

  datatype Order =
    | Ignore
    | Greet
    | OnBlock(kind: Kind, acts: seq<Act>)
    | Finish(response: Option<Response>)
    | Fail

  /** applyOutputItem: only assistant messages are shown. */
  function ItemOrder(item: Item, stop: bool): (r: Order)
    ensures r.Ignore? || r.OnBlock?
  {
    var close := if stop then [Close] else [];
    match item.itemType
    case ReasoningType => OnBlock(ThinkingKind, [Merge(ReasoningText(item))] + close)
    case MessageType =>
      if item.role != "" && item.role != "assistant" then Ignore else
        OnBlock(TextKind, [Merge(MessageText(item.content)), Cited(MessageAnnotations(item.content), true)] + close)
    case ToolType => OnBlock(ToolKind, [Merge(item.arguments)] + close)
    case OtherType(_) => Ignore
  }

  function MergeIfPresent(text: Option<string>): seq<Act> { if text.Some? then [Merge(text.value)] else [] }

  function OrderOf(event: StreamEvent): Order {
    match event.eventType
    case Created => Greet
    case ReasoningDelta => OnBlock(ThinkingKind, [Append(event.delta)])
    case ReasoningDone => OnBlock(ThinkingKind, MergeIfPresent(event.text) + [Break])
    case OutputTextDelta => OnBlock(TextKind, [Append(event.delta)])
    case OutputTextDone => OnBlock(TextKind, MergeIfPresent(event.text))
    case AnnotationAdded =>
      if event.annotation.Parsed? then OnBlock(TextKind, [Cited([event.annotation.annotation], false)]) else Fail
    case ItemAdded => if event.item.Some? then ItemOrder(event.item.value, false) else Ignore
    case ItemDone => if event.item.Some? then ItemOrder(event.item.value, true) else Ignore
    case ArgumentsDelta => OnBlock(ToolKind, [Append(event.delta)])
    case ArgumentsDone => OnBlock(ToolKind, MergeIfPresent(event.arguments))
    case Completed => Finish(event.response)
    case Incomplete => Finish(event.response)
    case Failed => Fail
    case OtherEvent => Ignore
  }

  /** Route the event to its block and perform the acts there. */
  function Obey(s: State, event: StreamEvent, kind: Kind, acts: seq<Act>, cite: Cite): (r: Option<(State, seq<Event>)>)
    requires Linked(s)
    ensures r.Some? ==> Linked(r.value.0) && Extends(s, r.value.0)
  {
    var block := EnsureBlock(s, event, kind);
    if block.None? then None else Some(PerformAll(block.value.0, block.value.1, acts, cite))
  }

  /** The event a terminal response's output item stands for. */
  function OutputEvent(item: Item, position: nat): StreamEvent {
    StreamEvent(ItemDone, None, "", None, None, Some(item), NoAnnotation, Some(position), item.id)
  }

  function OutputItems(s: State, output: seq<Item>, cite: Cite): (r: Option<(State, seq<Event>)>)
    requires Linked(s)
    ensures r.Some? ==> Linked(r.value.0) && Extends(s, r.value.0)
  {
    if output == [] then Some((s, [])) else
      var n := |output| - 1;
      var before := OutputItems(s, output[..n], cite);
      if before.None? then None else
        var order := ItemOrder(output[n], true);
        if order.Ignore? then before else
          var after := Obey(before.value.0, OutputEvent(output[n], n), order.kind, order.acts, cite);
          if after.None? then None else Some((after.value.0, before.value.1 + after.value.1))
  }

  function CloseAll(s: State, count: nat): (r: (State, seq<Event>))
    requires Linked(s) && count <= |s.blocks|
    ensures Linked(r.0) && |r.0.blocks| == |s.blocks| && Extends(s, r.0)
  {
    if count == 0 then (s, []) else
      var (s1, evs1) := CloseAll(s, count - 1);
      var (s2, evs2) := CloseAct(s1, count - 1);
      (s2, evs1 + evs2)
  }

  /** responsesClaudeStopReason. */
  function StopReason(response: Option<Response>, sawToolCall: bool): string {
    var reason := FinishReasonFromStatus(response);
    if reason == Some("content_filter") then "refusal"
    else if reason.Some? then "max_tokens"
    else if sawToolCall then "tool_use"
    else "end_turn"
  }

  /** What ends the message once the output items are in. */
  function Conclude(s: State, response: Option<Response>): (r: (State, seq<Event>))
    requires Linked(s)
    ensures Linked(r.0) && |r.0.blocks| == |s.blocks| && Extends(s, r.0)
  {
    var (s1, evs) := CloseAll(s, |s.blocks|);
    (s1.(sentStart := true, done := true),
     evs + MessageOpened(s1) + [MessageDelta(StopReason(response, s1.sawToolCall)), MessageStop])
  }

  /** finish. */
  function FinishWith(s: State, response: Option<Response>, cite: Cite): (r: Option<(State, seq<Event>)>)
    requires Linked(s)
    ensures r.Some? ==> Linked(r.value.0) && Extends(s, r.value.0)
  {
    var items := if response.Some? then OutputItems(s, response.value.output, cite) else Some((s, []));
    if items.None? then None else
      var (s', evs) := Conclude(items.value.0, response);
      Some((s', items.value.1 + evs))
  }

  /** ConvertChunk; None is an error. */
  function Step(s: State, event: StreamEvent, cite: Cite): (r: Option<(State, seq<Event>)>)
    requires Linked(s)
    ensures r.Some? ==> Linked(r.value.0) && Extends(s, r.value.0)
  {
    if s.done then Some((s, [])) else
      match OrderOf(event)
      case Ignore => Some((s, []))
      case Greet => Some((s.(sentStart := true), MessageOpened(s)))
      case OnBlock(kind, acts) => Obey(s, event, kind, acts, cite)
      case Finish(response) => FinishWith(s, response, cite)
      case Fail => None
  }

  /** Finalize: nothing is left to do after a terminal event. */
  function Final(s: State): (r: (State, seq<Event>))
    requires Linked(s)
    ensures Linked(r.0) && Extends(s, r.0)
  {
    if s.done then (s, []) else Conclude(s, None)
  }

  // ---- runs --------------------------------------------------------------------------------

  /** A stream of events, up to the first error. */
  function Run(events: seq<StreamEvent>, cite: Cite): (r: Option<(State, seq<Event>)>)
    ensures r.Some? ==> Linked(r.value.0)
  {
    if events == [] then Some((INITIAL, [])) else
      var n := |events| - 1;
      var before := Run(events[..n], cite);
      if before.None? then None else
        var after := Step(before.value.0, events[n], cite);
        if after.None? then None else Some((after.value.0, before.value.1 + after.value.1))
  }

  /** The whole output of an error-free stream, finalizer included. */
  function Output(events: seq<StreamEvent>, cite: Cite): seq<Event>
    requires Run(events, cite).Some?
  {
    Run(events, cite).value.1 + Final(Run(events, cite).value.0).1
  }
}
