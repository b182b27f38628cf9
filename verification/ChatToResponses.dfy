/** The Chat to Responses stream converter: every kind of content becomes an output item
    with its own index, announced, filled and completed by events. */
module ChatToResponses {
  import opened Basics
  import opened ChatDto
  import opened ResponsesDto
  import InsertionSort
  import Text

  datatype Status = StatusCompleted | StatusIncomplete | StatusFailed

  /** A function call; its index is where it was announced. */
  datatype Call = Call(outputIndex: nat, itemId: string, callId: string, name: string, arguments: string, done: bool)

  /** A provider-hosted call. */
  datatype HostedCall = HostedCall(outputIndex: nat, item: Item, done: bool)

  datatype Ref = MessageRef | ReasoningRef | ToolRef(index: int) | HostedRef(id: string)

  /** order lists what was announced; its length is the next output index. */
  datatype State = State(
    id: string,
    status: Status,
    incompleteReason: Option<string>,
    sentCreated: bool,
    finalized: bool,
    order: seq<Ref>,
    textIndex: int,
    textStarted: bool,
    textDone: bool,
    text: string,
    annotations: seq<Annotation>,
    reasoningIndex: int,
    reasoningStarted: bool,
    reasoningDone: bool,
    reasoning: string,
    tools: map<int, Call>,
    hosted: map<string, HostedCall>)

  function Initial(id: string): State {
    State(id, StatusCompleted, None, false, false, [], -1, false, false, "", [], -1, false, false, "", map[], map[])
  }

  /** Steps change neither the id nor whether the stream was ended. */
  predicate SameStream(s: State, s': State) { s'.id == s.id && s'.finalized == s.finalized }

  // ---- events ---------------------------------------------------------------------------

  /** An event about the item at an index. */
  function About(eventType: EventType, index: int, itemId: string): StreamEvent {
    StreamEvent(eventType, None, "", None, None, None, NoAnnotation, Some(index), itemId)
  }

  function Announcing(index: int, itemId: string, item: Item): StreamEvent {
    About(ItemAdded, index, itemId).(item := Some(item))
  }

  function Completing(index: int, itemId: string, item: Item): StreamEvent {
    About(ItemDone, index, itemId).(item := Some(item))
  }

  function Bare(eventType: EventType, response: Option<Response>): StreamEvent {
    StreamEvent(eventType, response, "", None, None, None, NoAnnotation, None, "")
  }

  // ---- items ------------------------------------------------------------------------------

  function MessageId(s: State): string { s.id + "_msg_0" }

  function ReasoningId(s: State): string { s.id + "_reasoning_0" }

  function EmptyItem(itemType: ItemType, id: string): Item { Item(itemType, id, "", "", "", [], [], "") }

  function MessageItem(s: State): Item {
    EmptyItem(MessageType, MessageId(s)).(role := "assistant", content := [ContentPart(true, s.text, s.annotations)])
  }

  function ReasoningItem(s: State): Item { EmptyItem(ReasoningType, ReasoningId(s)).(summary := [s.reasoning]) }

  function CallIdOf(call: Call): string { if call.callId == "" then call.itemId else call.callId }

  function ToolItem(call: Call): Item {
    EmptyItem(ToolType, call.itemId).(callId := CallIdOf(call), name := call.name, arguments := call.arguments)
  }

  // ---- text, reasoning, annotations -----------------------------------------------------------

  function EnsureCreated(s: State): (r: (State, seq<StreamEvent>))
    ensures SameStream(s, r.0)
  {
    if s.sentCreated then (s, []) else
      (s.(sentCreated := true), [Bare(Created, Some(Response(Some("in_progress"), None, [])))])
  }

  function StartText(s: State): (r: (State, seq<StreamEvent>))
    ensures SameStream(s, r.0)
  {
    if s.textStarted then (s, []) else
      (s.(textStarted := true, textIndex := |s.order|, order := s.order + [MessageRef]),
       [Announcing(|s.order|, "", EmptyItem(MessageType, MessageId(s)).(role := "assistant"))])
  }

  function TextStep(s: State, delta: string): (r: (State, seq<StreamEvent>))
    ensures SameStream(s, r.0)
  {
    var (s1, evs) := StartText(s);
    (s1.(text := s1.text + delta), evs + [About(OutputTextDelta, s1.textIndex, MessageId(s1)).(delta := delta)])
  }

  function AnnotationEvents(s: State, annotations: seq<Annotation>): seq<StreamEvent> {
    if annotations == [] then [] else
      AnnotationEvents(s, annotations[..|annotations| - 1]) +
      [About(AnnotationAdded, s.textIndex, MessageId(s)).(annotation := Parsed(annotations[|annotations| - 1]))]
  }

  function AnnotationStep(s: State, annotations: seq<Annotation>): (r: (State, seq<StreamEvent>))
    ensures SameStream(s, r.0)
  {
    var (s1, evs) := StartText(s);
    (s1.(annotations := s1.annotations + annotations), evs + AnnotationEvents(s1, annotations))
  }

  function StartReasoning(s: State): (r: (State, seq<StreamEvent>))
    ensures SameStream(s, r.0)
  {
    if s.reasoningStarted then (s, []) else
      (s.(reasoningStarted := true, reasoningIndex := |s.order|, order := s.order + [ReasoningRef]),
       [Announcing(|s.order|, "", EmptyItem(ReasoningType, ReasoningId(s)))])
  }

  function ReasoningStep(s: State, delta: string): (r: (State, seq<StreamEvent>))
    ensures SameStream(s, r.0)
  {
    var (s1, evs) := StartReasoning(s);
    (s1.(reasoning := s1.reasoning + delta),
     evs + [About(ReasoningDelta, s1.reasoningIndex, ReasoningId(s1)).(delta := delta)])
  }

  // ---- function calls ----------------------------------------------------------------------------

  function NewCall(s: State, index: int, delta: ToolDelta): Call {
    var id := Text.Trim(delta.id);
    Call(|s.order|, if id == "" then s.id + "_call_" + Text.SignedDecimal(index) else id, id, Text.Trim(delta.name), "",
         false)
  }

  /** Announce the call at a Chat index, unless it is known. */
  function StartCall(s: State, index: int, delta: ToolDelta): (r: (State, seq<StreamEvent>))
    ensures index in r.0.tools && SameStream(s, r.0)
  {
    if index in s.tools then (s, []) else
      var call := NewCall(s, index, delta);
      (s.(order := s.order + [ToolRef(index)], tools := s.tools[index := call]),
       [Announcing(|s.order|, call.itemId, ToolItem(call))])
  }

  /** A call is closed once done, and keeps the id and name it has. */
  predicate Accepts(call: Call, delta: ToolDelta) {
    var id, name := Text.Trim(delta.id), Text.Trim(delta.name);
    && !call.done
    && (id == "" || call.callId == "" || call.callId == id)
    && (name == "" || call.name == "" || call.name == name)
  }

  function Filled(call: Call, delta: ToolDelta): Call {
    var id, name := Text.Trim(delta.id), Text.Trim(delta.name);
    call.(callId := if id != "" then id else call.callId, name := if name != "" then name else call.name,
          arguments := call.arguments + delta.arguments)
  }

  /** appendToolCallDelta; None is an error. */
  function ToolStep(s: State, delta: ToolDelta): (r: Option<(State, seq<StreamEvent>)>)
    ensures r.Some? ==> SameStream(s, r.value.0)
  {
    var index := delta.index.GetOr(0);
    var (s1, evs) := StartCall(s, index, delta);
    var call := s1.tools[index];
    if !Accepts(call, delta) then None else
      Some((s1.(tools := s1.tools[index := Filled(call, delta)]),
            evs + if delta.arguments == "" then []
                  else [About(ArgumentsDelta, call.outputIndex, call.itemId).(delta := delta.arguments)]))
  }

  function ToolSteps(s: State, deltas: seq<ToolDelta>): (r: Option<(State, seq<StreamEvent>)>)
    ensures r.Some? ==> SameStream(s, r.value.0)
  {
    if deltas == [] then Some((s, [])) else
      var before := ToolSteps(s, deltas[..|deltas| - 1]);
      if before.None? then None else
        var after := ToolStep(before.value.0, deltas[|deltas| - 1]);
        if after.None? then None else Some((after.value.0, before.value.1 + after.value.1))
  }

  // ---- completion -----------------------------------------------------------------------------------

  /** Text in a done event is only given to consumers of numbered events. */
  function Given(numbered: bool, text: string): Option<string> { if numbered then Some(text) else None }

  function CloseText(s: State, numbered: bool): (r: (State, seq<StreamEvent>))
    ensures SameStream(s, r.0)
  {
    if !s.textStarted || s.textDone then (s, []) else
      (s.(textDone := true),
       [About(OutputTextDone, s.textIndex, MessageId(s)).(text := Given(numbered, s.text)),
        Completing(s.textIndex, "", MessageItem(s))])
  }

  function CloseReasoning(s: State, numbered: bool): (r: (State, seq<StreamEvent>))
    ensures SameStream(s, r.0)
  {
    if !s.reasoningStarted || s.reasoningDone then (s, []) else
      (s.(reasoningDone := true),
       [About(ReasoningDone, s.reasoningIndex, ReasoningId(s)).(text := Given(numbered, s.reasoning)),
        Completing(s.reasoningIndex, "", ReasoningItem(s))])
  }

  function CloseCall(s: State, index: int, numbered: bool): (r: (State, seq<StreamEvent>))
    ensures SameStream(s, r.0)
  {
    if index !in s.tools || s.tools[index].done then (s, []) else
      var call := s.tools[index];
      (s.(tools := s.tools[index := call.(done := true)]),
       [About(ArgumentsDone, call.outputIndex, call.itemId).(arguments := Given(numbered, call.arguments)),
        Completing(call.outputIndex, "", ToolItem(call))])
  }

  function CloseCalls(s: State, indexes: seq<int>, numbered: bool): (r: (State, seq<StreamEvent>))
    ensures SameStream(s, r.0)
  {
    if indexes == [] then (s, []) else
      var (s1, evs1) := CloseCalls(s, indexes[..|indexes| - 1], numbered);
      var (s2, evs2) := CloseCall(s1, indexes[|indexes| - 1], numbered);
      (s2, evs1 + evs2)
  }

  /** The Chat indexes of the announced calls. */
  function ToolIndexes(refs: seq<Ref>): seq<int> {
    if refs == [] then [] else
      ToolIndexes(refs[..|refs| - 1]) + if refs[|refs| - 1].ToolRef? then [refs[|refs| - 1].index] else []
  }

  /** Only an MCP call has a failure event of its own. */
  function FailureEvent(call: HostedCall, itemId: string): seq<StreamEvent> {
    if call.item.itemType == OtherType("mcp_call") then [About(OtherEvent, call.outputIndex, itemId)] else []
  }

  /** A hosted call the provider never completed makes the response incomplete. */
  function CloseHosted(s: State, id: string): (r: (State, seq<StreamEvent>))
    ensures SameStream(s, r.0)
  {
    if id !in s.hosted || s.hosted[id].done then (s, []) else
      var call := s.hosted[id];
      var failed := s.status == StatusFailed;
      (s.(status := if failed then s.status else StatusIncomplete, hosted := s.hosted[id := call.(done := true)]),
       (if failed then FailureEvent(call, call.item.id) else []) +
       [Completing(call.outputIndex, call.item.id, call.item)])
  }

  function CloseHostedRefs(s: State, refs: seq<Ref>): (r: (State, seq<StreamEvent>))
    ensures SameStream(s, r.0)
  {
    if refs == [] then (s, []) else
      var (s1, evs1) := CloseHostedRefs(s, refs[..|refs| - 1]);
      var ref := refs[|refs| - 1];
      if !ref.HostedRef? then (s1, evs1) else
        var (s2, evs2) := CloseHosted(s1, ref.id);
        (s2, evs1 + evs2)
  }

  /** doneDeltaEvents: calls are completed in the order of their Chat indexes. */
  function CloseAll(s: State, numbered: bool): (r: (State, seq<StreamEvent>))
    ensures SameStream(s, r.0)
  {
    var (s1, evs1) := CloseText(s, numbered);
    var (s2, evs2) := CloseReasoning(s1, numbered);
    var (s3, evs3) := CloseCalls(s2, InsertionSort.Sorted(ToolIndexes(s2.order)), numbered);
    var (s4, evs4) := CloseHostedRefs(s3, s3.order);
    (s4, evs1 + evs2 + evs3 + evs4)
  }

  // ---- chunks -----------------------------------------------------------------------------------------

  /** ResponsesStatusFromChatFinishReason: the status a trimmed reason stands for. */
  function StatusFor(reason: string): (Status, Option<string>) {
    if reason == "length" then (StatusIncomplete, Some("max_output_tokens"))
    else if reason == "content_filter" then (StatusIncomplete, Some("content_filter"))
    else (StatusCompleted, None)
  }

  /** applyFinishReason: every reason sets the status. */
  function Finished(s: State, reason: string): (r: State)
    ensures SameStream(s, r)
  {
    var status := StatusFor(Text.Trim(reason));
    s.(status := status.0, incompleteReason := status.1)
  }

  predicate Finishes(choice: Choice) { choice.finishReason.Some? && Text.Trim(choice.finishReason.value) != "" }

  function ReasoningPart(s: State, choice: Choice): (r: (State, seq<StreamEvent>))
    ensures SameStream(s, r.0)
  {
    if choice.reasoning == "" then (s, []) else ReasoningStep(s, choice.reasoning)
  }

  function TextPart(s: State, choice: Choice): (r: (State, seq<StreamEvent>))
    ensures SameStream(s, r.0)
  {
    if choice.text == "" then (s, []) else TextStep(s, choice.text)
  }

  function AnnotationPart(s: State, choice: Choice): (r: Option<(State, seq<StreamEvent>)>)
    ensures r.Some? ==> SameStream(s, r.value.0)
  {
    match choice.annotations
    case NoAnnotations => Some((s, []))
    case BadAnnotations => None
    case AnnotationList(list) => Some(AnnotationStep(s, list))
  }

  function FinishPart(s: State, choice: Choice, numbered: bool): (r: (State, seq<StreamEvent>))
    ensures SameStream(s, r.0)
  {
    if !Finishes(choice) then (s, []) else
      var s1 := Finished(s, choice.finishReason.value);
      CloseAll(s1, numbered)
  }

  function ChoiceStep(s: State, choice: Choice, numbered: bool): (r: Option<(State, seq<StreamEvent>)>)
    ensures r.Some? ==> SameStream(s, r.value.0)
  {
    var (s1, evs1) := ReasoningPart(s, choice);
    var (s2, evs2) := TextPart(s1, choice);
    var annotated := AnnotationPart(s2, choice);
    if annotated.None? then None else
      var called := ToolSteps(annotated.value.0, choice.toolCalls);
      if called.None? then None else
        var (s5, evs5) := FinishPart(called.value.0, choice, numbered);
        Some((s5, evs1 + evs2 + annotated.value.1 + called.value.1 + evs5))
  }

  function ChoiceSteps(s: State, choices: seq<Choice>, numbered: bool): (r: Option<(State, seq<StreamEvent>)>)
    ensures r.Some? ==> SameStream(s, r.value.0)
  {
    if choices == [] then Some((s, [])) else
      var before := ChoiceSteps(s, choices[..|choices| - 1], numbered);
      if before.None? then None else
        var after := ChoiceStep(before.value.0, choices[|choices| - 1], numbered);
        if after.None? then None else Some((after.value.0, before.value.1 + after.value.1))
  }

  function Named(s: State, id: string): State { if s.id == "" then s.(id := id) else s }

  /** ChatCompletionsStreamChunkToResponsesEvents. */
  function ChunkStep(s: State, chunk: Chunk, numbered: bool): Option<(State, seq<StreamEvent>)> {
    var (s1, evs1) := EnsureCreated(Named(s, chunk.id));
    var rest := ChoiceSteps(s1, chunk.choices, numbered);
    if rest.None? then None else Some((rest.value.0, evs1 + rest.value.1))
  }

  // ---- hosted calls --------------------------------------------------------------------------------------

  /** action is the normalized web-search action, or the MCP arguments as a JSON string;
      absent when the provider's payload cannot be encoded. */
  datatype HostedStart = HostedStart(hostedType: string, id: string, name: string, serverLabel: string,
                                     action: Option<string>, caller: string)

  /** result is absent when the provider's payload cannot be encoded. */
  datatype HostedResult = HostedResult(hostedType: string, id: string, result: Option<string>, errorCode: string,
                                       isError: bool)

  predicate Startable(s: State, start: HostedStart) {
    && Text.Trim(start.id) != "" && Text.Trim(start.id) !in s.hosted
    && (start.hostedType == "web_search_call" || start.hostedType == "mcp_call")
    && (Text.Trim(start.caller) == "" || Text.Trim(start.caller) == "null")
    && (start.hostedType == "mcp_call" ==> Text.Trim(start.name) != "" && Text.Trim(start.serverLabel) != "")
    && start.action.Some?
  }

  function HostedItem(start: HostedStart): Item
    requires start.action.Some?
  {
    var item := EmptyItem(OtherType(start.hostedType), Text.Trim(start.id));
    if start.hostedType == "mcp_call" then item.(name := start.name, arguments := start.action.value) else item
  }

  /** StartHostedTool; None is an error. */
  function StartStep(s: State, start: HostedStart): (r: Option<(State, seq<StreamEvent>)>)
    ensures r.Some? ==> SameStream(s, r.value.0)
  {
    if !Startable(s, start) then None else
      var id, index := Text.Trim(start.id), |s.order|;
      var item := HostedItem(start);
      var (s1, evs) := EnsureCreated(s.(order := s.order + [HostedRef(id)],
                                        hosted := s.hosted[id := HostedCall(index, item, false)]));
      Some((s1, evs + [Announcing(index, id, item.(arguments := "")), About(OtherEvent, index, id)] +
                if start.hostedType == "web_search_call" then [About(OtherEvent, index, id)]
                else [About(OtherEvent, index, id).(delta := start.action.value),
                      About(OtherEvent, index, id).(arguments := Some(start.action.value))]))
  }

  predicate Completable(s: State, result: HostedResult) {
    var id := Text.Trim(result.id);
    && id in s.hosted && !s.hosted[id].done
    && (result.hostedType == "" || OtherType(result.hostedType) == s.hosted[id].item.itemType)
    && (s.hosted[id].item.itemType == OtherType("mcp_call") ==> result.result.Some?)
  }

  /** CompleteHostedTool; None is an error. */
  function CompleteStep(s: State, result: HostedResult): (r: Option<(State, seq<StreamEvent>)>)
    ensures r.Some? ==> SameStream(s, r.value.0)
  {
    if !Completable(s, result) then None else
      var id := Text.Trim(result.id);
      var call := s.hosted[id];
      var failed := result.isError || Text.Trim(result.errorCode) != "";
      Some((s.(hosted := s.hosted[id := call.(done := true)]),
            (if failed then FailureEvent(call, id) else [About(OtherEvent, call.outputIndex, id)]) +
            [Completing(call.outputIndex, id, call.item)]))
  }

  // ---- the end ------------------------------------------------------------------------------------------------

  /** The item a reference stands for in the terminal response. */
  function Output(s: State, ref: Ref): seq<Item> {
    match ref
    case MessageRef => [MessageItem(s)]
    case ReasoningRef => [ReasoningItem(s)]
    case ToolRef(index) => if index in s.tools then [ToolItem(s.tools[index])] else []
    case HostedRef(id) => if id in s.hosted then [s.hosted[id].item] else []
  }

  function Outputs(s: State, refs: seq<Ref>): seq<Item> {
    if refs == [] then [] else Outputs(s, refs[..|refs| - 1]) + Output(s, refs[|refs| - 1])
  }

  function StatusText(status: Status): string {
    match status
    case StatusCompleted => "completed"
    case StatusIncomplete => "incomplete"
    case StatusFailed => "failed"
  }

  /** finalResponse. */
  function FinalResponse(s: State): Response {
    Response(Some(StatusText(s.status)), s.incompleteReason, Outputs(s, s.order))
  }

  /** FinalizeChatCompletionsStreamToResponses. */
  function Finalize(s: State, numbered: bool): (State, seq<StreamEvent>) {
    if s.finalized then (s, []) else
      var (s1, evs) := CloseAll(s, numbered);
      var s2 := s1.(finalized := true);
      (s2, evs + [Bare(if s2.status == StatusIncomplete then Incomplete else Completed, Some(FinalResponse(s2)))])
  }

  /** Fail: the same closing, then an error and the failed response. */
  function Fail(s: State, numbered: bool): (State, seq<StreamEvent>) {
    if s.finalized then (s, []) else
      var (s1, evs1) := EnsureCreated(s.(status := StatusFailed));
      var (s2, evs2) := CloseAll(s1, numbered);
      var s3 := s2.(finalized := true);
      (s3, evs1 + evs2 + [Bare(OtherEvent, None), Bare(Failed, Some(FinalResponse(s3)))])
  }

  // ---- runs ------------------------------------------------------------------------------------------------------

  datatype Input = OnChunk(chunk: Chunk) | OnStart(start: HostedStart) | OnComplete(result: HostedResult)

  function Step(s: State, input: Input, numbered: bool): Option<(State, seq<StreamEvent>)> {
    match input
    case OnChunk(chunk) => ChunkStep(s, chunk, numbered)
    case OnStart(start) => StartStep(s, start)
    case OnComplete(result) => CompleteStep(s, result)
  }

  function Run(id: string, inputs: seq<Input>, numbered: bool): Option<(State, seq<StreamEvent>)> {
    if inputs == [] then Some((Initial(id), [])) else
      var before := Run(id, inputs[..|inputs| - 1], numbered);
      if before.None? then None else
        var after := Step(before.value.0, inputs[|inputs| - 1], numbered);
        if after.None? then None else Some((after.value.0, before.value.1 + after.value.1))
  }
}
