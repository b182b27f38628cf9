/** Chat to Responses and back: a Chat stream sent through both converters comes out with
    the same text, the same reasoning, the same tool calls and the same finish reason. */
module RoundTrip {
  import opened Basics
  import opened ChatDto
  import opened ResponsesDto
  import opened ToolKeys
  import There = ChatToResponses
  import Back = ResponsesToChat
  import InsertionSort
  import Text

  // ---- what a stream says --------------------------------------------------------------

  datatype ToolCall = ToolCall(id: string, name: string, arguments: string)

  function Choices(chunks: seq<Chunk>): seq<Choice> {
    if chunks == [] then [] else Choices(chunks[..|chunks| - 1]) + chunks[|chunks| - 1].choices
  }

  function TextOf(choices: seq<Choice>): string {
    if choices == [] then "" else TextOf(choices[..|choices| - 1]) + choices[|choices| - 1].text
  }

  function ReasoningOf(choices: seq<Choice>): string {
    if choices == [] then "" else ReasoningOf(choices[..|choices| - 1]) + choices[|choices| - 1].reasoning
  }

  function Fragments(choices: seq<Choice>): seq<ToolDelta> {
    if choices == [] then [] else Fragments(choices[..|choices| - 1]) + choices[|choices| - 1].toolCalls
  }

  function IndexOf(delta: ToolDelta): int { delta.index.GetOr(0) }

  /** Where the call at a Chat index stands; |calls| when it is not there. */
  function Position(calls: seq<(int, ToolCall)>, index: int): (p: nat)
    ensures p <= |calls|
    ensures p < |calls| ==> calls[p].0 == index
    ensures forall q :: 0 <= q < p ==> calls[q].0 != index
  {
    if calls == [] then 0
    else if calls[0].0 == index then 0
    else 1 + Position(calls[1..], index)
  }

  /** The calls a client makes of the fragments: in order of first appearance. */
  function Gather(deltas: seq<ToolDelta>): seq<(int, ToolCall)> {
    if deltas == [] then [] else
      var calls, d := Gather(deltas[..|deltas| - 1]), deltas[|deltas| - 1];
      var p := Position(calls, IndexOf(d));
      if p == |calls| then calls + [(IndexOf(d), ToolCall(d.id, d.name, d.arguments))]
      else calls[p := (IndexOf(d), calls[p].1.(arguments := calls[p].1.arguments + d.arguments))]
  }

  function Calls(gathered: seq<(int, ToolCall)>): seq<ToolCall> {
    seq(|gathered|, t requires 0 <= t < |gathered| => gathered[t].1)
  }

  /** The same, of the chunks that come back, whose indexes are dense. */
  function Heard(trace: seq<Back.Chunk>): seq<ToolCall> {
    if trace == [] then [] else
      var calls, c := Heard(trace[..|trace| - 1]), trace[|trace| - 1];
      if !c.ToolChunk? then calls
      else if c.index >= |calls| then calls + [ToolCall(c.id, c.name, c.arguments)]
      else calls[c.index := calls[c.index].(arguments := calls[c.index].arguments + c.arguments)]
  }

  function TextHeard(trace: seq<Back.Chunk>): string {
    if trace == [] then "" else
      TextHeard(trace[..|trace| - 1]) + if trace[|trace| - 1].ContentChunk? then trace[|trace| - 1].text else ""
  }

  function ReasoningHeard(trace: seq<Back.Chunk>): string {
    if trace == [] then "" else
      ReasoningHeard(trace[..|trace| - 1]) + if trace[|trace| - 1].ReasoningChunk? then trace[|trace| - 1].text else ""
  }

  function FinishHeard(trace: seq<Back.Chunk>): seq<string> {
    if trace == [] then [] else
      FinishHeard(trace[..|trace| - 1]) + if trace[|trace| - 1].FinishChunk? then [trace[|trace| - 1].reason] else []
  }

  /** Everything a client hears. */
  datatype Message = Message(text: string, reasoning: string, tools: seq<ToolCall>, finishes: seq<string>)

  function MessageOf(trace: seq<Back.Chunk>): Message {
    Message(TextHeard(trace), ReasoningHeard(trace), Heard(trace), FinishHeard(trace))
  }

  lemma HeardSnoc(trace: seq<Back.Chunk>, c: Back.Chunk)
    ensures var m := MessageOf(trace);
            MessageOf(trace + [c]) ==
            match c
            case ContentChunk(text) => m.(text := m.text + text)
            case ReasoningChunk(text) => m.(reasoning := m.reasoning + text)
            case ToolChunk(index, id, name, arguments) =>
              m.(tools := if index >= |m.tools| then m.tools + [ToolCall(id, name, arguments)]
                          else m.tools[index := m.tools[index].(arguments := m.tools[index].arguments + arguments)])
            case FinishChunk(reason) => m.(finishes := m.finishes + [reason])
            case _ => m
  {
    assert (trace + [c])[..|trace|] == trace;
    assert TextHeard(trace) + "" == TextHeard(trace) && ReasoningHeard(trace) + "" == ReasoningHeard(trace);
    assert FinishHeard(trace) + [] == FinishHeard(trace);
  }

  // ---- listening to events ------------------------------------------------------------------

  ghost function Listen(r: Back.State, events: seq<StreamEvent>,
                        includeUsage: bool): (l: Option<(Back.State, seq<Back.Chunk>)>)
    requires Back.Linked(r.tools)
    ensures l.Some? ==> Back.Linked(l.value.0.tools)
  {
    if events == [] then Some((r, [])) else
      var before := Listen(r, events[..|events| - 1], includeUsage);
      if before.None? then None else
        var after := Back.Step(before.value.0, events[|events| - 1], includeUsage);
        if after.None? then None else Some((after.value.0, before.value.1 + after.value.1))
  }

  lemma {:induction false} ListenIsRun(events: seq<StreamEvent>, includeUsage: bool)
    ensures Listen(Back.INITIAL, events, includeUsage) == Back.Run(events, includeUsage)
  {
    hide Back.Step;
    if events != [] {
      ListenIsRun(events[..|events| - 1], includeUsage);
    }
  }

  lemma {:induction false} ListenConcat(r: Back.State, a: seq<StreamEvent>, b: seq<StreamEvent>, includeUsage: bool)
    requires Back.Linked(r.tools) && Listen(r, a, includeUsage).Some?
    ensures var (r1, out1) := Listen(r, a, includeUsage).value;
            var rest := Listen(r1, b, includeUsage);
            Listen(r, a + b, includeUsage) == if rest.None? then None else Some((rest.value.0, out1 + rest.value.1))
  {
    hide Back.Step, Back.Linked;
    var (r1, out1) := Listen(r, a, includeUsage).value;
    if b == [] {
      assert a + b == a && out1 + [] == out1;
    } else {
      var n := |b| - 1;
      assert (a + b)[..|a + b| - 1] == a + b[..n];
      ListenConcat(r, a, b[..n], includeUsage);
      var rest := Listen(r1, b[..n], includeUsage);
      if rest.Some? {
        var last := Back.Step(rest.value.0, b[n], includeUsage);
        if last.Some? { assert out1 + (rest.value.1 + last.value.1) == (out1 + rest.value.1) + last.value.1; }
      }
    }
  }

  // ---- the two machines in step -----------------------------------------------------------------

  /** The calls of the first machine, in order of announcement. */
  function Announced(s: There.State): seq<int> { There.ToolIndexes(s.order) }

  /** A record of the second machine that holds a call of the first, fully sent. */
  predicate Holds(call: There.Call, tool: Back.Tool) {
    && call.callId == call.itemId && call.itemId != "" && Text.Trim(call.itemId) == call.itemId
    && call.name != "" && Text.Trim(call.name) == call.name
    && tool == Back.Tool(OutputKey(call.outputIndex), call.callId, call.itemId, call.name, call.arguments, true, true,
                         |call.arguments|)
  }

  /** Every record holds the call announced at its place. */
  predicate Paired(s: There.State, list: seq<Back.Tool>) {
    && |list| == |Announced(s)|
    && (forall t :: 0 <= t < |list| ==> Announced(s)[t] in s.tools && Holds(s.tools[Announced(s)[t]], list[t]))
    && (forall t, u :: 0 <= t < u < |list| ==> Announced(s)[t] != Announced(s)[u] && list[t].itemId != list[u].itemId)
    && (forall i :: i in s.tools ==> i in Announced(s))
    && (forall t :: 0 <= t < |list| ==> s.tools[Announced(s)[t]].outputIndex < |s.order|)
  }

  predicate KeyFits(key: Key, tool: Back.Tool) {
    match key
    case OutputKey(_) => tool.key == key
    case ItemKey(id) => tool.itemId == id
    case CallKey(_) => false
  }

  /** All keys lead to the record that carries the identifier. */
  predicate Keyed(ts: Back.Tools) {
    && Back.Linked(ts) && ts.pendingOutput == map[] && ts.pendingItem == map[]
    && KeysFit(ts) && IdsFit(ts)
    && (forall i :: i in ts.outputKeys ==> ts.outputKeys[i] == OutputKey(i))
    && (forall t :: 0 <= t < |ts.list| ==> HasKeys(ts, t))
  }

  predicate KeysFit(ts: Back.Tools)
    requires Back.Linked(ts)
  {
    forall k :: k in ts.byKey ==> KeyFits(k, ts.list[ts.byKey[k]])
  }

  predicate IdsFit(ts: Back.Tools)
    requires Back.Linked(ts)
  {
    && (forall x :: x in ts.itemKeys ==> ts.list[ts.byKey[ts.itemKeys[x]]].itemId == x)
    && (forall x :: x in ts.callKeys ==> ts.list[ts.byKey[ts.callKeys[x]]].callId == x)
  }

  /** A record is reachable under its output index and its item id. */
  predicate HasKeys(ts: Back.Tools, t: nat)
    requires Back.Linked(ts) && t < |ts.list|
  {
    var tool := ts.list[t];
    && tool.key.OutputKey? && tool.key.index in ts.outputKeys && tool.key in ts.byKey && ts.byKey[tool.key] == t
    && tool.itemId in ts.itemKeys && ts.byKey[ts.itemKeys[tool.itemId]] == t
  }

  /** The calls as a client of the first machine's state would list them. */
  function CallsOf(s: There.State): seq<ToolCall>
    requires forall t :: 0 <= t < |Announced(s)| ==> Announced(s)[t] in s.tools
  {
    seq(|Announced(s)|, t requires 0 <= t < |Announced(s)| =>
      var call := s.tools[Announced(s)[t]]; ToolCall(call.callId, call.name, call.arguments))
  }

  /** Before the end: the second machine has said all that the first has heard. */
  predicate InStep(s: There.State, r: Back.State, out: seq<Back.Chunk>) {
    && r.sentStart == s.sentCreated && !r.finalized
    && r.hasSentText == (s.text != "") && r.hasSentReasoning == (s.reasoning != "")
    && r.sawToolCall == (r.tools.list != [])
    && Paired(s, r.tools.list) && Keyed(r.tools)
    && MessageOf(out) == Message(s.text, s.reasoning, CallsOf(s), [])
  }

  /** Nothing was completed, so nothing asks for a paragraph break. */
  predicate Open(s: There.State, r: Back.State) {
    && !r.needsBreak && !s.textDone && !s.reasoningDone && s.hosted == map[]
    && (forall k :: 0 <= k < |s.order| ==> !s.order[k].HostedRef?)
    && (forall i :: i in s.tools ==> !s.tools[i].done)
    && (s.text != "" ==> s.textStarted) && (s.reasoning != "" ==> s.reasoningStarted)
  }

  /** The second machine, listening to events of the first, stays in step with it. */
  ghost predicate Stays(s: There.State, r: Back.State, out: seq<Back.Chunk>, evs: seq<StreamEvent>, s': There.State,
                        includeUsage: bool)
    requires Back.Linked(r.tools)
  {
    var l := Listen(r, evs, includeUsage);
    l.Some? && InStep(s', l.value.0, out + l.value.1)
  }

  lemma ListenOne(r: Back.State, e: StreamEvent, includeUsage: bool)
    requires Back.Linked(r.tools)
    ensures Listen(r, [e], includeUsage) == Back.Step(r, e, includeUsage)
  {
    hide Back.Step;
    assert [e][..0] == [];
    var l := Back.Step(r, e, includeUsage);
    if l.Some? { assert [] + l.value.1 == l.value.1; }
  }

  lemma ListenTwo(r: Back.State, a: StreamEvent, r1: Back.State, b: StreamEvent, r2: Back.State, includeUsage: bool)
    requires Back.Linked(r.tools) && Back.Linked(r1.tools)
    requires Back.Step(r, a, includeUsage) == Some((r1, [])) && Back.Step(r1, b, includeUsage) == Some((r2, []))
    ensures Listen(r, [a, b], includeUsage) == Some((r2, []))
  {
    hide Back.Step;
    ListenOne(r, a, includeUsage);
    assert [a, b][..1] == [a];
  }

  lemma ListenNothing(r: Back.State, includeUsage: bool)
    requires Back.Linked(r.tools)
    ensures Listen(r, [], includeUsage) == Some((r, []))
  {
  }

  /** Listening on after events that kept the machines in step. */
  lemma StaysThen(s: There.State, r: Back.State, out: seq<Back.Chunk>, a: seq<StreamEvent>, s1: There.State,
                  b: seq<StreamEvent>, s2: There.State, includeUsage: bool)
    requires Back.Linked(r.tools) && Stays(s, r, out, a, s1, includeUsage)
    requires var (r1, out1) := Listen(r, a, includeUsage).value; Stays(s1, r1, out + out1, b, s2, includeUsage)
    ensures Stays(s, r, out, a + b, s2, includeUsage)
    ensures Listen(r, a + b, includeUsage).value.0
            == Listen(Listen(r, a, includeUsage).value.0, b, includeUsage).value.0
  {
    hide InStep, Listen;
    ListenConcat(r, a, b, includeUsage);
    var (r1, out1) := Listen(r, a, includeUsage).value;
    var out2 := Listen(r1, b, includeUsage).value.1;
    assert out + (out1 + out2) == (out + out1) + out2;
  }

  // ---- events that say nothing ----------------------------------------------------------------

  predicate IsSilent(e: StreamEvent) {
    match e.eventType
    case OutputTextDone => true
    case ItemAdded => !Back.IsToolEvent(e)
    case ItemDone => !Back.IsToolEvent(e)
    case _ => false
  }

  lemma SilentStep(r: Back.State, e: StreamEvent, includeUsage: bool)
    requires Back.Linked(r.tools) && IsSilent(e)
    ensures Back.Step(r, e, includeUsage) == Some((r, []))
  {
  }

  // ---- text and reasoning -----------------------------------------------------------------------

  /** A chunk is heard once, whether or not it opens the message. */
  lemma SaidHeard(r: Back.State, out: seq<Back.Chunk>, chunk: Back.Chunk)
    ensures MessageOf(out + Back.Said(r, [chunk]).1) == MessageOf(out + [chunk])
  {
    if !r.sentStart {
      HeardSnoc(out, Back.RoleChunk);
      HeardSnoc(out + [Back.RoleChunk], chunk);
      HeardSnoc(out, chunk);
      assert out + ([Back.RoleChunk] + [chunk]) == (out + [Back.RoleChunk]) + [chunk];
    } else {
      assert [] + [chunk] == [chunk];
    }
  }

  lemma CreatedStays(s: There.State, r: Back.State, out: seq<Back.Chunk>, includeUsage: bool)
    requires InStep(s, r, out) && Open(s, r)
    ensures var (s', evs) := There.EnsureCreated(s);
            Stays(s, r, out, evs, s', includeUsage) && Open(s', Listen(r, evs, includeUsage).value.0)
  {
    hide MessageOf, Keyed, Announced, Back.Linked, Back.Terminal, Back.TextStep, Back.ToolStep, Back.ToolsSaid,
         CallsOf, Holds;
    var (s', evs) := There.EnsureCreated(s);
    SameAnnounced(s, s');
    KeyedLinked(r.tools);
    if s.sentCreated {
      ListenNothing(r, includeUsage);
      assert out + [] == out;
    } else {
      ListenOne(r, evs[0], includeUsage);
      HeardSnoc(out, Back.RoleChunk);
    }
  }

  lemma KeyedLinked(ts: Back.Tools)
    requires Keyed(ts)
    ensures Back.Linked(ts)
  {
  }

  /** What only touches the rest of the state leaves the calls alone. */
  lemma SameAnnounced(s: There.State, s': There.State)
    requires s'.tools == s.tools && (s'.order == s.order || s'.order == s.order + [There.MessageRef]
                                     || s'.order == s.order + [There.ReasoningRef])
    ensures Announced(s') == Announced(s)
    ensures forall list :: Paired(s, list) ==> Paired(s', list)
    ensures (forall t :: 0 <= t < |Announced(s)| ==> Announced(s)[t] in s.tools) ==> CallsOf(s') == CallsOf(s)
  {
    if s'.order != s.order {
      assert s'.order[..|s.order|] == s.order;
      assert Announced(s) + [] == Announced(s);
    }
  }

  lemma StartTextStays(s: There.State, r: Back.State, out: seq<Back.Chunk>, includeUsage: bool)
    requires InStep(s, r, out) && Open(s, r) && s.sentCreated
    ensures var (s', evs) := There.StartText(s);
            Stays(s, r, out, evs, s', includeUsage) && Listen(r, evs, includeUsage).value == (r, []) && Open(s', r)
              && s'.textStarted
  {
    hide MessageOf, Keyed;
    var (s', evs) := There.StartText(s);
    SameAnnounced(s, s');
    KeyedLinked(r.tools);
    assert out + [] == out;
    if s.textStarted {
      ListenNothing(r, includeUsage);
    } else {
      ListenOne(r, evs[0], includeUsage);
      SilentStep(r, evs[0], includeUsage);
    }
  }

  /** More text or reasoning leaves the calls alone. */
  lemma SpeechInStep(s: There.State, r: Back.State, out: seq<Back.Chunk>, s': There.State, r': Back.State,
                     out': seq<Back.Chunk>)
    requires InStep(s, r, out) && s' == s.(text := s'.text, reasoning := s'.reasoning)
    requires r' == r.(sentStart := r'.sentStart, hasSentText := r'.hasSentText, hasSentReasoning := r'.hasSentReasoning,
                      needsBreak := r'.needsBreak)
    requires r'.sentStart == s.sentCreated
    requires r'.hasSentText == (s'.text != "") && r'.hasSentReasoning == (s'.reasoning != "")
    requires MessageOf(out') == MessageOf(out).(text := s'.text, reasoning := s'.reasoning)
    ensures InStep(s', r', out')
  {
    hide MessageOf, Keyed, Paired;
    SameAnnounced(s, s');
  }

  lemma SpeechHeard(s: There.State, r: Back.State, out: seq<Back.Chunk>)
    requires InStep(s, r, out)
    ensures MessageOf(out).text == s.text && MessageOf(out).reasoning == s.reasoning
    ensures r.sentStart == s.sentCreated && r.hasSentText == (s.text != "") && r.hasSentReasoning == (s.reasoning != "")
  {
  }

  lemma TextDeltaStays(s: There.State, r: Back.State, out: seq<Back.Chunk>, e: StreamEvent, includeUsage: bool)
    requires InStep(s, r, out) && Open(s, r) && s.sentCreated && s.textStarted
    requires e.eventType.OutputTextDelta? && e.delta != ""
    ensures var s' := s.(text := s.text + e.delta);
            Stays(s, r, out, [e], s', includeUsage) && Open(s', Listen(r, [e], includeUsage).value.0)
  {
    hide MessageOf, InStep;
    StepLinked(s, r, out);
    SpeechHeard(s, r, out);
    ListenOne(r, e, includeUsage);
    SaidHeard(r.(hasSentText := true), out, Back.ContentChunk(e.delta));
    HeardSnoc(out, Back.ContentChunk(e.delta));
    var (r', more) := Back.TextStep(r, e.delta);
    SpeechInStep(s, r, out, s.(text := s.text + e.delta), r', out + more);
  }

  lemma TextStays(s: There.State, r: Back.State, out: seq<Back.Chunk>, delta: string, includeUsage: bool)
    requires InStep(s, r, out) && Open(s, r) && s.sentCreated && delta != ""
    ensures var (s', evs) := There.TextStep(s, delta);
            Stays(s, r, out, evs, s', includeUsage) && Open(s', Listen(r, evs, includeUsage).value.0)
  {
    hide InStep, Listen, Open;
    StepLinked(s, r, out);
    StartTextStays(s, r, out, includeUsage);
    var (s1, evs) := There.StartText(s);
    var e := There.About(OutputTextDelta, s1.textIndex, There.MessageId(s1)).(delta := delta);
    assert out + [] == out;
    TextDeltaStays(s1, r, out, e, includeUsage);
    StaysThen(s, r, out, evs, s1, [e], s1.(text := s1.text + delta), includeUsage);
  }

  lemma StepLinked(s: There.State, r: Back.State, out: seq<Back.Chunk>)
    requires InStep(s, r, out)
    ensures Back.Linked(r.tools)
  {
  }

  lemma StartReasoningStays(s: There.State, r: Back.State, out: seq<Back.Chunk>, includeUsage: bool)
    requires InStep(s, r, out) && Open(s, r) && s.sentCreated
    ensures var (s', evs) := There.StartReasoning(s);
            Stays(s, r, out, evs, s', includeUsage) && Listen(r, evs, includeUsage).value == (r, []) && Open(s', r)
              && s'.reasoningStarted
  {
    hide MessageOf, Keyed;
    var (s', evs) := There.StartReasoning(s);
    SameAnnounced(s, s');
    KeyedLinked(r.tools);
    assert out + [] == out;
    if s.reasoningStarted {
      ListenNothing(r, includeUsage);
    } else {
      ListenOne(r, evs[0], includeUsage);
      SilentStep(r, evs[0], includeUsage);
    }
  }

  lemma ReasoningDeltaStays(s: There.State, r: Back.State, out: seq<Back.Chunk>, e: StreamEvent, includeUsage: bool)
    requires InStep(s, r, out) && Open(s, r) && s.sentCreated && s.reasoningStarted
    requires e.eventType.ReasoningDelta? && e.delta != ""
    ensures var s' := s.(reasoning := s.reasoning + e.delta);
            Stays(s, r, out, [e], s', includeUsage) && Open(s', Listen(r, [e], includeUsage).value.0)
  {
    hide MessageOf, InStep;
    StepLinked(s, r, out);
    SpeechHeard(s, r, out);
    ListenOne(r, e, includeUsage);
    SaidHeard(r.(needsBreak := false, hasSentReasoning := true), out, Back.ReasoningChunk(e.delta));
    HeardSnoc(out, Back.ReasoningChunk(e.delta));
    var (r', more) := Back.ReasoningStep(r, e.delta);
    SpeechInStep(s, r, out, s.(reasoning := s.reasoning + e.delta), r', out + more);
  }

  lemma ReasoningStays(s: There.State, r: Back.State, out: seq<Back.Chunk>, delta: string, includeUsage: bool)
    requires InStep(s, r, out) && Open(s, r) && s.sentCreated && delta != ""
    ensures var (s', evs) := There.ReasoningStep(s, delta);
            Stays(s, r, out, evs, s', includeUsage) && Open(s', Listen(r, evs, includeUsage).value.0)
  {
    hide InStep, Listen, Open;
    StepLinked(s, r, out);
    StartReasoningStays(s, r, out, includeUsage);
    var (s1, evs) := There.StartReasoning(s);
    var e := There.About(ReasoningDelta, s1.reasoningIndex, There.ReasoningId(s1)).(delta := delta);
    assert out + [] == out;
    ReasoningDeltaStays(s1, r, out, e, includeUsage);
    StaysThen(s, r, out, evs, s1, [e], s1.(reasoning := s1.reasoning + delta), includeUsage);
  }

  // ---- tool calls -------------------------------------------------------------------------------

  /** The first fragment of a call: a trimmed id and name, the id not used by another call. */
  predicate Introduces(s: There.State, delta: ToolDelta) {
    && delta.id != "" && Text.Trim(delta.id) == delta.id && delta.name != "" && Text.Trim(delta.name) == delta.name
    && forall i :: i in s.tools ==> s.tools[i].itemId != delta.id
  }

  function WithTool(ts: Back.Tools, k: int, tool: Back.Tool): Back.Tools {
    ts.(list := ts.list + [tool],
        byKey := ts.byKey[OutputKey(k) := |ts.list|],
        outputKeys := ts.outputKeys[k := OutputKey(k)],
        itemKeys := ts.itemKeys[tool.itemId := OutputKey(k)],
        callKeys := ts.callKeys[tool.callId := OutputKey(k)])
  }

  /** A call as it is announced. */
  predicate IsNew(call: There.Call) {
    && call.callId == call.itemId && call.itemId != "" && Text.Trim(call.itemId) == call.itemId
    && call.name != "" && Text.Trim(call.name) == call.name && call.arguments == ""
  }

  predicate Unused(ts: Back.Tools, k: int, call: There.Call) {
    && OutputKey(k) !in ts.byKey
    && forall t :: 0 <= t < |ts.list| ==> ts.list[t].itemId != call.itemId && ts.list[t].callId != call.callId
  }

  lemma AnnouncementLocates(ts: Back.Tools, k: int, call: There.Call)
    requires Keyed(ts) && IsNew(call) && Unused(ts, k, call)
    ensures var e := There.Announcing(k, call.itemId, There.ToolItem(call));
            ItemIdOf(e) == call.itemId && Back.CallIdOf(e) == call.callId
              && Back.Locate(ts, e, OutputKey(k)) == |ts.list|
  {
    hide Text.Trim;
  }

  lemma AnnouncementEnsures(ts: Back.Tools, k: int, call: There.Call)
    requires Keyed(ts) && IsNew(call) && Unused(ts, k, call)
    ensures var e := There.Announcing(k, call.itemId, There.ToolItem(call));
            Back.EnsureTool(ts, e, OutputKey(k)) ==
            (WithTool(ts, k, Back.Tool(OutputKey(k), call.callId, call.itemId, call.name, "", false, false, 0)),
             |ts.list|)
  {
    hide Text.Trim, Back.Locate, ItemIdOf, Back.CallIdOf, KeyFits;
    AnnouncementLocates(ts, k, call);
    KeyedLinked(ts);
    var e := There.Announcing(k, call.itemId, There.ToolItem(call));
    var key, t := OutputKey(k), |ts.list|;
    var ts0 := Back.Known(ts, t, key, "");
    assert ts.pendingOutput - {k} == map[] && ts.pendingItem - {call.itemId} == map[];
    var ts1 := Back.Attach(ts0, t, key, e);
    assert Back.PendingAtOutput(ts0, Some(k)) == "" && Back.PendingAtItem(ts0, call.itemId) == "" && "" + "" + "" == "";
    assert ts1.list == ts.list + [Back.NewTool(key, "").(itemId := call.itemId)];
    var ts2 := Back.Described(ts1, t, key, e);
    assert ts2.list == ts.list + [Back.Tool(key, call.callId, call.itemId, call.name, "", false, false, 0)];
  }

  /** What the second machine makes of the announcement of a call. */
  lemma AnnouncementMakes(ts: Back.Tools, k: int, call: There.Call)
    requires Keyed(ts) && IsNew(call) && Unused(ts, k, call)
    ensures var e := There.Announcing(k, call.itemId, There.ToolItem(call));
            Back.ToolItem(ts, e) ==
            (WithTool(ts, k, Back.Tool(OutputKey(k), call.callId, call.itemId, call.name, "", true, true, 0)),
             [Back.ToolChunk(|ts.list|, call.callId, call.name, "")])
  {
    hide Text.Trim, Back.EnsureTool, Keyed, Unused;
    AnnouncementEnsures(ts, k, call);
    KeyedLinked(ts);
    var t := |ts.list|;
    var ts2 := WithTool(ts, k, Back.Tool(OutputKey(k), call.callId, call.itemId, call.name, "", false, false, 0));
    WithToolLinked(ts, k, ts2.list[t]);
    assert ts2.list[t := Back.Tool(OutputKey(k), call.callId, call.itemId, call.name, "", true, true, 0)] ==
           ts.list + [Back.Tool(OutputKey(k), call.callId, call.itemId, call.name, "", true, true, 0)];
  }

  lemma WithToolLinked(ts: Back.Tools, k: int, tool: Back.Tool)
    requires Back.Linked(ts)
    ensures Back.Linked(WithTool(ts, k, tool))
  {
  }

  lemma WithToolLeads(ts: Back.Tools, k: int, tool: Back.Tool)
    requires Keyed(ts) && OutputKey(k) !in ts.byKey && tool.key == OutputKey(k)
    ensures Back.Linked(WithTool(ts, k, tool)) && KeysFit(WithTool(ts, k, tool)) && IdsFit(WithTool(ts, k, tool))
  {
    hide Back.Linked, HasKeys;
    WithToolLinked(ts, k, tool);
    WithToolFits(ts, k, tool);
    WithToolIds(ts, k, tool);
  }

  lemma WithToolFits(ts: Back.Tools, k: int, tool: Back.Tool)
    requires Back.Linked(ts) && Back.Linked(WithTool(ts, k, tool)) && KeysFit(ts) && tool.key == OutputKey(k)
    ensures KeysFit(WithTool(ts, k, tool))
  {
  }

  lemma WithToolIds(ts: Back.Tools, k: int, tool: Back.Tool)
    requires Back.Linked(ts) && Back.Linked(WithTool(ts, k, tool)) && IdsFit(ts) && OutputKey(k) !in ts.byKey
    ensures IdsFit(WithTool(ts, k, tool))
  {
    var ts' := WithTool(ts, k, tool);
    forall x | x in ts'.itemKeys ensures ts'.list[ts'.byKey[ts'.itemKeys[x]]].itemId == x {
      if x != tool.itemId { assert ts.itemKeys[x] in ts.byKey; }
    }
    forall x | x in ts'.callKeys ensures ts'.list[ts'.byKey[ts'.callKeys[x]]].callId == x {
      if x != tool.callId { assert ts.callKeys[x] in ts.byKey; }
    }
  }

  lemma WithToolReached(ts: Back.Tools, k: int, tool: Back.Tool, t: nat)
    requires Keyed(ts) && OutputKey(k) !in ts.byKey && tool.key == OutputKey(k) && t <= |ts.list|
    requires forall u :: 0 <= u < |ts.list| ==> ts.list[u].itemId != tool.itemId
    ensures Back.Linked(WithTool(ts, k, tool)) && HasKeys(WithTool(ts, k, tool), t)
  {
    hide KeysFit, IdsFit;
    WithToolLinked(ts, k, tool);
    if t < |ts.list| {
      assert HasKeys(ts, t);
      assert ts.itemKeys[ts.list[t].itemId] in ts.byKey;
    }
  }

  lemma NewKeyed(ts: Back.Tools, k: int, tool: Back.Tool)
    requires Keyed(ts) && OutputKey(k) !in ts.byKey && tool.key == OutputKey(k)
    requires forall t :: 0 <= t < |ts.list| ==> ts.list[t].itemId != tool.itemId
    ensures Keyed(WithTool(ts, k, tool))
  {
    hide KeysFit, IdsFit, HasKeys, Back.Linked;
    WithToolLeads(ts, k, tool);
    forall t: nat | t <= |ts.list| ensures HasKeys(WithTool(ts, k, tool), t) {
      WithToolReached(ts, k, tool, t);
    }
  }

  lemma PairedNew(s: There.State, list: seq<Back.Tool>, index: int, call: There.Call)
    requires Paired(s, list) && index !in s.tools && call.outputIndex == |s.order| && call.arguments == ""
    requires call.callId == call.itemId && call.itemId != "" && Text.Trim(call.itemId) == call.itemId
    requires call.name != "" && Text.Trim(call.name) == call.name
    requires forall t :: 0 <= t < |list| ==> list[t].itemId != call.itemId
    ensures var s' := s.(order := s.order + [There.ToolRef(index)], tools := s.tools[index := call]);
            && Announced(s') == Announced(s) + [index]
            && Paired(s', list + [Back.Tool(OutputKey(|s.order|), call.callId, call.itemId, call.name, "", true, true,
                                            0)])
            && CallsOf(s') == CallsOf(s) + [ToolCall(call.callId, call.name, "")]
  {
    hide Text.Trim;
    var s' := s.(order := s.order + [There.ToolRef(index)], tools := s.tools[index := call]);
    assert s'.order[..|s.order|] == s.order;
    var list' := list + [Back.Tool(OutputKey(|s.order|), call.callId, call.itemId, call.name, "", true, true, 0)];
    forall t | 0 <= t < |list'| ensures Announced(s')[t] in s'.tools && Holds(s'.tools[Announced(s')[t]], list'[t]) {
      if t < |list| { assert Announced(s)[t] in s.tools; }
    }
    forall t, u | 0 <= t < u < |list'|
      ensures Announced(s')[t] != Announced(s')[u] && list'[t].itemId != list'[u].itemId
    {
      assert Announced(s)[t] in s.tools;
    }
  }

  lemma PairedFacts(s: There.State, list: seq<Back.Tool>)
    requires Paired(s, list)
    ensures |list| == |Announced(s)|
    ensures forall t :: 0 <= t < |list| ==>
              && Announced(s)[t] in s.tools && list[t].itemId == s.tools[Announced(s)[t]].itemId
                 && list[t].callId == list[t].itemId
              && list[t].key == OutputKey(s.tools[Announced(s)[t]].outputIndex)
                 && s.tools[Announced(s)[t]].outputIndex < |s.order|
  {
  }

  lemma FreshIndex(s: There.State, ts: Back.Tools)
    requires Paired(s, ts.list) && Keyed(ts)
    ensures OutputKey(|s.order|) !in ts.byKey && |s.order| !in ts.outputKeys
  {
    hide Text.Trim;
    PairedFacts(s, ts.list);
    forall key | key in ts.byKey && key.OutputKey? ensures key.index < |s.order| {
      assert KeyFits(key, ts.list[ts.byKey[key]]);
    }
  }

  lemma AnnounceStays(s: There.State, r: Back.State, out: seq<Back.Chunk>, index: int, delta: ToolDelta,
                      includeUsage: bool)
    requires InStep(s, r, out) && Open(s, r) && s.sentCreated && index !in s.tools && Introduces(s, delta)
    ensures var (s', evs) := There.StartCall(s, index, delta);
            Stays(s, r, out, evs, s', includeUsage) && Open(s', Listen(r, evs, includeUsage).value.0)
  {
    hide MessageOf, Text.Trim, Keyed, Paired, Back.ToolItem, Back.Linked, Listen;
    var call := There.NewCall(s, index, delta);
    var (s', evs) := There.StartCall(s, index, delta);
    var ts := r.tools;
    KeyedLinked(ts);
    PairedFacts(s, ts.list);
    FreshIndex(s, ts);
    forall t | 0 <= t < |ts.list| ensures ts.list[t].itemId != call.itemId && ts.list[t].callId != call.callId {
      var i := Announced(s)[t];
      assert i in s.tools && s.tools[i].itemId != delta.id;
      assert call.itemId == delta.id && call.callId == delta.id;
    }
    AnnouncementMakes(ts, |s.order|, call);
    NewKeyed(ts, |s.order|, Back.Tool(OutputKey(|s.order|), call.callId, call.itemId, call.name, "", true, true, 0));
    PairedNew(s, ts.list, index, call);
    ListenOne(r, evs[0], includeUsage);
    var step := Back.ToolStep(ts, evs[0]);
    SaidHeard(r.(tools := step.0, sawToolCall := true), out, step.1[0]);
    HeardSnoc(out, step.1[0]);
    CallsLength(s, r, out);
  }

  lemma CallsLength(s: There.State, r: Back.State, out: seq<Back.Chunk>)
    requires InStep(s, r, out)
    ensures |MessageOf(out).tools| == |r.tools.list| == |Announced(s)|
  {
  }

  lemma KeyedUpdate(ts: Back.Tools, t: nat, tool: Back.Tool)
    requires Keyed(ts) && t < |ts.list|
    requires tool.key == ts.list[t].key && tool.itemId == ts.list[t].itemId && tool.callId == ts.list[t].callId
    ensures Keyed(ts.(list := ts.list[t := tool]))
  {
    var ts' := ts.(list := ts.list[t := tool]);
    forall u: nat | u < |ts'.list| ensures HasKeys(ts', u) {
      assert HasKeys(ts, u);
    }
  }

  /** The record of a call, found under its output index. */
  lemma FindsCall(s: There.State, ts: Back.Tools, index: int) returns (t: nat)
    requires Paired(s, ts.list) && Keyed(ts) && index in s.tools
    ensures t < |ts.list| && t < |Announced(s)| && Announced(s)[t] == index && Holds(s.tools[index], ts.list[t])
    ensures ts.list[t].key == OutputKey(s.tools[index].outputIndex)
    ensures Back.ToolAtOutput(ts, s.tools[index].outputIndex) == Some(t)
  {
    hide Text.Trim, KeyFits;
    t :| 0 <= t < |Announced(s)| && Announced(s)[t] == index;
    assert Holds(s.tools[index], ts.list[t]) && HasKeys(ts, t);
  }

  lemma PairedFill(s: There.State, list: seq<Back.Tool>, t: nat, delta: string)
    requires Paired(s, list) && t < |list|
    ensures var index := Announced(s)[t];
            var call := s.tools[index].(arguments := s.tools[index].arguments + delta);
            var s' := s.(tools := s.tools[index := call]);
            && Paired(s', list[t := list[t].(arguments := call.arguments, argsSentAt := list[t].argsSentAt + |delta|)])
            && CallsOf(s') == CallsOf(s)[t := ToolCall(call.callId, call.name, call.arguments)]
  {
    hide Text.Trim;
    var index := Announced(s)[t];
    var call := s.tools[index].(arguments := s.tools[index].arguments + delta);
    var s' := s.(tools := s.tools[index := call]);
    assert Announced(s') == Announced(s);
  }

  /** A fragment that a known call accepts adds its arguments only. */
  lemma FilledIs(call: There.Call, tool: Back.Tool, delta: ToolDelta)
    requires Holds(call, tool) && There.Accepts(call, delta)
    ensures There.Filled(call, delta) == call.(arguments := call.arguments + delta.arguments)
  {
  }

  lemma DeltaSends(ts: Back.Tools, t: nat, call: There.Call, delta: string)
    requires Keyed(ts) && t < |ts.list| && Holds(call, ts.list[t]) && delta != ""
    ensures Back.Linked(ts)
    ensures Back.Send(Back.WithArguments(ts, t, ts.list[t].arguments + delta), t, delta) ==
            (ts.(list := ts.list[t := ts.list[t].(arguments := call.arguments + delta,
                                                  argsSentAt := ts.list[t].argsSentAt + |delta|)]),
             [Back.ToolChunk(t, call.callId, "", delta)])
  {
    var ts1 := Back.WithArguments(ts, t, ts.list[t].arguments + delta);
    assert ts1.list[t := Back.SentTool(ts1.list[t], delta)] ==
           ts.list[t := ts.list[t].(arguments := call.arguments + delta,
                                    argsSentAt := ts.list[t].argsSentAt + |delta|)];
  }

  lemma FillStays(s: There.State, r: Back.State, out: seq<Back.Chunk>, index: int, delta: ToolDelta, includeUsage: bool)
    requires InStep(s, r, out) && Open(s, r) && s.sentCreated && index in s.tools
             && There.Accepts(s.tools[index], delta)
    ensures var call := s.tools[index];
            var s' := s.(tools := s.tools[index := There.Filled(call, delta)]);
            var evs := if delta.arguments == "" then []
                       else [There.About(ArgumentsDelta, call.outputIndex, call.itemId).(delta := delta.arguments)];
            Stays(s, r, out, evs, s', includeUsage) && Open(s', Listen(r, evs, includeUsage).value.0)
  {
    hide MessageOf, Text.Trim, Keyed, Paired, Holds, Back.Send, Back.WithArguments, Back.Linked, Listen,
         There.Filled, There.Accepts;
    var call, ts := s.tools[index], r.tools;
    KeyedLinked(ts);
    var t := FindsCall(s, ts, index);
    FilledIs(call, ts.list[t], delta);
    if delta.arguments == "" {
      assert call.arguments + "" == call.arguments;
      assert s.tools[index := call] == s.tools;
      assert s.(tools := s.tools[index := There.Filled(call, delta)]) == s;
      ListenNothing(r, includeUsage);
      assert out + [] == out;
    } else {
      var e := There.About(ArgumentsDelta, call.outputIndex, call.itemId).(delta := delta.arguments);
      ListenOne(r, e, includeUsage);
      HoldsArguments(call, ts.list[t]);
      DeltaSends(ts, t, call, delta.arguments);
      PairedFill(s, ts.list, t, delta.arguments);
      KeyedUpdate(ts, t, ts.list[t].(arguments := call.arguments + delta.arguments,
                                     argsSentAt := ts.list[t].argsSentAt + |delta.arguments|));
      var step := Back.ToolStep(ts, e);
      SaidHeard(r.(tools := step.0, sawToolCall := true), out, step.1[0]);
      HeardSnoc(out, step.1[0]);
      CallsLength(s, r, out);
      assert MessageOf(out).tools[t] == ToolCall(call.callId, call.name, call.arguments);
    }
  }

  lemma HoldsArguments(call: There.Call, tool: Back.Tool)
    requires Holds(call, tool)
    ensures tool.arguments == call.arguments
  {
  }

  /** Whether a fragment may come next. */
  predicate Suits(s: There.State, delta: ToolDelta) { IndexOf(delta) !in s.tools ==> Introduces(s, delta) }

  lemma ToolStays(s: There.State, r: Back.State, out: seq<Back.Chunk>, delta: ToolDelta, includeUsage: bool)
    requires InStep(s, r, out) && Open(s, r) && s.sentCreated && Suits(s, delta) && There.ToolStep(s, delta).Some?
    ensures var (s', evs) := There.ToolStep(s, delta).value;
            Stays(s, r, out, evs, s', includeUsage) && Open(s', Listen(r, evs, includeUsage).value.0) && s'.sentCreated
  {
    hide InStep, Open, Listen, There.Accepts, There.Filled, Introduces;
    StepLinked(s, r, out);
    var index := IndexOf(delta);
    var (s1, evs1) := There.StartCall(s, index, delta);
    assert out + [] == out;
    if index in s.tools {
      ListenNothing(r, includeUsage);
    } else {
      AnnounceStays(s, r, out, index, delta, includeUsage);
    }
    var (r1, out1) := Listen(r, evs1, includeUsage).value;
    FillStays(s1, r1, out + out1, index, delta, includeUsage);
    var call := s1.tools[index];
    var evs2 := if delta.arguments == "" then []
                else [There.About(ArgumentsDelta, call.outputIndex, call.itemId).(delta := delta.arguments)];
    StaysThen(s, r, out, evs1, s1, evs2, s1.(tools := s1.tools[index := There.Filled(call, delta)]), includeUsage);
  }

  predicate AllSuit(s: There.State, deltas: seq<ToolDelta>) {
    deltas == [] ||
    var n := |deltas| - 1;
    AllSuit(s, deltas[..n]) && (There.ToolSteps(s, deltas[..n]).Some?
                                ==> Suits(There.ToolSteps(s, deltas[..n]).value.0, deltas[n]))
  }

  lemma {:induction false} ToolsStay(s: There.State, r: Back.State, out: seq<Back.Chunk>, deltas: seq<ToolDelta>,
                                     includeUsage: bool)
    requires InStep(s, r, out) && Open(s, r) && s.sentCreated && AllSuit(s, deltas) && There.ToolSteps(s, deltas).Some?
    ensures var (s', evs) := There.ToolSteps(s, deltas).value;
            Stays(s, r, out, evs, s', includeUsage) && Open(s', Listen(r, evs, includeUsage).value.0) && s'.sentCreated
  {
    hide InStep, Open, Listen, There.ToolStep, Suits;
    StepLinked(s, r, out);
    if deltas == [] {
      ListenNothing(r, includeUsage);
      assert out + [] == out;
    } else {
      var n := |deltas| - 1;
      ToolsStay(s, r, out, deltas[..n], includeUsage);
      var (s1, evs1) := There.ToolSteps(s, deltas[..n]).value;
      var (r1, out1) := Listen(r, evs1, includeUsage).value;
      ToolStays(s1, r1, out + out1, deltas[n], includeUsage);
      var (s2, evs2) := There.ToolStep(s1, deltas[n]).value;
      StaysThen(s, r, out, evs1, s1, evs2, s2, includeUsage);
    }
  }

  // ---- completion ---------------------------------------------------------------------------------

  /** An item that repeats what its record holds changes no record and says nothing. */
  lemma ItemAgain(ts: Back.Tools, t: nat, call: There.Call, e: StreamEvent, key: Key)
    requires Keyed(ts) && t < |ts.list| && Holds(call, ts.list[t]) && KeyFits(key, ts.list[t])
    requires e.item == Some(There.ToolItem(call)) && Back.KeyFor(e) == Some(key)
    requires e.outputIndex.Some? ==> key == OutputKey(e.outputIndex.value)
    requires Back.Locate(ts, e, key) == t
    ensures Back.ToolItem(ts, e).0.list == ts.list && Keyed(Back.ToolItem(ts, e).0) && Back.ToolItem(ts, e).1 == []
  {
    hide Text.Trim, Back.Locate, Keyed, KeyFits, Back.EnsureTool;
    KeyedLinked(ts);
    EnsureAgain(ts, t, call, e, key);
    var ts1 := Back.EnsureTool(ts, e, key).0;
    assert ts1.list[t := ts1.list[t].(arguments := call.arguments)] == ts1.list;
  }

  lemma EnsureAgain(ts: Back.Tools, t: nat, call: There.Call, e: StreamEvent, key: Key)
    requires Keyed(ts) && t < |ts.list| && Holds(call, ts.list[t]) && KeyFits(key, ts.list[t])
    requires e.item == Some(There.ToolItem(call)) && Back.Locate(ts, e, key) == t
    requires e.outputIndex.Some? ==> key == OutputKey(e.outputIndex.value)
    ensures Back.EnsureTool(ts, e, key).0.list == ts.list && Keyed(Back.EnsureTool(ts, e, key).0)
            && Back.EnsureTool(ts, e, key).1 == t
  {
    hide Text.Trim, Back.Locate, KeyFits, Back.Linked, Text.IsSpace;
    var tool := ts.list[t];
    assert ItemIdOf(e) == call.itemId && Back.CallIdOf(e) == call.callId;
    var ts0 := Back.Known(ts, t, key, "");
    assert ts.pendingItem - {call.itemId} == map[]
           && (e.outputIndex.Some? ==> ts.pendingOutput - {e.outputIndex.value} == map[]);
    assert Back.PendingAtOutput(ts0, e.outputIndex) == "" && Back.PendingAtItem(ts0, call.itemId) == "";
    assert tool.arguments + "" + "" == tool.arguments;
    assert Back.AttachedTool(ts0, tool, e) == tool && Back.DescribedTool(tool, e) == tool;
    var ts1 := Back.Attach(ts0, t, key, e);
    assert ts1.list == ts.list;
    var ts2 := Back.Described(ts1, t, key, e);
    assert ts2.list == ts.list;
    RekeyedKeyed(ts, ts2, t, key, if e.outputIndex.Some? then Some(e.outputIndex.value) else None);
  }

  /** One more key for a record, under which its identifiers are found from now on. */
  lemma RekeyedKeyed(ts: Back.Tools, ts': Back.Tools, t: nat, key: Key, index: Option<int>)
    requires Keyed(ts) && Back.Linked(ts') && t < |ts.list| && KeyFits(key, ts.list[t]) && ts'.list == ts.list
    requires index.Some? ==> key == OutputKey(index.value)
    requires ts'.byKey == ts.byKey[key := t] && ts'.pendingOutput == map[] && ts'.pendingItem == map[]
    requires ts'.outputKeys == if index.Some? then ts.outputKeys[index.value := key] else ts.outputKeys
    requires ts'.itemKeys == ts.itemKeys[ts.list[t].itemId := key]
    requires ts'.callKeys == ts.callKeys[ts.list[t].callId := key]
    ensures Keyed(ts')
  {
    hide KeyFits, KeysFit, IdsFit, HasKeys, Back.Linked;
    if key in ts.byKey { KeyNeverMoves(ts, t, key); }
    RekeyedFits(ts, ts', t, key);
    RekeyedIds(ts, ts', t, key);
    forall u: nat | u < |ts'.list| ensures HasKeys(ts', u) {
      RekeyedHasKeys(ts, ts', t, key, u);
    }
  }

  /** What a further key for record t changes. */
  predicate Rekeys(ts: Back.Tools, ts': Back.Tools, t: nat, key: Key) {
    && t < |ts.list| && ts'.list == ts.list
    && (key in ts.byKey ==> ts.byKey[key] == t)
    && ts'.byKey == ts.byKey[key := t]
    && ts'.itemKeys == ts.itemKeys[ts.list[t].itemId := key]
    && ts'.callKeys == ts.callKeys[ts.list[t].callId := key]
    && (forall i :: i in ts.outputKeys ==> i in ts'.outputKeys)
  }

  lemma RekeyedFits(ts: Back.Tools, ts': Back.Tools, t: nat, key: Key)
    requires Back.Linked(ts) && Back.Linked(ts') && Rekeys(ts, ts', t, key) && KeysFit(ts) && KeyFits(key, ts.list[t])
    ensures KeysFit(ts')
  {
    hide KeyFits, Back.Linked;
  }

  lemma RekeyedIds(ts: Back.Tools, ts': Back.Tools, t: nat, key: Key)
    requires Back.Linked(ts) && Back.Linked(ts') && Rekeys(ts, ts', t, key) && IdsFit(ts)
    ensures IdsFit(ts')
  {
    forall x | x in ts'.itemKeys ensures ts'.list[ts'.byKey[ts'.itemKeys[x]]].itemId == x {
      if x != ts.list[t].itemId { assert ts.itemKeys[x] in ts.byKey; }
    }
    forall x | x in ts'.callKeys ensures ts'.list[ts'.byKey[ts'.callKeys[x]]].callId == x {
      if x != ts.list[t].callId { assert ts.callKeys[x] in ts.byKey; }
    }
  }

  lemma RekeyedHasKeys(ts: Back.Tools, ts': Back.Tools, t: nat, key: Key, u: nat)
    requires Back.Linked(ts) && Back.Linked(ts') && Rekeys(ts, ts', t, key) && IdsFit(ts) && u < |ts.list|
    requires HasKeys(ts, u) && HasKeys(ts, t)
    ensures HasKeys(ts', u)
  {
    assert ts.itemKeys[ts.list[u].itemId] in ts.byKey;
  }

  /** A key that fits a record leads nowhere else. */
  lemma KeyNeverMoves(ts: Back.Tools, t: nat, key: Key)
    requires Keyed(ts) && t < |ts.list| && KeyFits(key, ts.list[t]) && key in ts.byKey
    ensures ts.byKey[key] == t
  {
    var u := ts.byKey[key];
    assert KeyFits(key, ts.list[u]);
    assert HasKeys(ts, t) && HasKeys(ts, u);
  }

  lemma ArgumentsDoneStep(r: Back.State, t: nat, call: There.Call, e: StreamEvent, includeUsage: bool)
    requires Keyed(r.tools) && t < |r.tools.list| && Holds(call, r.tools.list[t]) && e.eventType.ArgumentsDone?
    requires e.outputIndex == Some(call.outputIndex) && Back.ToolAtOutput(r.tools, call.outputIndex) == Some(t)
    ensures Back.Step(r, e, includeUsage) == Some((r, []))
  {
    hide Keyed, Holds, Back.DoneStep;
    KeyedLinked(r.tools);
    DoneSaysNothing(r.tools, t, call, e);
  }

  lemma ItemAgainStep(r: Back.State, t: nat, call: There.Call, e: StreamEvent, includeUsage: bool)
    requires Keyed(r.tools) && t < |r.tools.list| && Holds(call, r.tools.list[t]) && e.eventType.ItemDone?
    requires e == There.Completing(call.outputIndex, "", There.ToolItem(call))
    ensures Back.Linked(r.tools) && Keyed(Back.ToolItem(r.tools, e).0)
            && Back.ToolItem(r.tools, e).0.list == r.tools.list
    ensures Back.Step(r, e, includeUsage) == Some((r.(tools := Back.ToolItem(r.tools, e).0), []))
  {
    hide Keyed, Holds, KeyFits, Back.ToolItem;
    KeyedLinked(r.tools);
    LocatesCall(r.tools, t, call, e);
    ItemAgain(r.tools, t, call, e, OutputKey(call.outputIndex));
  }

  /** The events that complete a call: its record is found and has nothing to say. */
  lemma CompletedCall(s: There.State, r: Back.State, index: int, numbered: bool, includeUsage: bool)
    requires Paired(s, r.tools.list) && Keyed(r.tools) && index in s.tools
    ensures Back.Linked(r.tools)
    ensures var call := s.tools[index];
            var done := There.About(ArgumentsDone, call.outputIndex,
                                    call.itemId).(arguments := There.Given(numbered, call.arguments));
            var item := There.Completing(call.outputIndex, "", There.ToolItem(call));
            var l := Listen(r, [done, item], includeUsage);
            l.Some? && l.value.1 == [] && l.value.0 == r.(tools := l.value.0.tools)
            && l.value.0.tools.list == r.tools.list && Keyed(l.value.0.tools)
  {
    hide Keyed, Paired, Holds, Back.ToolItem, Listen, Back.Step;
    KeyedLinked(r.tools);
    var call := s.tools[index];
    var done := There.About(ArgumentsDone, call.outputIndex,
                            call.itemId).(arguments := There.Given(numbered, call.arguments));
    var item := There.Completing(call.outputIndex, "", There.ToolItem(call));
    var t := FindsCall(s, r.tools, index);
    ArgumentsDoneStep(r, t, call, done, includeUsage);
    ItemAgainStep(r, t, call, item, includeUsage);
    ListenTwo(r, done, r, item, r.(tools := Back.ToolItem(r.tools, item).0), includeUsage);
  }

  lemma DoneSaysNothing(ts: Back.Tools, t: nat, call: There.Call, e: StreamEvent)
    requires Keyed(ts) && t < |ts.list| && Holds(call, ts.list[t]) && e.eventType.ArgumentsDone?
    requires e.outputIndex == Some(call.outputIndex) && Back.ToolAtOutput(ts, call.outputIndex) == Some(t)
    ensures Back.DoneStep(ts, e) == (ts, [])
  {
  }

  lemma LocatesCall(ts: Back.Tools, t: nat, call: There.Call, e: StreamEvent)
    requires Keyed(ts) && t < |ts.list| && Holds(call, ts.list[t])
    ensures Back.Locate(ts, e, OutputKey(call.outputIndex)) == t && KeyFits(OutputKey(call.outputIndex), ts.list[t])
  {
    assert HasKeys(ts, t);
  }

  /** No chunk is said, and the records stay as they are. */
  ghost predicate Unmoved(s: There.State, r: Back.State, out: seq<Back.Chunk>, evs: seq<StreamEvent>, s': There.State,
                          includeUsage: bool)
    requires Back.Linked(r.tools)
  {
    Stays(s, r, out, evs, s', includeUsage) && Listen(r, evs, includeUsage).value.1 == []
  }

  lemma UnmovedThen(s: There.State, r: Back.State, out: seq<Back.Chunk>, a: seq<StreamEvent>, s1: There.State,
                    b: seq<StreamEvent>, s2: There.State, includeUsage: bool)
    requires Back.Linked(r.tools) && Unmoved(s, r, out, a, s1, includeUsage)
    requires Unmoved(s1, Listen(r, a, includeUsage).value.0, out, b, s2, includeUsage)
    ensures Unmoved(s, r, out, a + b, s2, includeUsage)
    ensures Listen(r, a + b, includeUsage).value.0
            == Listen(Listen(r, a, includeUsage).value.0, b, includeUsage).value.0
  {
    hide InStep, Listen;
    assert out + [] == out;
    StaysThen(s, r, out, a, s1, b, s2, includeUsage);
    ListenConcat(r, a, b, includeUsage);
  }

  lemma CloseTextUnmoved(s: There.State, r: Back.State, out: seq<Back.Chunk>, numbered: bool, includeUsage: bool)
    requires InStep(s, r, out)
    ensures Back.Linked(r.tools)
    ensures var (s', evs) := There.CloseText(s, numbered); Unmoved(s, r, out, evs, s', includeUsage)
  {
    hide MessageOf, Keyed, Listen;
    KeyedLinked(r.tools);
    var (s', evs) := There.CloseText(s, numbered);
    SameAnnounced(s, s');
    assert out + [] == out;
    if evs == [] {
      ListenNothing(r, includeUsage);
    } else {
      SilentStep(r, evs[0], includeUsage);
      SilentStep(r, evs[1], includeUsage);
      ListenTwo(r, evs[0], r, evs[1], r, includeUsage);
    }
  }

  lemma CloseReasoningUnmoved(s: There.State, r: Back.State, out: seq<Back.Chunk>, numbered: bool, includeUsage: bool)
    requires InStep(s, r, out)
    ensures Back.Linked(r.tools)
    ensures var (s', evs) := There.CloseReasoning(s, numbered); Unmoved(s, r, out, evs, s', includeUsage)
  {
    hide MessageOf, Keyed, Listen, Paired, Back.Linked, Announced, Back.Finalize, Back.ToolStep, IdsFit, There.Given,
         There.ReasoningId;
    KeyedLinked(r.tools);
    var (s', evs) := There.CloseReasoning(s, numbered);
    SameAnnounced(s, s');
    assert out + [] == out;
    if evs == [] {
      ListenNothing(r, includeUsage);
    } else {
      var r1 := r.(needsBreak := r.needsBreak || r.hasSentReasoning);
      assert Back.Step(r, evs[0], includeUsage) == Some((r1, []));
      SilentStep(r1, evs[1], includeUsage);
      ListenTwo(r, evs[0], r1, evs[1], r1, includeUsage);
    }
  }

  lemma PairedDone(s: There.State, list: seq<Back.Tool>, index: int)
    requires Paired(s, list) && index in s.tools
    ensures var s' := s.(tools := s.tools[index := s.tools[index].(done := true)]);
            Paired(s', list) && Announced(s') == Announced(s) && CallsOf(s') == CallsOf(s)
  {
    hide Text.Trim;
  }

  lemma DoneInStep(s: There.State, r: Back.State, out: seq<Back.Chunk>, index: int, ts: Back.Tools)
    requires InStep(s, r, out) && index in s.tools && ts.list == r.tools.list && Keyed(ts)
    ensures InStep(s.(tools := s.tools[index := s.tools[index].(done := true)]), r.(tools := ts), out)
  {
    hide MessageOf, Keyed, Paired;
    PairedDone(s, r.tools.list, index);
  }

  lemma StepPaired(s: There.State, r: Back.State, out: seq<Back.Chunk>)
    requires InStep(s, r, out)
    ensures Paired(s, r.tools.list) && Keyed(r.tools)
  {
  }

  lemma CloseCallUnmoved(s: There.State, r: Back.State, out: seq<Back.Chunk>, index: int, numbered: bool,
                         includeUsage: bool)
    requires InStep(s, r, out)
    ensures Back.Linked(r.tools)
    ensures var (s', evs) := There.CloseCall(s, index, numbered); Unmoved(s, r, out, evs, s', includeUsage)
  {
    hide InStep, Keyed, Listen, Paired, There.About, There.Completing, There.ToolItem;
    StepLinked(s, r, out);
    assert out + [] == out;
    if index !in s.tools || s.tools[index].done {
      ListenNothing(r, includeUsage);
    } else {
      StepPaired(s, r, out);
      CompletedCall(s, r, index, numbered, includeUsage);
      DoneInStep(s, r, out, index, Listen(r, There.CloseCall(s, index, numbered).1, includeUsage).value.0.tools);
    }
  }

  lemma {:induction false} CloseCallsUnmoved(s: There.State, r: Back.State, out: seq<Back.Chunk>, indexes: seq<int>,
                                             numbered: bool, includeUsage: bool)
    requires InStep(s, r, out)
    ensures Back.Linked(r.tools)
    ensures var (s', evs) := There.CloseCalls(s, indexes, numbered); Unmoved(s, r, out, evs, s', includeUsage)
  {
    hide InStep, Listen, There.CloseCall;
    StepLinked(s, r, out);
    assert out + [] == out;
    if indexes == [] {
      ListenNothing(r, includeUsage);
    } else {
      var n := |indexes| - 1;
      CloseCallsUnmoved(s, r, out, indexes[..n], numbered, includeUsage);
      var (s1, evs1) := There.CloseCalls(s, indexes[..n], numbered);
      var r1 := Listen(r, evs1, includeUsage).value.0;
      CloseCallUnmoved(s1, r1, out, indexes[n], numbered, includeUsage);
      var (s2, evs2) := There.CloseCall(s1, indexes[n], numbered);
      UnmovedThen(s, r, out, evs1, s1, evs2, s2, includeUsage);
    }
  }

  lemma {:induction false} NoHostedRefs(s: There.State, refs: seq<There.Ref>)
    requires forall k :: 0 <= k < |refs| ==> !refs[k].HostedRef?
    ensures There.CloseHostedRefs(s, refs) == (s, [])
  {
    if refs != [] { NoHostedRefs(s, refs[..|refs| - 1]); }
  }

  lemma {:induction false} CloseCallsOrder(s: There.State, indexes: seq<int>, numbered: bool)
    ensures There.CloseCalls(s, indexes, numbered).0.order == s.order
  {
    if indexes != [] { CloseCallsOrder(s, indexes[..|indexes| - 1], numbered); }
  }

  lemma CloseAllUnmoved(s: There.State, r: Back.State, out: seq<Back.Chunk>, numbered: bool, includeUsage: bool)
    requires InStep(s, r, out) && forall k :: 0 <= k < |s.order| ==> !s.order[k].HostedRef?
    ensures Back.Linked(r.tools)
    ensures var (s', evs) := There.CloseAll(s, numbered);
            Unmoved(s, r, out, evs, s', includeUsage) && s'.order == s.order
  {
    hide InStep, Listen, Back.Linked, There.CloseCalls, There.CloseHostedRefs;
    StepLinked(s, r, out);
    assert out + [] == out;
    CloseTextUnmoved(s, r, out, numbered, includeUsage);
    var (s1, evs1) := There.CloseText(s, numbered);
    var r1 := Listen(r, evs1, includeUsage).value.0;
    CloseReasoningUnmoved(s1, r1, out, numbered, includeUsage);
    var (s2, evs2) := There.CloseReasoning(s1, numbered);
    UnmovedThen(s, r, out, evs1, s1, evs2, s2, includeUsage);
    var r2 := Listen(r, evs1 + evs2, includeUsage).value.0;
    var indexes := InsertionSort.Sorted(There.ToolIndexes(s2.order));
    CloseCallsUnmoved(s2, r2, out, indexes, numbered, includeUsage);
    var (s3, evs3) := There.CloseCalls(s2, indexes, numbered);
    UnmovedThen(s, r, out, evs1 + evs2, s2, evs3, s3, includeUsage);
    CloseCallsOrder(s2, indexes, numbered);
    NoHostedRefs(s3, s3.order);
    assert There.CloseAll(s, numbered).1 == evs1 + evs2 + evs3;
  }

  // ---- the terminal event -----------------------------------------------------------------------------

  /** Nothing is left to complete. */
  predicate Closed(s: There.State) {
    && (s.textStarted ==> s.textDone) && (s.reasoningStarted ==> s.reasoningDone)
    && (forall i :: i in s.tools ==> s.tools[i].done)
    && (forall k :: 0 <= k < |s.order| ==> !s.order[k].HostedRef?)
  }

  lemma {:induction false} CloseCallsAgain(s: There.State, indexes: seq<int>, numbered: bool)
    requires Closed(s)
    ensures There.CloseCalls(s, indexes, numbered) == (s, [])
  {
    hide There.CloseCall;
    if indexes != [] {
      CloseCallsAgain(s, indexes[..|indexes| - 1], numbered);
      CloseCallAgain(s, indexes[|indexes| - 1], numbered);
      assert There.CloseCalls(s, indexes, numbered).1 == [];
    }
  }

  lemma CloseCallAgain(s: There.State, index: int, numbered: bool)
    requires Closed(s)
    ensures There.CloseCall(s, index, numbered) == (s, [])
  {
  }

  lemma CloseAllAgain(s: There.State, numbered: bool)
    requires Closed(s)
    ensures There.CloseAll(s, numbered) == (s, [])
  {
    hide There.CloseCalls, There.CloseHostedRefs;
    CloseCallsAgain(s, InsertionSort.Sorted(There.ToolIndexes(s.order)), numbered);
    NoHostedRefs(s, s.order);
    assert There.CloseAll(s, numbered).1 == [];
  }

  /** Every reference stands for something the state has. */
  predicate Referenced(s: There.State) {
    forall k :: 0 <= k < |s.order| ==> (s.order[k].ToolRef? ==> s.order[k].index in s.tools) && !s.order[k].HostedRef?
  }

  /** An output item of the terminal response says nothing new. */
  /** A call that was heard already adds nothing when it is listed. */
  lemma TerminalCallQuiet(s: There.State, r: Back.State, out: seq<Back.Chunk>, index: int)
    requires InStep(s, r, out) && index in s.tools
    ensures Back.Linked(r.tools)
    ensures var (r', more) := Back.TerminalItem(r, There.ToolItem(s.tools[index]), r.hasSentText, r.hasSentReasoning);
            && more == [] && r' == r.(tools := r'.tools) && r'.tools.list == r.tools.list && Keyed(r'.tools)
  {
    hide MessageOf, Keyed, Paired, Back.Linked, Back.ToolItem, Holds, KeyFits;
    KeyedLinked(r.tools);
    var call := s.tools[index];
    var t := FindsCall(s, r.tools, index);
    LocatesItem(r.tools, t, call);
    ItemAgain(r.tools, t, call, Back.TerminalEvent(There.ToolItem(call)), ItemKey(call.itemId));
  }

  lemma TerminalItemQuiet(s: There.State, r: Back.State, out: seq<Back.Chunk>, ref: There.Ref)
    requires InStep(s, r, out) && !ref.HostedRef? && (ref.ToolRef? ==> ref.index in s.tools)
    ensures Back.Linked(r.tools) && |There.Output(s, ref)| == 1
    ensures var (r', more) := Back.TerminalItem(r, There.Output(s, ref)[0], r.hasSentText, r.hasSentReasoning);
            && more == [] && r' == r.(tools := r'.tools) && r'.tools.list == r.tools.list && Keyed(r'.tools)
  {
    hide MessageOf, Keyed, Paired, Back.Linked, Back.ToolStep, Holds, KeyFits;
    KeyedLinked(r.tools);
    match ref
    case MessageRef =>
      assert [ContentPart(true, s.text, s.annotations)][..0] == [];
      assert MessageText([ContentPart(true, s.text, s.annotations)]) == s.text;
    case ReasoningRef => SummaryIsReasoning(s);
    case ToolRef(index) => TerminalCallQuiet(s, r, out, index);
  }

  lemma SummaryIsReasoning(s: There.State)
    ensures ReasoningText(There.ReasoningItem(s)) == s.reasoning
  {
    var item := There.ReasoningItem(s);
    assert item.content == [] && item.summary == [s.reasoning];
    assert item.summary[..0] == [];
    assert SeparatedTexts(item.summary[..0]) == "";
    assert SeparatedTexts(item.summary) == s.reasoning;
  }

  lemma LocatesItem(ts: Back.Tools, t: nat, call: There.Call)
    requires Keyed(ts) && t < |ts.list| && Holds(call, ts.list[t])
    ensures var e := Back.TerminalEvent(There.ToolItem(call));
            && Back.KeyFor(e) == Some(ItemKey(call.itemId)) && KeyFits(ItemKey(call.itemId), ts.list[t])
            && Back.Locate(ts, e, ItemKey(call.itemId)) == t
  {
    hide Text.Trim;
    assert HasKeys(ts, t);
    if ItemKey(call.itemId) in ts.byKey { KeyNeverMoves(ts, t, ItemKey(call.itemId)); }
  }

  lemma {:induction false} TerminalItemsQuiet(s: There.State, r: Back.State, out: seq<Back.Chunk>, n: nat)
    requires InStep(s, r, out) && Referenced(s) && n <= |s.order|
    ensures Back.Linked(r.tools)
    ensures var (r', more) := Back.TerminalItems(r, There.Outputs(s, s.order[..n]), r.hasSentText, r.hasSentReasoning);
            && more == [] && r' == r.(tools := r'.tools) && r'.tools.list == r.tools.list && Keyed(r'.tools)
            && |There.Outputs(s, s.order[..n])| == n
  {
    hide InStep, Keyed, Back.TerminalItem, Back.TerminalItems, There.Output, Back.Linked, HasKeys, Holds, IdsFit,
         KeysFit, MessageOf, Paired;
    StepLinked(s, r, out);
    StepPaired(s, r, out);
    NoTerminalItems(r, r.hasSentText, r.hasSentReasoning);
    if n > 0 {
      var m := n - 1;
      TerminalItemsQuiet(s, r, out, m);
      assert s.order[..n][..m] == s.order[..m];
      var before := There.Outputs(s, s.order[..m]);
      var r1 := Back.TerminalItems(r, before, r.hasSentText, r.hasSentReasoning).0;
      Retooled(s, r, out, r1.tools);
      TerminalItemQuiet(s, r1, out, s.order[m]);
      var item := There.Output(s, s.order[m])[0];
      assert There.Outputs(s, s.order[..n]) == before + [item];
      TerminalItemsSnoc(r, before, item, r.hasSentText, r.hasSentReasoning);
    } else {
      assert s.order[..0] == [];
    }
  }

  lemma NoTerminalItems(r: Back.State, hadText: bool, hadReasoning: bool)
    requires Back.Linked(r.tools)
    ensures Back.TerminalItems(r, [], hadText, hadReasoning) == (r, [])
  {
  }

  lemma TerminalItemsSnoc(r: Back.State, output: seq<Item>, item: Item, hadText: bool, hadReasoning: bool)
    requires Back.Linked(r.tools)
    ensures var (r1, more1) := Back.TerminalItems(r, output, hadText, hadReasoning);
            var (r2, more2) := Back.TerminalItem(r1, item, hadText, hadReasoning);
            Back.TerminalItems(r, output + [item], hadText, hadReasoning) == (r2, more1 + more2)
  {
    hide Back.TerminalItem;
    assert (output + [item])[..|output|] == output;
  }

  lemma Retooled(s: There.State, r: Back.State, out: seq<Back.Chunk>, ts: Back.Tools)
    requires InStep(s, r, out) && ts.list == r.tools.list && Keyed(ts)
    ensures InStep(s, r.(tools := ts), out)
  {
  }

  /** With nothing pending the finalizer's flush says nothing. */
  lemma {:induction false} FlushKeysQuiet(ts: Back.Tools, keys: seq<Key>)
    requires Keyed(ts) && (forall t :: 0 <= t < |ts.list| ==> SentOut(ts.list[t]))
             && forall k :: k in keys ==> k in ts.byKey
    ensures Back.Linked(ts) && Back.FlushKeys(ts, keys) == (ts, [])
  {
    hide Keyed, SentOut;
    KeyedLinked(ts);
    if keys != [] {
      var n := |keys| - 1;
      assert forall k :: k in keys[..n] ==> k in keys;
      FlushKeysQuiet(ts, keys[..n]);
      assert keys[n] in keys;
      FlushKeyQuiet(ts, keys[n]);
      assert Back.FlushKeys(ts, keys).1 == [];
    }
  }

  predicate SentOut(tool: Back.Tool) { tool.sent && tool.nameSent && tool.argsSentAt == |tool.arguments| }

  lemma FlushKeyQuiet(ts: Back.Tools, key: Key)
    requires Keyed(ts) && key in ts.byKey && forall t :: 0 <= t < |ts.list| ==> SentOut(ts.list[t])
    ensures Back.Linked(ts) && Back.FlushKey(ts, key) == (ts, [])
  {
    var t := Back.ToolAt(ts, key);
    assert ts.byKey[key := t] == ts.byKey;
    assert ts.list[t].arguments + "" == ts.list[t].arguments
           && ts.list[t := ts.list[t].(arguments := ts.list[t].arguments)] == ts.list;
    assert key.OutputKey? ==> ts.pendingOutput - {key.index} == ts.pendingOutput;
    assert key.ItemKey? ==> ts.pendingItem - {key.id} == ts.pendingItem;
    assert Back.TakePending(ts, key) == (ts, t);
    assert SentOut(ts.list[t]);
  }

  lemma FlushAllQuiet(s: There.State, ts: Back.Tools)
    requires Keyed(ts) && Paired(s, ts.list)
    ensures Back.Linked(ts) && Back.FlushAll(ts) == (ts, [])
  {
    assert Back.AllKeys(ts) == ts.byKey.Keys;
    forall t | 0 <= t < |ts.list| ensures SentOut(ts.list[t]) { assert Holds(s.tools[Announced(s)[t]], ts.list[t]); }
    FlushKeysQuiet(ts, Sorted(Back.AllKeys(ts)));
  }

  lemma FinalResponseReason(s: There.State)
    requires s.status == There.StatusIncomplete ==>
               s.incompleteReason == Some("max_output_tokens") || s.incompleteReason == Some("content_filter")
    requires s.status != There.StatusFailed
    ensures FinishReasonFromStatus(Some(There.FinalResponse(s))) ==
            if s.status == There.StatusCompleted then None
            else if s.incompleteReason == Some("content_filter") then Some("content_filter") else Some("length")
  {
    hide There.Outputs, Text.Trim;
    Text.TrimFixpoint("incomplete");
    Text.TrimFixpoint("completed");
    Text.TrimFixpoint("max_output_tokens");
    Text.TrimFixpoint("content_filter");
  }

  /** The finalizer of the second machine, with nothing left to flush. */
  lemma FinalizeSays(s: There.State, r: Back.State, ts: Back.Tools, response: Option<Response>, includeUsage: bool)
    requires Keyed(ts) && Paired(s, ts.list) && r.tools == ts && !r.finalized && r.sentStart
             && r.sawToolCall == (ts.list != [])
    ensures Back.Linked(ts)
    ensures var (r', more) := Back.Finalize(r, response, includeUsage);
            && r'.finalized
            && more == [Back.FinishChunk(Back.FinishReason(response, ts.list != []))] + if includeUsage
               then [Back.UsageChunk] else []
  {
    hide Keyed, Paired, Back.FlushAll, Back.FinishReason;
    FlushAllQuiet(s, ts);
  }

  lemma TerminalHeard(s: There.State, r: Back.State, out: seq<Back.Chunk>, eventType: EventType, includeUsage: bool)
    requires InStep(s, r, out) && Referenced(s) && s.sentCreated && (eventType.Completed? || eventType.Incomplete?)
    ensures Back.Linked(r.tools)
    ensures var step := Back.Step(r, There.Bare(eventType, Some(There.FinalResponse(s))), includeUsage);
            && step.Some? && step.value.0.finalized
            && MessageOf(out + step.value.1) ==
               MessageOf(out).(finishes := [Back.FinishReason(Some(There.FinalResponse(s)), r.tools.list != [])])
  {
    hide MessageOf, Keyed, Paired, Back.TerminalItems, Back.Finalize, There.Outputs, Back.FinishReason,
         There.StatusText, Referenced;
    TerminalItemsQuiet(s, r, out, |s.order|);
    assert s.order[..|s.order|] == s.order;
    var response := There.FinalResponse(s);
    var r1 := Back.TerminalItems(r, response.output, r.hasSentText, r.hasSentReasoning).0;
    FinalizeSays(s, r1, r1.tools, Some(response), includeUsage);
    FinishIsHeard(out, Back.FinishReason(Some(response), r.tools.list != []), includeUsage);
    var more := Back.Finalize(r1, Some(response), includeUsage).1;
    assert [] + more == more;
  }

  lemma FinishIsHeard(out: seq<Back.Chunk>, reason: string, includeUsage: bool)
    requires MessageOf(out).finishes == []
    ensures MessageOf(out + ([Back.FinishChunk(reason)] + if includeUsage then [Back.UsageChunk] else [])) ==
            MessageOf(out).(finishes := [reason])
  {
    HeardSnoc(out, Back.FinishChunk(reason));
    HeardSnoc(out + [Back.FinishChunk(reason)], Back.UsageChunk);
    assert [] + [reason] == [reason];
    if includeUsage {
      assert out + ([Back.FinishChunk(reason)] + [Back.UsageChunk])
             == (out + [Back.FinishChunk(reason)]) + [Back.UsageChunk];
    } else {
      assert [Back.FinishChunk(reason)] + [] == [Back.FinishChunk(reason)];
    }
  }

  // ---- the first machine gathers what the chunks say ---------------------------------------------------

  /** Every call is introduced by its first fragment, under an id of its own. */
  predicate WellIntroduced(deltas: seq<ToolDelta>) {
    deltas == [] ||
    var calls, d := Gather(deltas[..|deltas| - 1]), deltas[|deltas| - 1];
    && WellIntroduced(deltas[..|deltas| - 1])
    && (Position(calls, IndexOf(d)) == |calls| ==>
          && d.id != "" && Text.Trim(d.id) == d.id && d.name != "" && Text.Trim(d.name) == d.name
          && forall p :: 0 <= p < |calls| ==> calls[p].1.id != d.id)
  }

  /** The call announced at place t is the gathered one. */
  predicate GathersAt(s: There.State, t: nat, entry: (int, ToolCall)) {
    && t < |Announced(s)| && entry.0 == Announced(s)[t] && entry.0 in s.tools
    && var call := s.tools[entry.0];
       call.itemId == call.callId != "" && call.name != ""
         && entry.1 == ToolCall(call.callId, call.name, call.arguments)
  }

  /** The calls of the state are those gathered. */
  predicate Gathers(s: There.State, calls: seq<(int, ToolCall)>) {
    && |calls| == |Announced(s)|
    && (forall t :: 0 <= t < |calls| ==> GathersAt(s, t, calls[t]))
    && (forall i :: i in s.tools ==> i in Announced(s))
    && (forall t, u :: 0 <= t < u < |calls| ==> calls[t].0 != calls[u].0)
  }

  lemma GathersSuits(s: There.State, deltas: seq<ToolDelta>, d: ToolDelta)
    requires Gathers(s, Gather(deltas)) && WellIntroduced(deltas + [d])
    ensures Suits(s, d)
  {
    hide Text.Trim, Gather;
    assert (deltas + [d])[..|deltas|] == deltas;
    var calls := Gather(deltas);
    if IndexOf(d) !in s.tools {
      var p := Position(calls, IndexOf(d));
      assert p < |calls| ==> GathersAt(s, p, calls[p]);
      forall i | i in s.tools ensures s.tools[i].itemId != d.id {
        var t :| 0 <= t < |Announced(s)| && Announced(s)[t] == i;
        assert GathersAt(s, t, calls[t]) && calls[t].1.id != d.id;
      }
    }
  }

  lemma KnownCallStep(s: There.State, d: ToolDelta)
    requires IndexOf(d) in s.tools && There.ToolStep(s, d).Some?
    requires s.tools[IndexOf(d)].callId != "" && s.tools[IndexOf(d)].name != ""
    ensures var call := s.tools[IndexOf(d)];
            There.ToolStep(s, d).value.0 == s.(tools := s.tools[IndexOf(d) := call.(arguments := call.arguments
                    + d.arguments)])
  {
    hide Text.Trim;
  }

  lemma NewCallStep(s: There.State, d: ToolDelta)
    requires IndexOf(d) !in s.tools && Introduces(s, d) && There.ToolStep(s, d).Some?
    ensures There.ToolStep(s, d).value.0 ==
            s.(order := s.order + [There.ToolRef(IndexOf(d))],
               tools := s.tools[IndexOf(d) := There.Call(|s.order|, d.id, d.id, d.name, d.arguments, false)])
  {
    hide Text.Trim;
    assert "" + d.arguments == d.arguments;
  }

  lemma GathersKnown(s: There.State, calls: seq<(int, ToolCall)>, index: int, arguments: string)
    requires Gathers(s, calls) && index in s.tools
    ensures var p := Position(calls, index);
            var call := s.tools[index];
            && p < |calls|
            && Gathers(s.(tools := s.tools[index := call.(arguments := call.arguments + arguments)]),
                       calls[p := (index, calls[p].1.(arguments := calls[p].1.arguments + arguments))])
  {
    var p := Position(calls, index);
    var t :| 0 <= t < |Announced(s)| && Announced(s)[t] == index;
    assert GathersAt(s, t, calls[t]);
    assert p == t;
    var s' := s.(tools := s.tools[index := s.tools[index].(arguments := s.tools[index].arguments + arguments)]);
    forall u: nat | u < |calls| && u != t
      ensures GathersAt(s', u, calls[u])
    {
      assert GathersAt(s, u, calls[u]) && calls[u].0 != calls[t].0;
    }
  }

  lemma GathersNew(s: There.State, calls: seq<(int, ToolCall)>, index: int, id: string, name: string, arguments: string)
    requires Gathers(s, calls) && index !in s.tools && id != "" && name != ""
    ensures Position(calls, index) == |calls|
    ensures Gathers(s.(order := s.order + [There.ToolRef(index)],
                       tools := s.tools[index := There.Call(|s.order|, id, id, name, arguments, false)]),
                    calls + [(index, ToolCall(id, name, arguments))])
  {
    var s' := s.(order := s.order + [There.ToolRef(index)],
                 tools := s.tools[index := There.Call(|s.order|, id, id, name, arguments, false)]);
    assert s'.order[..|s.order|] == s.order;
    assert Announced(s') == Announced(s) + [index];
    forall t: nat | t < |calls| ensures calls[t].0 != index { assert GathersAt(s, t, calls[t]); }
    hide Gathers;
    GathersNewAll(s, calls, s', index, (index, ToolCall(id, name, arguments)));
  }

  lemma GathersNewAll(s: There.State, calls: seq<(int, ToolCall)>, s': There.State, index: int, entry: (int, ToolCall))
    requires Gathers(s, calls) && index !in s.tools && Announced(s') == Announced(s) + [index] && index in s'.tools
    requires s'.tools == s.tools[index := s'.tools[index]] && entry.0 == index
    requires GathersAt(s', |calls|, entry)
    ensures Gathers(s', calls + [entry])
  {
    forall t: nat | t < |calls|
      ensures GathersAt(s', t, calls[t]) && calls[t].0 != index
    {
      assert GathersAt(s, t, calls[t]);
    }
  }

  lemma GathersNext(s: There.State, deltas: seq<ToolDelta>, d: ToolDelta)
    requires Gathers(s, Gather(deltas)) && Suits(s, d) && There.ToolStep(s, d).Some?
    ensures Gathers(There.ToolStep(s, d).value.0, Gather(deltas + [d]))
  {
    hide Gather, There.ToolStep;
    GatherSnoc(deltas, d);
    var calls, index := Gather(deltas), IndexOf(d);
    if index in s.tools {
      var t :| 0 <= t < |Announced(s)| && Announced(s)[t] == index;
      assert GathersAt(s, t, calls[t]);
      KnownCallStep(s, d);
      GathersKnown(s, calls, index, d.arguments);
    } else {
      NewCallStep(s, d);
      GathersNew(s, calls, index, d.id, d.name, d.arguments);
    }
  }

  lemma GatherSnoc(deltas: seq<ToolDelta>, d: ToolDelta)
    ensures Gather(deltas + [d]) ==
            var calls := Gather(deltas);
            var p := Position(calls, IndexOf(d));
            if p == |calls| then calls + [(IndexOf(d), ToolCall(d.id, d.name, d.arguments))]
            else calls[p := (IndexOf(d), calls[p].1.(arguments := calls[p].1.arguments + d.arguments))]
  {
    assert (deltas + [d])[..|deltas|] == deltas;
  }

  lemma {:induction false} GathersAll(s: There.State, before: seq<ToolDelta>, deltas: seq<ToolDelta>)
    requires Gathers(s, Gather(before)) && WellIntroduced(before + deltas) && There.ToolSteps(s, deltas).Some?
    ensures AllSuit(s, deltas) && Gathers(There.ToolSteps(s, deltas).value.0, Gather(before + deltas))
  {
    hide Gathers, There.ToolStep, Gather, Suits;
    if deltas == [] {
      assert before + deltas == before;
    } else {
      var n := |deltas| - 1;
      assert (before + deltas)[..|before + deltas| - 1] == before + deltas[..n];
      GathersAll(s, before, deltas[..n]);
      var s1 := There.ToolSteps(s, deltas[..n]).value.0;
      assert before + deltas == (before + deltas[..n]) + [deltas[n]];
      GathersSuits(s1, before + deltas[..n], deltas[n]);
      GathersNext(s1, before + deltas[..n], deltas[n]);
    }
  }

  /** Other parts of the state do not matter to the calls. */
  lemma GathersIgnores(s: There.State, s': There.State, calls: seq<(int, ToolCall)>)
    requires Gathers(s, calls) && s'.tools == s.tools
    requires s'.order == s.order || s'.order == s.order + [There.MessageRef]
             || s'.order == s.order + [There.ReasoningRef]
    ensures Gathers(s', calls)
  {
    hide Gather;
    SameAnnounced(s, s');
  }

  lemma GathersCalls(s: There.State, calls: seq<(int, ToolCall)>)
    requires Gathers(s, calls) && forall t :: 0 <= t < |Announced(s)| ==> Announced(s)[t] in s.tools
    ensures CallsOf(s) == Calls(calls)
  {
    assert forall t :: 0 <= t < |calls| ==> GathersAt(s, t, calls[t]);
  }

  // ---- whole streams ----------------------------------------------------------------------------------

  /** The choices so far: nothing follows a finish reason, calls are well introduced. */
  predicate Sound(choices: seq<Choice>) {
    && (forall k :: 0 <= k < |choices| ==> choices[k].annotations.NoAnnotations?)
    && (forall k :: 0 <= k < |choices| - 1 ==> !There.Finishes(choices[k]))
    && WellIntroduced(Fragments(choices))
  }

  predicate Ended(choices: seq<Choice>) { choices != [] && There.Finishes(choices[|choices| - 1]) }

  /** What was said in the choices. */
  function Said(choices: seq<Choice>): Message {
    Message(TextOf(choices), ReasoningOf(choices), Calls(Gather(Fragments(choices))), [])
  }

  predicate Reasoned(s: There.State, reason: string) {
    if Text.Trim(reason) == "length" then s.status == There.StatusIncomplete
      && s.incompleteReason == Some("max_output_tokens")
    else if Text.Trim(reason) == "content_filter" then s.status == There.StatusIncomplete
      && s.incompleteReason == Some("content_filter")
    else s.status == There.StatusCompleted
  }

  /** Where both machines stand after the choices so far. */
  ghost predicate Stands(s: There.State, r: Back.State, out: seq<Back.Chunk>, choices: seq<Choice>) {
    && InStep(s, r, out) && MessageOf(out) == Said(choices)
    && if Ended(choices) then Closed(s) && Reasoned(s, choices[|choices| - 1].finishReason.value)
       else Open(s, r) && Gathers(s, Gather(Fragments(choices)))
  }

  lemma TextPartStays(s: There.State, r: Back.State, out: seq<Back.Chunk>, choice: Choice, includeUsage: bool)
    requires InStep(s, r, out) && Open(s, r) && s.sentCreated
    ensures Back.Linked(r.tools)
    ensures var (s', evs) := There.TextPart(s, choice);
            && Stays(s, r, out, evs, s', includeUsage) && Open(s', Listen(r, evs, includeUsage).value.0)
            && s'.sentCreated && s'.text == s.text + choice.text && s'.reasoning == s.reasoning
            && forall calls :: Gathers(s, calls) ==> Gathers(s', calls)
  {
    hide InStep, Open, Listen, Gathers;
    StepLinked(s, r, out);
    var (s', evs) := There.TextPart(s, choice);
    if choice.text == "" {
      ListenNothing(r, includeUsage);
      assert out + [] == out && s.text + "" == s.text;
    } else {
      TextStays(s, r, out, choice.text, includeUsage);
      forall calls | Gathers(s, calls) ensures Gathers(s', calls) { GathersIgnores(s, s', calls); }
    }
  }

  lemma ReasoningPartStays(s: There.State, r: Back.State, out: seq<Back.Chunk>, choice: Choice, includeUsage: bool)
    requires InStep(s, r, out) && Open(s, r) && s.sentCreated
    ensures Back.Linked(r.tools)
    ensures var (s', evs) := There.ReasoningPart(s, choice);
            && Stays(s, r, out, evs, s', includeUsage) && Open(s', Listen(r, evs, includeUsage).value.0)
            && s'.sentCreated && s'.reasoning == s.reasoning + choice.reasoning && s'.text == s.text
            && forall calls :: Gathers(s, calls) ==> Gathers(s', calls)
  {
    hide InStep, Open, Listen, Gathers;
    StepLinked(s, r, out);
    var (s', evs) := There.ReasoningPart(s, choice);
    if choice.reasoning == "" {
      ListenNothing(r, includeUsage);
      assert out + [] == out && s.reasoning + "" == s.reasoning;
    } else {
      ReasoningStays(s, r, out, choice.reasoning, includeUsage);
      forall calls | Gathers(s, calls) ensures Gathers(s', calls) { GathersIgnores(s, s', calls); }
    }
  }

  lemma {:induction false} ToolStepsKeepTexts(s: There.State, deltas: seq<ToolDelta>)
    requires There.ToolSteps(s, deltas).Some?
    ensures There.ToolSteps(s, deltas).value.0.text == s.text
            && There.ToolSteps(s, deltas).value.0.reasoning == s.reasoning
  {
    if deltas != [] { ToolStepsKeepTexts(s, deltas[..|deltas| - 1]); }
  }

  /** The content of a choice, before its finish reason is looked at. */
  function Content(s: There.State, choice: Choice): Option<(There.State, seq<StreamEvent>)> {
    var (s1, evs1) := There.ReasoningPart(s, choice);
    var (s2, evs2) := There.TextPart(s1, choice);
    var called := There.ToolSteps(s2, choice.toolCalls);
    if called.None? then None else Some((called.value.0, evs1 + evs2 + called.value.1))
  }

  lemma ContentStays(s: There.State, r: Back.State, out: seq<Back.Chunk>, choice: Choice, before: seq<ToolDelta>,
                     includeUsage: bool)
    requires InStep(s, r, out) && Open(s, r) && s.sentCreated && Content(s, choice).Some?
    requires Gathers(s, Gather(before)) && WellIntroduced(before + choice.toolCalls)
    ensures Back.Linked(r.tools)
    ensures var (s', evs) := Content(s, choice).value;
            && Stays(s, r, out, evs, s', includeUsage) && Open(s', Listen(r, evs, includeUsage).value.0)
            && s'.sentCreated && s'.reasoning == s.reasoning + choice.reasoning && s'.text == s.text + choice.text
            && Gathers(s', Gather(before + choice.toolCalls))
  {
    hide InStep, Open, Listen, Gathers, Gather, WellIntroduced, There.ToolSteps, There.TextPart, There.ReasoningPart;
    ReasoningPartStays(s, r, out, choice, includeUsage);
    var (s1, evs1) := There.ReasoningPart(s, choice);
    var (r1, out1) := Listen(r, evs1, includeUsage).value;
    TextPartStays(s1, r1, out + out1, choice, includeUsage);
    var (s2, evs2) := There.TextPart(s1, choice);
    StaysThen(s, r, out, evs1, s1, evs2, s2, includeUsage);
    var (r2, out2) := Listen(r, evs1 + evs2, includeUsage).value;
    GathersAll(s2, before, choice.toolCalls);
    ToolsStay(s2, r2, out + out2, choice.toolCalls, includeUsage);
    ToolStepsKeepTexts(s2, choice.toolCalls);
    var (s3, evs3) := There.ToolSteps(s2, choice.toolCalls).value;
    StaysThen(s, r, out, evs1 + evs2, s2, evs3, s3, includeUsage);
  }

  lemma ContentIs(s: There.State, choice: Choice, numbered: bool)
    requires choice.annotations.NoAnnotations?
    ensures There.ChoiceStep(s, choice, numbered) ==
            if Content(s, choice).None? then None else
              var (s4, evs) := Content(s, choice).value;
              var (s5, evs5) := There.FinishPart(s4, choice, numbered);
              Some((s5, evs + evs5))
  {
    hide There.ReasoningPart, There.TextPart, There.ToolSteps, There.FinishPart;
    var (s1, evs1) := There.ReasoningPart(s, choice);
    var (s2, evs2) := There.TextPart(s1, choice);
    assert evs1 + evs2 + [] == evs1 + evs2;
  }

  lemma CloseCallDone(s: There.State, index: int, numbered: bool)
    ensures var s' := There.CloseCall(s, index, numbered).0;
            && s' == s.(tools := s'.tools) && s'.tools.Keys == s.tools.Keys
            && (forall i :: i in s.tools && s.tools[i].done ==> s'.tools[i].done)
            && (index in s'.tools ==> s'.tools[index].done)
  {
    hide There.About, There.Completing, There.ToolItem;
    if index in s.tools { assert s.tools[index := s.tools[index].(done := true)].Keys == s.tools.Keys; }
  }

  lemma {:induction false} CloseCallsDone(s: There.State, indexes: seq<int>, numbered: bool)
    ensures var s' := There.CloseCalls(s, indexes, numbered).0;
            && s' == s.(tools := s'.tools) && s'.tools.Keys == s.tools.Keys
            && (forall i :: i in s.tools && s.tools[i].done ==> s'.tools[i].done)
            && forall i :: i in indexes && i in s'.tools ==> s'.tools[i].done
  {
    hide There.CloseCall;
    if indexes != [] {
      var n := |indexes| - 1;
      CloseCallsDone(s, indexes[..n], numbered);
      var s1 := There.CloseCalls(s, indexes[..n], numbered).0;
      CloseCallDone(s1, indexes[n], numbered);
      var s2 := There.CloseCall(s1, indexes[n], numbered).0;
      forall i | i in indexes && i in s2.tools ensures s2.tools[i].done {
        assert i in s1.tools.Keys;
        if i != indexes[n] { assert i in indexes[..n] && s1.tools[i].done; }
      }
    }
  }

  lemma CloseProse(s: There.State, numbered: bool)
    ensures There.CloseReasoning(There.CloseText(s, numbered).0, numbered).0 ==
            s.(textDone := s.textDone || s.textStarted, reasoningDone := s.reasoningDone || s.reasoningStarted)
  {
    hide There.About, There.Completing;
  }

  lemma CloseAllCloses(s: There.State, numbered: bool)
    requires (forall i :: i in s.tools ==> i in Announced(s))
             && forall k :: 0 <= k < |s.order| ==> !s.order[k].HostedRef?
    ensures var s' := There.CloseAll(s, numbered).0;
            Closed(s') && s'.status == s.status && s'.incompleteReason == s.incompleteReason
              && s'.sentCreated == s.sentCreated
  {
    hide There.CloseCalls, There.CloseHostedRefs, There.CloseText, There.CloseReasoning, InsertionSort.Sorted;
    CloseProse(s, numbered);
    var s2 := There.CloseReasoning(There.CloseText(s, numbered).0, numbered).0;
    var indexes := InsertionSort.Sorted(There.ToolIndexes(s2.order));
    CloseCallsDone(s2, indexes, numbered);
    var s3 := There.CloseCalls(s2, indexes, numbered).0;
    NoHostedRefs(s3, s3.order);
    forall i | i in s3.tools ensures s3.tools[i].done {
      assert i in s3.tools.Keys && i in s2.tools;
      InsertionSort.SortedMembers(There.ToolIndexes(s2.order), i);
    }
  }

  // ---- the theorem ---------------------------------------------------------------------------------------

  lemma SaidSnoc(choices: seq<Choice>, choice: Choice)
    ensures TextOf(choices + [choice]) == TextOf(choices) + choice.text
    ensures ReasoningOf(choices + [choice]) == ReasoningOf(choices) + choice.reasoning
    ensures Fragments(choices + [choice]) == Fragments(choices) + choice.toolCalls
    ensures Ended(choices + [choice]) == There.Finishes(choice)
  {
    assert (choices + [choice])[..|choices|] == choices;
  }

  /** What both machines say, from what the first gathered. */
  lemma SaidIs(s: There.State, r: Back.State, out: seq<Back.Chunk>, choices: seq<Choice>)
    requires InStep(s, r, out) && Gathers(s, Gather(Fragments(choices)))
    requires s.text == TextOf(choices) && s.reasoning == ReasoningOf(choices)
    ensures MessageOf(out) == Said(choices)
  {
    GathersCalls(s, Gather(Fragments(choices)));
  }

  lemma SaidTexts(s: There.State, r: Back.State, out: seq<Back.Chunk>, choices: seq<Choice>)
    requires InStep(s, r, out) && MessageOf(out) == Said(choices)
    ensures s.text == TextOf(choices) && s.reasoning == ReasoningOf(choices)
  {
  }

  /** The id and the status do not matter to being in step. */
  lemma RenamedInStep(s: There.State, r: Back.State, out: seq<Back.Chunk>, s': There.State)
    requires InStep(s, r, out) && s' == s.(id := s'.id, status := s'.status, incompleteReason := s'.incompleteReason)
    ensures InStep(s', r, out)
  {
    hide MessageOf, Keyed;
    SameAnnounced(s, s');
  }

  lemma FinishedReasoned(s: There.State, reason: string)
    ensures Reasoned(There.Finished(s, reason), reason)
  {
    hide Text.Trim;
  }

  lemma FinishedIs(s: There.State, reason: string)
    ensures There.Finished(s, reason) ==
            s.(status := There.Finished(s, reason).status,
               incompleteReason := There.Finished(s, reason).incompleteReason)
  {
    hide Text.Trim, There.StatusFor;
  }

  lemma FinishedInStep(s: There.State, r: Back.State, out: seq<Back.Chunk>, reason: string)
    requires InStep(s, r, out)
    ensures InStep(There.Finished(s, reason), r, out) && Reasoned(There.Finished(s, reason), reason)
    ensures There.Finished(s, reason).order == s.order && There.Finished(s, reason).tools == s.tools
    ensures There.Finished(s, reason).sentCreated == s.sentCreated
  {
    hide InStep, There.Finished, Reasoned;
    FinishedReasoned(s, reason);
    FinishedIs(s, reason);
    RenamedInStep(s, r, out, There.Finished(s, reason));
  }

  lemma FinishStands(s: There.State, r: Back.State, out: seq<Back.Chunk>, choice: Choice, numbered: bool,
                     includeUsage: bool)
    requires InStep(s, r, out) && Open(s, r) && There.Finishes(choice)
    ensures Back.Linked(r.tools)
    ensures var (s', evs) := There.FinishPart(s, choice, numbered);
            Unmoved(s, r, out, evs, s', includeUsage) && Closed(s') && Reasoned(s', choice.finishReason.value)
              && s'.sentCreated == s.sentCreated
  {
    hide Listen, There.CloseAll, There.Finished, Keyed, MessageOf, Text.Trim, Holds;
    StepLinked(s, r, out);
    var s1 := There.Finished(s, choice.finishReason.value);
    FinishedInStep(s, r, out, choice.finishReason.value);
    CloseAllUnmoved(s1, r, out, numbered, includeUsage);
    CloseAllCloses(s1, numbered);
  }

  lemma ChoiceStands(s: There.State, r: Back.State, out: seq<Back.Chunk>, choices: seq<Choice>, choice: Choice,
                     numbered: bool, includeUsage: bool)
    requires Stands(s, r, out, choices) && !Ended(choices) && s.sentCreated
             && There.ChoiceStep(s, choice, numbered).Some?
    requires choice.annotations.NoAnnotations? && WellIntroduced(Fragments(choices + [choice]))
    ensures Back.Linked(r.tools)
    ensures var (s', evs) := There.ChoiceStep(s, choice, numbered).value;
            var l := Listen(r, evs, includeUsage);
            l.Some? && Stands(s', l.value.0, out + l.value.1, choices + [choice]) && s'.sentCreated
  {
    hide InStep, Open, Listen, Gathers, Gather, WellIntroduced, Content, There.ChoiceStep, There.Finishes, Closed,
         Reasoned, Fragments, Said, TextOf, ReasoningOf, There.CloseAll, There.Finished;
    SaidSnoc(choices, choice);
    ContentIs(s, choice, numbered);
    ContentStays(s, r, out, choice, Fragments(choices), includeUsage);
    var (s4, evs) := Content(s, choice).value;
    var (r4, out4) := Listen(r, evs, includeUsage).value;
    SaidTexts(s, r, out, choices);
    SaidIs(s4, r4, out + out4, choices + [choice]);
    var (s5, evs5) := There.FinishPart(s4, choice, numbered);
    if There.Finishes(choice) {
      FinishStands(s4, r4, out + out4, choice, numbered, includeUsage);
      StaysThen(s, r, out, evs, s4, evs5, s5, includeUsage);
      ListenConcat(r, evs, evs5, includeUsage);
      assert out4 + [] == out4;
    } else {
      assert evs + [] == evs;
    }
  }

  lemma {:induction false} ChoicesStand(s: There.State, r: Back.State, out: seq<Back.Chunk>, choices: seq<Choice>,
                                        more: seq<Choice>, numbered: bool, includeUsage: bool)
    requires Stands(s, r, out, choices) && s.sentCreated && Sound(choices + more)
             && There.ChoiceSteps(s, more, numbered).Some?
    ensures Back.Linked(r.tools)
    ensures var (s', evs) := There.ChoiceSteps(s, more, numbered).value;
            var l := Listen(r, evs, includeUsage);
            l.Some? && Stands(s', l.value.0, out + l.value.1, choices + more) && s'.sentCreated
  {
    hide Stands, Listen, There.ChoiceStep, WellIntroduced, There.Finishes, Fragments;
    StandsLinked(s, r, out, choices);
    if more == [] {
      ListenNothing(r, includeUsage);
      assert out + [] == out && choices + [] == choices;
    } else {
      var n := |more| - 1;
      var all := choices + more;
      assert all[..|all| - 1] == choices + more[..n] && all[|all| - 1] == more[n];
      SoundPrefix(all);
      ChoicesStand(s, r, out, choices, more[..n], numbered, includeUsage);
      var (s1, evs1) := There.ChoiceSteps(s, more[..n], numbered).value;
      var (r1, out1) := Listen(r, evs1, includeUsage).value;
      NotEnded(all);
      assert (choices + more[..n]) + [more[n]] == all;
      ChoiceStands(s1, r1, out + out1, choices + more[..n], more[n], numbered, includeUsage);
      var (s2, evs2) := There.ChoiceStep(s1, more[n], numbered).value;
      ListenConcat(r, evs1, evs2, includeUsage);
      var out2 := Listen(r1, evs2, includeUsage).value.1;
      assert out + (out1 + out2) == (out + out1) + out2;
    }
  }

  lemma StandsLinked(s: There.State, r: Back.State, out: seq<Back.Chunk>, choices: seq<Choice>)
    requires Stands(s, r, out, choices)
    ensures Back.Linked(r.tools)
  {
  }

  lemma SoundPrefix(choices: seq<Choice>)
    requires choices != [] && Sound(choices)
    ensures Sound(choices[..|choices| - 1])
  {
    hide There.Finishes;
    var n := |choices| - 1;
    IntroducedPrefix(Fragments(choices[..n]), choices[n].toolCalls);
  }

  lemma {:induction false} IntroducedPrefix(a: seq<ToolDelta>, b: seq<ToolDelta>)
    requires WellIntroduced(a + b)
    ensures WellIntroduced(a)
  {
    hide Gather;
    if b == [] {
      assert a + b == a;
    } else {
      assert (a + b)[..|a + b| - 1] == a + b[..|b| - 1];
      IntroducedPrefix(a, b[..|b| - 1]);
    }
  }

  lemma NotEnded(choices: seq<Choice>)
    requires choices != [] && Sound(choices)
    ensures !Ended(choices[..|choices| - 1])
  {
    hide There.Finishes, WellIntroduced;
  }

  lemma OpeningStands(s: There.State, r: Back.State, out: seq<Back.Chunk>, choices: seq<Choice>, id: string,
                      includeUsage: bool)
    requires Stands(s, r, out, choices) && (Ended(choices) ==> s.sentCreated)
    ensures Back.Linked(r.tools)
    ensures var (s', evs) := There.EnsureCreated(There.Named(s, id));
            var l := Listen(r, evs, includeUsage);
            l.Some? && Stands(s', l.value.0, out + l.value.1, choices) && s'.sentCreated
  {
    hide MessageOf, Keyed, Paired, Gather, Said, Reasoned, Listen;
    StandsLinked(s, r, out, choices);
    var s1 := There.Named(s, id);
    NamedStands(s, r, out, choices, id);
    if s1.sentCreated {
      ListenNothing(r, includeUsage);
      assert out + [] == out;
    } else {
      CreatedStays(s1, r, out, includeUsage);
      var (s2, evs) := There.EnsureCreated(s1);
      CreatedMessage(r, out, evs[0], includeUsage);
      GathersIgnores(s1, s2, Gather(Fragments(choices)));
    }
  }

  /** The id of the response does not matter to what is open, closed or reasoned. */
  lemma StillOpen(s: There.State, s': There.State, r: Back.State)
    requires Open(s, r) && s' == s.(id := s'.id)
    ensures Open(s', r)
  {
  }

  lemma StillClosed(s: There.State, s': There.State)
    requires Closed(s) && s' == s.(id := s'.id)
    ensures Closed(s')
  {
  }

  lemma StillReasoned(s: There.State, s': There.State, reason: string)
    requires Reasoned(s, reason) && s' == s.(id := s'.id)
    ensures Reasoned(s', reason)
  {
    hide Text.Trim;
  }

  lemma NamedIs(s: There.State, id: string)
    ensures There.Named(s, id) == s.(id := There.Named(s, id).id)
  {
    if s.id != "" {
      assert There.Named(s, id) == s;
    }
  }

  lemma NamedStands(s: There.State, r: Back.State, out: seq<Back.Chunk>, choices: seq<Choice>, id: string)
    requires Stands(s, r, out, choices)
    ensures Stands(There.Named(s, id), r, out, choices)
  {
    hide MessageOf, InStep, Gather, Gathers, Said, Fragments, Closed, Reasoned, Open, Text.Trim, There.Named;
    var s1 := There.Named(s, id);
    NamedIs(s, id);
    RenamedInStep(s, r, out, s1);
    if Ended(choices) {
      StillClosed(s, s1);
      StillReasoned(s, s1, choices[|choices| - 1].finishReason.value);
    } else {
      StillOpen(s, s1, r);
      GathersIgnores(s, s1, Gather(Fragments(choices)));
    }
  }

  lemma CreatedMessage(r: Back.State, out: seq<Back.Chunk>, e: StreamEvent, includeUsage: bool)
    requires Back.Linked(r.tools) && e.eventType.Created?
    ensures Listen(r, [e], includeUsage).Some?
            && MessageOf(out + Listen(r, [e], includeUsage).value.1) == MessageOf(out)
  {
    ListenOne(r, e, includeUsage);
    HeardSnoc(out, Back.RoleChunk);
    assert out + [] == out;
  }

  function Inputs(chunks: seq<Chunk>): seq<There.Input> {
    if chunks == [] then [] else Inputs(chunks[..|chunks| - 1]) + [There.OnChunk(chunks[|chunks| - 1])]
  }

  lemma {:induction false} RunStands(id: string, chunks: seq<Chunk>, numbered: bool, includeUsage: bool)
    requires Sound(Choices(chunks)) && There.Run(id, Inputs(chunks), numbered).Some?
    ensures var (s, evs) := There.Run(id, Inputs(chunks), numbered).value;
            var l := Listen(Back.INITIAL, evs, includeUsage);
            l.Some? && Stands(s, l.value.0, l.value.1, Choices(chunks)) && s.sentCreated == (chunks != [])
  {
    hide Stands, Listen, There.ChunkStep, WellIntroduced, There.Finishes, Fragments;
    if chunks == [] {
      ListenNothing(Back.INITIAL, includeUsage);
      FreshStands(id);
    } else {
      var n := |chunks| - 1;
      SoundPart(Choices(chunks[..n]), chunks[n].choices);
      assert Inputs(chunks)[..n] == Inputs(chunks[..n]) by { InputsLength(chunks[..n]); }
      InputsLength(chunks);
      RunStands(id, chunks[..n], numbered, includeUsage);
      var (s, evs) := There.Run(id, Inputs(chunks[..n]), numbered).value;
      var (r, out) := Listen(Back.INITIAL, evs, includeUsage).value;
      ChunkStands(s, r, out, Choices(chunks[..n]), chunks[n], numbered, includeUsage);
      var (s', more) := There.ChunkStep(s, chunks[n], numbered).value;
      ListenConcat(Back.INITIAL, evs, more, includeUsage);
    }
  }

  lemma {:induction false} InputsLength(chunks: seq<Chunk>)
    ensures |Inputs(chunks)| == |chunks|
  {
    if chunks != [] { InputsLength(chunks[..|chunks| - 1]); }
  }

  lemma {:induction false} SoundPart(a: seq<Choice>, b: seq<Choice>)
    requires Sound(a + b)
    ensures Sound(a)
  {
    hide Sound;
    if b == [] {
      assert a + b == a;
    } else {
      assert (a + b)[..|a + b| - 1] == a + b[..|b| - 1];
      SoundPrefix(a + b);
      SoundPart(a, b[..|b| - 1]);
    }
  }

  lemma FreshStands(id: string)
    ensures Stands(There.Initial(id), Back.INITIAL, [], [])
  {
  }

  lemma ChunkStands(s: There.State, r: Back.State, out: seq<Back.Chunk>, choices: seq<Choice>, chunk: Chunk,
                    numbered: bool, includeUsage: bool)
    requires Stands(s, r, out, choices) && Sound(choices + chunk.choices) && There.ChunkStep(s, chunk, numbered).Some?
    requires Ended(choices) ==> s.sentCreated
    ensures Back.Linked(r.tools)
    ensures var (s', evs) := There.ChunkStep(s, chunk, numbered).value;
            var l := Listen(r, evs, includeUsage);
            l.Some? && Stands(s', l.value.0, out + l.value.1, choices + chunk.choices) && s'.sentCreated
  {
    hide Stands, Listen, There.ChoiceSteps, Sound, Ended, There.EnsureCreated;
    OpeningStands(s, r, out, choices, chunk.id, includeUsage);
    var (s1, evs1) := There.EnsureCreated(There.Named(s, chunk.id));
    var (r1, out1) := Listen(r, evs1, includeUsage).value;
    ChoicesStand(s1, r1, out + out1, choices, chunk.choices, numbered, includeUsage);
    var (s2, evs2) := There.ChoiceSteps(s1, chunk.choices, numbered).value;
    ListenConcat(r, evs1, evs2, includeUsage);
    var out2 := Listen(r1, evs2, includeUsage).value.1;
    assert out + (out1 + out2) == (out + out1) + out2;
  }

  /** The finish reason that comes back. */
  function FinishBack(reason: string, tools: bool): string {
    if Text.Trim(reason) == "length" then "length"
    else if Text.Trim(reason) == "content_filter" then "content_filter"
    else if tools then "tool_calls" else "stop"
  }

  lemma FinishComesBack(s: There.State, reason: string, tools: bool)
    requires Reasoned(s, reason)
    ensures Back.FinishReason(Some(There.FinalResponse(s)), tools) == FinishBack(reason, tools)
  {
    hide Text.Trim, There.FinalResponse, FinishReasonFromStatus;
    FinalResponseReason(s);
  }

  lemma {:induction false} OrderReferenced(s: There.State, refs: seq<There.Ref>)
    requires forall i :: i in There.ToolIndexes(refs) ==> i in s.tools
    requires forall k :: 0 <= k < |refs| ==> !refs[k].HostedRef?
    ensures forall k :: 0 <= k < |refs| ==> (refs[k].ToolRef? ==> refs[k].index in s.tools) && !refs[k].HostedRef?
  {
    if refs != [] {
      var n := |refs| - 1;
      OrderReferenced(s, refs[..n]);
      if refs[n].ToolRef? {
        var indexes := There.ToolIndexes(refs);
        assert indexes[|indexes| - 1] == refs[n].index;
      }
    }
  }

  lemma PairedReferenced(s: There.State, r: Back.State, out: seq<Back.Chunk>)
    requires InStep(s, r, out) && Closed(s)
    ensures Referenced(s)
  {
    StepPaired(s, r, out);
    forall i | i in Announced(s) ensures i in s.tools {
      var t :| 0 <= t < |Announced(s)| && Announced(s)[t] == i;
      assert Holds(s.tools[Announced(s)[t]], r.tools.list[t]);
    }
    OrderReferenced(s, s.order);
  }

  /** The events of the first machine for a whole stream, finalizer included. */
  function Through(id: string, chunks: seq<Chunk>, numbered: bool): seq<StreamEvent>
    requires There.Run(id, Inputs(chunks), numbered).Some?
  {
    var (s, evs) := There.Run(id, Inputs(chunks), numbered).value;
    evs + There.Finalize(s, numbered).1
  }

  /** What a client has of a stream that went through both machines, None if the second one failed. */
  ghost function SentBack(id: string, chunks: seq<Chunk>, numbered: bool, includeUsage: bool): Option<Message>
    requires There.Run(id, Inputs(chunks), numbered).Some?
  {
    var events := Through(id, chunks, numbered);
    if Back.Run(events, includeUsage).None? then None else Some(MessageOf(Back.Output(events, includeUsage)))
  }

  /** What was said in the choices, with the finish reason it comes back with. */
  function Owed(choices: seq<Choice>): Message
    requires Ended(choices)
  {
    var reason := choices[|choices| - 1].finishReason.value;
    Said(choices).(finishes := [FinishBack(reason, Gather(Fragments(choices)) != [])])
  }

  /** A Chat stream whose calls are well introduced and in which nothing follows the finish
      reason comes back from the Responses form with the same text, reasoning and calls,
      and with one finish reason: its own for length and content_filter, else tool_calls or
      stop according to whether there were calls. */
  lemma StreamComesBack(id: string, chunks: seq<Chunk>, numbered: bool, includeUsage: bool)
    requires There.Run(id, Inputs(chunks), numbered).Some?
    requires Sound(Choices(chunks)) && Ended(Choices(chunks))
    ensures SentBack(id, chunks, numbered, includeUsage) == Some(Owed(Choices(chunks)))
  {
    hide InStep, Listen, Closed, Reasoned, Sound, Gather, Fragments, MessageOf, There.FinalResponse, Back.Step,
         Back.FinishReason, FinishBack, There.CloseAll;
    var choices := Choices(chunks);
    RunStands(id, chunks, numbered, includeUsage);
    var (s, evs) := There.Run(id, Inputs(chunks), numbered).value;
    var (r, out) := Listen(Back.INITIAL, evs, includeUsage).value;
    CloseAllAgain(s, numbered);
    NotFinalized(id, Inputs(chunks), numbered);
    var s1 := s.(finalized := true);
    FinalizedInStep(s, r, out, s1, choices);
    PairedReferenced(s1, r, out);
    var eventType := if s1.status == There.StatusIncomplete then Incomplete else Completed;
    var last := There.Bare(eventType, Some(There.FinalResponse(s1)));
    assert There.Finalize(s, numbered).1 == [last];
    TerminalHeard(s1, r, out, eventType, includeUsage);
    FinishComesBack(s1, choices[|choices| - 1].finishReason.value, r.tools.list != []);
    ListenOne(r, last, includeUsage);
    ListenConcat(Back.INITIAL, evs, [last], includeUsage);
    ListenIsRun(evs + [last], includeUsage);
    ToolsCounted(s1, r, out, choices);
    var (r', more) := Back.Step(r, last, includeUsage).value;
    assert Back.Output(evs + [last], includeUsage) == out + more;
  }

  lemma FinalizedInStep(s: There.State, r: Back.State, out: seq<Back.Chunk>, s': There.State, choices: seq<Choice>)
    requires Stands(s, r, out, choices) && Ended(choices) && s' == s.(finalized := s'.finalized)
    ensures InStep(s', r, out) && Closed(s') && Reasoned(s', choices[|choices| - 1].finishReason.value)
  {
    hide MessageOf, Keyed, Said, Text.Trim;
    SameAnnounced(s, s');
  }

  lemma ToolsCounted(s: There.State, r: Back.State, out: seq<Back.Chunk>, choices: seq<Choice>)
    requires InStep(s, r, out) && MessageOf(out) == Said(choices)
    ensures (r.tools.list != []) == (Gather(Fragments(choices)) != [])
  {
    hide Gather;
    CallsLength(s, r, out);
    assert |Calls(Gather(Fragments(choices)))| == |Gather(Fragments(choices))|;
  }

  lemma {:induction false} NotFinalized(id: string, inputs: seq<There.Input>, numbered: bool)
    requires There.Run(id, inputs, numbered).Some?
    ensures !There.Run(id, inputs, numbered).value.0.finalized
  {
    hide There.ChoiceSteps, There.StartStep, There.CompleteStep;
    if inputs != [] { NotFinalized(id, inputs[..|inputs| - 1], numbered); }
  }

  /** In particular the finish reason comes back unchanged when it says what happened:
      tool_calls exactly when there were calls and stop otherwise, or one of the two
      reasons of an incomplete response. */
  lemma FinishIsKept(reason: string, tools: bool)
    ensures FinishBack(reason, tools) == reason <==>
            reason == "length" || reason == "content_filter" || reason == (if tools then "tool_calls" else "stop")
  {
    Text.TrimFixpoint("length");
    Text.TrimFixpoint("content_filter");
    Text.TrimFixpoint("tool_calls");
    Text.TrimFixpoint("stop");
  }
}
