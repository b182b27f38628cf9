/** The Chat to Gemini stream converter: Gemini function calls are atomic, so the
    fragments of a call are gathered until its choice ends. */
module ChatToGemini {
  import opened Basics
  import opened ChatDto
  import InsertionSort
  import Text

  datatype Error =
    | NegativeIndex
    | DataAfterCompletion
    | ChangedId
    | ChangedName
    | Nameless
    | ChoiceCompleted
    | AfterFinalization

  datatype Tool = Tool(id: string, name: string, arguments: string, emitted: bool)

  datatype ChoiceState = ChoiceState(tools: seq<Tool>, byIndex: map<int, nat>, byId: map<string, nat>, finished: bool)

  const UNSEEN := ChoiceState([], map[], map[], false)

  /** A call part carries the gathered arguments text; its decoding is not looked into. */
  datatype Part = TextPart(text: string) | CallPart(id: string, name: string, arguments: string)

  datatype Candidate = Candidate(index: int, parts: seq<Part>, finish: Option<string>)

  predicate Linked(cs: ChoiceState) {
    && (forall k :: k in cs.byIndex ==> cs.byIndex[k] < |cs.tools|)
    && (forall k :: k in cs.byId ==> cs.byId[k] < |cs.tools|)
  }

  // ---- tool deltas ------------------------------------------------------------------------

  /** The tool of a delta: the one with its id, else the one last active at its index
      unless that one has another id; |cs.tools| stands for a new one. */
  function Lookup(cs: ChoiceState, toolIndex: int, id: string): (t: nat)
    requires Linked(cs)
    ensures t <= |cs.tools|
  {
    var found: nat := if id != "" && id in cs.byId then cs.byId[id]
                      else if toolIndex in cs.byIndex then cs.byIndex[toolIndex]
                      else |cs.tools|;
    if found < |cs.tools| && id != "" && cs.tools[found].id != "" && cs.tools[found].id != id
    then |cs.tools| else found
  }

  function IndexOf(delta: ToolDelta, position: nat): int { delta.index.GetOr(position) }

  /** appendToolCallDelta. */
  function AppendDelta(cs: ChoiceState, position: nat, delta: ToolDelta): (r: Result<ChoiceState, Error>)
    requires Linked(cs)
    ensures r.Ok? ==> Linked(r.value) && |cs.tools| <= |r.value.tools|
  {
    var toolIndex := IndexOf(delta, position);
    if toolIndex < 0 then Err(NegativeIndex) else
      var id, name := Text.Trim(delta.id), Text.Trim(delta.name);
      var t := Lookup(cs, toolIndex, id);
      var tools := if t < |cs.tools| then cs.tools else cs.tools + [Tool("", "", "", false)];
      var tool := tools[t];
      if tool.emitted then Err(DataAfterCompletion)
      else if id != "" && tool.id != "" && tool.id != id then Err(ChangedId)
      else if name != "" && tool.name != "" && tool.name != name then Err(ChangedName)
      else Ok(cs.(tools := tools[t := Tool(if id != "" then id else tool.id, if name != "" then name else tool.name,
                                            tool.arguments + delta.arguments, false)],
                  byIndex := cs.byIndex[toolIndex := t],
                  byId := if id != "" then cs.byId[id := t] else cs.byId))
  }

  function AppendDeltas(cs: ChoiceState, deltas: seq<ToolDelta>): (r: Result<ChoiceState, Error>)
    requires Linked(cs)
    ensures r.Ok? ==> Linked(r.value) && |cs.tools| <= |r.value.tools|
  {
    if deltas == [] then Ok(cs) else
      var before := AppendDeltas(cs, deltas[..|deltas| - 1]);
      if before.Err? then before else AppendDelta(before.value, |deltas| - 1, deltas[|deltas| - 1])
  }

  // ---- the end of a choice -------------------------------------------------------------------

  /** The parts of the tools not emitted yet. */
  function Pending(tools: seq<Tool>): seq<Part> {
    if tools == [] then [] else
      var tool := tools[|tools| - 1];
      Pending(tools[..|tools| - 1]) + if tool.emitted then [] else [CallPart(tool.id, tool.name, tool.arguments)]
  }

  predicate AllNamed(tools: seq<Tool>) { forall t :: 0 <= t < |tools| && !tools[t].emitted ==> tools[t].name != "" }

  function Emitted(tools: seq<Tool>): (r: seq<Tool>)
    ensures |r| == |tools| && forall t :: 0 <= t < |tools| ==> r[t] == tools[t].(emitted := true)
  {
    seq(|tools|, t requires 0 <= t < |tools| => tools[t].(emitted := true))
  }

  /** finishChoice. */
  function FinishChoice(cs: ChoiceState): (r: Result<(ChoiceState, seq<Part>), Error>)
    requires Linked(cs)
    ensures r.Ok? ==> Linked(r.value.0)
  {
    if !AllNamed(cs.tools) then Err(Nameless) else Ok((cs.(tools := Emitted(cs.tools)), Pending(cs.tools)))
  }

  /** geminiFinishReason. */
  function FinishReason(reason: string): string {
    if Text.Trim(reason) == "length" then "MAX_TOKENS"
    else if Text.Trim(reason) == "content_filter" then "SAFETY"
    else "STOP"
  }

  predicate Finishes(choice: Choice) { choice.finishReason.Some? && Text.Trim(choice.finishReason.value) != "" }

  /** One choice of a chunk, on the state of its choice. */
  function ChoiceStep(cs: ChoiceState, choice: Choice): (r: Result<(ChoiceState, seq<Candidate>), Error>)
    requires Linked(cs)
    ensures r.Ok? ==> Linked(r.value.0)
  {
    if cs.finished then
      if choice.text != "" || choice.toolCalls != [] then Err(ChoiceCompleted) else Ok((cs, []))
    else
      var appended := AppendDeltas(cs, choice.toolCalls);
      if appended.Err? then Err(appended.error) else
        var text := if choice.text != "" then [TextPart(choice.text)] else [];
        if Finishes(choice) then
          var ended := FinishChoice(appended.value);
          if ended.Err? then Err(ended.error) else
            Ok((ended.value.0.(finished := true),
                [Candidate(choice.index, text + ended.value.1, Some(FinishReason(choice.finishReason.value)))]))
        else Ok((appended.value, if text == [] then [] else [Candidate(choice.index, text, None)]))
  }

  // ---- the stream -------------------------------------------------------------------------------

  /** seen lists the choices in the order in which they first appeared. */
  datatype State = State(seen: seq<int>, choices: map<int, ChoiceState>, finalized: bool)

  const INITIAL := State([], map[], false)

  predicate Valid(s: State) {
    && (forall c :: c in s.choices ==> Linked(s.choices[c]))
    && (forall k :: 0 <= k < |s.seen| ==> s.seen[k] in s.choices)
  }

  function At(s: State, c: int): (cs: ChoiceState)
    requires Valid(s)
    ensures Linked(cs)
  {
    if c in s.choices then s.choices[c] else UNSEEN
  }

  /** A choice of a chunk, routed to the state of its index. */
  function RouteStep(s: State, choice: Choice): (r: Result<(State, seq<Candidate>), Error>)
    requires Valid(s)
    ensures r.Ok? ==> Valid(r.value.0)
  {
    var step := ChoiceStep(At(s, choice.index), choice);
    if step.Err? then Err(step.error) else
      Ok((s.(seen := if choice.index in s.choices then s.seen else s.seen + [choice.index],
             choices := s.choices[choice.index := step.value.0]),
          step.value.1))
  }

  function RouteSteps(s: State, choices: seq<Choice>): (r: Result<(State, seq<Candidate>), Error>)
    requires Valid(s)
    ensures r.Ok? ==> Valid(r.value.0)
  {
    if choices == [] then Ok((s, [])) else
      var before := RouteSteps(s, choices[..|choices| - 1]);
      if before.Err? then before else
        var after := RouteStep(before.value.0, choices[|choices| - 1]);
        if after.Err? then after else Ok((after.value.0, before.value.1 + after.value.1))
  }

  /** ConvertChunk, as far as candidates are concerned. */
  function ChunkStep(s: State, chunk: Chunk): (r: Result<(State, seq<Candidate>), Error>)
    requires Valid(s)
    ensures r.Ok? ==> Valid(r.value.0)
  {
    if s.finalized then Err(AfterFinalization) else RouteSteps(s, chunk.choices)
  }

  /** Choices that still have to be finished. */
  function Unfinished(s: State, seen: seq<int>): seq<int>
    requires Valid(s)
  {
    if seen == [] then [] else
      var c := seen[|seen| - 1];
      Unfinished(s, seen[..|seen| - 1]) +
      if !At(s, c).finished || exists t :: 0 <= t < |At(s, c).tools| && !At(s, c).tools[t].emitted then [c] else []
  }

  function FinishAll(s: State, order: seq<int>): (r: Result<(State, seq<Candidate>), Error>)
    requires Valid(s)
    ensures r.Ok? ==> Valid(r.value.0) && r.value.0.seen == s.seen && r.value.0.finalized == s.finalized
  {
    if order == [] then Ok((s, [])) else
      var before := FinishAll(s, order[..|order| - 1]);
      if before.Err? then before else
        var c := order[|order| - 1];
        var ended := FinishChoice(At(before.value.0, c));
        if ended.Err? then Err(ended.error) else
          Ok((before.value.0.(choices := before.value.0.choices[c := ended.value.0]),
              before.value.1 + [Candidate(c, ended.value.1, Some("STOP"))]))
  }

  /** Finalize: what is left is ended in the order of the choice indexes. */
  function Finalize(s: State): (r: Result<(State, seq<Candidate>), Error>)
    requires Valid(s)
    ensures r.Ok? ==> Valid(r.value.0)
  {
    if s.finalized then Ok((s, [])) else
      var ended := FinishAll(s, InsertionSort.Sorted(Unfinished(s, s.seen)));
      if ended.Err? then ended else Ok((ended.value.0.(finalized := true), ended.value.1))
  }

  function Run(chunks: seq<Chunk>): (r: Result<(State, seq<Candidate>), Error>)
    ensures r.Ok? ==> Valid(r.value.0)
  {
    if chunks == [] then Ok((INITIAL, [])) else
      var before := Run(chunks[..|chunks| - 1]);
      if before.Err? then before else
        var after := ChunkStep(before.value.0, chunks[|chunks| - 1]);
        if after.Err? then after else Ok((after.value.0, before.value.1 + after.value.1))
  }

  /** The whole output, finalizer included. */
  function Output(chunks: seq<Chunk>): Result<seq<Candidate>, Error> {
    var run := Run(chunks);
    if run.Err? then Err(run.error) else
      var last := Finalize(run.value.0);
      if last.Err? then Err(last.error) else Ok(run.value.1 + last.value.1)
  }
}
