/** The tool side of a Responses to Chat stream, taken apart from its text: the stream's
    tool chunks are those of a plain list of tool actions. */
module ResponsesToChatActions {
  import opened Basics
  import opened ResponsesDto
  import opened ResponsesToChat
  import opened ToolKeys

  // ---- the tool side of a stream -----------------------------------------------------------

  datatype Action = OnTool(event: StreamEvent) | FlushTools

  predicate Playable(actions: seq<Action>) {
    forall k :: 0 <= k < |actions| && actions[k].OnTool? ==> IsToolEvent(actions[k].event)
  }

  ghost function Act(ts: Tools, action: Action): (r: (Tools, seq<Chunk>))
    requires Linked(ts) && (action.OnTool? ==> IsToolEvent(action.event))
    ensures Linked(r.0) && |ts.list| <= |r.0.list|
  {
    match action
    case OnTool(event) => ToolStep(ts, event)
    case FlushTools => FlushAll(ts)
  }

  ghost function Play(actions: seq<Action>): (r: (Tools, seq<Chunk>))
    requires Playable(actions)
    ensures Linked(r.0)
  {
    if actions == [] then (NO_TOOLS, []) else
      var (ts1, chunks1) := Play(actions[..|actions| - 1]);
      var (ts2, chunks2) := Act(ts1, actions[|actions| - 1]);
      (ts2, chunks1 + chunks2)
  }

  function OutputActions(output: seq<Item>): (r: seq<Action>)
    ensures Playable(r) && FlushTools !in r
  {
    if output == [] then [] else
      OutputActions(output[..|output| - 1]) +
      if output[|output| - 1].itemType.ToolType? then [OnTool(TerminalEvent(output[|output| - 1]))] else []
  }

  predicate IsTerminal(event: StreamEvent) { event.eventType.Completed? || event.eventType.Incomplete? }

  /** What an event does to the tools; only the first terminal event flushes them. */
  function ActionsOf(event: StreamEvent, finalized: bool): (r: seq<Action>)
    ensures Playable(r)
  {
    if IsToolEvent(event) then [OnTool(event)]
    else if IsTerminal(event) then
      (if TerminalResponse(event).Some? then OutputActions(TerminalResponse(event).value.output) else []) +
      if finalized then [] else [FlushTools]
    else []
  }

  function Actions(events: seq<StreamEvent>): (r: seq<Action>)
    ensures Playable(r)
  {
    if events == [] then [] else
      Actions(events[..|events| - 1]) + ActionsOf(events[|events| - 1], Terminated(events[..|events| - 1]))
  }

  predicate Terminated(events: seq<StreamEvent>) {
    events != [] && (IsTerminal(events[|events| - 1]) || Terminated(events[..|events| - 1]))
  }

  /** The whole stream, finalizer included. */
  function AllActions(events: seq<StreamEvent>): (r: seq<Action>)
    ensures Playable(r)
  {
    Actions(events) + if Terminated(events) then [] else [FlushTools]
  }

  function OnlyTools(trace: seq<Chunk>): seq<Chunk> {
    if trace == [] then [] else
      OnlyTools(trace[..|trace| - 1]) + if trace[|trace| - 1].ToolChunk? then [trace[|trace| - 1]] else []
  }

  lemma {:induction false} OnlyToolsConcat(a: seq<Chunk>, b: seq<Chunk>)
    ensures OnlyTools(a + b) == OnlyTools(a) + OnlyTools(b)
  {
    if b == [] {
      assert a + b == a && OnlyTools(a) + [] == OnlyTools(a);
    } else {
      var n := |b| - 1;
      assert (a + b)[..|a + b| - 1] == a + b[..n];
      OnlyToolsConcat(a, b[..n]);
      var last := if b[n].ToolChunk? then [b[n]] else [];
      assert OnlyTools(a) + (OnlyTools(b[..n]) + last) == (OnlyTools(a) + OnlyTools(b[..n])) + last;
    }
  }

  predicate AllTools(chunks: seq<Chunk>) { forall k :: 0 <= k < |chunks| ==> chunks[k].ToolChunk? }

  predicate NoTools(chunks: seq<Chunk>) { forall k :: 0 <= k < |chunks| ==> !chunks[k].ToolChunk? }

  lemma {:induction false} OnlyToolsAll(chunks: seq<Chunk>)
    requires AllTools(chunks)
    ensures OnlyTools(chunks) == chunks
  {
    if chunks != [] {
      OnlyToolsAll(chunks[..|chunks| - 1]);
      assert chunks == chunks[..|chunks| - 1] + [chunks[|chunks| - 1]];
    }
  }

  lemma {:induction false} OnlyToolsNone(chunks: seq<Chunk>)
    requires NoTools(chunks)
    ensures OnlyTools(chunks) == []
  {
    if chunks != [] {
      OnlyToolsNone(chunks[..|chunks| - 1]);
    }
  }

  // ---- a stream is its actions -----------------------------------------------------------------

  lemma SendAllTools(ts: Tools, t: nat, explicit: string)
    requires Linked(ts) && t < |ts.list|
    ensures AllTools(Send(ts, t, explicit).1)
  {
  }

  lemma ToolStepAllTools(ts: Tools, event: StreamEvent)
    requires Linked(ts) && IsToolEvent(event)
    ensures AllTools(ToolStep(ts, event).1)
  {
    hide Find, EnsureTool, EnsureFallback, Send, KeepAside;
    forall ts1: Tools, t: nat, explicit: string | Linked(ts1) && t < |ts1.list|
      ensures AllTools(Send(ts1, t, explicit).1) {
      SendAllTools(ts1, t, explicit);
    }
  }

  lemma {:induction false} FlushKeysAllTools(ts: Tools, keys: seq<Key>)
    requires Linked(ts)
    ensures AllTools(FlushKeys(ts, keys).1)
  {
    hide TakePending, Send;
    if keys != [] {
      FlushKeysAllTools(ts, keys[..|keys| - 1]);
      var (ts1, t) := TakePending(FlushKeys(ts, keys[..|keys| - 1]).0, keys[|keys| - 1]);
      SendAllTools(ts1, t, "");
    }
  }

  lemma SaidOnlyTools(s: State, chunks: seq<Chunk>)
    requires AllTools(chunks) || NoTools(chunks)
    ensures OnlyTools(Said(s, chunks).1) == if AllTools(chunks) then chunks else []
  {
    if chunks != [] {
      OnlyToolsConcat(Opening(s), chunks);
      OnlyToolsNone(Opening(s));
      if AllTools(chunks) { OnlyToolsAll(chunks); } else { OnlyToolsNone(chunks); }
    }
  }

  /** State and trace of a stream are those of its actions. */
  ghost predicate PlaysTo(actions: seq<Action>, s: State, trace: seq<Chunk>) {
    Playable(actions) && Play(actions) == (s.tools, OnlyTools(trace))
  }

  lemma NoAction(actions: seq<Action>, s: State, trace: seq<Chunk>, s': State, chunks: seq<Chunk>)
    requires PlaysTo(actions, s, trace) && s'.tools == s.tools && OnlyTools(chunks) == []
    ensures PlaysTo(actions + [], s', trace + chunks)
  {
    OnlyToolsConcat(trace, chunks);
    assert OnlyTools(trace) + [] == OnlyTools(trace);
    assert actions + [] == actions;
  }

  lemma OneAction(actions: seq<Action>, s: State, trace: seq<Chunk>, action: Action, s': State, chunks: seq<Chunk>)
    requires PlaysTo(actions, s, trace) && Linked(s.tools) && (action.OnTool? ==> IsToolEvent(action.event))
    requires Act(s.tools, action) == (s'.tools, OnlyTools(chunks))
    ensures PlaysTo(actions + [action], s', trace + chunks)
  {
    hide Act;
    OnlyToolsConcat(trace, chunks);
    assert (actions + [action])[..|actions + [action]| - 1] == actions;
  }

  lemma ToolsSaidPlays(actions: seq<Action>, s: State, trace: seq<Chunk>, action: Action)
    requires PlaysTo(actions, s, trace) && Linked(s.tools) && (action.OnTool? ==> IsToolEvent(action.event))
    ensures var (s', chunks) := ToolsSaid(s, Act(s.tools, action));
            PlaysTo(actions + [action], s', trace + chunks)
  {
    hide ToolStep;
    var step := Act(s.tools, action);
    match action {
      case OnTool(event) => ToolStepAllTools(s.tools, event);
      case FlushTools => FlushKeysAllTools(s.tools, Sorted(AllKeys(s.tools)));
    }
    SaidOnlyTools(s.(tools := step.0, sawToolCall := s.sawToolCall || step.1 != []), step.1);
    OneAction(actions, s, trace, action, ToolsSaid(s, step).0, ToolsSaid(s, step).1);
  }

  lemma TextOnly(s: State, text: string)
    ensures OnlyTools(TextStep(s, text).1) == []
  {
    if text != "" { SaidOnlyTools(s.(hasSentText := true), [ContentChunk(text)]); }
  }

  lemma ReasoningOnly(s: State, text: string)
    ensures OnlyTools(ReasoningStep(s, text).1) == []
  {
    if text != "" {
      SaidOnlyTools(s.(needsBreak := false, hasSentReasoning := true),
                    [ReasoningChunk(if s.needsBreak then Separated(text) else text)]);
    }
  }

  lemma TerminalItemPlays(actions: seq<Action>, s: State, trace: seq<Chunk>, item: Item, hadText: bool,
                          hadReasoning: bool)
    requires PlaysTo(actions, s, trace) && Linked(s.tools)
    ensures var (s', chunks) := TerminalItem(s, item, hadText, hadReasoning);
            PlaysTo(actions + if item.itemType.ToolType? then [OnTool(TerminalEvent(item))] else [], s', trace + chunks)
  {
    hide PlaysTo, ToolStep, TextStep, ReasoningStep;
    if item.itemType.ToolType? {
      ToolsSaidPlays(actions, s, trace, OnTool(TerminalEvent(item)));
    } else {
      TextOnly(s, MessageText(item.content));
      ReasoningOnly(s, ReasoningText(item));
      var (s', chunks) := TerminalItem(s, item, hadText, hadReasoning);
      NoAction(actions, s, trace, s', chunks);
    }
  }

  lemma {:induction false} TerminalItemsPlay(actions: seq<Action>, s: State, trace: seq<Chunk>, output: seq<Item>,
                                             hadText: bool, hadReasoning: bool)
    requires PlaysTo(actions, s, trace) && Linked(s.tools)
    ensures var (s', chunks) := TerminalItems(s, output, hadText, hadReasoning);
            PlaysTo(actions + OutputActions(output), s', trace + chunks)
  {
    hide PlaysTo, TerminalItem;
    if output == [] {
      assert actions + [] == actions && trace + [] == trace;
    } else {
      var n := |output| - 1;
      TerminalItemsPlay(actions, s, trace, output[..n], hadText, hadReasoning);
      var (s1, chunks1) := TerminalItems(s, output[..n], hadText, hadReasoning);
      TerminalItemPlays(actions + OutputActions(output[..n]), s1, trace + chunks1, output[n], hadText, hadReasoning);
      var last := if output[n].itemType.ToolType? then [OnTool(TerminalEvent(output[n]))] else [];
      assert actions + (OutputActions(output[..n]) + last) == (actions + OutputActions(output[..n])) + last;
      var chunks2 := TerminalItem(s1, output[n], hadText, hadReasoning).1;
      assert trace + (chunks1 + chunks2) == (trace + chunks1) + chunks2;
    }
  }

  lemma FinalizePlays(actions: seq<Action>, s: State, trace: seq<Chunk>, response: Option<Response>, includeUsage: bool)
    requires PlaysTo(actions, s, trace) && Linked(s.tools)
    ensures var (s', chunks) := Finalize(s, response, includeUsage);
            PlaysTo(actions + if s.finalized then [] else [FlushTools], s', trace + chunks) && s'.finalized
  {
    hide PlaysTo, FlushAll, ToolsSaid, FinishReason, OnlyTools;
    if s.finalized {
      assert actions + [] == actions && trace + [] == trace;
    } else {
      var s0 := s.(finalized := true);
      Renamed(actions, s, s0, trace);
      ToolsSaidPlays(actions, s0, trace, FlushTools);
      var (s1, chunks) := ToolsSaid(s0, FlushAll(s.tools));
      var last := Opening(s1) + [FinishChunk(FinishReason(response, s1.sawToolCall))] + if includeUsage
        then [UsageChunk] else [];
      OnlyToolsNone(last);
      NoAction(actions + [FlushTools], s1, trace + chunks, s1.(sentStart := true), last);
      assert (actions + [FlushTools]) + [] == actions + [FlushTools];
      assert (trace + chunks) + last == trace + Finalize(s, response, includeUsage).1;
    }
  }

  lemma Renamed(actions: seq<Action>, s: State, s': State, trace: seq<Chunk>)
    requires PlaysTo(actions, s, trace) && s'.tools == s.tools
    ensures PlaysTo(actions, s', trace)
  {
  }

  lemma TerminalPlays(actions: seq<Action>, s: State, trace: seq<Chunk>, response: Option<Response>, includeUsage: bool)
    requires PlaysTo(actions, s, trace) && Linked(s.tools)
    ensures var (s', chunks) := Terminal(s, response, includeUsage);
            && PlaysTo(actions + ((if response.Some? then OutputActions(response.value.output) else []) +
                                  if s.finalized then [] else [FlushTools]), s', trace + chunks)
            && s'.finalized
  {
    hide PlaysTo, TerminalItems, Finalize;
    var items := if response.Some? then OutputActions(response.value.output) else [];
    var (s1, chunks1) := if response.Some? then TerminalItems(s, response.value.output, s.hasSentText,
                                                              s.hasSentReasoning)
                         else (s, []);
    assert trace + [] == trace && actions + [] == actions;
    if response.Some? {
      TerminalItemsPlay(actions, s, trace, response.value.output, s.hasSentText, s.hasSentReasoning);
    }
    FinalizePlays(actions + items, s1, trace + chunks1, response, includeUsage);
    var chunks2 := Finalize(s1, response, includeUsage).1;
    assert trace + (chunks1 + chunks2) == (trace + chunks1) + chunks2;
    var flush := if s.finalized then [] else [FlushTools];
    assert actions + (items + flush) == (actions + items) + flush;
  }

  lemma OpeningOnly(s: State)
    ensures OnlyTools(Opening(s)) == []
  {
    OnlyToolsNone(Opening(s));
  }

  /** An event that is neither about tools nor the end says nothing about tools. */
  lemma SpeechStep(s: State, event: StreamEvent, includeUsage: bool)
    requires Linked(s.tools) && Step(s, event, includeUsage).Some? && !IsToolEvent(event) && !IsTerminal(event)
    ensures var (s', chunks) := Step(s, event, includeUsage).value;
            s'.tools == s.tools && s'.finalized == s.finalized && OnlyTools(chunks) == []
  {
    hide ToolStep, TextStep, ReasoningStep, Terminal, TerminalResponse, Opening, Linked, OnlyTools;
    TextOnly(s, event.delta);
    ReasoningOnly(s, event.delta);
    OpeningOnly(s);
    OnlyToolsNone([]);
  }

  lemma StepIs(s: State, event: StreamEvent, includeUsage: bool)
    requires Linked(s.tools)
    ensures IsToolEvent(event) ==> !IsTerminal(event)
    ensures IsToolEvent(event) ==> Step(s, event, includeUsage) == Some(ToolsSaid(s, ToolStep(s.tools, event)))
    ensures IsTerminal(event) ==>
              Step(s, event, includeUsage) == Some(Terminal(s, TerminalResponse(event), includeUsage))
  {
    hide ToolStep, TextStep, ReasoningStep, Terminal, TerminalResponse, Opening, Linked, ToolsSaid;
  }

  lemma StepPlays(actions: seq<Action>, s: State, trace: seq<Chunk>, event: StreamEvent, includeUsage: bool)
    requires PlaysTo(actions, s, trace) && Linked(s.tools) && Step(s, event, includeUsage).Some?
    ensures var (s', chunks) := Step(s, event, includeUsage).value;
            && PlaysTo(actions + ActionsOf(event, s.finalized), s', trace + chunks)
            && s'.finalized == (s.finalized || IsTerminal(event))
  {
    hide PlaysTo, Step, ToolStep, Terminal, TerminalResponse, Linked, OnlyTools, ToolsSaid;
    var (s', chunks) := Step(s, event, includeUsage).value;
    StepIs(s, event, includeUsage);
    if IsToolEvent(event) {
      ToolsSaidPlays(actions, s, trace, OnTool(event));
    } else if IsTerminal(event) {
      TerminalPlays(actions, s, trace, TerminalResponse(event), includeUsage);
    } else {
      SpeechStep(s, event, includeUsage);
      NoAction(actions, s, trace, s', chunks);
    }
  }

  lemma {:induction false} RunPlays(events: seq<StreamEvent>, includeUsage: bool)
    requires Run(events, includeUsage).Some?
    ensures var (s, trace) := Run(events, includeUsage).value;
            PlaysTo(Actions(events), s, trace) && s.finalized == Terminated(events)
  {
    hide Step, ActionsOf;
    if events != [] {
      var n := |events| - 1;
      RunPlays(events[..n], includeUsage);
      var (s, trace) := Run(events[..n], includeUsage).value;
      StepPlays(Actions(events[..n]), s, trace, events[n], includeUsage);
    }
  }

  /** The tool chunks of the whole output are those of the stream's tool actions. */
  lemma OutputPlays(events: seq<StreamEvent>, includeUsage: bool)
    requires Run(events, includeUsage).Some?
    ensures OnlyTools(Output(events, includeUsage)) == Play(AllActions(events)).1
  {
    hide Finalize, Run;
    RunPlays(events, includeUsage);
    var (s, trace) := Run(events, includeUsage).value;
    FinalizePlays(Actions(events), s, trace, None, includeUsage);
  }
}
