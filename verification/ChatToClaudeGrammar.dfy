/** Every Chat to Claude stream of at least one chunk is a complete Claude stream. */
module ChatToClaudeGrammar {
  import opened ChatDto
  import opened ClaudeTrace
  import opened ChatToClaude

  /** The tool blocks a list of tools keeps open. */
  function OpenTools(tools: seq<Tool>): map<int, Kind> {
    if tools == [] then map[] else
      var tool := tools[|tools| - 1];
      var rest := OpenTools(tools[..|tools| - 1]);
      if tool.started then rest[tool.blockIndex := ToolKind] else rest
  }

  predicate Consecutive(tools: seq<Tool>, base: int) {
    forall i :: 0 <= i < |tools| ==> tools[i].blockIndex == base + i
  }

  lemma {:induction false} OpenToolsAt(tools: seq<Tool>, base: int, i: int)
    requires Consecutive(tools, base)
    ensures i in OpenTools(tools) <==> base <= i < base + |tools| && tools[i - base].started
    ensures i in OpenTools(tools) ==> OpenTools(tools)[i] == ToolKind
  {
    if tools != [] {
      OpenToolsAt(tools[..|tools| - 1], base, i);
    }
  }

  /** Only the updated tool can change what is open. */
  lemma {:induction false} OpenToolsUpdate(tools: seq<Tool>, base: int, p: nat, tool: Tool)
    requires Consecutive(tools, base) && p < |tools| && tool.blockIndex == base + p
    requires tools[p].started ==> tool.started
    ensures OpenTools(tools[p := tool]) == if tool.started then OpenTools(tools)[base + p := ToolKind]
            else OpenTools(tools)
  {
    var n := |tools| - 1;
    if p < n {
      assert tools[p := tool][..n] == tools[..n][p := tool];
      OpenToolsUpdate(tools[..n], base, p, tool);
    } else {
      assert tools[p := tool][..n] == tools[..n];
    }
  }

  function OpenOf(s: Info): map<int, Kind> {
    match s.last
    case LastNone => map[]
    case LastText => map[s.index := TextKind]
    case LastThinking => map[s.index := ThinkingKind]
    case LastTools => OpenTools(s.tools)
  }

  /** Every block below the floor is spent; none at or above it was ever stopped. */
  function Floor(s: Info): int { if s.last == LastTools then s.base else s.index }

  predicate ClosedBelow(c: Cursor, floor: int) { forall i :: i in c.closed ==> i < floor }

  /** The state's view of the stream agrees with the grammar's. */
  predicate Agrees(s: Info, c: Cursor) {
    c.phase == Streaming && c.sealed == {} && c.open == OpenOf(s) && ClosedBelow(c, Floor(s))
  }

  predicate Steps(c: Cursor, evs: seq<Event>, c': Cursor) {
    Follows(false, c, evs) && After(c, evs) == c'
  }

  lemma Chain(c: Cursor, a: seq<Event>, c': Cursor, b: seq<Event>, c'': Cursor)
    requires Steps(c, a, c') && Steps(c', b, c'')
    ensures Steps(c, a + b, c'')
  {
    Concatenation(false, c, a, b);
  }

  lemma Idle(c: Cursor)
    ensures Steps(c, [], c)
  {
  }

  lemma Emit(c: Cursor, e: Event)
    requires Allowed(false, c, e)
    ensures Steps(c, [e], Advance(c, e))
  {
    One(false, c, e);
  }

  // ---- closing -----------------------------------------------------------------

  predicate Streams(c: Cursor) { c.phase == Streaming && c.sealed == {} }

  lemma StartFollows(tool: Tool, c: Cursor) returns (c': Cursor)
    requires Streams(c) && tool.blockIndex !in c.open && tool.blockIndex !in c.closed
    ensures c' == c.(open := c.open[tool.blockIndex := ToolKind])
    ensures Steps(c, Start(tool), c')
  {
    var start := BlockStart(tool.blockIndex, ToolBlock(tool.id, tool.name));
    c' := Advance(c, start);
    Emit(c, start);
    if tool.pending != "" {
      var delta := BlockDelta(tool.blockIndex, InputJsonDelta(tool.pending));
      Emit(c', delta);
      Chain(c, [start], c', [delta], c');
    } else {
      assert Start(tool) == [start];
    }
  }

  lemma {:induction false} StartPendingFollows(tools: seq<Tool>, base: int, uuid: Uuid, c: Cursor, kept: map<int, Kind>)
    returns (c': Cursor)
    requires Streams(c) && Consecutive(tools, base) && ClosedBelow(c, base)
    requires c.open == kept + OpenTools(tools) && forall i :: i in kept ==> i >= base + |tools|
    ensures c' == c.(open := kept + OpenTools(StartPending(tools, uuid).0))
    ensures Steps(c, StartPending(tools, uuid).1, c')
  {
    hide Steps, After, Follows;
    if tools == [] {
      c' := c;
      Idle(c);
    } else {
      var n := |tools| - 1;
      var above := if tools[n].started then kept[base + n := ToolKind] else kept;
      AppendOpen(kept, tools[..n], tools[n], base);
      assert tools == tools[..n] + [tools[n]];
      var c1 := StartPendingFollows(tools[..n], base, uuid, c, above);
      c' := StartLastFollows(tools, base, uuid, c1, kept, above);
      if Startable(tools[n]) {
        Chain(c, StartPending(tools[..n], uuid).1, c1, Start(Identified(tools[n], uuid)), c');
      } else {
        assert StartPending(tools, uuid).1 == StartPending(tools[..n], uuid).1;
      }
    }
  }

  /** One more tool of the list: it is started now, was started before, or stays unnamed. */
  lemma StartLastFollows(tools: seq<Tool>, base: int, uuid: Uuid, c: Cursor, kept: map<int, Kind>,
                         above: map<int, Kind>)
    returns (c': Cursor)
    requires tools != [] && Streams(c) && Consecutive(tools, base) && ClosedBelow(c, base)
    requires forall i :: i in kept ==> i >= base + |tools|
    requires var n := |tools| - 1;
             && above == (if tools[n].started then kept[base + n := ToolKind] else kept)
             && c.open == above + OpenTools(StartPending(tools[..n], uuid).0)
    ensures c' == c.(open := kept + OpenTools(StartPending(tools, uuid).0))
    ensures if Startable(tools[|tools| - 1]) then Steps(c, Start(Identified(tools[|tools| - 1], uuid)), c') else c' == c
  {
    var n := |tools| - 1;
    var rest := StartPending(tools[..n], uuid).0;
    AppendOpen(kept, rest, StartPending(tools, uuid).0[n], base);
    c' := c;
    if Startable(tools[n]) {
      OpenToolsAt(rest, base, base + n);
      c' := StartFollows(Identified(tools[n], uuid), c);
    }
  }

  lemma AppendOpen(kept: map<int, Kind>, rest: seq<Tool>, tool: Tool, base: int)
    requires Consecutive(rest, base) && tool.blockIndex == base + |rest| && base + |rest| !in kept
    ensures kept + OpenTools(rest + [tool]) ==
            if tool.started then (kept + OpenTools(rest))[base + |rest| := ToolKind] else kept + OpenTools(rest)
    ensures tool.started ==> kept + OpenTools(rest + [tool]) == kept[base + |rest| := ToolKind] + OpenTools(rest)
  {
    assert (rest + [tool])[..|rest|] == rest;
    OpenToolsAt(rest, base, base + |rest|);
  }

  /** Stopping one tool, the last that is open below the kept blocks. */
  lemma StopOneFollows(tool: Tool, c: Cursor, kept: map<int, Kind>) returns (c': Cursor)
    requires Streams(c) && ClosedBelow(c, tool.blockIndex)
    requires c.open == if tool.started then kept[tool.blockIndex := ToolKind] else kept
    requires forall i :: i in kept ==> i > tool.blockIndex
    ensures Streams(c') && c'.open == kept && ClosedBelow(c', tool.blockIndex + 1)
    ensures Steps(c, if tool.started then [BlockStop(tool.blockIndex)] else [], c')
  {
    c' := c;
    if tool.started {
      c' := Advance(c, BlockStop(tool.blockIndex));
      Emit(c, BlockStop(tool.blockIndex));
    }
  }

  lemma {:induction false} StopStartedFollows(tools: seq<Tool>, base: int, c: Cursor, kept: map<int, Kind>)
    returns (c': Cursor)
    requires Streams(c) && Consecutive(tools, base) && ClosedBelow(c, base)
    requires c.open == kept + OpenTools(tools) && forall i :: i in kept ==> i >= base + |tools|
    ensures Streams(c') && c'.open == kept && ClosedBelow(c', base + |tools|)
    ensures Steps(c, StopStarted(tools), c')
  {
    hide Steps, Advance, Allowed;
    if tools == [] {
      c' := c;
      Idle(c);
      assert kept + map[] == kept;
    } else {
      var n := |tools| - 1;
      var above := if tools[n].started then kept[base + n := ToolKind] else kept;
      assert tools == tools[..n] + [tools[n]];
      AppendOpen(kept, tools[..n], tools[n], base);
      var c1 := StopStartedFollows(tools[..n], base, c, above);
      c' := StopOneFollows(tools[n], c1, kept);
      Chain(c, StopStarted(tools[..n]), c1, if tools[n].started then [BlockStop(base + n)] else [], c');
    }
  }

  /** Closing leaves nothing open, and everything below the next free index spent. */
  lemma CloseBlocksFollows(s: Info, uuid: Uuid, c: Cursor) returns (c': Cursor)
    requires Shaped(s) && Agrees(s, c)
    ensures Streams(c') && c'.open == map[] && ClosedBelow(c', NextFree(s))
    ensures Steps(c, CloseBlocks(s, uuid).1, c')
  {
    if s.last == LastTools {
      c' := CloseToolsFollows(s, uuid, c);
    } else if s.last == LastNone {
      c' := c;
    } else {
      c' := Advance(c, BlockStop(s.index));
      Emit(c, BlockStop(s.index));
    }
  }

  lemma CloseToolsFollows(s: Info, uuid: Uuid, c: Cursor) returns (c': Cursor)
    requires Shaped(s) && Agrees(s, c) && s.last == LastTools
    ensures Streams(c') && c'.open == map[] && ClosedBelow(c', NextFree(s))
    ensures Steps(c, CloseBlocks(s, uuid).1, c')
  {
    var (tools, evs) := StartPending(s.tools, uuid);
    assert map[] + OpenTools(s.tools) == OpenTools(s.tools);
    var c1 := StartPendingFollows(s.tools, s.base, uuid, c, map[]);
    c' := StopStartedFollows(tools, s.base, c1, map[]);
    Chain(c, evs, c1, StopStarted(tools), c');
  }

  lemma CloseAndAdvanceFollows(s: Info, uuid: Uuid, c: Cursor) returns (c': Cursor)
    requires Shaped(s) && Agrees(s, c)
    ensures var (s', evs) := CloseAndAdvance(s, uuid);
            Agrees(s', c') && s'.last == LastNone && Steps(c, evs, c')
  {
    if s.last == LastNone {
      c' := c;
    } else {
      c' := CloseBlocksFollows(s, uuid, c);
    }
  }

  // ---- the parts of a chunk ------------------------------------------------------

  lemma OpenBlockFollows(s: Info, last: Last, content: Content, uuid: Uuid, c: Cursor) returns (c': Cursor)
    requires Shaped(s) && Agrees(s, c)
    requires (last == LastText && content == TextBlock) || (last == LastThinking && content == ThinkingBlock)
    ensures var (s', evs) := OpenBlock(s, last, content, uuid);
            Agrees(s', c') && s'.last == last && Steps(c, evs, c')
  {
    if s.last == last {
      c' := c;
    } else {
      var c1 := CloseAndAdvanceFollows(s, uuid, c);
      var (s1, evs) := CloseAndAdvance(s, uuid);
      var start := BlockStart(s1.index, content);
      Emit(c1, start);
      c' := Advance(c1, start);
      Chain(c, evs, c1, [start], c');
    }
  }

  lemma ProsePartFollows(s: Info, reasoning: string, text: string, uuid: Uuid, c: Cursor) returns (c': Cursor)
    requires Shaped(s) && Agrees(s, c)
    ensures var (s', evs) := ProsePart(s, reasoning, text, uuid);
            Agrees(s', c') && Steps(c, evs, c')
  {
    c' := c;
    if reasoning != "" {
      c' := OpenBlockFollows(s, LastThinking, ThinkingBlock, uuid, c);
      var (s1, evs) := OpenBlock(s, LastThinking, ThinkingBlock, uuid);
      Emit(c', BlockDelta(s1.index, ThinkingDelta(reasoning)));
      Chain(c, evs, c', [BlockDelta(s1.index, ThinkingDelta(reasoning))], c');
    } else if text != "" {
      c' := OpenBlockFollows(s, LastText, TextBlock, uuid, c);
      var (s1, evs) := OpenBlock(s, LastText, TextBlock, uuid);
      Emit(c', BlockDelta(s1.index, TextDelta(text)));
      Chain(c, evs, c', [BlockDelta(s1.index, TextDelta(text))], c');
    }
  }

  lemma {:induction false} CitationDeltasFollow(index: int, citations: seq<Citation>, c: Cursor)
    requires Streams(c) && index in c.open && c.open[index] == TextKind
    ensures Steps(c, CitationDeltas(index, citations), c)
  {
    if citations != [] {
      var n := |citations| - 1;
      CitationDeltasFollow(index, citations[..n], c);
      Emit(c, BlockDelta(index, CitationDelta(citations[n])));
      Chain(c, CitationDeltas(index, citations[..n]), c, [BlockDelta(index, CitationDelta(citations[n]))], c);
    }
  }

  lemma CitationPartFollows(s: Info, citations: seq<Citation>, uuid: Uuid, c: Cursor) returns (c': Cursor)
    requires Shaped(s) && Agrees(s, c)
    ensures var (s', evs) := CitationPart(s, citations, uuid);
            Agrees(s', c') && Steps(c, evs, c')
  {
    c' := c;
    if citations != [] {
      c' := OpenBlockFollows(s, LastText, TextBlock, uuid, c);
      var (s1, evs) := OpenBlock(s, LastText, TextBlock, uuid);
      CitationDeltasFollow(s1.index, citations, c');
      Chain(c, evs, c', CitationDeltas(s1.index, citations), c');
    }
  }

  lemma RoutedAgrees(s: Info, toolIndex: int, id: string, c: Cursor)
    requires InPhase(s) && Agrees(s, c)
    ensures Agrees(Routed(s, toolIndex, id), c)
  {
    var routed := Routed(s, toolIndex, id);
    if Lookup(s, toolIndex, id) == |s.tools| {
      AppendOpen(map[], s.tools, routed.tools[|s.tools|], s.base);
      assert map[] + OpenTools(s.tools) == OpenTools(s.tools)
             && map[] + OpenTools(routed.tools) == OpenTools(routed.tools);
    }
  }

  /** Serving one tool of the phase. */
  lemma ServeFollows(s: Info, p: nat, tool: Tool, arguments: string, s': Info, c: Cursor) returns (c': Cursor)
    requires InPhase(s) && Agrees(s, c) && p < |s.tools|
    requires tool.blockIndex == s.base + p && tool.started == s.tools[p].started
    requires s' == s.(tools := s.tools[p := Deliver(tool, arguments).0], byId := s'.byId)
    ensures Agrees(s', c') && Steps(c, Deliver(tool, arguments).1, c')
  {
    hide Steps, Advance, Allowed;
    OpenToolsAt(s.tools, s.base, s.base + p);
    OpenToolsUpdate(s.tools, s.base, p, Deliver(tool, arguments).0);
    c' := DeliverFollows(tool, arguments, c);
  }

  lemma ToolDeltaFollows(s: Info, position: int, delta: ToolDelta, c: Cursor) returns (c': Cursor)
    requires InPhase(s) && Agrees(s, c)
    ensures var (s', evs) := ApplyToolDelta(s, position, delta);
            Agrees(s', c') && Steps(c, evs, c')
  {
    hide Steps, Agrees, Deliver;
    var id := Text.Trim(delta.id);
    var p := Lookup(s, IndexOf(delta, position), id);
    var routed := Routed(s, IndexOf(delta, position), id);
    RoutedAgrees(s, IndexOf(delta, position), id, c);
    var tool := Identify(routed.tools[p], id, Text.Trim(delta.name));
    c' := ServeFollows(routed, p, tool, delta.arguments, ApplyToolDelta(s, position, delta).0, c);
  }

  lemma DeliverFollows(tool: Tool, arguments: string, c: Cursor) returns (c': Cursor)
    requires Streams(c) && tool.blockIndex !in c.closed
    requires if tool.started then tool.blockIndex in c.open && c.open[tool.blockIndex] == ToolKind
             else tool.blockIndex !in c.open
    ensures var (tool', evs) := Deliver(tool, arguments);
            && c' == c.(open := if tool'.started then c.open[tool.blockIndex := ToolKind] else c.open)
            && Steps(c, evs, c')
  {
    c' := c;
    if tool.started {
      if arguments != "" {
        Emit(c, BlockDelta(tool.blockIndex, InputJsonDelta(arguments)));
      }
    } else if tool.id != "" && tool.name != "" {
      c' := StartFollows(tool.(pending := tool.pending + arguments), c);
    }
  }

  lemma {:induction false} ToolDeltasFollow(s: Info, deltas: seq<ToolDelta>, c: Cursor) returns (c': Cursor)
    requires InPhase(s) && Agrees(s, c)
    ensures var (s', evs) := ApplyToolDeltas(s, deltas);
            Agrees(s', c') && Steps(c, evs, c')
  {
    if deltas == [] {
      c' := c;
    } else {
      var n := |deltas| - 1;
      var c1 := ToolDeltasFollow(s, deltas[..n], c);
      var (s1, evs1) := ApplyToolDeltas(s, deltas[..n]);
      c' := ToolDeltaFollows(s1, n, deltas[n], c1);
      Chain(c, evs1, c1, ApplyToolDelta(s1, n, deltas[n]).1, c');
    }
  }

  lemma EnterToolsFollows(s: Info, uuid: Uuid, c: Cursor) returns (c': Cursor)
    requires Shaped(s) && Agrees(s, c)
    ensures var (s', evs) := EnterTools(s, uuid); Agrees(s', c') && Steps(c, evs, c')
  {
    hide CloseAndAdvance;
    c' := c;
    if s.last == LastTools {
      Idle(c);
    } else {
      c' := CloseAndAdvanceFollows(s, uuid, c);
    }
  }

  /** Where index and maxOffset are does not matter while tools are open. */
  lemma CaughtUp(s: Info, s': Info, c: Cursor)
    requires Agrees(s, c) && s.last == LastTools && s' == s.(maxOffset := s'.maxOffset, index := s'.index)
    ensures Agrees(s', c)
  {
  }

  lemma ToolPartFollows(s: Info, deltas: seq<ToolDelta>, uuid: Uuid, c: Cursor) returns (c': Cursor)
    requires Shaped(s) && Agrees(s, c) && deltas != []
    ensures var (s', evs) := ToolPart(s, deltas, uuid);
            Agrees(s', c') && Steps(c, evs, c')
  {
    hide EnterTools, ApplyToolDeltas, Agrees, Steps;
    var (s1, evs1) := EnterTools(s, uuid);
    var c1 := EnterToolsFollows(s, uuid, c);
    c' := ToolDeltasFollow(s1, deltas, c1);
    var (s2, evs2) := ApplyToolDeltas(s1, deltas);
    Chain(c, evs1, c1, evs2, c');
    CaughtUp(s2, ToolPart(s, deltas, uuid).0, c');
  }

  lemma ChoicePartFollows(s: Info, choice: Choice, uuid: Uuid, c: Cursor) returns (c': Cursor)
    requires Shaped(s) && Agrees(s, c)
    ensures var (s', evs) := ChoicePart(s, choice, uuid);
            Agrees(s', c') && Steps(c, evs, c')
  {
    var (s1, evs1) := if choice.toolCalls != [] then ToolPart(s, choice.toolCalls, uuid)
                      else ProsePart(s, choice.reasoning, choice.text, uuid);
    var c1;
    if choice.toolCalls != [] {
      c1 := ToolPartFollows(s, choice.toolCalls, uuid, c);
    } else {
      c1 := ProsePartFollows(s, choice.reasoning, choice.text, uuid, c);
    }
    c' := CitationPartFollows(s1, choice.citations, uuid, c1);
    Chain(c, evs1, c1, CitationPart(s1, choice.citations, uuid).1, c');
  }

  lemma ConcludeFollows(s: Info, reason: string, uuid: Uuid, c: Cursor) returns (c': Cursor)
    requires Shaped(s) && Agrees(s, c) && s.sent > 0
    ensures var (s', evs) := Conclude(s, reason, uuid);
            s'.sent == s.sent && Coupled(s', c') && c'.phase == Ended && Steps(c, evs, c')
  {
    var c1 := CloseBlocksFollows(s, uuid, c);
    var c2 := Advance(c1, MessageDelta(reason));
    c' := Advance(c2, MessageStop);
    Emit(c1, MessageDelta(reason));
    Emit(c2, MessageStop);
    Chain(c1, [MessageDelta(reason)], c2, [MessageStop], c');
    assert [MessageDelta(reason)] + [MessageStop] == [MessageDelta(reason), MessageStop];
    Chain(c, CloseBlocks(s, uuid).1, c1, [MessageDelta(reason), MessageStop], c');
  }

  // ---- steps and runs ------------------------------------------------------------

  /** Where the stream stands in the grammar after each chunk. */
  predicate Coupled(s: Info, c: Cursor) {
    if s.done then c.phase == Ended && s.sent > 0
    else if s.sent == 0 then s == INITIAL && c == START
    else Agrees(s, c)
  }

  lemma FinishingFollows(s: Info, choice: Choice, usage: Usage, uuid: Uuid, c: Cursor) returns (c': Cursor)
    requires Shaped(s) && Agrees(s, c) && s.sent > 0 && !s.done
    ensures var (s', evs) := Finishing(s, choice, usage, uuid);
            s'.sent == s.sent && Coupled(s', c') && Steps(c, evs, c')
  {
    c' := c;
    var s1 := Reported(s, usage);
    if Finishes(choice) && s1.hasUsage {
      c' := ConcludeFollows(s1, StopReason(s1.finishReason), uuid, c);
    }
  }

  /** Usage and finish reason do not matter to what is open. */
  lemma SameAgrees(s: Info, s': Info, c: Cursor)
    requires Agrees(s, c) && s' == s.(hasUsage := s'.hasUsage, finishReason := s'.finishReason)
    ensures Agrees(s', c)
  {
  }

  lemma ChunkPartFollows(s: Info, chunk: Chunk, uuid: Uuid, c: Cursor) returns (c': Cursor)
    requires Shaped(s) && Agrees(s, c) && s.sent > 0 && !s.done
    ensures var (s', evs) := ChunkPart(s, chunk, uuid);
            s'.sent == s.sent && Coupled(s', c') && Steps(c, evs, c')
  {
    hide Steps, Agrees, Conclude, ChoicePart, Finishing;
    if chunk.choices == [] {
      var s1 := Reported(s, chunk.usage);
      c' := c;
      Idle(c);
      SameAgrees(s, s1, c);
      if s1.hasUsage {
        c' := ConcludeFollows(s1, StopReasonOrEnd(s1.finishReason), uuid, c);
      }
    } else {
      var choice := chunk.choices[0];
      var s1 := Noted(s, choice);
      SameAgrees(s, s1, c);
      var (s2, evs2) := ChoicePart(s1, choice, uuid);
      var c2 := ChoicePartFollows(s1, choice, uuid, c);
      c' := FinishingFollows(s2, choice, chunk.usage, uuid, c2);
      Chain(c, evs2, c2, Finishing(s2, choice, chunk.usage, uuid).1, c');
      assert ChunkPart(s, chunk, uuid).1 == evs2 + Finishing(s2, choice, chunk.usage, uuid).1;
    }
  }

  lemma OpenMessageFollows(s: Info, usage: Usage, c: Cursor) returns (c': Cursor)
    requires Shaped(s) && s.sent > 0 && (if s.sent == 1 then s == INITIAL.(sent := 1) && c == START else Agrees(s, c))
    ensures var (s', evs) := OpenMessage(s, usage);
            Agrees(s', c') && Steps(c, evs, c')
  {
    c' := c;
    if s.sent == 1 {
      Emit(c, MessageStart);
      c' := Advance(c, MessageStart);
    }
  }

  lemma StepFollows(s: Info, chunk: Chunk, uuid: Uuid, c: Cursor) returns (c': Cursor)
    requires Shaped(s) && Coupled(s, c)
    ensures var (s', evs) := Step(s, chunk, uuid);
            s'.sent == s.sent + 1 && Coupled(s', c') && Steps(c, evs, c')
  {
    c' := c;
    if !s.done {
      var s0 := s.(sent := s.sent + 1);
      var (s1, evs1) := OpenMessage(s0, chunk.usage);
      var c1 := OpenMessageFollows(s0, chunk.usage, c);
      c' := ChunkPartFollows(s1, chunk, uuid, c1);
      Chain(c, evs1, c1, ChunkPart(s1, chunk, uuid).1, c');
    }
  }

  lemma {:induction false} RunFollows(chunks: seq<Chunk>, uuid: Uuid) returns (c: Cursor)
    ensures var (s, evs) := Run(chunks, uuid);
            s.sent == |chunks| && Coupled(s, c) && Steps(START, evs, c)
  {
    if chunks == [] {
      c := START;
    } else {
      var n := |chunks| - 1;
      var c1 := RunFollows(chunks[..n], uuid);
      var (s, evs) := Run(chunks[..n], uuid);
      c := StepFollows(s, chunks[n], uuid, c1);
      Chain(START, evs, c1, Step(s, chunks[n], uuid).1, c);
    }
  }

  /** The output of a stream is a complete Claude message exactly when the stream has
      a chunk: nothing but a chunk makes the converter send message_start. */
  lemma OutputIsComplete(chunks: seq<Chunk>, uuid: Uuid)
    ensures Complete(false, Output(chunks, uuid)) <==> chunks != []
  {
    var (s, evs) := Run(chunks, uuid);
    var c := RunFollows(chunks, uuid);
    if chunks == [] {
      assert Output(chunks, uuid)[0] == MessageDelta(StopReasonOrEnd(""));
    } else if s.done {
      assert Output(chunks, uuid) == evs;
    } else {
      var c' := ConcludeFollows(s, StopReasonOrEnd(s.finishReason), uuid, c);
      Chain(START, evs, c, Final(s, uuid).1, c');
    }
  }
}
