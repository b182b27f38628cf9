/** The Chat to Claude converter as it runs: the per-stream state and its tool records
    are updated in place, and a record is shared by the tool list and both maps. */
module ClaudeConvertState {
  import opened ChatDto
  import opened ClaudeTrace
  import opened ChatToClaude
  import Text

  class ClaudeStreamToolCall {
    const blockIndex: int
    var id: string
    var name: string
    var pendingArguments: string
    var started: bool

    constructor (blockIndex: int)
      ensures this.blockIndex == blockIndex && View() == Tool(blockIndex, "", "", "", false)
    {
      this.blockIndex := blockIndex;
      id, name, pendingArguments, started := "", "", "", false;
    }

    ghost function View(): Tool
      reads this
    {
      Tool(blockIndex, id, name, pendingArguments, started)
    }

    /** The start event of the block, with what was buffered for it. */
    method Start() returns (evs: seq<Event>)
      modifies this
      ensures View() == StartedTool(old(View()))
      ensures evs == ChatToClaude.Start(old(View()))
    {
      evs := [BlockStart(blockIndex, ToolBlock(id, name))];
      started := true;
      if pendingArguments != "" {
        evs := evs + [BlockDelta(blockIndex, InputJsonDelta(pendingArguments))];
        pendingArguments := "";
      }
    }

    /** Start the block if it is named; a missing id is generated. */
    method StartIfNamed(uuid: Uuid) returns (evs: seq<Event>)
      modifies this
      ensures if Startable(old(View()))
              then View() == StartedTool(Identified(old(View()), uuid))
                   && evs == ChatToClaude.Start(Identified(old(View()), uuid))
              else View() == old(View()) && evs == []
    {
      evs := [];
      if started || name == "" { return; }
      if id == "" {
        id := "toolu_" + uuid(blockIndex);
      }
      evs := Start();
    }

    /** Take over the identity a delta carries, buffer or forward its fragment. */
    method Receive(incomingID: string, incomingName: string, arguments: string) returns (evs: seq<Event>)
      modifies this
      ensures (View(), evs) == Deliver(Identify(old(View()), incomingID, incomingName), arguments)
    {
      evs := [];
      if id == "" && incomingID != "" { id := incomingID; }
      if name == "" && incomingName != "" { name := incomingName; }
      if !started {
        pendingArguments := pendingArguments + arguments;
      }
      if !started && id != "" && name != "" {
        evs := Start();
        return;
      }
      if started && arguments != "" {
        evs := [BlockDelta(blockIndex, InputJsonDelta(arguments))];
      }
    }
  }

  ghost function Views(cells: seq<ClaudeStreamToolCall>): (r: seq<Tool>)
    reads cells
    ensures |r| == |cells| && forall i :: 0 <= i < |cells| ==> r[i] == cells[i].View()
  {
    seq(|cells|, i requires 0 <= i < |cells| reads cells => cells[i].View())
  }

  lemma ViewsAppend(cells: seq<ClaudeStreamToolCall>, cell: ClaudeStreamToolCall)
    ensures Views(cells + [cell]) == Views(cells) + [cell.View()]
  {
  }

  class ClaudeConvertInfo {
    var sendResponseCount: nat
    var lastMessagesType: Last
    var index: int
    var hasUsage: bool
    var finishReason: string
    var done: bool
    var toolCallBaseIndex: int
    var toolCallMaxIndexOffset: int
    var toolCalls: seq<ClaudeStreamToolCall>
    var toolCallByIndex: map<int, ClaudeStreamToolCall>
    var toolCallByID: map<string, ClaudeStreamToolCall>

    /** A record stands in the list where its block index says. */
    ghost predicate Listed(cell: ClaudeStreamToolCall)
      reads this`toolCalls, this`toolCallBaseIndex
    {
      var p := cell.blockIndex - toolCallBaseIndex;
      0 <= p < |toolCalls| && toolCalls[p] == cell
    }

    ghost predicate IndexLinked()
      reads this`toolCalls, this`toolCallBaseIndex, this`toolCallByIndex
    {
      forall k :: k in toolCallByIndex ==> Listed(toolCallByIndex[k])
    }

    ghost predicate IDLinked()
      reads this`toolCalls, this`toolCallBaseIndex, this`toolCallByID
    {
      forall k :: k in toolCallByID ==> Listed(toolCallByID[k])
    }

    /** The records are numbered in list order, and the maps lead to them. */
    ghost predicate Linked()
      reads this`toolCalls, this`toolCallBaseIndex, this`toolCallByIndex, this`toolCallByID
    {
      && (forall i :: 0 <= i < |toolCalls| ==> toolCalls[i].blockIndex == toolCallBaseIndex + i)
      && IndexLinked() && IDLinked()
    }

    ghost function Records(): set<ClaudeStreamToolCall>
      reads this`toolCalls
    {
      set c | c in toolCalls
    }

    /** The position of a record. */
    ghost function Position(cell: ClaudeStreamToolCall): (p: nat)
      requires Listed(cell)
      reads this`toolCalls, this`toolCallBaseIndex
    {
      cell.blockIndex - toolCallBaseIndex
    }

    ghost function ByIndex(): map<int, nat>
      requires IndexLinked()
      reads this`toolCalls, this`toolCallBaseIndex, this`toolCallByIndex
    {
      map k | k in toolCallByIndex :: Position(toolCallByIndex[k])
    }

    ghost function ByID(): map<string, nat>
      requires IDLinked()
      reads this`toolCalls, this`toolCallBaseIndex, this`toolCallByID
    {
      map k | k in toolCallByID :: Position(toolCallByID[k])
    }

    ghost function View(): Info
      requires Linked()
      reads this, toolCalls
    {
      Info(sendResponseCount, lastMessagesType, index, hasUsage, finishReason, done,
           toolCallBaseIndex, toolCallMaxIndexOffset, Views(toolCalls), ByIndex(), ByID())
    }

    ghost predicate Valid()
      reads this, toolCalls
    {
      Linked() && Shaped(View())
    }

    constructor ()
      ensures Valid() && View() == INITIAL && toolCalls == []
    {
      sendResponseCount, lastMessagesType, index, hasUsage, finishReason, done := 0, LastNone, 0, false, "", false;
      toolCallBaseIndex, toolCallMaxIndexOffset := 0, 0;
      toolCalls, toolCallByIndex, toolCallByID := [], map[], map[];
    }

    /** Updating records and plain fields does not move any record. */
    twostate lemma FieldsUpdated()
      requires old(Linked()) && unchanged(`toolCalls, `toolCallBaseIndex, `toolCallByIndex, `toolCallByID)
      ensures Linked()
      ensures View() == old(View()).(sent := sendResponseCount, last := lastMessagesType, index := index,
                                     hasUsage := hasUsage, finishReason := finishReason, done := done,
                                     maxOffset := toolCallMaxIndexOffset, tools := Views(toolCalls))
    {
    }

    /** Likewise when the records are untouched. */
    twostate lemma PlainFieldsUpdated()
      requires old(Linked()) && unchanged(`toolCalls, `toolCallBaseIndex, `toolCallByIndex, `toolCallByID)
      requires unchanged(toolCalls)
      ensures Linked()
      ensures View() == old(View()).(sent := sendResponseCount, last := lastMessagesType, index := index,
                                     hasUsage := hasUsage, finishReason := finishReason, done := done,
                                     maxOffset := toolCallMaxIndexOffset)
    {
      FieldsUpdated();
    }

    /** A state without records. */
    lemma NoRecords()
      requires toolCalls == [] && toolCallByIndex == map[] && toolCallByID == map[]
      ensures Linked()
      ensures View() == Info(sendResponseCount, lastMessagesType, index, hasUsage, finishReason, done,
                             toolCallBaseIndex, toolCallMaxIndexOffset, [], map[], map[])
    {
    }

    lemma PlainFields()
      requires Linked()
      ensures View().sent == sendResponseCount && View().last == lastMessagesType && View().index == index
      ensures View().hasUsage == hasUsage && View().finishReason == finishReason && View().done == done
      ensures View().base == toolCallBaseIndex && View().maxOffset == toolCallMaxIndexOffset
      ensures |View().tools| == |toolCalls|
    {
    }

    method StopOpenBlocks() returns (evs: seq<Event>)
      requires Linked()
      ensures evs == StopOpen(View())
    {
      match lastMessagesType
      case LastNone => return [];
      case LastText => return [BlockStop(index)];
      case LastThinking => return [BlockStop(index)];
      case LastTools =>
        evs := [];
        if toolCalls == [] {
          var offset := 0;
          while offset <= toolCallMaxIndexOffset
            invariant 0 <= offset <= (if toolCallMaxIndexOffset < 0 then 0 else toolCallMaxIndexOffset + 1)
            invariant evs == StopOffsets(toolCallBaseIndex, offset)
          {
            evs := evs + [BlockStop(toolCallBaseIndex + offset)];
            offset := offset + 1;
          }
        } else {
          for i := 0 to |toolCalls|
            invariant evs == StopStarted(Views(toolCalls)[..i])
          {
            assert Views(toolCalls)[..i + 1][..i] == Views(toolCalls)[..i];
            if toolCalls[i].started {
              evs := evs + [BlockStop(toolCalls[i].blockIndex)];
            }
          }
          assert Views(toolCalls)[..|toolCalls|] == Views(toolCalls);
        }
    }

    method StartPendingToolBlocks(uuid: Uuid) returns (evs: seq<Event>)
      requires Linked()
      modifies Records()
      ensures Linked()
      ensures if lastMessagesType == LastTools
              then View() == old(View()).(tools := StartPending(old(View()).tools, uuid).0)
                   && evs == StartPending(old(View()).tools, uuid).1
              else View() == old(View()) && evs == []
    {
      evs := [];
      if lastMessagesType != LastTools { return; }
      evs := StartAll(uuid);
      FieldsUpdated();
    }

    method StartAll(uuid: Uuid) returns (evs: seq<Event>)
      requires Linked()
      modifies Records()
      ensures (Views(toolCalls), evs) == StartPending(old(Views(toolCalls)), uuid)
    {
      hide StartPending, IndexLinked, IDLinked;
      evs := [];
      ghost var was := Views(toolCalls);
      assert StartPending([], uuid) == ([], []) by { StartPendingNone(uuid); }
      for i := 0 to |toolCalls|
        invariant evs == StartPending(was[..i], uuid).1
        invariant forall k :: 0 <= k < |toolCalls| ==>
                    toolCalls[k].View() == if k < i then StartedIfNamed(was[k], uuid) else was[k]
      {
        StartPendingNext(was, i, uuid);
        assert toolCalls[i] in Records();
        var started := toolCalls[i].StartIfNamed(uuid);
        evs := evs + started;
      }
      assert was[..|toolCalls|] == was;
      StartedPointwise(was, uuid);
      assert Views(toolCalls) == StartPending(was, uuid).0;
    }

    /** The record a delta belongs to, or null when it starts a new one. */
    method FindTool(toolIndex: int, incomingID: string) returns (found: ClaudeStreamToolCall?)
      requires Linked() && InPhase(View())
      ensures |View().tools| == |toolCalls| && View().base == toolCallBaseIndex
      ensures if found == null then Lookup(View(), toolIndex, incomingID) == |toolCalls|
              else Listed(found) && Lookup(View(), toolIndex, incomingID) == Position(found)
    {
      found := null;
      if incomingID != "" && incomingID in toolCallByID { found := toolCallByID[incomingID]; }
      if found == null && toolIndex in toolCallByIndex { found := toolCallByIndex[toolIndex]; }
      assert found != null ==> Listed(found) && found.id == View().tools[Position(found)].id;
      if found != null && incomingID != "" && found.id != "" && found.id != incomingID { found := null; }
    }

    /** Find or create the record a delta belongs to, and make it the active one at its index. */
    method RouteTool(toolIndex: int, incomingID: string) returns (tool: ClaudeStreamToolCall)
      requires Linked() && InPhase(View())
      modifies this`toolCalls, this`toolCallByIndex
      ensures Linked() && View() == Routed(old(View()), toolIndex, incomingID)
      ensures Listed(tool) && Position(tool) == Lookup(old(View()), toolIndex, incomingID)
      ensures View().tools[Position(tool)] == tool.View()
      ensures toolCalls == old(toolCalls) || (toolCalls == old(toolCalls) + [tool] && fresh(tool))
    {
      hide Views, Lookup, InPhase, View, ByIndex, ByID, IDLinked, Linked;
      var found := FindTool(toolIndex, incomingID);
      if found == null {
        found := new ClaudeStreamToolCall(toolCallBaseIndex + |toolCalls|);
        Append(found);
      }
      tool := found;
      Activate(toolIndex, tool);
      Viewed(tool);
    }

    lemma Viewed(tool: ClaudeStreamToolCall)
      requires Linked() && Listed(tool)
      ensures |View().tools| == |toolCalls| && View().tools[Position(tool)] == tool.View()
    {
    }


    method Activate(toolIndex: int, tool: ClaudeStreamToolCall)
      requires Linked() && Listed(tool)
      modifies this`toolCallByIndex
      ensures Linked() && View() == old(View()).(byIndex := old(View()).byIndex[toolIndex := Position(tool)])
    {
      toolCallByIndex := toolCallByIndex[toolIndex := tool];
      assert Linked();
      assert ByIndex() == old(ByIndex())[toolIndex := Position(tool)];
      assert ByID() == old(ByID());
    }

    /** A longer list does not move the records it had. */
    twostate lemma IndexKept()
      requires old(IndexLinked()) && old(toolCalls) <= toolCalls && unchanged(`toolCallBaseIndex, `toolCallByIndex)
      ensures IndexLinked() && ByIndex() == old(ByIndex())
    {
      forall k | k in toolCallByIndex ensures Listed(toolCallByIndex[k]) && ByIndex()[k] == old(ByIndex())[k] {
        assert old(Listed(toolCallByIndex[k]));
      }
    }

    twostate lemma IDKept()
      requires old(IDLinked()) && old(toolCalls) <= toolCalls && unchanged(`toolCallBaseIndex, `toolCallByID)
      ensures IDLinked() && ByID() == old(ByID())
    {
      forall k | k in toolCallByID ensures Listed(toolCallByID[k]) && ByID()[k] == old(ByID())[k] {
        assert old(Listed(toolCallByID[k]));
      }
    }

    method Append(tool: ClaudeStreamToolCall)
      requires Linked() && tool.blockIndex == toolCallBaseIndex + |toolCalls|
      modifies this`toolCalls
      ensures Linked() && toolCalls == old(toolCalls) + [tool]
      ensures View() == old(View()).(tools := old(View()).tools + [tool.View()])
    {
      hide Views, IndexLinked, IDLinked, ByIndex, ByID;
      toolCalls := toolCalls + [tool];
      ViewsAppend(old(toolCalls), tool);
      IndexKept();
      IDKept();
    }

    /** Serving one record changes its view and nothing else. */
    method Serve(tool: ClaudeStreamToolCall, incomingID: string, incomingName: string, arguments: string)
      returns (evs: seq<Event>)
      requires Linked() && Listed(tool)
      modifies tool
      ensures Linked()
      ensures var (served, events) := Deliver(Identify(old(tool.View()), incomingID, incomingName), arguments);
              evs == events && View() == old(View()).(tools := old(View()).tools[Position(tool) := served])
    {
      evs := tool.Receive(incomingID, incomingName, arguments);
      FieldsUpdated();
      assert Views(toolCalls) == old(Views(toolCalls))[Position(tool) := tool.View()];
    }

    method Remember(incomingID: string, tool: ClaudeStreamToolCall)
      requires Linked() && Listed(tool)
      modifies this`toolCallByID
      ensures Linked() && View() == old(View()).(byId := old(View()).byId[incomingID := Position(tool)])
    {
      hide Views, Listed;
      toolCallByID := toolCallByID[incomingID := tool];
      assert Linked();
      assert ByID() == old(ByID())[incomingID := Position(tool)];
    }

    /** One entry of a chunk's tool_calls. */
    method ApplyToolDelta(position: int, delta: ToolDelta) returns (evs: seq<Event>)
      requires Linked() && InPhase(View())
      modifies this`toolCalls, this`toolCallByIndex, this`toolCallByID, Records()
      ensures Linked() && (View(), evs) == ChatToClaude.ApplyToolDelta(old(View()), position, delta)
      ensures fresh(Records() - old(Records()))
    {
      hide Views, Lookup, InPhase, View, ByIndex, ByID, Linked, Deliver;
      var toolIndex := if delta.index.Some? then delta.index.value else position;
      var incomingID := Text.Trim(delta.id);
      var tool := RouteTool(toolIndex, incomingID);
      if tool.id == "" && incomingID != "" {
        Remember(incomingID, tool);
      }
      evs := Serve(tool, incomingID, Text.Trim(delta.name), delta.arguments);
    }

    method ApplyToolDeltas(deltas: seq<ToolDelta>) returns (evs: seq<Event>)
      requires Linked() && InPhase(View())
      modifies this`toolCalls, this`toolCallByIndex, this`toolCallByID, Records()
      ensures Linked() && (View(), evs) == ChatToClaude.ApplyToolDeltas(old(View()), deltas)
      ensures fresh(Records() - old(Records()))
    {
      hide View, Linked, ChatToClaude.ApplyToolDelta, InPhase;
      evs := [];
      for i := 0 to |deltas|
        invariant Linked()
        invariant (View(), evs) == ChatToClaude.ApplyToolDeltas(old(View()), deltas[..i])
        invariant fresh(Records() - old(Records()))
      {
        assert deltas[..i + 1][..i] == deltas[..i];
        var events := ApplyToolDelta(i, deltas[i]);
        evs := evs + events;
      }
      assert deltas[..|deltas|] == deltas;
    }

    /** appendStopOpenBlocks. */
    method CloseBlocks(uuid: Uuid) returns (evs: seq<Event>)
      requires Linked() && Shaped(View())
      modifies Records()
      ensures Linked() && (View(), evs) == ChatToClaude.CloseBlocks(old(View()), uuid)
    {
      hide View, Linked, StartPending, StopOpen;
      PlainFields();
      var started := StartPendingToolBlocks(uuid);
      var stops := StopOpenBlocks();
      evs := started + stops;
      if lastMessagesType != LastTools { assert evs == stops; }
    }

    /** stopOpenBlocksAndAdvance. */
    method CloseAndAdvance(uuid: Uuid) returns (evs: seq<Event>)
      requires Linked() && Shaped(View())
      modifies this, Records()
      ensures Linked() && (View(), evs) == ChatToClaude.CloseAndAdvance(old(View()), uuid)
      ensures Records() <= old(Records())
    {
      hide View, Linked, Views, ChatToClaude.CloseBlocks, SameMessage, Shaped;
      evs := [];
      PlainFields();
      if lastMessagesType == LastNone { return; }
      evs := CloseBlocks(uuid);
      PlainFields();
      label closed:
      if lastMessagesType == LastTools {
        index := toolCallBaseIndex + |toolCalls|;
        toolCallBaseIndex, toolCallMaxIndexOffset := 0, 0;
        toolCalls, toolCallByIndex, toolCallByID := [], map[], map[];
        lastMessagesType := LastNone;
        NoRecords();
      } else {
        index := index + 1;
        lastMessagesType := LastNone;
        PlainFieldsUpdated@closed();
      }
    }

    method OpenBlock(last: Last, content: Content, uuid: Uuid) returns (evs: seq<Event>)
      requires Linked() && Shaped(View()) && (last == LastText || last == LastThinking)
      modifies this, Records()
      ensures Linked() && (View(), evs) == ChatToClaude.OpenBlock(old(View()), last, content, uuid)
      ensures Records() <= old(Records())
    {
      hide View, Linked, Views, ChatToClaude.CloseAndAdvance;
      evs := [];
      PlainFields();
      if lastMessagesType != last {
        evs := CloseAndAdvance(uuid);
        PlainFields();
        evs := evs + [BlockStart(index, content)];
      }
      label closed:
      lastMessagesType := last;
      PlainFieldsUpdated@closed();
    }

    /** The tool_calls of a chunk. */
    method ToolPart(deltas: seq<ToolDelta>, uuid: Uuid) returns (evs: seq<Event>)
      requires Linked() && Shaped(View()) && deltas != []
      modifies this, Records()
      ensures Linked() && (View(), evs) == ChatToClaude.ToolPart(old(View()), deltas, uuid)
      ensures fresh(Records() - old(Records()))
    {
      hide View, Linked, Views, ChatToClaude.CloseAndAdvance, ChatToClaude.ApplyToolDeltas;
      evs := EnterTools(uuid);
      var events := ApplyToolDeltas(deltas);
      evs := evs + events;
      label applied:
      PlainFields();
      toolCallMaxIndexOffset := |toolCalls| - 1;
      index := toolCallBaseIndex + |toolCalls| - 1;
      PlainFieldsUpdated@applied();
    }

    method EnterTools(uuid: Uuid) returns (evs: seq<Event>)
      requires Linked() && Shaped(View())
      modifies this, Records()
      ensures Linked() && (View(), evs) == ChatToClaude.EnterTools(old(View()), uuid)
      ensures Records() <= old(Records())
    {
      hide View, Linked, Views, ChatToClaude.CloseAndAdvance;
      evs := [];
      PlainFields();
      if lastMessagesType != LastTools {
        evs := CloseAndAdvance(uuid);
        PlainFields();
        toolCallBaseIndex := index;
        toolCallMaxIndexOffset := 0;
        toolCalls, toolCallByIndex, toolCallByID := [], map[], map[];
        lastMessagesType := LastTools;
        NoRecords();
      }
    }

    /** The reasoning or the text of a chunk. */
    method ProsePart(reasoning: string, text: string, uuid: Uuid) returns (evs: seq<Event>)
      requires Linked() && Shaped(View())
      modifies this, Records()
      ensures Linked() && (View(), evs) == ChatToClaude.ProsePart(old(View()), reasoning, text, uuid)
      ensures Records() <= old(Records())
    {
      hide View, Linked, ChatToClaude.OpenBlock;
      evs := [];
      if reasoning != "" {
        evs := OpenBlock(LastThinking, ThinkingBlock, uuid);
        PlainFields();
        evs := evs + [BlockDelta(index, ThinkingDelta(reasoning))];
      } else if text != "" {
        evs := OpenBlock(LastText, TextBlock, uuid);
        PlainFields();
        evs := evs + [BlockDelta(index, TextDelta(text))];
      }
    }

    method CitationPart(citations: seq<Citation>, uuid: Uuid) returns (evs: seq<Event>)
      requires Linked() && Shaped(View())
      modifies this, Records()
      ensures Linked() && (View(), evs) == ChatToClaude.CitationPart(old(View()), citations, uuid)
      ensures Records() <= old(Records())
    {
      hide View, Linked, ChatToClaude.OpenBlock;
      evs := [];
      if citations == [] { return; }
      evs := OpenBlock(LastText, TextBlock, uuid);
      PlainFields();
      var opening := evs;
      for i := 0 to |citations|
        invariant evs == opening + CitationDeltas(index, citations[..i])
      {
        assert citations[..i + 1][..i] == citations[..i];
        evs := evs + [BlockDelta(index, CitationDelta(citations[i]))];
      }
      assert citations[..|citations|] == citations;
    }

    method Conclude(reason: string, uuid: Uuid) returns (evs: seq<Event>)
      requires Linked() && Shaped(View())
      modifies this`done, Records()
      ensures Linked() && (View(), evs) == ChatToClaude.Conclude(old(View()), reason, uuid)
    {
      hide View, Linked, Views, ChatToClaude.CloseBlocks;
      evs := CloseBlocks(uuid);
      evs := evs + [MessageDelta(reason), MessageStop];
      label closed:
      PlainFields();
      done := true;
      PlainFieldsUpdated@closed();
    }

    method OpenMessage(usage: Usage) returns (evs: seq<Event>)
      requires Linked() && Shaped(View())
      modifies this`hasUsage
      ensures Linked() && (View(), evs) == ChatToClaude.OpenMessage(old(View()), usage)
    {
      hide View, Linked, Views;
      evs := [];
      PlainFields();
      if sendResponseCount == 1 {
        evs := [MessageStart];
        hasUsage := hasUsage || usage == TokenUsage;
      }
      PlainFieldsUpdated();
    }

    /** clientVisibleClaudeStreamUsage, as far as the state remembers it. */
    method Report(usage: Usage)
      requires Linked()
      modifies this`hasUsage
      ensures Linked() && View() == Reported(old(View()), usage)
    {
      hide View, Linked, Views;
      PlainFields();
      hasUsage := hasUsage || usage != NoUsage;
      PlainFieldsUpdated();
    }

    method Note(choice: Choice)
      requires Linked() && Shaped(View())
      modifies this`finishReason
      ensures Linked() && View() == Noted(old(View()), choice)
    {
      hide View, Linked, Views;
      PlainFields();
      if Finishes(choice) {
        finishReason := choice.finishReason.value;
      }
      PlainFieldsUpdated();
    }

    method ChoicePart(choice: Choice, uuid: Uuid) returns (evs: seq<Event>)
      requires Linked() && Shaped(View())
      modifies this, Records()
      ensures Linked() && (View(), evs) == ChatToClaude.ChoicePart(old(View()), choice, uuid)
      ensures fresh(Records() - old(Records()))
    {
      hide View, Linked, ChatToClaude.ToolPart, ChatToClaude.ProsePart, ChatToClaude.CitationPart;
      if choice.toolCalls != [] {
        evs := ToolPart(choice.toolCalls, uuid);
      } else {
        evs := ProsePart(choice.reasoning, choice.text, uuid);
      }
      var citations := CitationPart(choice.citations, uuid);
      evs := evs + citations;
    }

    method Finishing(choice: Choice, usage: Usage, uuid: Uuid) returns (evs: seq<Event>)
      requires Linked() && Shaped(View())
      modifies this, Records()
      ensures Linked() && (View(), evs) == ChatToClaude.Finishing(old(View()), choice, usage, uuid)
    {
      hide View, Linked, ChatToClaude.Conclude;
      evs := [];
      if Finishes(choice) {
        Report(usage);
        PlainFields();
        if hasUsage {
          evs := Conclude(StopReason(finishReason), uuid);
        }
      }
    }

    /** A chunk is sent: the counter the driver keeps, then the conversion. */
    /** What follows message_start: the content of a chunk, or the end that a usage report brings. */
    method ContentOf(chunk: Chunk, uuid: Uuid) returns (evs: seq<Event>)
      requires Valid()
      modifies this, Records()
      ensures Valid() && (View(), evs) == ChunkPart(old(View()), chunk, uuid)
    {
      hide View, Linked, ChatToClaude.Conclude, ChatToClaude.ChoicePart, ChatToClaude.Finishing;
      evs := [];
      if chunk.choices == [] {
        Report(chunk.usage);
        PlainFields();
        if hasUsage {
          evs := Conclude(StopReasonOrEnd(finishReason), uuid);
        }
      } else {
        Note(chunk.choices[0]);
        evs := ChoicePart(chunk.choices[0], uuid);
        var ends := Finishing(chunk.choices[0], chunk.usage, uuid);
        evs := evs + ends;
      }
    }

    method StreamResponse(chunk: Chunk, uuid: Uuid) returns (evs: seq<Event>)
      requires Valid()
      modifies this, Records()
      ensures Valid() && (View(), evs) == Step(old(View()), chunk, uuid)
    {
      hide View, Linked, ChunkPart, ChatToClaude.OpenMessage;
      PlainFields();
      sendResponseCount := sendResponseCount + 1;
      PlainFieldsUpdated();
      if done { return []; }
      evs := OpenMessage(chunk.usage);
      var content := ContentOf(chunk, uuid);
      evs := evs + content;
    }

    method Finalize(uuid: Uuid) returns (evs: seq<Event>)
      requires Valid()
      modifies this, Records()
      ensures Valid() && (View(), evs) == Final(old(View()), uuid)
    {
      hide View, Linked, ChatToClaude.Conclude;
      PlainFields();
      if done { return []; }
      evs := Conclude(StopReasonOrEnd(finishReason), uuid);
    }
  }

  function StartedIfNamed(tool: Tool, uuid: Uuid): Tool {
    if Startable(tool) then StartedTool(Identified(tool, uuid)) else tool
  }

  lemma StartPendingNone(uuid: Uuid)
    ensures StartPending([], uuid) == ([], [])
  {
  }

  lemma StartPendingNext(tools: seq<Tool>, i: nat, uuid: Uuid)
    requires i < |tools|
    ensures StartPending(tools[..i + 1], uuid).1 ==
            StartPending(tools[..i], uuid).1 + if Startable(tools[i])
              then ChatToClaude.Start(Identified(tools[i], uuid)) else []
  {
    assert tools[..i + 1][..i] == tools[..i];
    assert StartPending(tools[..i], uuid).1 + [] == StartPending(tools[..i], uuid).1;
  }

  lemma StartPendingLast(tools: seq<Tool>, uuid: Uuid)
    requires tools != []
    ensures var n := |tools| - 1;
            StartPending(tools, uuid).0 == StartPending(tools[..n], uuid).0 + [StartedIfNamed(tools[n], uuid)]
  {
    hide StartedTool, Identified;
  }

  lemma {:induction false} StartedPointwise(tools: seq<Tool>, uuid: Uuid)
    ensures forall k :: 0 <= k < |tools| ==> StartPending(tools, uuid).0[k] == StartedIfNamed(tools[k], uuid)
  {
    hide StartPending, StartedIfNamed;
    if tools != [] {
      StartedPointwise(tools[..|tools| - 1], uuid);
      StartPendingLast(tools, uuid);
    }
  }
}
