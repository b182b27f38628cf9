/** The Responses to Chat converter as it runs: tool records are updated in place, and one
    record can be reached under several keys. */
module ResponsesToChatStreamState {
  import opened Basics
  import opened ResponsesDto
  import opened ToolKeys
  import Spec = ResponsesToChat
  import Text

  class ResponsesStreamTool {
    const index: nat
    const key: Key
    var callID: string
    var itemID: string
    var name: string
    var arguments: string
    var sent: bool
    var nameSent: bool
    var argsSentAt: nat

    constructor (index: nat, key: Key, callID: string)
      ensures this.index == index && View() == Spec.NewTool(key, callID)
    {
      this.index, this.key, this.callID := index, key, callID;
      itemID, name, arguments, sent, nameSent, argsSentAt := "", "", "", false, false, 0;
    }

    ghost function View(): Spec.Tool
      reads this
    {
      Spec.Tool(key, callID, itemID, name, arguments, sent, nameSent, argsSentAt)
    }

    method Describe(event: StreamEvent)
      requires event.item.Some?
      modifies this
      ensures View() == Spec.DescribedTool(old(View()), event)
    {
      var id := Spec.CallIdOf(event);
      if id != "" {
        callID := id;
      } else if callID == "" {
        callID := Text.Trim(event.item.value.id);
      }
      if Text.Trim(event.item.value.name) != "" { name := Text.Trim(event.item.value.name); }
    }

    /** The record's part of toolDelta: its next chunk, if there is anything to say. */
    method Send(explicitDelta: string) returns (chunks: seq<Spec.Chunk>)
      modifies this
      ensures var tool := old(View());
              var delta := Spec.DeltaOf(tool, explicitDelta);
              if Spec.Quiet(tool, delta) then View() == tool && chunks == []
              else View() == Spec.SentTool(tool, delta) && chunks == [Spec.SentChunk(index, tool, delta)]
    {
      var argsDelta := explicitDelta;
      if argsDelta == "" && |arguments| > argsSentAt {
        argsDelta := arguments[argsSentAt..];
      }
      if sent && argsDelta == "" && (name == "" || nameSent) {
        return [];
      }
      var id := Text.Trim(callID);
      if id == "" { id := key.Render(); }
      var shownName := "";
      if !nameSent && name != "" {
        shownName := name;
        nameSent := true;
      }
      sent := true;
      argsSentAt := argsSentAt + |argsDelta|;
      chunks := [Spec.ToolChunk(index, id, shownName, argsDelta)];
    }
  }

  ghost function Views(cells: seq<ResponsesStreamTool>): (r: seq<Spec.Tool>)
    reads cells
    ensures |r| == |cells| && forall i :: 0 <= i < |cells| ==> r[i] == cells[i].View()
  {
    seq(|cells|, i requires 0 <= i < |cells| reads cells => cells[i].View())
  }

  class ResponsesToChatStreamState {
    const includeUsage: bool
    var sentStart: bool
    var finalized: bool
    var hasSentText: bool
    var sawToolCall: bool
    var hasSentReasoning: bool
    var needsReasoningSummaryBreak: bool
    var nextToolIndex: nat
    var toolByKey: map<Key, ResponsesStreamTool>
    var outputIndexToKey: map<int, Key>
    var itemIDToKey: map<string, Key>
    var callIDToKey: map<string, Key>
    var pendingArgsByOutputIndex: map<int, string>
    var pendingArgsByItemID: map<string, string>

    /** The records in the order they were made; the program only keeps their number. */
    ghost var tools: seq<ResponsesStreamTool>

    ghost predicate Listed(cell: ResponsesStreamTool)
      reads this`tools
    {
      cell.index < |tools| && tools[cell.index] == cell
    }

    ghost predicate CellsLinked()
      reads this`tools, this`toolByKey, this`nextToolIndex
    {
      && nextToolIndex == |tools|
      && (forall i :: 0 <= i < |tools| ==> tools[i].index == i)
      && (forall k :: k in toolByKey ==> Listed(toolByKey[k]))
    }

    ghost function Records(): set<ResponsesStreamTool>
      reads this`tools
    {
      set c | c in tools
    }

    ghost function ByKey(): map<Key, nat>
      reads this`toolByKey
    {
      map k | k in toolByKey :: toolByKey[k].index
    }

    ghost function ToolsView(): Spec.Tools
      reads this, tools
    {
      Spec.Tools(Views(tools), ByKey(), outputIndexToKey, itemIDToKey, callIDToKey, pendingArgsByOutputIndex,
                 pendingArgsByItemID)
    }

    ghost function View(): Spec.State
      reads this, tools
    {
      Spec.State(sentStart, finalized, hasSentText, sawToolCall, hasSentReasoning, needsReasoningSummaryBreak,
                 ToolsView())
    }

    ghost predicate Valid()
      reads this, tools
    {
      CellsLinked() && Spec.Linked(ToolsView())
    }

    constructor (includeUsage: bool)
      ensures Valid() && View() == Spec.INITIAL && this.includeUsage == includeUsage && tools == []
    {
      this.includeUsage := includeUsage;
      sentStart, finalized, hasSentText, sawToolCall, hasSentReasoning := false, false, false, false, false;
      needsReasoningSummaryBreak, nextToolIndex := false, 0;
      toolByKey, outputIndexToKey, itemIDToKey, callIDToKey := map[], map[], map[], map[];
      pendingArgsByOutputIndex, pendingArgsByItemID := map[], map[];
      tools := [];
    }

    // ---- how updates show -----------------------------------------------------------------

    /** Only one record was written. */
    twostate lemma ToolUpdated(tool: ResponsesStreamTool)
      requires old(Valid()) && old(Listed(tool)) && unchanged(old(Records()) - {tool})
      requires unchanged(`tools, `toolByKey, `nextToolIndex, `outputIndexToKey, `itemIDToKey, `callIDToKey,
                         `pendingArgsByOutputIndex, `pendingArgsByItemID)
      ensures Valid() && tool.index < |old(ToolsView()).list|
      ensures ToolsView() == old(ToolsView()).(list := old(ToolsView()).list[tool.index := tool.View()])
    {
      hide ByKey;
      forall i | 0 <= i < |tools| ensures Views(tools)[i] == old(Views(tools))[tool.index := tool.View()][i] {
        if i != tool.index {
          assert tools[i].index == i && tools[i] in old(Records()) - {tool};
        }
      }
      assert Views(tools) == old(Views(tools))[tool.index := tool.View()];
    }

    /** Only flags were written. */
    twostate lemma FlagsUpdated()
      requires old(Valid()) && unchanged(old(Records()))
      requires unchanged(`tools, `toolByKey, `nextToolIndex, `outputIndexToKey, `itemIDToKey, `callIDToKey,
                         `pendingArgsByOutputIndex, `pendingArgsByItemID)
      ensures Valid() && ToolsView() == old(ToolsView())
    {
      assert Views(tools) == old(Views(tools));
    }

    lemma Viewed(tool: ResponsesStreamTool)
      requires Valid() && Listed(tool)
      ensures tool.index < |ToolsView().list| == |tools| && ToolsView().list[tool.index] == tool.View()
      ensures tool in Records()
    {
    }

    lemma Flags()
      ensures View() == Spec.State(sentStart, finalized, hasSentText, sawToolCall, hasSentReasoning,
                                   needsReasoningSummaryBreak, ToolsView())
    {
    }

    lemma Links()
      requires Valid()
      ensures Spec.Linked(ToolsView())
    {
    }

    lemma Maps()
      ensures var ts := ToolsView();
              && ts.outputKeys == outputIndexToKey && ts.itemKeys == itemIDToKey && ts.callKeys == callIDToKey
              && ts.pendingOutput == pendingArgsByOutputIndex && ts.pendingItem == pendingArgsByItemID
              && |ts.list| == |tools| && ts.byKey.Keys == toolByKey.Keys
    {
    }

    lemma At(key: Key)
      requires Valid() && key in toolByKey
      ensures key in ToolsView().byKey && Listed(toolByKey[key])
              && Spec.ToolAt(ToolsView(), key) == toolByKey[key].index
    {
    }

    // ---- finding ------------------------------------------------------------------------------

    method ByOutput(index: int) returns (tool: ResponsesStreamTool?)
      requires Valid()
      ensures if tool == null then Spec.ToolAtOutput(ToolsView(), index).None?
              else Listed(tool) && Spec.ToolAtOutput(ToolsView(), index) == Some(tool.index)
    {
      hide CellsLinked, ByKey, Views;
      Maps();
      tool := null;
      if index in outputIndexToKey {
        assert outputIndexToKey[index] in toolByKey;
        At(outputIndexToKey[index]);
        tool := toolByKey[outputIndexToKey[index]];
      }
    }

    method ByItem(id: string) returns (tool: ResponsesStreamTool?)
      requires Valid()
      ensures if tool == null then Spec.ToolAtItem(ToolsView(), id).None?
              else Listed(tool) && Spec.ToolAtItem(ToolsView(), id) == Some(tool.index)
    {
      hide CellsLinked, ByKey, Views;
      Maps();
      tool := null;
      if id != "" && id in itemIDToKey {
        assert itemIDToKey[id] in toolByKey;
        At(itemIDToKey[id]);
        tool := toolByKey[itemIDToKey[id]];
      }
    }

    method ByCall(id: string) returns (tool: ResponsesStreamTool?)
      requires Valid()
      ensures if tool == null then Spec.ToolAtCall(ToolsView(), id).None?
              else Listed(tool) && Spec.ToolAtCall(ToolsView(), id) == Some(tool.index)
    {
      hide CellsLinked, ByKey, Views;
      Maps();
      tool := null;
      if id != "" && id in callIDToKey {
        assert callIDToKey[id] in toolByKey;
        At(callIDToKey[id]);
        tool := toolByKey[callIDToKey[id]];
      }
    }

    method FindToolForEvent(event: StreamEvent) returns (tool: ResponsesStreamTool?)
      requires Valid()
      ensures if tool == null then Spec.Find(ToolsView(), event).None?
              else Listed(tool) && Spec.Find(ToolsView(), event) == Some(tool.index)
    {
      hide CellsLinked, ToolsView, Spec.ToolAtOutput, Spec.ToolAtItem, Spec.KeyFor;
      tool := null;
      Maps();
      if event.outputIndex.Some? { tool := ByOutput(event.outputIndex.value); }
      if tool != null { return; }
      tool := ByItem(Text.Trim(event.itemId));
      if tool != null { return; }
      var key := Spec.KeyFor(event);
      if event.item.Some? && key.Some? && key.value in toolByKey {
        At(key.value);
        tool := toolByKey[key.value];
      }
    }

    // ---- making tools known -----------------------------------------------------------------------

    twostate lemma Appended(new tool: ResponsesStreamTool)
      requires old(Valid()) && tool.index == |old(tools)| && tools == old(tools) + [tool]
      requires nextToolIndex == |tools| && unchanged(old(Records()))
      requires unchanged(`toolByKey, `outputIndexToKey, `itemIDToKey, `callIDToKey, `pendingArgsByOutputIndex,
                         `pendingArgsByItemID)
      ensures Valid() && ToolsView() == old(ToolsView()).(list := old(ToolsView()).list + [tool.View()])
    {
      hide ByKey;
      assert Views(tools) == old(Views(tools)) + [tool.View()];
      forall k | k in toolByKey ensures Listed(toolByKey[k]) { assert old(Listed(toolByKey[k])); }
    }

    /** The found record, or a new one, becomes known under the key. */
    method Know(found: ResponsesStreamTool?, key: Key, callID: string) returns (tool: ResponsesStreamTool)
      requires Valid() && (found != null ==> Listed(found))
      modifies this`tools, this`nextToolIndex, this`toolByKey
      ensures Valid() && Listed(tool) && fresh(Records() - old(Records())) && tool.index <= |old(ToolsView()).list|
      ensures tool.index == (if found != null then found.index else |old(ToolsView()).list|)
      ensures ToolsView() == Spec.Known(old(ToolsView()), tool.index, key, callID)
      ensures key in toolByKey && toolByKey[key] == tool
    {
      hide Views, ByKey, CellsLinked;
      Maps();
      if found != null {
        tool := found;
        Viewed(tool);
      } else {
        tool := NewTool(key, callID);
      }
      KeepKey(key, tool);
    }

    method NewTool(key: Key, callID: string) returns (tool: ResponsesStreamTool)
      requires Valid()
      modifies this`tools, this`nextToolIndex
      ensures Valid() && Listed(tool) && tools == old(tools) + [tool] && fresh(tool) && tool.index == |old(tools)|
      ensures ToolsView() == old(ToolsView()).(list := old(ToolsView()).list + [Spec.NewTool(key, callID)])
    {
      hide Views, ByKey;
      tool := new ResponsesStreamTool(nextToolIndex, key, callID);
      nextToolIndex := nextToolIndex + 1;
      tools := tools + [tool];
      Appended(tool);
    }

    method KeepKey(key: Key, tool: ResponsesStreamTool)
      requires Valid() && Listed(tool)
      modifies this`toolByKey
      ensures Valid() && toolByKey == old(toolByKey)[key := tool]
      ensures ToolsView() == old(ToolsView()).(byKey := old(ToolsView()).byKey[key := tool.index])
    {
      hide Views;
      toolByKey := toolByKey[key := tool];
      assert ByKey() == old(ByKey())[key := tool.index];
    }

    /** Only the plain maps were written, and only with known keys. */
    twostate lemma MapsUpdated()
      requires old(Valid()) && unchanged(old(Records())) && unchanged(`tools, `toolByKey, `nextToolIndex)
      requires forall i :: i in outputIndexToKey ==> outputIndexToKey[i] in toolByKey
      requires forall i :: i in itemIDToKey ==> itemIDToKey[i] in toolByKey
      requires forall i :: i in callIDToKey ==> callIDToKey[i] in toolByKey
      ensures Valid()
      ensures ToolsView() == old(ToolsView()).(outputKeys := outputIndexToKey, itemKeys := itemIDToKey,
                                               callKeys := callIDToKey,
                                               pendingOutput := pendingArgsByOutputIndex,
                                                 pendingItem := pendingArgsByItemID)
    {
      assert Views(tools) == old(Views(tools));
    }

    /** The identifiers of the event lead to the tool from now on; what was kept aside for them is handed over. */
    method Attach(tool: ResponsesStreamTool, key: Key, event: StreamEvent)
      requires Valid() && Listed(tool) && key in toolByKey && toolByKey[key] == tool
      modifies this`outputIndexToKey, this`itemIDToKey, this`pendingArgsByOutputIndex, this`pendingArgsByItemID, tool
      ensures Valid() && tool.index < |old(ToolsView()).list| && key in old(ToolsView()).byKey
      ensures ToolsView() == Spec.Attach(old(ToolsView()), tool.index, key, event)
    {
      hide Views, ByKey, CellsLinked, ToolsView, Spec.AttachedTool, Spec.AttachedKeys;
      Maps();
      Viewed(tool);
      TakeOver(tool, event);
      ToolUpdated(tool);
      Maps();
      KeepKeys(key, event);
    }

    method TakeOver(tool: ResponsesStreamTool, event: StreamEvent)
      requires Valid()
      modifies tool
      ensures tool.View() == Spec.AttachedTool(old(ToolsView()), old(tool.View()), event)
    {
      var id := ItemIdOf(event);
      if id != "" { tool.itemID := id; }
      tool.arguments := tool.arguments + Spec.PendingAtOutput(ToolsNow(), event.outputIndex)
        + Spec.PendingAtItem(ToolsNow(), id);
    }

    method KeepKeys(key: Key, event: StreamEvent)
      requires Valid() && key in toolByKey
      modifies this`outputIndexToKey, this`itemIDToKey, this`pendingArgsByOutputIndex, this`pendingArgsByItemID
      ensures Valid() && key in old(ToolsView()).byKey && ToolsView() == Spec.AttachedKeys(old(ToolsView()), key, event)
    {
      hide View, CellsLinked, ToolsView;
      Maps();
      if event.outputIndex.Some? { KeepOutputKey(event.outputIndex.value, key); }
      if ItemIdOf(event) != "" { KeepItemKey(ItemIdOf(event), key); }
    }

    method KeepOutputKey(index: int, key: Key)
      requires Valid() && key in toolByKey
      modifies this`outputIndexToKey, this`pendingArgsByOutputIndex
      ensures Valid() && ToolsView() == old(ToolsView()).(outputKeys := old(ToolsView()).outputKeys[index := key],
                                                          pendingOutput := old(ToolsView()).pendingOutput - {index})
    {
      hide CellsLinked, ToolsView;
      Maps();
      KeysKnown();
      outputIndexToKey := outputIndexToKey[index := key];
      pendingArgsByOutputIndex := pendingArgsByOutputIndex - {index};
      MapsUpdated();
    }

    method KeepItemKey(id: string, key: Key)
      requires Valid() && key in toolByKey
      modifies this`itemIDToKey, this`pendingArgsByItemID
      ensures Valid() && ToolsView() == old(ToolsView()).(itemKeys := old(ToolsView()).itemKeys[id := key],
                                                          pendingItem := old(ToolsView()).pendingItem - {id})
    {
      hide CellsLinked, ToolsView;
      Maps();
      KeysKnown();
      itemIDToKey := itemIDToKey[id := key];
      pendingArgsByItemID := pendingArgsByItemID - {id};
      MapsUpdated();
    }

    /** The maps of the state, without the records. */
    function ToolsNow(): (ts: Spec.Tools)
      reads this
      ensures ts.pendingOutput == pendingArgsByOutputIndex && ts.pendingItem == pendingArgsByItemID
    {
      Spec.NO_TOOLS.(pendingOutput := pendingArgsByOutputIndex, pendingItem := pendingArgsByItemID)
    }

    lemma KeysKnown()
      requires Valid()
      ensures forall i :: i in outputIndexToKey ==> outputIndexToKey[i] in toolByKey
      ensures forall i :: i in itemIDToKey ==> itemIDToKey[i] in toolByKey
      ensures forall i :: i in callIDToKey ==> callIDToKey[i] in toolByKey
    {
    }

    method Describe(tool: ResponsesStreamTool, key: Key, event: StreamEvent)
      requires Valid() && Listed(tool) && key in toolByKey && event.item.Some?
      modifies this`callIDToKey, tool
      ensures Valid() && tool.index < |old(ToolsView()).list| && key in old(ToolsView()).byKey
      ensures ToolsView() == Spec.Described(old(ToolsView()), tool.index, key, event)
    {
      hide Views, ByKey, CellsLinked, ToolsView, Spec.DescribedTool;
      Maps();
      Viewed(tool);
      tool.Describe(event);
      ToolUpdated(tool);
      label written:
      Maps();
      KeysKnown();
      if Spec.CallIdOf(event) != "" { callIDToKey := callIDToKey[Spec.CallIdOf(event) := key]; }
      MapsUpdated@written();
    }

    method LocateTool(event: StreamEvent, key: Key) returns (tool: ResponsesStreamTool?)
      requires Valid()
      ensures Spec.Locate(ToolsView(), event, key) == if tool == null then |ToolsView().list| else tool.index
      ensures tool != null ==> Listed(tool)
    {
      hide Views, ByKey, CellsLinked, ToolsView, Spec.ToolAtItem, Spec.ToolAtCall;
      Maps();
      if key in toolByKey {
        At(key);
        return toolByKey[key];
      }
      tool := ByItem(ItemIdOf(event));
      if tool == null { tool := ByCall(Spec.CallIdOf(event)); }
    }

    method EnsureToolForEvent(event: StreamEvent, key: Key) returns (tool: ResponsesStreamTool)
      requires Valid() && event.item.Some?
      modifies this`tools, this`nextToolIndex, this`toolByKey, this`outputIndexToKey, this`itemIDToKey,
        this`callIDToKey,
               this`pendingArgsByOutputIndex, this`pendingArgsByItemID, Records()
      ensures Valid() && Listed(tool) && fresh(Records() - old(Records()))
      ensures (ToolsView(), tool.index) == Spec.EnsureTool(old(ToolsView()), event, key)
    {
      hide Views, ByKey, CellsLinked, ToolsView, Spec.Locate, Spec.Attach, Spec.Described, Spec.Known;
      var found := LocateTool(event, key);
      tool := Know(found, key, "");
      Viewed(tool);
      Attach(tool, key, event);
      Describe(tool, key, event);
    }

    method EnsureFallbackToolForEvent(event: StreamEvent, key: Key) returns (tool: ResponsesStreamTool)
      requires Valid()
      modifies this`tools, this`nextToolIndex, this`toolByKey, this`outputIndexToKey, this`itemIDToKey,
               this`pendingArgsByOutputIndex, this`pendingArgsByItemID, Records()
      ensures Valid() && Listed(tool) && fresh(Records() - old(Records()))
      ensures (ToolsView(), tool.index) == Spec.EnsureFallback(old(ToolsView()), event, key)
    {
      hide Views, ByKey, CellsLinked, ToolsView, Spec.Attach, Spec.Known;
      var found: ResponsesStreamTool? := null;
      Maps();
      if key in toolByKey {
        At(key);
        found := toolByKey[key];
      }
      tool := Know(found, key, Spec.FallbackCallId(event));
      Viewed(tool);
      Attach(tool, key, event);
    }

    // ---- sending ----------------------------------------------------------------------------------

    method EnsureStart() returns (chunks: seq<Spec.Chunk>)
      requires Valid()
      modifies this`sentStart
      ensures Valid() && View() == old(View()).(sentStart := true) && chunks == Spec.Opening(old(View()))
    {
      chunks := if sentStart then [] else [Spec.RoleChunk];
      sentStart := true;
      FlagsUpdated();
    }

    method ToolDelta(tool: ResponsesStreamTool, explicitDelta: string) returns (chunks: seq<Spec.Chunk>)
      requires Valid() && Listed(tool)
      modifies this`sentStart, this`sawToolCall, tool
      ensures Valid() && Listed(tool) && tool.index < |old(ToolsView()).list|
      ensures (View(), chunks) == Spec.ToolsSaid(old(View()), Spec.Send(old(ToolsView()), tool.index, explicitDelta))
    {
      hide View, CellsLinked, ToolsView, Spec.ToolsSaid, Spec.Send;
      Flags();
      var sent := SendTool(tool, explicitDelta);
      Flags();
      SaidFrom(old(View()), View(), (ToolsView(), sent));
      chunks := SayTools(sent);
    }

    method SendTool(tool: ResponsesStreamTool, explicitDelta: string) returns (chunks: seq<Spec.Chunk>)
      requires Valid() && Listed(tool)
      modifies tool
      ensures Valid() && Listed(tool) && tool.index < |old(ToolsView()).list|
      ensures (ToolsView(), chunks) == Spec.Send(old(ToolsView()), tool.index, explicitDelta)
    {
      hide Views, ByKey, CellsLinked, ToolsView, Spec.Send, Spec.DeltaOf, Spec.Quiet, Spec.SentTool, Spec.SentChunk;
      Viewed(tool);
      chunks := tool.Send(explicitDelta);
      SendIs(old(ToolsView()), tool.index, explicitDelta, tool.View(), chunks);
      ToolUpdated(tool);
    }

    /** The first chunk of all is preceded by the one that opens the message. */
    method SayTools(said: seq<Spec.Chunk>) returns (chunks: seq<Spec.Chunk>)
      requires Valid()
      modifies this`sentStart, this`sawToolCall
      ensures Valid() && (View(), chunks) == Spec.ToolsSaid(old(View()), (old(ToolsView()), said))
    {
      hide Views, ByKey, CellsLinked, ToolsView;
      chunks := said;
      if said != [] {
        chunks := (if sentStart then [] else [Spec.RoleChunk]) + said;
        sentStart := true;
        sawToolCall := true;
      }
      FlagsUpdated();
    }

    /** The record's part of a step is the whole of it, as far as the tools are concerned. */
    static lemma SendIs(ts: Spec.Tools, t: nat, explicit: string, tool: Spec.Tool, chunks: seq<Spec.Chunk>)
      requires Spec.Linked(ts) && t < |ts.list|
      requires var delta := Spec.DeltaOf(ts.list[t], explicit);
               if Spec.Quiet(ts.list[t], delta) then tool == ts.list[t] && chunks == []
               else tool == Spec.SentTool(ts.list[t], delta) && chunks == [Spec.SentChunk(t, ts.list[t], delta)]
      ensures Spec.Send(ts, t, explicit) == (ts.(list := ts.list[t := tool]), chunks)
    {
      hide Spec.Linked, Spec.DeltaOf, Spec.Quiet, Spec.SentTool, Spec.SentChunk;
      assert ts.list[t := ts.list[t]] == ts.list;
    }

    method WriteArguments(tool: ResponsesStreamTool, arguments: string)
      requires Valid() && Listed(tool)
      modifies tool`arguments
      ensures Valid() && Listed(tool) && tool.index < |old(ToolsView()).list|
      ensures ToolsView() == Spec.WithArguments(old(ToolsView()), tool.index, arguments)
    {
      hide Views, ByKey, CellsLinked, ToolsView;
      Viewed(tool);
      tool.arguments := arguments;
      ToolUpdated(tool);
    }

    // ---- tool events --------------------------------------------------------------------------------

    method ToolItem(event: StreamEvent) returns (chunks: seq<Spec.Chunk>)
      requires Valid() && event.item.Some?
      modifies this, Records()
      ensures Valid() && fresh(Records() - old(Records()))
      ensures (View(), chunks) == Spec.ToolsSaid(old(View()), Spec.ToolItem(old(ToolsView()), event))
    {
      hide View, CellsLinked, ToolsView, Spec.ToolsSaid, Spec.KeyFor, Spec.EnsureTool, Spec.Send, Spec.WithArguments,
           Spec.Linked;
      Flags();
      SaidNothing(View());
      chunks := [];
      var key := Spec.KeyFor(event);
      if key.None? { return; }
      var tool := EnsureToolForEvent(event, key.value);
      var arguments := event.item.value.arguments;
      if arguments != "" { WriteArguments(tool, arguments); }
      Flags();
      SaidFrom(old(View()), View(), Spec.Send(ToolsView(), tool.index, ""));
      chunks := ToolDelta(tool, "");
    }

    method ToolArgumentsDelta(event: StreamEvent) returns (chunks: seq<Spec.Chunk>)
      requires Valid()
      modifies this, Records()
      ensures Valid() && Records() == old(Records())
      ensures (View(), chunks) == Spec.ToolsSaid(old(View()), Spec.ArgumentsStep(old(ToolsView()), event))
    {
      hide View, CellsLinked, ToolsView, Spec.ToolsSaid, Spec.Find, Spec.Send, Spec.WithArguments, Spec.KeepAside;
      Flags();
      SaidNothing(View());
      chunks := [];
      if event.delta == "" { return; }
      var tool := FindToolForEvent(event);
      if tool == null {
        KeepAside(event);
        Flags();
        SaidNothing(View());
        SaidFrom(old(View()), View(), (ToolsView(), []));
        return;
      }
      Viewed(tool);
      chunks := ForwardArguments(tool, event.delta);
    }

    /** A delta whose tool is known. */
    method ForwardArguments(tool: ResponsesStreamTool, delta: string) returns (chunks: seq<Spec.Chunk>)
      requires Valid() && Listed(tool)
      modifies this`sentStart, this`sawToolCall, tool
      ensures Valid() && tool.index < |old(ToolsView()).list|
      ensures var arguments := old(ToolsView()).list[tool.index].arguments + delta;
              (View(), chunks) == Spec.ToolsSaid(old(View()),
                Spec.Send(Spec.WithArguments(old(ToolsView()), tool.index, arguments), tool.index, delta))
    {
      hide View, CellsLinked, ToolsView, Spec.ToolsSaid, Spec.Send, Spec.WithArguments;
      Flags();
      Viewed(tool);
      WriteArguments(tool, tool.arguments + delta);
      Flags();
      SaidFrom(old(View()), View(), Spec.Send(ToolsView(), tool.index, delta));
      chunks := ToolDelta(tool, delta);
    }

    method KeepAside(event: StreamEvent)
      requires Valid()
      modifies this`pendingArgsByOutputIndex, this`pendingArgsByItemID
      ensures Valid() && ToolsView() == Spec.KeepAside(old(ToolsView()), event)
    {
      hide Views, ByKey, CellsLinked;
      KeysKnown();
      var id := Text.Trim(event.itemId);
      if event.outputIndex.Some? {
        var index: int := event.outputIndex.GetOr(0);
        pendingArgsByOutputIndex := pendingArgsByOutputIndex[index := Spec.PendingAtOutput(ToolsNow(),
                event.outputIndex) + event.delta];
      } else if id != "" {
        pendingArgsByItemID := pendingArgsByItemID[id := Spec.PendingAtItem(ToolsNow(), id) + event.delta];
      }
      MapsUpdated();
    }

    /** The tool an arguments.done event is for, made if its event identifies one. */
    method ToolForDone(event: StreamEvent) returns (tool: ResponsesStreamTool?)
      requires Valid()
      modifies this`tools, this`nextToolIndex, this`toolByKey, this`outputIndexToKey, this`itemIDToKey,
               this`pendingArgsByOutputIndex, this`pendingArgsByItemID, Records()
      ensures Valid() && fresh(Records() - old(Records()))
      ensures var found, key := Spec.Find(old(ToolsView()), event), Spec.FallbackKey(event);
              if found.None? && key.None? then tool == null && ToolsView() == old(ToolsView())
              else && tool != null && Listed(tool)
                   && (ToolsView(), tool.index) == if found.Some? then (old(ToolsView()), found.value)
                                                   else Spec.EnsureFallback(old(ToolsView()), event, key.value)
    {
      hide View, CellsLinked, ToolsView, Spec.Find, Spec.EnsureFallback, Spec.FallbackKey;
      tool := FindToolForEvent(event);
      if tool == null {
        var key := Spec.FallbackKey(event);
        if key.None? { return; }
        tool := EnsureFallbackToolForEvent(event, key.value);
      }
    }

    method FlushPendingTool(event: StreamEvent) returns (chunks: seq<Spec.Chunk>)
      requires Valid()
      modifies this, Records()
      ensures Valid() && fresh(Records() - old(Records()))
      ensures (View(), chunks) == Spec.ToolsSaid(old(View()), Spec.DoneStep(old(ToolsView()), event))
    {
      hide View, Valid, ToolsView, Spec.Linked, Spec.ToolsSaid, Spec.Find, Spec.EnsureFallback, Spec.Send,
           Spec.FallbackKey, Spec.DoneStep;
      Links();
      Flags();
      DoneIs(ToolsView(), event);
      var tool := ToolForDone(event);
      Links();
      Flags();
      if tool == null {
        SaidNothing(View());
        chunks := [];
      } else {
        Viewed(tool);
        SaidFrom(old(View()), View(), Spec.Send(ToolsView(), tool.index, ""));
        chunks := ToolDelta(tool, "");
      }
    }

    static lemma DoneIs(ts: Spec.Tools, event: StreamEvent)
      requires Spec.Linked(ts)
      ensures var found, key := Spec.Find(ts, event), Spec.FallbackKey(event);
              Spec.DoneStep(ts, event) ==
              if found.None? && key.None? then (ts, [])
              else var (ts1, t) := if found.Some? then (ts, found.value) else Spec.EnsureFallback(ts, event, key.value);
                   Spec.Send(ts1, t, "")
    {
      hide Spec.Find, Spec.EnsureFallback, Spec.Send, Spec.FallbackKey;
    }

    method ToolEvent(event: StreamEvent) returns (chunks: seq<Spec.Chunk>)
      requires Valid() && Spec.IsToolEvent(event)
      modifies this, Records()
      ensures Valid() && fresh(Records() - old(Records()))
      ensures (View(), chunks) == Spec.ToolsSaid(old(View()), Spec.ToolStep(old(ToolsView()), event))
    {
      hide View, ToolsView, CellsLinked, Spec.ToolItem, Spec.ArgumentsStep, Spec.DoneStep, Spec.ToolsSaid;
      if event.eventType.ArgumentsDelta? {
        chunks := ToolArgumentsDelta(event);
      } else if event.eventType.ArgumentsDone? {
        chunks := FlushPendingTool(event);
      } else {
        chunks := ToolItem(event);
      }
    }

    // ---- the finalizer ---------------------------------------------------------------------------------

    method TakePending(key: Key) returns (tool: ResponsesStreamTool)
      requires Valid()
      modifies this`tools, this`nextToolIndex, this`toolByKey, this`pendingArgsByOutputIndex, this`pendingArgsByItemID,
        Records()
      ensures Valid() && Listed(tool) && fresh(Records() - old(Records()))
      ensures (ToolsView(), tool.index) == Spec.TakePending(old(ToolsView()), key)
    {
      hide View, CellsLinked, ToolsView, Spec.Known, Spec.WithArguments, Spec.Forget, Spec.PendingFor;
      Maps();
      var found: ResponsesStreamTool? := null;
      if key in toolByKey {
        At(key);
        found := toolByKey[key];
      }
      tool := Know(found, key, Spec.FlushCallId(key));
      Viewed(tool);
      var pending := PendingFor(key);
      WriteArguments(tool, tool.arguments + pending);
      Forget(key);
    }

    method FlushKey(key: Key) returns (chunks: seq<Spec.Chunk>)
      requires Valid()
      modifies this, Records()
      ensures Valid() && fresh(Records() - old(Records()))
      ensures (View(), chunks) == Spec.ToolsSaid(old(View()), Spec.FlushKey(old(ToolsView()), key))
    {
      hide View, CellsLinked, ToolsView, Spec.ToolsSaid, Spec.Send, Spec.TakePending;
      Flags();
      var tool := TakePending(key);
      Flags();
      Viewed(tool);
      SaidFrom(old(View()), View(), Spec.Send(ToolsView(), tool.index, ""));
      chunks := ToolDelta(tool, "");
    }

    method PendingFor(key: Key) returns (pending: string)
      requires Valid()
      ensures pending == Spec.PendingFor(ToolsView(), key)
    {
      match key
      case OutputKey(index) => pending := if index in pendingArgsByOutputIndex then pendingArgsByOutputIndex[index]
        else "";
      case ItemKey(id) => pending := if id in pendingArgsByItemID then pendingArgsByItemID[id] else "";
      case CallKey(_) => pending := "";
    }

    method Forget(key: Key)
      requires Valid()
      modifies this`pendingArgsByOutputIndex, this`pendingArgsByItemID
      ensures Valid() && ToolsView() == Spec.Forget(old(ToolsView()), key)
    {
      hide Views, ByKey, CellsLinked;
      KeysKnown();
      match key {
        case OutputKey(index) => pendingArgsByOutputIndex := pendingArgsByOutputIndex - {index};
        case ItemKey(id) => pendingArgsByItemID := pendingArgsByItemID - {id};
        case CallKey(_) =>
      }
      MapsUpdated();
    }

    method FlushAllPendingTools() returns (chunks: seq<Spec.Chunk>)
      requires Valid()
      modifies this, Records()
      ensures Valid() && fresh(Records() - old(Records()))
      ensures (View(), chunks) == Spec.ToolsSaid(old(View()), Spec.FlushAll(old(ToolsView())))
    {
      hide View, ToolsView, CellsLinked, Spec.FlushKey, Spec.FlushKeys, Spec.ToolsSaid, Spec.AllKeys, Sorted;
      var all := AllKeys();
      var keys := Sort(all);
      chunks := [];
      Flags();
      ghost var s0 := View();
      FlushedNone(s0, keys);
      for i := 0 to |keys|
        invariant Valid() && fresh(Records() - old(Records()))
        invariant (View(), chunks) == Spec.ToolsSaid(s0, Spec.FlushKeys(s0.tools, keys[..i]))
      {
        Flags();
        FlushedNext(s0, keys, i, View(), chunks);
        var more := FlushKey(keys[i]);
        chunks := chunks + more;
      }
      assert keys[..|keys|] == keys;
    }

    static lemma FlushedNone(s: Spec.State, keys: seq<Key>)
      requires Spec.Linked(s.tools)
      ensures Spec.ToolsSaid(s, Spec.FlushKeys(s.tools, keys[..0])) == (s, [])
    {
    }

    static lemma FlushedNext(s: Spec.State, keys: seq<Key>, i: nat, s1: Spec.State, chunks: seq<Spec.Chunk>)
      requires Spec.Linked(s.tools) && i < |keys|
               && (s1, chunks) == Spec.ToolsSaid(s, Spec.FlushKeys(s.tools, keys[..i]))
      ensures Spec.Linked(s1.tools)
      ensures var (s2, more) := Spec.ToolsSaid(s1, Spec.FlushKey(s1.tools, keys[i]));
              Spec.ToolsSaid(s, Spec.FlushKeys(s.tools, keys[..i + 1])) == (s2, chunks + more)
    {
      hide Spec.FlushKey, Spec.ToolsSaid;
      assert keys[..i + 1][..i] == keys[..i];
      var first := Spec.FlushKeys(s.tools, keys[..i]);
      SaidTwice(s, first, Spec.FlushKey(first.0, keys[i]));
    }

    method AllKeys() returns (keys: set<Key>)
      requires Valid()
      ensures keys == Spec.AllKeys(ToolsView())
    {
      keys := toolByKey.Keys + (set i | i in pendingArgsByOutputIndex :: OutputKey(i))
        + (set i | i in pendingArgsByItemID :: ItemKey(i));
    }

    static lemma SaidNothing(s: Spec.State)
      ensures Spec.ToolsSaid(s, (s.tools, [])) == (s, [])
    {
    }

    /** Only the rest of the state matters to what a tool step says. */
    static lemma SaidFrom(s: Spec.State, s': Spec.State, step: (Spec.Tools, seq<Spec.Chunk>))
      requires s' == s.(tools := s'.tools)
      ensures Spec.ToolsSaid(s', step) == Spec.ToolsSaid(s, step)
    {
    }

    /** Two tool steps said one after the other are one step with the chunks of both. */
    static lemma SaidTwice(s: Spec.State, first: (Spec.Tools, seq<Spec.Chunk>), second: (Spec.Tools, seq<Spec.Chunk>))
      ensures Spec.ToolsSaid(s, (second.0, first.1 + second.1)) ==
              (Spec.ToolsSaid(Spec.ToolsSaid(s, first).0, second).0,
               Spec.ToolsSaid(s, first).1 + Spec.ToolsSaid(Spec.ToolsSaid(s, first).0, second).1)
    {
      if first.1 == [] {
        assert first.1 + second.1 == second.1;
        assert [] + Spec.ToolsSaid(Spec.ToolsSaid(s, first).0, second).1
               == Spec.ToolsSaid(Spec.ToolsSaid(s, first).0, second).1;
      } else if second.1 == [] {
        assert first.1 + second.1 == first.1;
        assert Spec.ToolsSaid(s, first).1 + [] == Spec.ToolsSaid(s, first).1;
      } else {
        assert [] + second.1 == second.1;
        assert Spec.Opening(s) + (first.1 + second.1) == (Spec.Opening(s) + first.1) + second.1;
      }
    }

    method Finalize(response: Option<Response>) returns (chunks: seq<Spec.Chunk>)
      requires Valid()
      modifies this, Records()
      ensures Valid() && (View(), chunks) == Spec.Finalize(old(View()), response, includeUsage)
    {
      hide ToolsView, CellsLinked, Spec.FlushAll, Spec.ToolsSaid, Spec.FinishReason;
      chunks := [];
      if finalized { return; }
      finalized := true;
      FlagsUpdated();
      chunks := FlushAllPendingTools();
      var opening := EnsureStart();
      chunks := chunks + opening + [Spec.FinishChunk(Spec.FinishReason(response, sawToolCall))] +
                if includeUsage then [Spec.UsageChunk] else [];
    }

    // ---- the stream -----------------------------------------------------------------------------------------

    method TextDelta(delta: string) returns (chunks: seq<Spec.Chunk>)
      requires Valid()
      modifies this`hasSentText, this`sentStart
      ensures Valid() && (View(), chunks) == Spec.TextStep(old(View()), delta)
    {
      chunks := [];
      if delta == "" { return; }
      hasSentText := true;
      chunks := if sentStart then [] else [Spec.RoleChunk];
      sentStart := true;
      FlagsUpdated();
      chunks := chunks + [Spec.ContentChunk(delta)];
    }

    method ReasoningDelta(text: string) returns (chunks: seq<Spec.Chunk>)
      requires Valid()
      modifies this`needsReasoningSummaryBreak, this`hasSentReasoning, this`sentStart
      ensures Valid() && (View(), chunks) == Spec.ReasoningStep(old(View()), text)
    {
      chunks := [];
      if text == "" { return; }
      var delta := text;
      if needsReasoningSummaryBreak {
        if "\n\n" <= delta {
          needsReasoningSummaryBreak := false;
        } else if "\n" <= delta {
          delta := "\n" + delta;
          needsReasoningSummaryBreak := false;
        } else {
          delta := "\n\n" + delta;
          needsReasoningSummaryBreak := false;
        }
      }
      chunks := if sentStart then [] else [Spec.RoleChunk];
      sentStart := true;
      hasSentReasoning := true;
      FlagsUpdated();
      chunks := chunks + [Spec.ReasoningChunk(delta)];
    }

    method TerminalItem(item: Item, hadSentText: bool, hadSentReasoning: bool) returns (chunks: seq<Spec.Chunk>)
      requires Valid()
      modifies this, Records()
      ensures Valid() && fresh(Records() - old(Records()))
      ensures (View(), chunks) == Spec.TerminalItem(old(View()), item, hadSentText, hadSentReasoning)
    {
      hide View, ToolsView, CellsLinked, Spec.ToolStep, Spec.ToolsSaid, Spec.TextStep, Spec.ReasoningStep;
      chunks := [];
      Flags();
      match item.itemType
      case MessageType => if !hadSentText { chunks := TextDelta(MessageText(item.content)); }
      case ReasoningType => if !hadSentReasoning { chunks := ReasoningDelta(ReasoningText(item)); }
      case ToolType => chunks := ToolEvent(Spec.TerminalEvent(item));
      case OtherType(_) =>
    }

    method TerminalOutputChunks(output: seq<Item>) returns (chunks: seq<Spec.Chunk>)
      requires Valid()
      modifies this, Records()
      ensures Valid() && fresh(Records() - old(Records()))
      ensures (View(), chunks) == Spec.TerminalItems(old(View()), output, old(hasSentText), old(hasSentReasoning))
    {
      hide View, ToolsView, CellsLinked, Spec.TerminalItem;
      var hadSentText := hasSentText;
      var hadSentReasoning := hasSentReasoning;
      chunks := [];
      Flags();
      for i := 0 to |output|
        invariant Valid() && fresh(Records() - old(Records()))
        invariant (View(), chunks) == Spec.TerminalItems(old(View()), output[..i], hadSentText, hadSentReasoning)
      {
        assert output[..i + 1][..i] == output[..i];
        var more := TerminalItem(output[i], hadSentText, hadSentReasoning);
        chunks := chunks + more;
      }
      assert output[..|output|] == output;
    }

    method Terminate(response: Option<Response>) returns (chunks: seq<Spec.Chunk>)
      requires Valid()
      modifies this, Records()
      ensures Valid() && (View(), chunks) == Spec.Terminal(old(View()), response, includeUsage)
    {
      hide View, ToolsView, CellsLinked, Spec.TerminalItems, Spec.Finalize;
      Flags();
      chunks := [];
      if response.Some? { chunks := TerminalOutputChunks(response.value.output); }
      var last := Finalize(response);
      chunks := chunks + last;
    }

    /** ResponsesStreamEventToChatChunks. */
    method ConvertEvent(event: StreamEvent) returns (out: Option<seq<Spec.Chunk>>)
      requires Valid()
      modifies this, Records()
      ensures Valid()
      ensures var r := Spec.Step(old(View()), event, includeUsage);
              if r.None? then out.None? else out == Some(r.value.1) && View() == r.value.0
    {
      hide ToolsView, CellsLinked, Spec.ToolStep, Spec.ToolsSaid, Spec.TextStep, Spec.ReasoningStep, Spec.Terminal,
           Spec.TerminalResponse;
      var chunks: seq<Spec.Chunk> := [];
      if Spec.IsToolEvent(event) {
        chunks := ToolEvent(event);
      } else {
        match event.eventType {
          case Created => chunks := EnsureStart();
          case ReasoningDelta => chunks := ReasoningDelta(event.delta);
          case ReasoningDone =>
            if hasSentReasoning { needsReasoningSummaryBreak := true; }
            FlagsUpdated();
          case OutputTextDelta => chunks := TextDelta(event.delta);
          case Completed => chunks := Terminate(Spec.TerminalResponse(event));
          case Incomplete => chunks := Terminate(Spec.TerminalResponse(event));
          case Failed => return None;
          case _ =>
        }
      }
      out := Some(chunks);
    }
  }
}
