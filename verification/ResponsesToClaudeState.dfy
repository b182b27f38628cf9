/** The Responses to Claude converter as it runs: block records are updated in place and
    shared by the block list and the three lookup maps. */
module ResponsesToClaudeStreamState {
  import opened ClaudeTrace
  import opened Basics
  import opened ResponsesDto
  import Spec = ResponsesToClaude
  import Text

  class ResponsesClaudeStreamBlock {
    const index: nat
    const kind: Kind
    var itemID: string
    var callID: string
    var name: string
    var started: bool
    var stopped: bool
    var value: string
    var sentBytes: nat
    var annotationCount: nat
    var needsReasoningBreak: bool

    constructor (index: nat, kind: Kind)
      ensures this.index == index && View() == Spec.NewBlock(kind)
    {
      this.index, this.kind := index, kind;
      itemID, callID, name, started, stopped, value := "", "", "", false, false, "";
      sentBytes, annotationCount, needsReasoningBreak := 0, 0, false;
    }

    ghost function View(): Spec.Block
      reads this
    {
      Spec.Block(kind, itemID, callID, name, started, stopped, value, sentBytes, annotationCount, needsReasoningBreak)
    }

    /** applyBlockMetadata. */
    method Describe(event: StreamEvent)
      modifies this`itemID, this`callID, this`name
      ensures View() == Spec.Described(old(View()), event)
    {
      if ItemIdOf(event) != "" { itemID := ItemIdOf(event); }
      if event.item.None? { return; }
      var item := event.item.value;
      if Text.Trim(item.callId) != "" {
        callID := Text.Trim(item.callId);
      } else if callID == "" {
        callID := Text.Trim(item.id);
      }
      if Text.Trim(item.name) != "" { name := Text.Trim(item.name); }
    }
  }

  ghost function Views(cells: seq<ResponsesClaudeStreamBlock>): (r: seq<Spec.Block>)
    reads cells
    ensures |r| == |cells| && forall i :: 0 <= i < |cells| ==> r[i] == cells[i].View()
  {
    seq(|cells|, i requires 0 <= i < |cells| reads cells => cells[i].View())
  }

  class ResponsesToClaudeStreamState {
    var sentMessageStart: bool
    var done: bool
    var sawToolCall: bool
    var blocks: seq<ResponsesClaudeStreamBlock>
    var byOutputIndex: map<int, ResponsesClaudeStreamBlock>
    var byItemID: map<string, ResponsesClaudeStreamBlock>
    var lastByKind: map<Kind, ResponsesClaudeStreamBlock>

    /** A record stands in the list at its index. */
    ghost predicate Listed(cell: ResponsesClaudeStreamBlock)
      reads this`blocks
    {
      cell.index < |blocks| && blocks[cell.index] == cell
    }

    ghost predicate OutputIndexLinked()
      reads this`blocks, this`byOutputIndex
    {
      forall k :: k in byOutputIndex ==> Listed(byOutputIndex[k])
    }

    ghost predicate ItemIDLinked()
      reads this`blocks, this`byItemID
    {
      forall k :: k in byItemID ==> Listed(byItemID[k])
    }

    ghost predicate KindLinked()
      reads this`blocks, this`lastByKind
    {
      forall k :: k in lastByKind ==> Listed(lastByKind[k])
    }

    ghost predicate Numbered()
      reads this`blocks
    {
      forall i :: 0 <= i < |blocks| ==> blocks[i].index == i
    }

    ghost predicate CellsLinked()
      reads this`blocks, this`byOutputIndex, this`byItemID, this`lastByKind
    {
      Numbered() && OutputIndexLinked() && ItemIDLinked() && KindLinked()
    }

    ghost function Records(): set<ResponsesClaudeStreamBlock>
      reads this`blocks
    {
      set c | c in blocks
    }

    ghost function ByOutputIndex(): map<int, nat>
      reads this`byOutputIndex
    {
      map k | k in byOutputIndex :: byOutputIndex[k].index
    }

    ghost function ByItemID(): map<string, nat>
      reads this`byItemID
    {
      map k | k in byItemID :: byItemID[k].index
    }

    ghost function LastByKind(): map<Kind, nat>
      reads this`lastByKind
    {
      map k | k in lastByKind :: lastByKind[k].index
    }

    ghost function View(): Spec.State
      reads this, blocks
    {
      Spec.State(sentMessageStart, done, sawToolCall, Views(blocks), ByOutputIndex(), ByItemID(), LastByKind())
    }

    ghost predicate Valid()
      reads this, blocks
    {
      CellsLinked() && Spec.Linked(View())
    }

    constructor ()
      ensures Valid() && View() == Spec.INITIAL && blocks == []
    {
      sentMessageStart, done, sawToolCall := false, false, false;
      blocks, byOutputIndex, byItemID, lastByKind := [], map[], map[], map[];
    }

    // ---- how updates show -------------------------------------------------------------

    /** Only one record and the flags were written. */
    twostate lemma BlockUpdated(block: ResponsesClaudeStreamBlock)
      requires old(Valid()) && old(Listed(block)) && block.sentBytes <= |block.value|
      requires unchanged(`blocks, `byOutputIndex, `byItemID, `lastByKind) && unchanged(old(Records()) - {block})
      ensures Valid()
      ensures View() == old(View()).(sentStart := sentMessageStart, done := done, sawToolCall := sawToolCall,
                                     blocks := old(View()).blocks[block.index := block.View()])
    {
      hide ByOutputIndex, ByItemID, LastByKind;
      forall i | 0 <= i < |blocks| ensures Views(blocks)[i] == old(Views(blocks))[block.index := block.View()][i] {
        if i != block.index {
          assert blocks[i].index == i && blocks[i] in old(Records()) - {block};
        }
      }
      assert Views(blocks) == old(Views(blocks))[block.index := block.View()];
    }

    /** Only flags were written. */
    twostate lemma FlagsUpdated()
      requires old(Valid())
      requires unchanged(`blocks, `byOutputIndex, `byItemID, `lastByKind) && unchanged(old(Records()))
      ensures Valid()
      ensures View() == old(View()).(sentStart := sentMessageStart, done := done, sawToolCall := sawToolCall)
    {
      hide ByOutputIndex, ByItemID, LastByKind;
      assert Views(blocks) == old(Views(blocks));
    }

    /** What the view says of a record and of the flags. */
    lemma Viewed(block: ResponsesClaudeStreamBlock)
      requires Valid() && Listed(block)
      ensures block.index < |View().blocks| == |blocks| && View().blocks[block.index] == block.View()
      ensures block.sentBytes <= |block.value|
    {
      assert Spec.Linked(View());
    }

    lemma Flags()
      ensures View().sentStart == sentMessageStart && View().done == done && View().sawToolCall == sawToolCall
      ensures |View().blocks| == |blocks|
    {
    }

    // ---- routing ------------------------------------------------------------------------

    method FindBlock(event: StreamEvent) returns (block: ResponsesClaudeStreamBlock?)
      requires Valid()
      ensures if block == null then Spec.Find(View(), event).None?
              else Listed(block) && Spec.Find(View(), event) == Some(block.index)
    {
      hide Views;
      var key: int := event.outputIndex.GetOr(0);
      if event.outputIndex.Some? && key in byOutputIndex { return byOutputIndex[key]; }
      var itemID := ItemIdOf(event);
      if itemID != "" && itemID in byItemID { return byItemID[itemID]; }
      block := null;
    }

    method RouteBlock(event: StreamEvent, kind: Kind) returns (block: ResponsesClaudeStreamBlock?)
      requires Valid()
      ensures |View().blocks| == |blocks|
      ensures Spec.Route(View(), event, kind) == if block == null then |blocks| else block.index
      ensures block != null ==> Listed(block)
    {
      hide Spec.Find;
      block := FindBlock(event);
      if block == null && kind in lastByKind && event.outputIndex.None? && ItemIdOf(event) == "" {
        var last := lastByKind[kind];
        Viewed(last);
        if !last.stopped { block := last; }
      }
    }

    /** A longer list does not move the records it had. */
    twostate lemma Appended(new block: ResponsesClaudeStreamBlock)
      requires old(Valid()) && block.index == |old(blocks)| && blocks == old(blocks) + [block]
      requires unchanged(`byOutputIndex, `byItemID, `lastByKind, `sentMessageStart, `done, `sawToolCall)
      requires unchanged(old(Records())) && block.View() == Spec.NewBlock(block.kind)
      ensures Valid() && View() == old(View()).(blocks := old(View()).blocks + [block.View()])
    {
      hide ByOutputIndex, ByItemID, LastByKind, Views;
      assert Views(blocks) == old(Views(blocks)) + [block.View()];
      forall k | k in byOutputIndex ensures Listed(byOutputIndex[k]) { assert old(Listed(byOutputIndex[k])); }
      forall k | k in byItemID ensures Listed(byItemID[k]) { assert old(Listed(byItemID[k])); }
      forall k | k in lastByKind ensures Listed(lastByKind[k]) { assert old(Listed(lastByKind[k])); }
    }

    method NewBlock(kind: Kind) returns (block: ResponsesClaudeStreamBlock)
      requires Valid()
      modifies this`blocks
      ensures Valid() && View() == old(View()).(blocks := old(View()).blocks + [Spec.NewBlock(kind)])
      ensures fresh(block) && blocks == old(blocks) + [block] && Listed(block) && block.kind == kind
              && block.index == |old(blocks)|
    {
      hide View, CellsLinked;
      block := new ResponsesClaudeStreamBlock(|blocks|, kind);
      blocks := blocks + [block];
      Appended(block);
    }

    method Register(block: ResponsesClaudeStreamBlock, event: StreamEvent)
      requires Valid() && Listed(block)
      modifies this`byOutputIndex, this`byItemID, this`lastByKind
      ensures Valid()
      ensures View() == old(View()).(
        byOutputIndex := if event.outputIndex.Some?
          then old(View()).byOutputIndex[event.outputIndex.value := block.index]
                         else old(View()).byOutputIndex,
        byItemId := if ItemIdOf(event) != "" then old(View()).byItemId[ItemIdOf(event) := block.index]
                    else old(View()).byItemId,
        lastByKind := old(View()).lastByKind[block.kind := block.index])
    {
      hide View, CellsLinked;
      Maps();
      if event.outputIndex.Some? { RegisterOutputIndex(event.outputIndex.value, block); }
      if ItemIdOf(event) != "" { RegisterItemID(ItemIdOf(event), block); }
      RegisterKind(block);
    }

    lemma Maps()
      ensures View() == View().(byOutputIndex := View().byOutputIndex, byItemId := View().byItemId)
    {
    }

    method RegisterOutputIndex(key: int, block: ResponsesClaudeStreamBlock)
      requires Valid() && Listed(block)
      modifies this`byOutputIndex
      ensures Valid() && View() == old(View()).(byOutputIndex := old(View()).byOutputIndex[key := block.index])
    {
      hide Views, ByItemID, LastByKind;
      byOutputIndex := byOutputIndex[key := block];
      assert ByOutputIndex() == old(ByOutputIndex())[key := block.index];
    }

    method RegisterItemID(key: string, block: ResponsesClaudeStreamBlock)
      requires Valid() && Listed(block)
      modifies this`byItemID
      ensures Valid() && View() == old(View()).(byItemId := old(View()).byItemId[key := block.index])
    {
      hide Views, ByOutputIndex, LastByKind;
      byItemID := byItemID[key := block];
      assert ByItemID() == old(ByItemID())[key := block.index];
    }

    method RegisterKind(block: ResponsesClaudeStreamBlock)
      requires Valid() && Listed(block)
      modifies this`lastByKind
      ensures Valid() && View() == old(View()).(lastByKind := old(View()).lastByKind[block.kind := block.index])
    {
      hide Views, ByOutputIndex, ByItemID;
      lastByKind := lastByKind[block.kind := block];
      assert LastByKind() == old(LastByKind())[block.kind := block.index];
    }

    /** ensureBlock; null when the item changed its kind. */
    method EnsureBlock(event: StreamEvent, kind: Kind) returns (block: ResponsesClaudeStreamBlock?)
      requires Valid()
      modifies this`blocks, this`byOutputIndex, this`byItemID, this`lastByKind, Records()
      ensures Valid() && fresh(Records() - old(Records()))
      ensures if block == null then Spec.EnsureBlock(old(View()), event, kind).None?
              else Listed(block) && Spec.EnsureBlock(old(View()), event, kind) == Some((View(), block.index))
    {
      hide View, CellsLinked, Spec.Route, Spec.Described, Views, Spec.Linked, Valid;
      block := RouteBlock(event, kind);
      if block == null {
        block := NewBlock(kind);
      } else {
        Viewed(block);
      }
      if block.kind != kind { return null; }
      label found:
      Viewed(block);
      Flags();
      assert View().blocks == Spec.Opened(old(View()), block.index, kind);
      assert block in Records();
      block.Describe(event);
      BlockUpdated@found(block);
      Register(block, event);
    }

    // ---- acting on a block -----------------------------------------------------------------

    method EnsureMessageStart() returns (evs: seq<Event>)
      requires Valid()
      modifies this`sentMessageStart
      ensures Valid() && View() == old(View()).(sentStart := true) && evs == Spec.MessageOpened(old(View()))
    {
      hide View, CellsLinked;
      Flags();
      evs := if sentMessageStart then [] else [MessageStart];
      sentMessageStart := true;
      FlagsUpdated();
    }

    method StartBlock(block: ResponsesClaudeStreamBlock) returns (evs: seq<Event>)
      requires Valid() && Listed(block)
      modifies this`sentMessageStart, this`sawToolCall, block
      ensures Valid() && Listed(block) && (View(), evs) == Spec.StartBlock(old(View()), block.index)
    {
      hide View, CellsLinked;
      evs := [];
      Viewed(block);
      Flags();
      if block.started || block.stopped { return; }
      var content;
      match block.kind {
        case TextKind => content := TextBlock;
        case ThinkingKind => content := ThinkingBlock;
        case ToolKind =>
          if block.name == "" { return; }
          content := ToolBlock(if block.callID == "" then block.itemID else block.callID, block.name);
          sawToolCall := true;
      }
      block.started := true;
      evs := if sentMessageStart then [] else [MessageStart];
      sentMessageStart := true;
      BlockUpdated(block);
      evs := evs + [BlockStart(block.index, content)];
    }

    method FlushBlock(block: ResponsesClaudeStreamBlock) returns (evs: seq<Event>)
      requires Valid() && Listed(block)
      modifies this`sentMessageStart, this`sawToolCall, block
      ensures Valid() && Listed(block) && (View(), evs) == Spec.Flush(old(View()), block.index)
    {
      hide View, CellsLinked, Spec.StartBlock;
      evs := [];
      Viewed(block);
      if block.stopped { return; }
      evs := StartBlock(block);
      Viewed(block);
      if !block.started || block.sentBytes >= |block.value| { return; }
      var delta := block.value[block.sentBytes..];
      label started:
      Flags();
      block.sentBytes := |block.value|;
      BlockUpdated@started(block);
      match block.kind
      case TextKind => evs := evs + [BlockDelta(block.index, TextDelta(delta))];
      case ThinkingKind => evs := evs + [BlockDelta(block.index, ThinkingDelta(delta))];
      case ToolKind => evs := evs + [BlockDelta(block.index, InputJsonDelta(delta))];
    }

    method Revalue(block: ResponsesClaudeStreamBlock, value: string) returns (evs: seq<Event>)
      requires Valid() && Listed(block) && block.value <= value
      modifies this`sentMessageStart, this`sawToolCall, block
      ensures Valid() && Listed(block)
      ensures block.index < |old(View()).blocks| && old(View()).blocks[block.index].value <= value
      ensures (View(), evs) == Spec.Revalue(old(View()), block.index, value)
    {
      hide View, CellsLinked, Spec.Flush;
      Viewed(block);
      Flags();
      block.value := value;
      BlockUpdated(block);
      evs := FlushBlock(block);
    }

    /** A delta of a thinking block is kept apart from the part finished before it. */
    method AppendDelta(block: ResponsesClaudeStreamBlock, text: string) returns (evs: seq<Event>)
      requires Valid() && Listed(block)
      modifies this`sentMessageStart, this`sawToolCall, block
      ensures Valid() && Listed(block) && (View(), evs) == Spec.AppendAct(old(View()), block.index, text)
    {
      hide View, CellsLinked, Spec.Revalue;
      evs := [];
      Viewed(block);
      Flags();
      var delta := text;
      if block.kind == ThinkingKind && block.needsReasoningBreak && delta != "" {
        delta := Spec.Separated(delta);
        block.needsReasoningBreak := false;
        BlockUpdated(block);
        Viewed(block);
      }
      if block.stopped || delta == "" { return; }
      evs := Revalue(block, block.value + delta);
    }

    method MergeFinalValue(block: ResponsesClaudeStreamBlock, finalValue: string) returns (evs: seq<Event>)
      requires Valid() && Listed(block)
      modifies this`sentMessageStart, this`sawToolCall, block
      ensures Valid() && Listed(block) && (View(), evs) == Spec.MergeAct(old(View()), block.index, finalValue)
    {
      hide View, CellsLinked, Spec.Revalue;
      evs := [];
      Viewed(block);
      if block.stopped { return; }
      var current := block.value;
      if current == "" {
        evs := Revalue(block, finalValue);
      } else if current <= finalValue {
        evs := Revalue(block, current + finalValue[|current|..]);
      } else {
        evs := Revalue(block, current);
      }
    }

    method MarkBreak(block: ResponsesClaudeStreamBlock)
      requires Valid() && Listed(block)
      modifies block
      ensures Valid() && Listed(block) && View() == Spec.BreakAct(old(View()), block.index)
    {
      hide View, CellsLinked;
      Viewed(block);
      Flags();
      if block.value != "" {
        block.needsReasoningBreak := true;
        BlockUpdated(block);
      }
    }

    method AppendAnnotations(block: ResponsesClaudeStreamBlock, annotations: seq<Annotation>, snapshot: bool,
                             cite: Spec.Cite)
      returns (evs: seq<Event>)
      requires Valid() && Listed(block)
      modifies this`sentMessageStart, this`sawToolCall, block
      ensures Valid() && Listed(block) && (View(), evs)
              == Spec.CiteAct(old(View()), block.index, annotations, snapshot, cite)
    {
      hide View, CellsLinked, Spec.StartBlock, ItemIDLinked, KindLinked, Listed, Spec.Extends, Spec.Linked, Valid;
      evs := [];
      Viewed(block);
      Flags();
      if block.kind != TextKind || block.stopped || annotations == [] { return; }
      var remaining := annotations;
      if snapshot {
        if |annotations| <= block.annotationCount { return; }
        remaining := annotations[block.annotationCount..];
        block.annotationCount := |annotations|;
      } else {
        block.annotationCount := block.annotationCount + |annotations|;
      }
      BlockUpdated(block);
      var citations := cite(remaining, block.value);
      if citations == [] { return; }
      var start := StartBlock(block);
      evs := start;
      for i := 0 to |citations|
        invariant evs == start + Spec.CitationDeltas(block.index, citations[..i])
      {
        assert citations[..i + 1][..i] == citations[..i];
        evs := evs + [BlockDelta(block.index, CitationDelta(citations[i]))];
      }
      assert citations[..|citations|] == citations;
    }

    method StopBlock(block: ResponsesClaudeStreamBlock) returns (evs: seq<Event>)
      requires Valid() && Listed(block)
      modifies this`sentMessageStart, this`sawToolCall, block
      ensures Valid() && Listed(block) && (View(), evs) == Spec.CloseAct(old(View()), block.index)
    {
      hide View, CellsLinked, Spec.StartBlock, Spec.Flush;
      evs := [];
      Viewed(block);
      if block.stopped { return; }
      evs := FlushBlock(block);
      var more := StartBlock(block);
      evs := evs + more;
      Viewed(block);
      if !block.started { return; }
      label flushed:
      Flags();
      block.stopped := true;
      BlockUpdated@flushed(block);
      evs := evs + (if block.kind == ThinkingKind then [BlockDelta(block.index, SignatureDelta)] else []) +
             [BlockStop(block.index)];
    }

    method Perform(block: ResponsesClaudeStreamBlock, acts: seq<Spec.Act>, cite: Spec.Cite) returns (evs: seq<Event>)
      requires Valid() && Listed(block)
      modifies this`sentMessageStart, this`sawToolCall, block
      ensures Valid() && Listed(block) && block.index < |old(View()).blocks|
      ensures (View(), evs) == Spec.PerformAll(old(View()), block.index, acts, cite)
    {
      hide View, CellsLinked, Spec.AppendAct, Spec.MergeAct, Spec.CiteAct, Spec.CloseAct, Spec.BreakAct;
      evs := [];
      Viewed(block);
      for i := 0 to |acts|
        invariant Valid() && Listed(block)
        invariant (View(), evs) == Spec.PerformAll(old(View()), block.index, acts[..i], cite)
      {
        assert acts[..i + 1][..i] == acts[..i];
        var more := [];
        match acts[i] {
          case Append(text) => more := AppendDelta(block, text);
          case Merge(text) => more := MergeFinalValue(block, text);
          case Break => MarkBreak(block);
          case Cited(annotations, snapshot) => more := AppendAnnotations(block, annotations, snapshot, cite);
          case Close => more := StopBlock(block);
        }
        evs := evs + more;
      }
      assert acts[..|acts|] == acts;
    }

    // ---- events ------------------------------------------------------------------------------

    method Obey(event: StreamEvent, kind: Kind, acts: seq<Spec.Act>, cite: Spec.Cite) returns (out: Option<seq<Event>>)
      requires Valid()
      modifies this`blocks, this`byOutputIndex, this`byItemID, this`lastByKind, this`sentMessageStart, this`sawToolCall,
        Records()
      ensures Valid() && fresh(Records() - old(Records()))
      ensures var r := Spec.Obey(old(View()), event, kind, acts, cite);
              if r.None? then out.None? else out == Some(r.value.1) && View() == r.value.0
    {
      hide View, CellsLinked, Spec.EnsureBlock, Spec.PerformAll;
      var block := EnsureBlock(event, kind);
      if block == null { return None; }
      assert block in Records();
      var evs := Perform(block, acts, cite);
      out := Some(evs);
    }

    method ApplyOutputItems(output: seq<Item>, cite: Spec.Cite) returns (out: Option<seq<Event>>)
      requires Valid()
      modifies this`blocks, this`byOutputIndex, this`byItemID, this`lastByKind, this`sentMessageStart, this`sawToolCall,
        Records()
      ensures Valid() && fresh(Records() - old(Records()))
      ensures var r := Spec.OutputItems(old(View()), output, cite);
              if r.None? then out.None? else out == Some(r.value.1) && View() == r.value.0
    {
      hide View, CellsLinked, Spec.Obey, Spec.ItemOrder, Spec.OutputEvent;
      var evs := [];
      for i := 0 to |output|
        invariant Valid() && fresh(Records() - old(Records()))
        invariant Spec.OutputItems(old(View()), output[..i], cite) == Some((View(), evs))
      {
        assert output[..i + 1][..i] == output[..i];
        var order := Spec.ItemOrder(output[i], true);
        if order.OnBlock? {
          var more := Obey(Spec.OutputEvent(output[i], i), order.kind, order.acts, cite);
          if more.None? {
            OutputItemsFail(old(View()), output, i + 1, cite);
            return None;
          }
          evs := evs + more.value;
        }
      }
      assert output[..|output|] == output;
      out := Some(evs);
    }

    static lemma {:induction false} OutputItemsFail(s: Spec.State, output: seq<Item>, k: nat, cite: Spec.Cite)
      requires Spec.Linked(s) && k <= |output| && Spec.OutputItems(s, output[..k], cite).None?
      ensures Spec.OutputItems(s, output, cite).None?
      decreases |output|
    {
      hide Spec.Obey, Spec.ItemOrder;
      if k < |output| {
        assert output[..|output| - 1][..k] == output[..k];
        OutputItemsFail(s, output[..|output| - 1], k, cite);
      } else {
        assert output[..k] == output;
      }
    }

    method Conclude(response: Option<Response>) returns (evs: seq<Event>)
      requires Valid()
      modifies this`sentMessageStart, this`sawToolCall, this`done, Records()
      ensures Valid() && (View(), evs) == Spec.Conclude(old(View()), response)
    {
      hide View, CellsLinked, Spec.CloseAct, Spec.Extends, Spec.Linked, Spec.StopReason;
      evs := [];
      Flags();
      ghost var was := View();
      for i := 0 to |blocks|
        invariant Valid() && |was.blocks| == |blocks|
        invariant (View(), evs) == Spec.CloseAll(was, i)
      {
        InList(i);
        var more := StopBlock(blocks[i]);
        evs := evs + more;
      }
      label closed:
      Flags();
      evs := evs + (if sentMessageStart then [] else [MessageStart]) +
             [MessageDelta(Spec.StopReason(response, sawToolCall)), MessageStop];
      sentMessageStart := true;
      done := true;
      FlagsUpdated@closed();
    }

    lemma InList(i: nat)
      requires Valid() && i < |blocks|
      ensures blocks[i] in Records() && Listed(blocks[i]) && blocks[i].index == i
    {
    }

    method Finish(response: Option<Response>, cite: Spec.Cite) returns (out: Option<seq<Event>>)
      requires Valid()
      modifies this, Records()
      ensures Valid()
      ensures var r := Spec.FinishWith(old(View()), response, cite);
              if r.None? then out.None? else out == Some(r.value.1) && View() == r.value.0
    {
      hide View, CellsLinked, Spec.OutputItems, Spec.Conclude;
      var evs: seq<Event> := [];
      if response.Some? {
        var items := ApplyOutputItems(response.value.output, cite);
        if items.None? { return None; }
        evs := items.value;
      }
      var last := Conclude(response);
      out := Some(evs + last);
    }

    method ConvertChunk(event: StreamEvent, cite: Spec.Cite) returns (out: Option<seq<Event>>)
      requires Valid()
      modifies this, Records()
      ensures Valid()
      ensures var r := Spec.Step(old(View()), event, cite);
              if r.None? then out.None? else out == Some(r.value.1) && View() == r.value.0
    {
      hide View, CellsLinked, Spec.Obey, Spec.FinishWith, Spec.OrderOf;
      Flags();
      if done { return Some([]); }
      match Spec.OrderOf(event)
      case Ignore => out := Some([]);
      case Greet =>
        var start := EnsureMessageStart();
        out := Some(start);
      case OnBlock(kind, acts) => out := Obey(event, kind, acts, cite);
      case Finish(response) => out := Finish(response, cite);
      case Fail => out := None;
    }

    method Finalize() returns (evs: seq<Event>)
      requires Valid()
      modifies this, Records()
      ensures Valid() && (View(), evs) == Spec.Final(old(View()))
    {
      hide View, CellsLinked, Spec.Conclude;
      Flags();
      if done { return []; }
      evs := Conclude(None);
    }
  }
}
