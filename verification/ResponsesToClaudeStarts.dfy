/** Responses to Claude: how each block is started, and how the message ends. */
module ResponsesToClaudeStarts {
  import opened Basics
  import opened ClaudeTrace
  import opened ResponsesDto
  import opened ResponsesToClaude
  import opened ResponsesToClaudeRouting
  import Text

  // ---- what the events of a block say of it -------------------------------------------------

  /** The last name an item of the block carried. */
  function LastName(log: seq<Routing>, b: int): string {
    if log == [] then "" else
      var before, r := LastName(log[..|log| - 1], b), log[|log| - 1];
      if r.block == b && r.event.item.Some? && Text.Trim(r.event.item.value.name) != ""
        then Text.Trim(r.event.item.value.name)
      else before
  }

  /** The last call id an item of the block carried. */
  function LastCallId(log: seq<Routing>, b: int): string {
    if log == [] then "" else
      var before, r := LastCallId(log[..|log| - 1], b), log[|log| - 1];
      if r.block == b && r.event.item.Some? && Text.Trim(r.event.item.value.callId) != ""
        then Text.Trim(r.event.item.value.callId)
      else before
  }

  /** The first id of its own that an item of the block carried. */
  function FirstOwnId(log: seq<Routing>, b: int): string {
    if log == [] then "" else
      var before, r := FirstOwnId(log[..|log| - 1], b), log[|log| - 1];
      if before != "" then before
      else if r.block == b && r.event.item.Some? then Text.Trim(r.event.item.value.id)
      else ""
  }

  /** The last item id an event of the block carried. */
  function LastItemId(log: seq<Routing>, b: int): string {
    if log == [] then "" else
      var before, r := LastItemId(log[..|log| - 1], b), log[|log| - 1];
      if r.block == b && ItemIdOf(r.event) != "" then ItemIdOf(r.event) else before
  }

  /** The id a tool block is started under: a call id if there is one, else an id of its items. */
  function StartingId(log: seq<Routing>, b: int): string {
    if LastCallId(log, b) != "" then LastCallId(log, b)
    else if FirstOwnId(log, b) != "" then FirstOwnId(log, b)
    else LastItemId(log, b)
  }

  function ActsOf(e: StreamEvent): seq<Act> { if OrderOf(e).OnBlock? then OrderOf(e).acts else [] }

  /** Acts that have a block started, if it can be. */
  predicate Stirs(act: Act) { act.Merge? || act.Close? || (act.Append? && act.text != "") }

  predicate AnyStirs(acts: seq<Act>) { exists k :: 0 <= k < |acts| && Stirs(acts[k]) }

  /** How a tool block was started along a stream: at the first event that stirs it once an item
      has named it, under the id and the name it has by then. */
  function ToolStart(log: seq<Routing>, b: int): Option<Content> {
    if log == [] then None else
      var before, r := ToolStart(log[..|log| - 1], b), log[|log| - 1];
      if before.Some? then before
      else if r.block == b && AnyStirs(ActsOf(r.event)) && LastName(log, b) != ""
        then Some(ToolBlock(StartingId(log, b), LastName(log, b)))
      else None
  }

  /** How a block was started by the end of the message; a tool nobody named never is. */
  function FinalStart(kind: Kind, log: seq<Routing>, b: int): Option<Content> {
    match kind
    case TextKind => Some(TextBlock)
    case ThinkingKind => Some(ThinkingBlock)
    case ToolKind =>
      if ToolStart(log, b).Some? then ToolStart(log, b)
      else if LastName(log, b) != "" then Some(ToolBlock(StartingId(log, b), LastName(log, b)))
      else None
  }

  lemma LabelSnoc(log: seq<Routing>, r: Routing, b: int)
    ensures var more := log + [r];
            if r.block == b then
              && LastName(more, b) == (if r.event.item.Some? && Text.Trim(r.event.item.value.name) != ""
                                       then Text.Trim(r.event.item.value.name) else LastName(log, b))
              && LastCallId(more, b) == (if r.event.item.Some? && Text.Trim(r.event.item.value.callId) != ""
                                         then Text.Trim(r.event.item.value.callId) else LastCallId(log, b))
              && FirstOwnId(more, b) == (if FirstOwnId(log, b) == "" && r.event.item.Some?
                                         then Text.Trim(r.event.item.value.id) else FirstOwnId(log, b))
              && LastItemId(more, b) == (if ItemIdOf(r.event) != "" then ItemIdOf(r.event) else LastItemId(log, b))
            else
              && LastName(more, b) == LastName(log, b) && LastCallId(more, b) == LastCallId(log, b)
              && FirstOwnId(more, b) == FirstOwnId(log, b) && LastItemId(more, b) == LastItemId(log, b)
  {
    hide Text.Trim, ItemIdOf;
    assert (log + [r])[..|log|] == log;
  }

  lemma StartSnoc(log: seq<Routing>, r: Routing, b: int)
    ensures var more := log + [r];
            ToolStart(more, b) ==
            if ToolStart(log, b).Some? then ToolStart(log, b)
            else if r.block == b && AnyStirs(ActsOf(r.event)) && LastName(more, b) != ""
              then Some(ToolBlock(StartingId(more, b), LastName(more, b)))
            else None
  {
    hide LastName, StartingId, AnyStirs, ActsOf;
    assert (log + [r])[..|log|] == log;
  }

  // ---- when acts start a block ---------------------------------------------------------------

  lemma FlushStarts(s: State, p: nat)
    requires Linked(s) && p < |s.blocks| && (s.blocks[p].stopped ==> s.blocks[p].started)
    ensures Flush(s, p).0.blocks[p].started <==> s.blocks[p].started || Startable(s.blocks[p])
  {
  }

  lemma RevalueStarts(s: State, p: nat, value: string)
    requires Linked(s) && p < |s.blocks| && s.blocks[p].value <= value
    requires s.blocks[p].stopped ==> s.blocks[p].started
    ensures Revalue(s, p, value).0.blocks[p].started <==> s.blocks[p].started || Startable(s.blocks[p])
  {
    hide Flush;
    FlushStarts(s.(blocks := s.blocks[p := s.blocks[p].(value := value)]), p);
  }

  lemma PerformStarts(s: State, p: nat, act: Act, cite: Cite)
    requires Linked(s) && p < |s.blocks| && s.blocks[p].kind == ToolKind
    requires s.blocks[p].stopped ==> s.blocks[p].started
    ensures var block := Perform(s, p, act, cite).0.blocks[p];
            && (block.started <==> s.blocks[p].started || (Startable(s.blocks[p]) && Stirs(act)))
            && (block.stopped ==> block.started)
  {
    hide Revalue, CloseAct, Merged, Kept, Startable;
    PerformKept(s, p, act, cite);
    KeptItem(s, Perform(s, p, act, cite).0, p, Perform(s, p, act, cite).1);
    match act
    case Append(text) =>
      if text != "" && !s.blocks[p].stopped { RevalueStarts(s, p, s.blocks[p].value + text); }
    case Merge(text) =>
      if !s.blocks[p].stopped { RevalueStarts(s, p, Merged(s.blocks[p].value, text)); }
    case Break =>
    case Cited(_, _) =>
    case Close => if !s.blocks[p].stopped { CloseKept(s, p); } else { StoppedStays(s, p); }
  }

  lemma StoppedStays(s: State, p: nat)
    requires Linked(s) && p < |s.blocks| && s.blocks[p].stopped
    ensures CloseAct(s, p).0 == s
  {
  }

  lemma KeptItem(s: State, s': State, p: nat, evs: seq<Event>)
    requires Kept(s, s', p, evs)
    ensures p < |s.blocks| == |s'.blocks| && SameItem(s.blocks[p], s'.blocks[p])
  {
    hide StartOf, HasTool, SameItem;
  }

  lemma StirsSnoc(acts: seq<Act>)
    requires acts != []
    ensures AnyStirs(acts) <==> AnyStirs(acts[..|acts| - 1]) || Stirs(acts[|acts| - 1])
  {
    hide Stirs;
    var before := acts[..|acts| - 1];
    assert forall k :: 0 <= k < |before| ==> before[k] == acts[k];
    if AnyStirs(before) {
      var k :| 0 <= k < |before| && Stirs(before[k]);
      assert Stirs(acts[k]);
    }
    if k :| 0 <= k < |acts| && Stirs(acts[k]) {
      if k < |before| { assert Stirs(before[k]); }
    }
  }

  lemma {:induction false} PerformAllStarts(s: State, p: nat, acts: seq<Act>, cite: Cite)
    requires Linked(s) && p < |s.blocks| && s.blocks[p].kind == ToolKind
    requires s.blocks[p].stopped ==> s.blocks[p].started
    ensures var block := PerformAll(s, p, acts, cite).0.blocks[p];
            && (block.started <==> s.blocks[p].started || (Startable(s.blocks[p]) && AnyStirs(acts)))
            && (block.stopped ==> block.started)
  {
    hide Perform, Stirs, AnyStirs, Kept;
    if acts == [] {
      NothingStirs();
    } else {
      var n := |acts| - 1;
      StirsSnoc(acts);
      PerformAllStarts(s, p, acts[..n], cite);
      PerformAllKept(s, p, acts[..n], cite);
      var (s1, evs1) := PerformAll(s, p, acts[..n], cite);
      KeptItem(s, s1, p, evs1);
      PerformStarts(s1, p, acts[n], cite);
    }
  }

  lemma NothingStirs()
    ensures !AnyStirs([])
  {
  }

  // ---- where a block stands ---------------------------------------------------------------------

  /** The block carries what its events say of it. */
  predicate Labelled(block: Block, log: seq<Routing>, b: int) {
    && block.name == LastName(log, b) && block.itemId == LastItemId(log, b)
    && block.callId == if LastCallId(log, b) != "" then LastCallId(log, b) else FirstOwnId(log, b)
  }

  predicate Stands(block: Block, log: seq<Routing>, b: int, start: Option<Content>) {
    && (block.kind == ToolKind ==>
          && Labelled(block, log, b) && start == ToolStart(log, b) && (block.started <==> start.Some?))
    && (block.kind != ToolKind ==> start == if block.started then Some(ContentOf(block)) else None)
    && (block.stopped ==> block.started)
  }

  predicate Standing(s: State, trace: seq<Event>, log: seq<Routing>, b: int) {
    if 0 <= b < |s.blocks| then Stands(s.blocks[b], log, b, StartOf(trace, b))
    else StartOf(trace, b).None? && forall k :: 0 <= k < |log| ==> log[k].block != b
  }

  /** All blocks were started that could be. */
  predicate Stood(s: State, trace: seq<Event>, log: seq<Routing>, b: int) {
    0 <= b < |s.blocks| ==> StartOf(trace, b) == FinalStart(s.blocks[b].kind, log, b)
  }

  predicate Accounted(s: State, trace: seq<Event>, log: seq<Routing>, b: int) {
    if s.done then Stood(s, trace, log, b) else Standing(s, trace, log, b)
  }

  /** A block as its events describe it is started under the id they give. */
  lemma LabelIsContent(block: Block, log: seq<Routing>, b: int)
    requires block.kind == ToolKind && Labelled(block, log, b)
    ensures ContentOf(block) == ToolBlock(StartingId(log, b), LastName(log, b))
    ensures Startable(block) <==> LastName(log, b) != ""
  {
  }

  lemma {:induction false} NothingSaid(log: seq<Routing>, b: int)
    requires forall k :: 0 <= k < |log| ==> log[k].block != b
    ensures LastName(log, b) == "" && LastCallId(log, b) == "" && FirstOwnId(log, b) == "" && LastItemId(log, b) == ""
    ensures ToolStart(log, b).None?
  {
    if log != [] { NothingSaid(log[..|log| - 1], b); }
  }

  lemma DescribedLabels(block: Block, event: StreamEvent, log: seq<Routing>, b: int)
    requires Labelled(block, log, b)
    ensures Labelled(Described(block, event), log + [Routing(b, event)], b)
  {
    hide Text.Trim, ItemIdOf, LastName, LastCallId, FirstOwnId, LastItemId;
    LabelSnoc(log, Routing(b, event), b);
  }

  lemma NewLabelled(kind: Kind, log: seq<Routing>, b: int)
    requires forall k :: 0 <= k < |log| ==> log[k].block != b
    ensures Labelled(NewBlock(kind), log, b) && ToolStart(log, b).None?
  {
    NothingSaid(log, b);
  }

  /** One event on its block. */
  lemma OwnStands(block: Block, block1: Block, block2: Block, event: StreamEvent, log: seq<Routing>, b: int,
                  start: Option<Content>, more: Option<Content>)
    requires Stands(block, log, b, start)
    requires block1 == Described(block, event) && SameItem(block1, block2)
    requires more == if block2.started && !block1.started then Some(ContentOf(block1)) else None
    requires block.kind == ToolKind ==>
               && (block2.started <==> block1.started || (Startable(block1) && AnyStirs(ActsOf(event))))
    requires block2.stopped ==> block2.started
    ensures Stands(block2, log + [Routing(b, event)], b, if more.Some? then more else start)
  {
    hide Text.Trim, ItemIdOf, LastName, LastCallId, FirstOwnId, LastItemId, AnyStirs, ActsOf, StartingId, ToolStart,
         Labelled;
    DescribedIs(block, event);
    if block.kind == ToolKind {
      var r := Routing(b, event);
      DescribedLabels(block, event, log, b);
      LabelIsContent(block1, log + [r], b);
      StartSnoc(log, r, b);
      SameLabel(block1, block2, log + [r], b);
    }
  }

  lemma SameLabel(x: Block, y: Block, log: seq<Routing>, b: int)
    requires SameItem(x, y) && Labelled(x, log, b)
    ensures Labelled(y, log, b)
  {
    hide LastName, LastCallId, FirstOwnId, LastItemId;
  }

  lemma DescribedIs(block: Block, event: StreamEvent)
    ensures var block1 := Described(block, event);
            block1.kind == block.kind && block1.started == block.started && block1.stopped == block.stopped
    ensures block.kind != ToolKind ==> ContentOf(Described(block, event)) == ContentOf(block)
  {
    hide Text.Trim, ItemIdOf;
  }

  /** An event on another block. */
  lemma OtherStands(block: Block, log: seq<Routing>, r: Routing, b: int, start: Option<Content>)
    requires Stands(block, log, b, start) && r.block != b
    ensures Stands(block, log + [r], b, start)
  {
    hide LastName, LastCallId, FirstOwnId, LastItemId, ToolStart, AnyStirs, ActsOf;
    LabelSnoc(log, r, b);
    StartSnoc(log, r, b);
  }

  /** What an obeyed event does to the list of blocks. */
  lemma ObeyBlocks(s: State, event: StreamEvent, kind: Kind, acts: seq<Act>, cite: Cite)
    requires Linked(s) && Obey(s, event, kind, acts, cite).Some? && acts == ActsOf(event)
    ensures var (s2, evs) := Obey(s, event, kind, acts, cite).value;
            var p := Route(s, event, kind);
            var block := if p < |s.blocks| then s.blocks[p] else NewBlock(kind);
            && p < |s2.blocks| == (if p < |s.blocks| then |s.blocks| else |s.blocks| + 1)
            && (forall b :: 0 <= b < |s.blocks| && b != p ==> s2.blocks[b] == s.blocks[b])
            && block.kind == kind && SameItem(Described(block, event), s2.blocks[p])
            && (forall b :: StartOf(evs, b) ==
                            if b == p && s2.blocks[p].started && !Described(block, event).started
                            then Some(ContentOf(Described(block, event))) else None)
            && s2.done == s.done
  {
    hide PerformAll, StartOf, HasTool, SameItem, Described, Route, Linked, ActsOf;
    ObeyIs(s, event, kind, acts, cite);
    EnsureNotDone(s, event, kind);
    EnsureBlocks(s, event, kind);
  }

  lemma EnsureBlocks(s: State, event: StreamEvent, kind: Kind)
    requires Linked(s) && EnsureBlock(s, event, kind).Some?
    ensures var (s1, p) := EnsureBlock(s, event, kind).value;
            var block := if p < |s.blocks| then s.blocks[p] else NewBlock(kind);
            && p == Route(s, event, kind)
            && |s1.blocks| == (if p < |s.blocks| then |s.blocks| else |s.blocks| + 1)
            && (forall b :: 0 <= b < |s.blocks| && b != p ==> s1.blocks[b] == s.blocks[b])
            && block.kind == kind && s1.blocks[p] == Described(block, event)
  {
    hide Described, Linked;
    NewIsOpen(kind);
  }

  lemma ObeyStarts(s: State, event: StreamEvent, kind: Kind, acts: seq<Act>, cite: Cite)
    requires Linked(s) && Obey(s, event, kind, acts, cite).Some?
    requires var p := Route(s, event, kind); p < |s.blocks| && s.blocks[p].stopped ==> s.blocks[p].started
    ensures var s2, p := Obey(s, event, kind, acts, cite).value.0, Route(s, event, kind);
            var block := Described(if p < |s.blocks| then s.blocks[p] else NewBlock(kind), event);
            && p < |s2.blocks|
            && (kind == ToolKind ==> (s2.blocks[p].started <==> block.started || (Startable(block) && AnyStirs(acts))))
            && (s2.blocks[p].stopped ==> s2.blocks[p].started)
  {
    hide PerformAll, Described, Route, Linked, AnyStirs, Startable, Kept;
    ObeyIs(s, event, kind, acts, cite);
    EnsureBlocks(s, event, kind);
    var (s1, p) := EnsureBlock(s, event, kind).value;
    DescribedIs(if p < |s.blocks| then s.blocks[p] else NewBlock(kind), event);
    NewIsOpen(kind);
    KeptItem(s1, PerformAll(s1, p, acts, cite).0, p, PerformAll(s1, p, acts, cite).1);
    if kind == ToolKind { PerformAllStarts(s1, p, acts, cite); }
  }

  lemma NewIsOpen(kind: Kind)
    ensures !NewBlock(kind).stopped && !NewBlock(kind).started && NewBlock(kind).kind == kind
  {
  }

  lemma ObeyStands(s: State, event: StreamEvent, kind: Kind, acts: seq<Act>, cite: Cite, trace: seq<Event>,
                   log: seq<Routing>, b: int)
    requires Linked(s) && Obey(s, event, kind, acts, cite).Some? && acts == ActsOf(event)
    requires forall c :: Standing(s, trace, log, c)
    ensures var (s2, evs) := Obey(s, event, kind, acts, cite).value;
            s2.done == s.done && Standing(s2, trace + evs, log + [Routing(Route(s, event, kind), event)], b)
  {
    hide Obey, Described, Route, Linked, AnyStirs, Startable, Stands, StartOf, SameItem, ActsOf;
    var (s2, evs) := Obey(s, event, kind, acts, cite).value;
    var p := Route(s, event, kind);
    var r := Routing(p, event);
    assert Standing(s, trace, log, p) && Standing(s, trace, log, b);
    ObeyBlocks(s, event, kind, acts, cite);
    StartConcat(trace, evs, b);
    if b == p {
      var block := if p < |s.blocks| then s.blocks[p] else NewBlock(kind);
      if p == |s.blocks| { NewStands(kind, log, b); }
      if p < |s.blocks| { StandsOpen(s.blocks[p], log, p, StartOf(trace, p)); }
      ObeyStarts(s, event, kind, acts, cite);
      OwnStands(block, Described(block, event), s2.blocks[p], event, log, b, StartOf(trace, b), StartOf(evs, b));
    } else if 0 <= b < |s.blocks| {
      OtherStands(s.blocks[b], log, r, b, StartOf(trace, b));
    } else {
      assert forall k :: 0 <= k < |log + [r]| ==> (log + [r])[k].block != b;
    }
  }

  lemma NewStands(kind: Kind, log: seq<Routing>, b: int)
    requires forall k :: 0 <= k < |log| ==> log[k].block != b
    ensures Stands(NewBlock(kind), log, b, None)
  {
    hide Labelled;
    NewLabelled(kind, log, b);
  }

  lemma StandsOpen(block: Block, log: seq<Routing>, b: int, start: Option<Content>)
    requires Stands(block, log, b, start)
    ensures block.stopped ==> block.started
  {
  }

  lemma EnsureNotDone(s: State, event: StreamEvent, kind: Kind)
    requires Linked(s) && EnsureBlock(s, event, kind).Some?
    ensures EnsureBlock(s, event, kind).value.0.done == s.done
    ensures EnsureBlock(s, event, kind).value.0.sawToolCall == s.sawToolCall
  {
  }

  lemma OutputActs(item: Item, position: nat)
    ensures ItemOrder(item, true).OnBlock? ==> ActsOf(OutputEvent(item, position)) == ItemOrder(item, true).acts
  {
    hide ItemOrder;
  }

  lemma {:induction false} OutputStands(s: State, output: seq<Item>, cite: Cite, trace: seq<Event>, log: seq<Routing>,
                                        b: int)
    requires Linked(s) && OutputItems(s, output, cite).Some? && !s.done && forall c :: Standing(s, trace, log, c)
    ensures var (s1, evs) := OutputItems(s, output, cite).value;
            !s1.done && Standing(s1, trace + evs, log + OutputRoutes(s, output, cite), b)
  {
    hide Obey, Standing, Route, Linked, ItemOrder, ActsOf;
    if output == [] {
      assert log + [] == log && trace + [] == trace;
    } else {
      var n := |output| - 1;
      var before, all := OutputRoutes(s, output[..n], cite), OutputRoutes(s, output, cite);
      var (s1, evs1) := OutputItems(s, output[..n], cite).value;
      var order, e := ItemOrder(output[n], true), OutputEvent(output[n], n);
      OutputStands(s, output[..n], cite, trace, log, b);
      if order.OnBlock? {
        var last := [Routing(Route(s1, e, order.kind), e)];
        assert log + all == (log + before) + last;
        forall c ensures Standing(s1, trace + evs1, log + before, c) {
          OutputStands(s, output[..n], cite, trace, log, c);
        }
        OutputActs(output[n], n);
        ObeyStands(s1, e, order.kind, order.acts, cite, trace + evs1, log + before, b);
        var evs2 := Obey(s1, e, order.kind, order.acts, cite).value.1;
        assert trace + (evs1 + evs2) == (trace + evs1) + evs2;
      } else {
        assert all == before;
      }
    }
  }

  /** Closing block p. */
  lemma CloseOneStands(block: Block, block': Block, log: seq<Routing>, b: int, start: Option<Content>,
                       more: Option<Content>)
    requires Stands(block, log, b, start) && SameItem(block, block')
    requires more == if block'.started && !block.started then Some(ContentOf(block)) else None
    requires block'.started <==> block.started || Startable(block)
    ensures (if more.Some? then more else start) == FinalStart(block.kind, log, b)
  {
    hide StartingId, LastName, ToolStart, Labelled;
    if block.kind == ToolKind { LabelIsContent(block, log, b); }
  }

  /** Whether a block was closed yet. */
  predicate ClosedUpTo(s: State, s1: State, trace: seq<Event>, log: seq<Routing>, count: nat, b: int) {
    if 0 <= b < |s.blocks| && b < |s1.blocks| then
      if b < count then
        s1.blocks[b].kind == s.blocks[b].kind && StartOf(trace, b) == FinalStart(s.blocks[b].kind, log, b)
      else s1.blocks[b] == s.blocks[b] && Stands(s1.blocks[b], log, b, StartOf(trace, b))
    else true
  }

  lemma {:induction false} CloseAllStands(s: State, count: nat, trace: seq<Event>, log: seq<Routing>, b: int)
    requires Linked(s) && count <= |s.blocks| && Standing(s, trace, log, b)
    ensures var (s1, evs) := CloseAll(s, count);
            ClosedUpTo(s, s1, trace + evs, log, count, b)
  {
    hide CloseAct, Linked, StartOf, Stands, SameItem, FinalStart, Startable;
    if count == 0 {
      assert trace + [] == trace;
    } else {
      CloseAllStands(s, count - 1, trace, log, b);
      var (s1, evs1) := CloseAll(s, count - 1);
      var (s2, evs2) := CloseAct(s1, count - 1);
      CloseKept(s1, count - 1);
      StartConcat(trace + evs1, evs2, b);
      assert trace + (evs1 + evs2) == (trace + evs1) + evs2;
      if b == count - 1 {
        StandsOpen(s1.blocks[b], log, b, StartOf(trace + evs1, b));
        if s1.blocks[b].stopped { StoppedStays(s1, b); }
        CloseOneStands(s1.blocks[b], s2.blocks[b], log, b, StartOf(trace + evs1, b), StartOf(evs2, b));
        SameKind(s1.blocks[b], s2.blocks[b]);
      }
    }
  }

  lemma SameKind(x: Block, y: Block)
    requires SameItem(x, y)
    ensures y.kind == x.kind
  {
  }

  lemma ConcludeStands(s: State, response: Option<Response>, trace: seq<Event>, log: seq<Routing>, b: int)
    requires Linked(s) && !s.done && Standing(s, trace, log, b)
    ensures var (s1, evs) := Conclude(s, response); s1.done && Stood(s1, trace + evs, log, b)
  {
    hide CloseAll, Linked, Stands, StopReason, FinalStart, StartOf;
    CloseAllStands(s, |s.blocks|, trace, log, b);
    var (s1, evs1) := CloseAll(s, |s.blocks|);
    var ends := MessageOpened(s1) + [MessageDelta(StopReason(response, s1.sawToolCall)), MessageStop];
    NothingStarts(ends, b);
    StartConcat(trace + evs1, ends, b);
    assert trace + Conclude(s, response).1 == (trace + evs1) + ends;
  }

  lemma StepStands(s: State, event: StreamEvent, cite: Cite, trace: seq<Event>, log: seq<Routing>, b: int)
    requires Linked(s) && Step(s, event, cite).Some? && forall c :: Accounted(s, trace, log, c)
    ensures var (s1, evs) := Step(s, event, cite).value;
            Accounted(s1, trace + evs, log + StepRoutes(s, event, cite), b)
  {
    hide Obey, Standing, Stood, Route, Linked, OrderOf, OutputItems, OutputRoutes, Conclude, FinishWith;
    var routes := StepRoutes(s, event, cite);
    assert routes == [] ==> log + routes == log;
    assert trace + [] == trace;
    assert Accounted(s, trace, log, b);
    if !s.done {
      forall c ensures Standing(s, trace, log, c) { assert Accounted(s, trace, log, c); }
      var order := OrderOf(event);
      if order.OnBlock? {
        ObeyStands(s, event, order.kind, order.acts, cite, trace, log, b);
      } else if order.Finish? {
        FinishStands(s, order.response, cite, trace, log, b);
      } else if order.Greet? {
        GreetStands(s, trace, log, b);
      }
    }
  }

  lemma GreetStands(s: State, trace: seq<Event>, log: seq<Routing>, b: int)
    requires Standing(s, trace, log, b)
    ensures Standing(s.(sentStart := true), trace + MessageOpened(s), log, b)
  {
    hide Stands;
    NothingStarts(MessageOpened(s), b);
    StartConcat(trace, MessageOpened(s), b);
  }

  lemma FinishStands(s: State, response: Option<Response>, cite: Cite, trace: seq<Event>, log: seq<Routing>, b: int)
    requires Linked(s) && FinishWith(s, response, cite).Some? && !s.done && forall c :: Standing(s, trace, log, c)
    ensures var (s1, evs) := FinishWith(s, response, cite).value;
            && s1.done
            && Stood(s1, trace + evs, log + (if response.Some? then OutputRoutes(s, response.value.output, cite)
                                             else []), b)
  {
    hide Standing, Stood, Linked, OutputItems, OutputRoutes, Conclude;
    var routes := if response.Some? then OutputRoutes(s, response.value.output, cite) else [];
    var (s1, evs1) := if response.Some? then OutputItems(s, response.value.output, cite).value else (s, []);
    if response.Some? {
      OutputStands(s, response.value.output, cite, trace, log, b);
    } else {
      assert log + routes == log && trace + evs1 == trace;
    }
    ConcludeStands(s1, response, trace + evs1, log + routes, b);
    assert trace + (evs1 + Conclude(s1, response).1) == (trace + evs1) + Conclude(s1, response).1;
  }

  lemma {:induction false} RunStands(events: seq<StreamEvent>, cite: Cite, b: int)
    requires Run(events, cite).Some?
    ensures Accounted(Run(events, cite).value.0, Run(events, cite).value.1, Routes(events, cite), b)
  {
    hide Step, StepRoutes, Accounted;
    if events == [] {
      NothingStands(b);
    } else {
      var n := |events| - 1;
      var (s, evs) := Run(events[..n], cite).value;
      forall c ensures Accounted(s, evs, Routes(events[..n], cite), c) {
        RunStands(events[..n], cite, c);
      }
      StepStands(s, events[n], cite, evs, Routes(events[..n], cite), b);
    }
  }

  lemma NothingStands(b: int)
    ensures Accounted(INITIAL, [], [], b)
  {
  }

  /** In the whole output every text and thinking block is started as such. A tool block is started
      at the first event that stirs it once an item has named it, or else at the end of the message,
      under that name and the last call id of its items, or without one an id of theirs; a tool block
      nobody named never is. */
  lemma BlocksStart(events: seq<StreamEvent>, cite: Cite, b: nat)
    requires Run(events, cite).Some? && b < |Run(events, cite).value.0.blocks|
    ensures StartOf(Output(events, cite), b)
            == FinalStart(Run(events, cite).value.0.blocks[b].kind, Routes(events, cite), b)
  {
    hide Run, Routes, Conclude, FinalStart, StartOf, Standing;
    RunStands(events, cite, b);
    var (s, evs) := Run(events, cite).value;
    if s.done {
      assert evs + [] == evs;
    } else {
      ConcludeStands(s, None, evs, Routes(events, cite), b);
      ConcludeKinds(s, None);
    }
  }

  // ---- items that agree ----------------------------------------------------------------------------

  /** What a tool block is asked to be: the id and the name its items carry. */
  datatype Tag = Tag(b: int, id: string, name: string)

  /** The call id of an item, or else its own id. */
  function IdOf(item: Item): string {
    if Text.Trim(item.callId) != "" then Text.Trim(item.callId) else Text.Trim(item.id)
  }

  /** Every item routed to the block carries its id and name. */
  predicate Introduced(log: seq<Routing>, tag: Tag) {
    && tag.id != "" && tag.name != ""
    && forall k :: 0 <= k < |log| && log[k].block == tag.b && log[k].event.item.Some? ==>
         IdOf(log[k].event.item.value) == tag.id && Text.Trim(log[k].event.item.value.name) == tag.name
  }

  /** An item was routed to the block. */
  predicate Announced(log: seq<Routing>, b: int) {
    exists k :: 0 <= k < |log| && log[k].block == b && log[k].event.item.Some?
  }

  lemma AnnouncedLast(log: seq<Routing>, b: int)
    requires log != []
    ensures var r := log[|log| - 1];
            Announced(log, b) <==> Announced(log[..|log| - 1], b) || (r.block == b && r.event.item.Some?)
  {
    var before := log[..|log| - 1];
    if k :| 0 <= k < |before| && before[k].block == b && before[k].event.item.Some? {
      assert log[k].block == b && log[k].event.item.Some?;
    }
    if k :| 0 <= k < |log| && log[k].block == b && log[k].event.item.Some? {
      if k < |before| { assert before[k].block == b && before[k].event.item.Some?; }
    }
  }

  /** Items that agree leave one id and one name. */
  lemma {:induction false} IntroducedSays(log: seq<Routing>, tag: Tag)
    requires Introduced(log, tag)
    ensures LastName(log, tag.b) == if Announced(log, tag.b) then tag.name else ""
    ensures Announced(log, tag.b) ==> StartingId(log, tag.b) == tag.id
    ensures LastCallId(log, tag.b) in {"", tag.id}
    ensures LastCallId(log, tag.b) == "" ==> FirstOwnId(log, tag.b) == if Announced(log, tag.b) then tag.id else ""
    ensures ToolStart(log, tag.b).Some? ==>
              Announced(log, tag.b) && ToolStart(log, tag.b) == Some(ToolBlock(tag.id, tag.name))
  {
    hide Text.Trim, AnyStirs, ActsOf, Announced, LastItemId;
    if log != [] {
      var before, r := log[..|log| - 1], log[|log| - 1];
      AnnouncedLast(log, tag.b);
      assert forall k :: 0 <= k < |before| ==> before[k] == log[k];
      IntroducedSays(before, tag);
    } else {
      NoneAnnounced(tag.b);
    }
  }

  lemma NoneAnnounced(b: int)
    ensures !Announced([], b)
  {
  }

  /** So every text and thinking block is started as such, and a tool block whose items carry one id
      and one name is started under them, if any item announced it, and never otherwise. */
  lemma BlocksStartAsAnnounced(events: seq<StreamEvent>, cite: Cite, tag: Tag)
    requires Run(events, cite).Some? && 0 <= tag.b < |Run(events, cite).value.0.blocks|
    requires Run(events, cite).value.0.blocks[tag.b].kind == ToolKind ==> Introduced(Routes(events, cite), tag)
    ensures StartOf(Output(events, cite), tag.b) ==
            match Run(events, cite).value.0.blocks[tag.b].kind
            case TextKind => Some(TextBlock)
            case ThinkingKind => Some(ThinkingBlock)
            case ToolKind => if Announced(Routes(events, cite), tag.b) then Some(ToolBlock(tag.id, tag.name)) else None
  {
    hide Run, Routes, Introduced, Announced, StartOf, LastName, StartingId, ToolStart, Output;
    BlocksStart(events, cite, tag.b);
    if Run(events, cite).value.0.blocks[tag.b].kind == ToolKind {
      IntroducedSays(Routes(events, cite), tag);
      TagNamed(Routes(events, cite), tag);
    }
  }

  lemma TagNamed(log: seq<Routing>, tag: Tag)
    requires Introduced(log, tag)
    ensures tag.id != "" && tag.name != ""
  {
  }

  lemma ConcludeKinds(s: State, response: Option<Response>)
    requires Linked(s)
    ensures var s1 := Conclude(s, response).0;
            |s1.blocks| == |s.blocks| && forall b :: 0 <= b < |s.blocks| ==> s1.blocks[b].kind == s.blocks[b].kind
  {
  }

  // ---- the stop reason ------------------------------------------------------------------------

  predicate IsTerminal(e: StreamEvent) { e.eventType.Completed? || e.eventType.Incomplete? }

  /** The response of the first terminal event, if there is one. */
  function TerminalResponse(events: seq<StreamEvent>): Option<Response> {
    if events == [] then None
    else if IsTerminal(events[0]) then events[0].response
    else TerminalResponse(events[1..])
  }

  predicate EndsWith(trace: seq<Event>, reason: string) {
    |trace| >= 2 && trace[|trace| - 2] == MessageDelta(reason) && trace[|trace| - 1] == MessageStop
  }

  lemma ObeySees(s: State, event: StreamEvent, kind: Kind, acts: seq<Act>, cite: Cite)
    requires Linked(s) && Obey(s, event, kind, acts, cite).Some?
    ensures var (s1, evs) := Obey(s, event, kind, acts, cite).value;
            s1.sawToolCall == (s.sawToolCall || HasTool(evs)) && s1.done == s.done
  {
    hide EnsureBlock, PerformAll, Obey, Linked;
    ObeyIs(s, event, kind, acts, cite);
    EnsureNotDone(s, event, kind);
  }

  lemma {:induction false} OutputSees(s: State, output: seq<Item>, cite: Cite)
    requires Linked(s) && OutputItems(s, output, cite).Some?
    ensures var (s1, evs) := OutputItems(s, output, cite).value;
            s1.sawToolCall == (s.sawToolCall || HasTool(evs)) && s1.done == s.done
  {
    hide Obey, Linked, ItemOrder;
    if output != [] {
      var n := |output| - 1;
      OutputSees(s, output[..n], cite);
      var (s1, evs1) := OutputItems(s, output[..n], cite).value;
      var order := ItemOrder(output[n], true);
      if order.OnBlock? {
        ObeySees(s1, OutputEvent(output[n], n), order.kind, order.acts, cite);
        HasToolConcat(evs1, Obey(s1, OutputEvent(output[n], n), order.kind, order.acts, cite).value.1);
      }
    }
  }

  lemma {:induction false} CloseAllSees(s: State, count: nat)
    requires Linked(s) && count <= |s.blocks|
    ensures var (s1, evs) := CloseAll(s, count); s1.sawToolCall == (s.sawToolCall || HasTool(evs))
  {
    hide CloseAct, Linked;
    if count > 0 {
      CloseAllSees(s, count - 1);
      var (s1, evs1) := CloseAll(s, count - 1);
      CloseKept(s1, count - 1);
      HasToolConcat(evs1, CloseAct(s1, count - 1).1);
    }
  }

  lemma ConcludeSees(s: State, response: Option<Response>, trace: seq<Event>)
    requires Linked(s) && s.sawToolCall == HasTool(trace)
    ensures var (s1, evs) := Conclude(s, response);
            && s1.sawToolCall == HasTool(trace + evs) && s1.done
            && EndsWith(trace + evs, StopReason(response, HasTool(trace + evs)))
  {
    hide CloseAll, Linked, StopReason;
    CloseAllSees(s, |s.blocks|);
    var (s1, evs1) := CloseAll(s, |s.blocks|);
    var ends := MessageOpened(s1) + [MessageDelta(StopReason(response, s1.sawToolCall)), MessageStop];
    NothingStarts(ends, 0);
    HasToolConcat(trace, evs1 + ends);
    HasToolConcat(evs1, ends);
    assert Conclude(s, response).1 == evs1 + ends;
  }

  /** Done streams have had their terminal event, and end as it says. */
  predicate Sees(s: State, trace: seq<Event>, events: seq<StreamEvent>) {
    && s.sawToolCall == HasTool(trace)
    && (s.done <==> exists k :: 0 <= k < |events| && IsTerminal(events[k]))
    && (s.done ==> EndsWith(trace, StopReason(TerminalResponse(events), HasTool(trace))))
  }

  lemma {:induction false} TerminalNext(events: seq<StreamEvent>, e: StreamEvent)
    ensures TerminalResponse(events + [e])
         == if exists k :: 0 <= k < |events| && IsTerminal(events[k]) then TerminalResponse(events)
            else if IsTerminal(e) then e.response else None
    ensures !(exists k :: 0 <= k < |events| && IsTerminal(events[k])) ==> TerminalResponse(events).None?
  {
    if events == [] {
      assert [e][1..] == [];
    } else {
      assert (events + [e])[1..] == events[1..] + [e];
      TerminalNext(events[1..], e);
      assert forall k :: 0 <= k < |events[1..]| ==> events[1..][k] == events[k + 1];
      assert (exists k :: 0 <= k < |events| && IsTerminal(events[k]))
         <==> IsTerminal(events[0]) || exists k :: 0 <= k < |events[1..]| && IsTerminal(events[1..][k]) by {
        if k :| 0 <= k < |events| && IsTerminal(events[k]) {
          if k > 0 { assert IsTerminal(events[1..][k - 1]); }
        }
      }
    }
  }

  lemma StepSees(s: State, event: StreamEvent, cite: Cite, trace: seq<Event>, events: seq<StreamEvent>)
    requires Linked(s) && Step(s, event, cite).Some? && Sees(s, trace, events)
    ensures var (s1, evs) := Step(s, event, cite).value; Sees(s1, trace + evs, events + [event])
  {
    hide Obey, Linked, OutputItems, Conclude, StopReason, EndsWith, HasTool, ItemOrder;
    TerminalNext(events, event);
    TerminalAmong(events, event);
    var evs := Step(s, event, cite).value.1;
    HasToolConcat(trace, evs);
    if s.done {
      assert trace + evs == trace;
    } else {
      var order := OrderOf(event);
      assert order.Finish? <==> IsTerminal(event);
      if order.OnBlock? {
        ObeySees(s, event, order.kind, order.acts, cite);
      } else if order.Finish? {
        FinishSees(s, order.response, cite, trace);
      } else {
        NothingStarts(evs, 0);
      }
    }
  }

  lemma TerminalAmong(events: seq<StreamEvent>, e: StreamEvent)
    ensures (exists k :: 0 <= k < |events + [e]| && IsTerminal((events + [e])[k]))
       <==> (exists k :: 0 <= k < |events| && IsTerminal(events[k])) || IsTerminal(e)
  {
    var more := events + [e];
    assert more[|events|] == e && forall k :: 0 <= k < |events| ==> more[k] == events[k];
    if k :| 0 <= k < |events| && IsTerminal(events[k]) {
      assert IsTerminal(more[k]);
    }
  }

  lemma FinishSees(s: State, response: Option<Response>, cite: Cite, trace: seq<Event>)
    requires Linked(s) && FinishWith(s, response, cite).Some? && s.sawToolCall == HasTool(trace)
    ensures var (s1, evs) := FinishWith(s, response, cite).value;
            && s1.sawToolCall == HasTool(trace + evs) && s1.done
            && EndsWith(trace + evs, StopReason(response, HasTool(trace + evs)))
  {
    hide Linked, OutputItems, Conclude, StopReason, HasTool, EndsWith, Extends;
    if response.Some? {
      OutputSees(s, response.value.output, cite);
      var (s1, evs1) := OutputItems(s, response.value.output, cite).value;
      HasToolConcat(trace, evs1);
      ConcludeSees(s1, response, trace + evs1);
      assert trace + (evs1 + Conclude(s1, response).1) == (trace + evs1) + Conclude(s1, response).1;
    } else {
      ConcludeSees(s, response, trace);
      assert [] + Conclude(s, response).1 == Conclude(s, response).1;
    }
  }

  lemma {:induction false} RunSees(events: seq<StreamEvent>, cite: Cite)
    requires Run(events, cite).Some?
    ensures Sees(Run(events, cite).value.0, Run(events, cite).value.1, events)
  {
    hide Step, Sees;
    if events == [] {
      NothingSeen();
    } else {
      var n := |events| - 1;
      RunSees(events[..n], cite);
      var (s, evs) := Run(events[..n], cite).value;
      StepSees(s, events[n], cite, evs, events[..n]);
      assert events == events[..n] + [events[n]];
    }
  }

  lemma NothingSeen()
    ensures Sees(INITIAL, [], [])
  {
  }

  /** Every output ends with the stop reason of its first terminal response: refusal or max_tokens
      if that was incomplete, else tool_use exactly if a tool block was started. */
  lemma OutputStopReason(events: seq<StreamEvent>, cite: Cite)
    requires Run(events, cite).Some?
    ensures var trace := Output(events, cite);
            EndsWith(trace, StopReason(TerminalResponse(events), HasTool(trace)))
  {
    hide Run, Conclude, StopReason, EndsWith, HasTool;
    RunSees(events, cite);
    var (s, evs) := Run(events, cite).value;
    if s.done {
      assert evs + [] == evs;
    } else {
      ConcludeSees(s, None, evs);
      NotTerminal(events);
    }
  }

  lemma {:induction false} NotTerminal(events: seq<StreamEvent>)
    requires !exists k :: 0 <= k < |events| && IsTerminal(events[k])
    ensures TerminalResponse(events).None?
  {
    if events != [] {
      assert forall k :: 0 <= k < |events[1..]| ==> events[1..][k] == events[k + 1];
      NotTerminal(events[1..]);
    }
  }
}
