/** Responses to Claude: which events share a block, how each block is started, and how the
    message ends. */
module ResponsesToClaudeRouting {
  import opened Basics
  import opened ClaudeTrace
  import opened ResponsesDto
  import opened ResponsesToClaude

  // ---- what acts may change ---------------------------------------------------------------

  predicate StartsTool(e: Event) { e.BlockStart? && e.content.ToolBlock? }

  predicate HasTool(trace: seq<Event>) {
    trace != [] && (StartsTool(trace[|trace| - 1]) || HasTool(trace[..|trace| - 1]))
  }

  lemma {:induction false} HasToolConcat(a: seq<Event>, b: seq<Event>)
    ensures HasTool(a + b) <==> HasTool(a) || HasTool(b)
  {
    if b == [] {
      assert a + b == a;
    } else {
      assert (a + b)[..|a + b| - 1] == a + b[..|b| - 1];
      HasToolConcat(a, b[..|b| - 1]);
    }
  }

  lemma {:induction false} StartConcat(a: seq<Event>, b: seq<Event>, i: int)
    ensures StartOf(a + b, i) == if StartOf(b, i).Some? then StartOf(b, i) else StartOf(a, i)
  {
    if b == [] {
      assert a + b == a;
    } else {
      assert (a + b)[..|a + b| - 1] == a + b[..|b| - 1];
      StartConcat(a, b[..|b| - 1], i);
    }
  }

  predicate NoStarts(evs: seq<Event>) { forall k :: 0 <= k < |evs| ==> !evs[k].BlockStart? }

  lemma {:induction false} NothingStarts(evs: seq<Event>, i: int)
    requires NoStarts(evs)
    ensures !HasTool(evs) && StartOf(evs, i).None?
  {
    if evs != [] { NothingStarts(evs[..|evs| - 1], i); }
  }

  /** The same item; it may have been started, if it could be, and stopped once started. */
  predicate SameItem(x: Block, y: Block) {
    && y.kind == x.kind && y.itemId == x.itemId && y.callId == x.callId && y.name == x.name
    && (x.started ==> y.started) && (y.started ==> x.started || Startable(x))
    && (y.stopped ==> x.stopped || y.started)
  }

  /** Acting on block p changes nothing else, and shows its start when it starts it. */
  ghost predicate Kept(s: State, s': State, p: nat, evs: seq<Event>) {
    && p < |s.blocks| == |s'.blocks|
    && s'.blocks == s.blocks[p := s'.blocks[p]] && SameItem(s.blocks[p], s'.blocks[p])
    && s'.byOutputIndex == s.byOutputIndex && s'.byItemId == s.byItemId && s'.lastByKind == s.lastByKind
    && s'.done == s.done
    && s'.sawToolCall == (s.sawToolCall || HasTool(evs))
    && forall b :: StartOf(evs, b) == if b == p && s'.blocks[p].started && !s.blocks[p].started
                                      then Some(ContentOf(s.blocks[p])) else None
  }

  lemma KeptQuietly(s: State, s': State, p: nat, evs: seq<Event>)
    requires p < |s.blocks| && NoStarts(evs)
    requires s' == s.(sentStart := s'.sentStart, blocks := s'.blocks)
    requires |s'.blocks| == |s.blocks| && s'.blocks == s.blocks[p := s'.blocks[p]]
    requires SameItem(s.blocks[p], s'.blocks[p]) && s'.blocks[p].started == s.blocks[p].started
    ensures Kept(s, s', p, evs)
  {
    NothingStarts(evs, 0);
    forall b ensures StartOf(evs, b).None? { NothingStarts(evs, b); }
  }

  lemma KeptThen(s: State, s1: State, s2: State, p: nat, evs1: seq<Event>, evs2: seq<Event>)
    requires Kept(s, s1, p, evs1) && Kept(s1, s2, p, evs2)
    ensures Kept(s, s2, p, evs1 + evs2)
  {
    HasToolConcat(evs1, evs2);
    forall b ensures StartOf(evs1 + evs2, b) == if StartOf(evs2, b).Some? then StartOf(evs2, b) else StartOf(evs1, b) {
      StartConcat(evs1, evs2, b);
    }
    assert s2.blocks == s.blocks[p := s2.blocks[p]];
  }

  lemma OneStart(before: seq<Event>, p: int, content: Content)
    requires NoStarts(before)
    ensures var evs := before + [BlockStart(p, content)];
            && (HasTool(evs) <==> content.ToolBlock?)
            && forall b :: StartOf(evs, b) == if b == p then Some(content) else None
  {
    hide NoStarts;
    var evs := before + [BlockStart(p, content)];
    assert evs[..|evs| - 1] == before;
    NothingStarts(before, 0);
    forall b ensures StartOf(evs, b) == if b == p then Some(content) else None {
      NothingStarts(before, b);
    }
  }

  lemma StartKept(s: State, p: nat)
    requires Linked(s) && p < |s.blocks|
    ensures Kept(s, StartBlock(s, p).0, p, StartBlock(s, p).1)
  {
    hide StartOf, HasTool, Linked;
    var (s', evs) := StartBlock(s, p);
    if evs == [] {
      KeptQuietly(s, s, p, []);
    } else {
      OneStart(MessageOpened(s), p, ContentOf(s.blocks[p]));
      assert s'.blocks == s.blocks[p := s'.blocks[p]];
    }
  }

  lemma FlushKept(s: State, p: nat)
    requires Linked(s) && p < |s.blocks|
    ensures Kept(s, Flush(s, p).0, p, Flush(s, p).1)
  {
    hide StartBlock, Kept;
    if s.blocks[p].stopped {
      KeptQuietly(s, s, p, []);
    } else {
      StartKept(s, p);
      var (s1, evs1) := StartBlock(s, p);
      var (s2, evs) := Flush(s, p);
      var block := s1.blocks[p];
      if block.started && block.sent < |block.value| {
        var delta := [BlockDelta(p, DeltaOf(block.kind, block.value[block.sent..]))];
        KeptQuietly(s1, s2, p, delta);
        KeptThen(s, s1, s2, p, evs1, delta);
      }
    }
  }

  lemma RevalueKept(s: State, p: nat, value: string)
    requires Linked(s) && p < |s.blocks| && s.blocks[p].value <= value
    ensures Kept(s, Revalue(s, p, value).0, p, Revalue(s, p, value).1)
  {
    hide Flush, Kept;
    var s1 := s.(blocks := s.blocks[p := s.blocks[p].(value := value)]);
    KeptQuietly(s, s1, p, []);
    FlushKept(s1, p);
    KeptThen(s, s1, Flush(s1, p).0, p, [], Flush(s1, p).1);
    assert [] + Flush(s1, p).1 == Flush(s1, p).1;
  }

  lemma AppendKept(s: State, p: nat, text: string)
    requires Linked(s) && p < |s.blocks|
    ensures Kept(s, AppendAct(s, p, text).0, p, AppendAct(s, p, text).1)
  {
    hide Revalue, Kept, Separated;
    var block := s.blocks[p];
    KeptQuietly(s, s, p, []);
    var s1 := s.(blocks := s.blocks[p := block.(needsBreak := false)]);
    KeptQuietly(s, s1, p, []);
    if text != "" && !block.stopped {
      if block.kind == ThinkingKind && block.needsBreak {
        RevalueKept(s1, p, block.value + Separated(text));
        var (s2, evs) := Revalue(s1, p, block.value + Separated(text));
        KeptThen(s, s1, s2, p, [], evs);
        assert [] + evs == evs;
      } else {
        RevalueKept(s, p, block.value + text);
      }
    }
  }

  lemma {:induction false} CitationsDoNotStart(index: int, citations: seq<Citation>)
    ensures NoStarts(CitationDeltas(index, citations))
  {
    if citations != [] { CitationsDoNotStart(index, citations[..|citations| - 1]); }
  }

  lemma Counted(s: State, p: nat, count: nat)
    requires Linked(s) && p < |s.blocks|
    ensures var s1 := s.(blocks := s.blocks[p := s.blocks[p].(annotationCount := count)]);
            Linked(s1) && Kept(s, s1, p, [])
  {
    hide Kept;
    KeptQuietly(s, s.(blocks := s.blocks[p := s.blocks[p].(annotationCount := count)]), p, []);
  }

  lemma CiteKept(s: State, p: nat, annotations: seq<Annotation>, snapshot: bool, cite: Cite)
    requires Linked(s) && p < |s.blocks|
    ensures Kept(s, CiteAct(s, p, annotations, snapshot, cite).0, p, CiteAct(s, p, annotations, snapshot, cite).1)
  {
    hide StartBlock, Kept, CitationDeltas, Linked, SameItem;
    var block := s.blocks[p];
    if block.kind != TextKind || block.stopped || annotations == []
      || (snapshot && |annotations| <= block.annotationCount) {
      Unacted(s, p);
    } else {
      var remaining := if snapshot then annotations[block.annotationCount..] else annotations;
      var count := if snapshot then |annotations| else block.annotationCount + |annotations|;
      var s1 := s.(blocks := s.blocks[p := block.(annotationCount := count)]);
      Counted(s, p, count);
      var citations := cite(remaining, block.value);
      if citations != [] {
        CitationsKept(s1, p, citations);
        var (s2, evs) := StartBlock(s1, p);
        KeptThen(s, s1, s2, p, [], evs + CitationDeltas(p, citations));
        assert [] + (evs + CitationDeltas(p, citations)) == evs + CitationDeltas(p, citations);
      }
    }
  }

  lemma Unacted(s: State, p: nat)
    requires p < |s.blocks|
    ensures Kept(s, s, p, [])
  {
    KeptQuietly(s, s, p, []);
  }

  lemma CitationsKept(s: State, p: nat, citations: seq<Citation>)
    requires Linked(s) && p < |s.blocks|
    ensures Kept(s, StartBlock(s, p).0, p, StartBlock(s, p).1 + CitationDeltas(p, citations))
  {
    hide StartBlock, Kept, CitationDeltas, Linked;
    StartKept(s, p);
    CitationsDoNotStart(p, citations);
    var (s2, evs) := StartBlock(s, p);
    KeptQuietly(s2, s2, p, CitationDeltas(p, citations));
    KeptThen(s, s2, s2, p, evs, CitationDeltas(p, citations));
  }

  lemma CloseKept(s: State, p: nat)
    requires Linked(s) && p < |s.blocks|
    ensures Kept(s, CloseAct(s, p).0, p, CloseAct(s, p).1)
    ensures !s.blocks[p].stopped ==> (CloseAct(s, p).0.blocks[p].started
                                      <==> s.blocks[p].started || Startable(s.blocks[p]))
  {
    hide StartBlock, Flush, Kept, Extends, Linked, NoStarts, SameItem, StartOf, Startable, StartsTool;
    KeptQuietly(s, s, p, []);
    if !s.blocks[p].stopped {
      FlushKept(s, p);
      var (s1, evs1) := Flush(s, p);
      StartKept(s1, p);
      var (s2, evs2) := StartBlock(s1, p);
      KeptThen(s, s1, s2, p, evs1, evs2);
      CloseStarts(s, p);
      if s2.blocks[p].started {
        var s3 := CloseAct(s, p).0;
        var ends := (if s2.blocks[p].kind == ThinkingKind then [BlockDelta(p, SignatureDelta)] else [])
          + [BlockStop(p)];
        KeptQuietly(s2, s3, p, ends);
        KeptThen(s, s2, s3, p, evs1 + evs2, ends);
        assert CloseAct(s, p).1 == evs1 + evs2 + ends;
      }
    }
  }

  lemma CloseStarts(s: State, p: nat)
    requires Linked(s) && p < |s.blocks| && !s.blocks[p].stopped
    ensures CloseAct(s, p).0.blocks[p].started <==> s.blocks[p].started || Startable(s.blocks[p])
  {
  }

  lemma PerformKept(s: State, p: nat, act: Act, cite: Cite)
    requires Linked(s) && p < |s.blocks|
    ensures Kept(s, Perform(s, p, act, cite).0, p, Perform(s, p, act, cite).1)
  {
    hide Kept, AppendAct, Revalue, CiteAct, CloseAct, Merged;
    match act
    case Append(text) => AppendKept(s, p, text);
    case Merge(text) =>
      KeptQuietly(s, s, p, []);
      if !s.blocks[p].stopped { RevalueKept(s, p, Merged(s.blocks[p].value, text)); }
    case Break => KeptQuietly(s, BreakAct(s, p), p, []);
    case Cited(annotations, snapshot) => CiteKept(s, p, annotations, snapshot, cite);
    case Close => CloseKept(s, p);
  }

  lemma {:induction false} PerformAllKept(s: State, p: nat, acts: seq<Act>, cite: Cite)
    requires Linked(s) && p < |s.blocks|
    ensures Kept(s, PerformAll(s, p, acts, cite).0, p, PerformAll(s, p, acts, cite).1)
  {
    hide Kept, Perform;
    if acts == [] {
      KeptQuietly(s, s, p, []);
    } else {
      var n := |acts| - 1;
      PerformAllKept(s, p, acts[..n], cite);
      var (s1, evs1) := PerformAll(s, p, acts[..n], cite);
      PerformKept(s1, p, acts[n], cite);
      var (s2, evs2) := Perform(s1, p, acts[n], cite);
      KeptThen(s, s1, s2, p, evs1, evs2);
    }
  }

  // ---- routed events ----------------------------------------------------------------------

  /** An event, or an output item of the terminal event, and the block it went to. */
  datatype Routing = Routing(block: int, event: StreamEvent)

  function OutputRoutes(s: State, output: seq<Item>, cite: Cite): seq<Routing>
    requires Linked(s) && OutputItems(s, output, cite).Some?
  {
    if output == [] then [] else
      var n := |output| - 1;
      var order, e := ItemOrder(output[n], true), OutputEvent(output[n], n);
      OutputRoutes(s, output[..n], cite) +
      if order.OnBlock? then [Routing(Route(OutputItems(s, output[..n], cite).value.0, e, order.kind), e)] else []
  }

  function StepRoutes(s: State, event: StreamEvent, cite: Cite): seq<Routing>
    requires Linked(s) && Step(s, event, cite).Some?
  {
    if s.done then [] else
      var order := OrderOf(event);
      if order.OnBlock? then [Routing(Route(s, event, order.kind), event)]
      else if order.Finish? && order.response.Some? then OutputRoutes(s, order.response.value.output, cite)
      else []
  }

  /** Every routed event of a stream, in order. */
  function Routes(events: seq<StreamEvent>, cite: Cite): seq<Routing>
    requires Run(events, cite).Some?
  {
    if events == [] then [] else
      var n := |events| - 1;
      Routes(events[..n], cite) + StepRoutes(Run(events[..n], cite).value.0, events[n], cite)
  }

  /** What holds of the run so far: a step routes one event, keeps what acting keeps, or does not
      touch the blocks. */
  lemma ObeyIs(s: State, event: StreamEvent, kind: Kind, acts: seq<Act>, cite: Cite)
    requires Linked(s) && Obey(s, event, kind, acts, cite).Some?
    ensures EnsureBlock(s, event, kind).Some?
    ensures var (s1, p) := EnsureBlock(s, event, kind).value;
            p == Route(s, event, kind)
            && Obey(s, event, kind, acts, cite) == Some(PerformAll(s1, p, acts, cite))
            && Kept(s1, PerformAll(s1, p, acts, cite).0, p, PerformAll(s1, p, acts, cite).1)
  {
    hide PerformAll, Kept;
    var (s1, p) := EnsureBlock(s, event, kind).value;
    PerformAllKept(s1, p, acts, cite);
  }

  // ---- which events share a block -----------------------------------------------------------

  datatype Name = AtIndex(index: int) | ById(id: string)

  /** The names an event carries: its output index and its item id. */
  function NamesOf(e: StreamEvent): set<Name> {
    (if e.outputIndex.Some? then {AtIndex(e.outputIndex.value)} else {})
    + if ItemIdOf(e) != "" then {ById(ItemIdOf(e))} else {}
  }

  predicate Named(e: StreamEvent) { e.outputIndex.Some? || ItemIdOf(e) != "" }

  /** The item a name stands for: item ids may belong to an output index. */
  function Stands(own: map<string, int>, name: Name): Name {
    if name.ById? && name.id in own then AtIndex(own[name.id]) else name
  }

  /** The item a named event is about. */
  function ItemOf(own: map<string, int>, e: StreamEvent): Name {
    if e.outputIndex.Some? then AtIndex(e.outputIndex.value) else Stands(own, ById(ItemIdOf(e)))
  }

  /** All names of an event stand for one item. */
  predicate Consistent(own: map<string, int>, e: StreamEvent) {
    forall name :: name in NamesOf(e) ==> Stands(own, name) == ItemOf(own, e)
  }

  predicate AllConsistent(own: map<string, int>, log: seq<Routing>) {
    forall k :: 0 <= k < |log| ==> Consistent(own, log[k].event)
  }

  /** The names events have carried. */
  function NamesIn(log: seq<Routing>): set<Name> {
    if log == [] then {} else NamesIn(log[..|log| - 1]) + NamesOf(log[|log| - 1].event)
  }

  predicate Met(own: map<string, int>, log: seq<Routing>, item: Name) {
    exists k :: 0 <= k < |log| && Named(log[k].event) && ItemOf(own, log[k].event) == item
  }

  /** A named event about an item that was met carries a name that was met. */
  predicate Tracks(own: map<string, int>, before: seq<Routing>, e: StreamEvent) {
    Named(e) && Met(own, before, ItemOf(own, e)) ==> exists name :: name in NamesOf(e) && name in NamesIn(before)
  }

  predicate AllTracked(own: map<string, int>, log: seq<Routing>) {
    forall k :: 0 <= k < |log| ==> Tracks(own, log[..k], log[k].event)
  }

  /** Two named events share a block exactly if they are about the same item. */
  predicate SharesByItem(own: map<string, int>, log: seq<Routing>) {
    forall i, j :: 0 <= i < j < |log| && Named(log[i].event) && Named(log[j].event) ==>
      (log[i].block == log[j].block <==> ItemOf(own, log[i].event) == ItemOf(own, log[j].event))
  }

  function KindOf(e: StreamEvent): Kind { if OrderOf(e).OnBlock? then OrderOf(e).kind else TextKind }

  /** The block of the last event of a kind. */
  function LastOfKind(log: seq<Routing>, kind: Kind): Option<int> {
    if log == [] then None
    else if KindOf(log[|log| - 1].event) == kind then Some(log[|log| - 1].block)
    else LastOfKind(log[..|log| - 1], kind)
  }

  /** An event without a name goes on with the last event of its kind, or begins a new block. */
  predicate GoesOn(before: seq<Routing>, r: Routing) {
    !Named(r.event) ==>
      || LastOfKind(before, KindOf(r.event)) == Some(r.block)
      || forall k :: 0 <= k < |before| ==> before[k].block < r.block
  }

  predicate AllGoOn(log: seq<Routing>) { forall k :: 0 <= k < |log| ==> GoesOn(log[..k], log[k]) }

  // ---- the maps of the converter --------------------------------------------------------------

  ghost predicate MapsOwn(own: map<string, int>, s: State, owners: seq<Option<Name>>) {
    && (forall i :: i in s.byOutputIndex ==>
            s.byOutputIndex[i] < |owners| && owners[s.byOutputIndex[i]] == Some(AtIndex(i)))
    && (forall x :: x in s.byItemId ==>
            x != "" && s.byItemId[x] < |owners| && owners[s.byItemId[x]] == Some(Stands(own, ById(x))))
  }

  ghost predicate LogOwns(own: map<string, int>, log: seq<Routing>, owners: seq<Option<Name>>) {
    && (forall k :: 0 <= k < |log| ==>
            && 0 <= log[k].block < |owners|
            && (Named(log[k].event) ==> owners[log[k].block] == Some(ItemOf(own, log[k].event))))
    && (forall p :: 0 <= p < |owners| && owners[p].Some? ==> Met(own, log, owners[p].value))
  }

  /** Every name leads to the block of its item; a block of events without names has no item. */
  ghost predicate Owning(own: map<string, int>, s: State, log: seq<Routing>, owners: seq<Option<Name>>) {
    |owners| == |s.blocks| && MapsOwn(own, s, owners) && LogOwns(own, log, owners)
  }

  ghost predicate KnowsNames(s: State, log: seq<Routing>) {
    && (forall i :: AtIndex(i) in NamesIn(log) <==> i in s.byOutputIndex)
    && (forall x :: ById(x) in NamesIn(log) <==> x in s.byItemId)
  }

  ghost predicate KnowsKinds(s: State, log: seq<Routing>) {
    forall kind :: LastOfKind(log, kind) == if kind in s.lastByKind then Some(s.lastByKind[kind]) else None
  }

  ghost predicate Knowing(s: State, log: seq<Routing>) { KnowsNames(s, log) && KnowsKinds(s, log) }

  predicate OneEach(owners: seq<Option<Name>>) {
    forall p, q :: 0 <= p < q < |owners| && owners[p].Some? ==> owners[p] != owners[q]
  }

  /** Items have one block each exactly as long as events track them. */
  ghost predicate Decided(own: map<string, int>, log: seq<Routing>, owners: seq<Option<Name>>) {
    && (AllTracked(own, log) ==> OneEach(owners)) && (!AllTracked(own, log) ==> !SharesByItem(own, log))
    && AllGoOn(log)
  }

  ghost predicate Routed(own: map<string, int>, s: State, log: seq<Routing>, owners: seq<Option<Name>>) {
    Owning(own, s, log, owners) && Knowing(s, log) && Decided(own, log, owners)
  }

  lemma MetSnoc(own: map<string, int>, log: seq<Routing>, r: Routing, item: Name)
    ensures Met(own, log + [r], item) <==> Met(own, log, item) || (Named(r.event) && ItemOf(own, r.event) == item)
  {
    hide Named, ItemOf;
    var more := log + [r];
    if k :| 0 <= k < |log| && Named(log[k].event) && ItemOf(own, log[k].event) == item {
      assert Named(more[k].event) && ItemOf(own, more[k].event) == item;
    }
    if Named(r.event) && ItemOf(own, r.event) == item {
      assert Named(more[|log|].event) && ItemOf(own, more[|log|].event) == item;
    }
    if k :| 0 <= k < |more| && Named(more[k].event) && ItemOf(own, more[k].event) == item {
      if k < |log| { assert Named(log[k].event) && ItemOf(own, log[k].event) == item; }
    }
  }

  lemma TrackedSnoc(own: map<string, int>, log: seq<Routing>, r: Routing)
    ensures AllTracked(own, log + [r]) <==> AllTracked(own, log) && Tracks(own, log, r.event)
    ensures AllGoOn(log + [r]) <==> AllGoOn(log) && GoesOn(log, r)
  {
    hide Tracks, GoesOn;
    var more := log + [r];
    assert more[..|log|] == log && more[|log|] == r;
    forall k | 0 <= k < |log| ensures more[..k] == log[..k] && more[k] == log[k] {}
    if AllTracked(own, more) {
      forall k | 0 <= k < |log| ensures Tracks(own, log[..k], log[k].event) {
        assert Tracks(own, more[..k], more[k].event);
      }
      assert Tracks(own, more[..|log|], more[|log|].event);
    }
    if AllGoOn(more) {
      forall k | 0 <= k < |log| ensures GoesOn(log[..k], log[k]) { assert GoesOn(more[..k], more[k]); }
      assert GoesOn(more[..|log|], more[|log|]);
    }
  }

  /** Where an event is routed to. */
  lemma RouteIs(own: map<string, int>, s: State, log: seq<Routing>, owners: seq<Option<Name>>, e: StreamEvent,
                kind: Kind)
    requires Linked(s) && Owning(own, s, log, owners) && Knowing(s, log) && Consistent(own, e)
    ensures var p := Route(s, e, kind);
            && (Named(e) && p < |owners| ==> owners[p] == Some(ItemOf(own, e)))
            && (Named(e) ==> (p < |owners| <==> exists name :: name in NamesOf(e) && name in NamesIn(log)))
            && (!Named(e) && p < |owners| ==> LastOfKind(log, kind) == Some(p))
  {
    hide ItemIdOf, NamesIn, LastOfKind, Met;
    var id := ItemIdOf(e);
    var index: int := e.outputIndex.GetOr(0);
    assert e.outputIndex.Some? ==> AtIndex(index) in NamesOf(e);
    assert id != "" ==> ById(id) in NamesOf(e);
  }

  function OwnersAfter(own: map<string, int>, owners: seq<Option<Name>>, p: nat, e: StreamEvent): seq<Option<Name>> {
    if p < |owners| then owners else owners + [if Named(e) then Some(ItemOf(own, e)) else None]
  }

  /** What finding or making the block of an event does to the maps. */
  predicate Ensured(s: State, e: StreamEvent, kind: Kind, p: nat, s1: State) {
    && s1.byOutputIndex == (if e.outputIndex.Some? then s.byOutputIndex[e.outputIndex.value := p] else s.byOutputIndex)
    && s1.byItemId == (if ItemIdOf(e) != "" then s.byItemId[ItemIdOf(e) := p] else s.byItemId)
    && s1.lastByKind == s.lastByKind[kind := p]
    && p <= |s.blocks| && |s1.blocks| == if p < |s.blocks| then |s.blocks| else |s.blocks| + 1
  }

  lemma EnsureIs(s: State, e: StreamEvent, kind: Kind)
    requires Linked(s) && EnsureBlock(s, e, kind).Some?
    ensures Ensured(s, e, kind, Route(s, e, kind), EnsureBlock(s, e, kind).value.0)
  {
    hide Linked, Route, Described, ItemIdOf, NewBlock;
  }

  lemma MapsOwnAfter(own: map<string, int>, s: State, owners: seq<Option<Name>>, e: StreamEvent, kind: Kind, p: nat,
                     s1: State)
    requires MapsOwn(own, s, owners) && Ensured(s, e, kind, p, s1) && Consistent(own, e) && |owners| == |s.blocks|
    requires Named(e) && p < |owners| ==> owners[p] == Some(ItemOf(own, e))
    ensures MapsOwn(own, s1, OwnersAfter(own, owners, p, e))
  {
    hide ItemIdOf, ItemOf, Stands, Consistent;
    NamesStand(own, e);
    var owners' := OwnersAfter(own, owners, p, e);
    assert forall q :: 0 <= q < |owners| ==> owners'[q] == owners[q];
    assert Named(e) ==> owners'[p] == Some(ItemOf(own, e));
  }

  lemma LogOwnsAfter(own: map<string, int>, log: seq<Routing>, owners: seq<Option<Name>>, e: StreamEvent, p: nat)
    requires LogOwns(own, log, owners) && p <= |owners|
    requires Named(e) && p < |owners| ==> owners[p] == Some(ItemOf(own, e))
    ensures LogOwns(own, log + [Routing(p, e)], OwnersAfter(own, owners, p, e))
  {
    hide Met, ItemOf, Named;
    var owners' := OwnersAfter(own, owners, p, e);
    assert forall q :: 0 <= q < |owners| ==> owners'[q] == owners[q];
    forall item ensures Met(own, log + [Routing(p, e)], item)
                        <==> Met(own, log, item) || (Named(e) && ItemOf(own, e) == item)
    {
      MetSnoc(own, log, Routing(p, e), item);
    }
  }

  lemma EnsuredOwns(own: map<string, int>, s: State, log: seq<Routing>, owners: seq<Option<Name>>, e: StreamEvent,
                    kind: Kind)
    requires Linked(s) && EnsureBlock(s, e, kind).Some? && Consistent(own, e)
    requires Owning(own, s, log, owners) && Knowing(s, log)
    ensures var p := Route(s, e, kind);
            Owning(own, EnsureBlock(s, e, kind).value.0, log + [Routing(p, e)], OwnersAfter(own, owners, p, e))
  {
    hide Linked, Route, EnsureBlock, ItemOf, Named, Consistent, MapsOwn, LogOwns, Knowing, NamesIn, LastOfKind, Ensured,
         NamesOf;
    var p := Route(s, e, kind);
    RouteIs(own, s, log, owners, e, kind);
    EnsureIs(s, e, kind);
    EnsuredLength(s, e, kind, p, EnsureBlock(s, e, kind).value.0);
    MapsOwnAfter(own, s, owners, e, kind, p, EnsureBlock(s, e, kind).value.0);
    LogOwnsAfter(own, log, owners, e, p);
  }

  lemma EnsuredLength(s: State, e: StreamEvent, kind: Kind, p: nat, s1: State)
    requires Ensured(s, e, kind, p, s1)
    ensures |s1.blocks| == if p < |s.blocks| then |s.blocks| else |s.blocks| + 1
  {
    hide ItemIdOf;
  }

  lemma NamesStand(own: map<string, int>, e: StreamEvent)
    requires Consistent(own, e)
    ensures e.outputIndex.Some? ==> ItemOf(own, e) == AtIndex(e.outputIndex.value)
    ensures ItemIdOf(e) != "" ==> ItemOf(own, e) == Stands(own, ById(ItemIdOf(e)))
  {
    hide ItemIdOf;
    if ItemIdOf(e) != "" { assert ById(ItemIdOf(e)) in NamesOf(e); }
  }

  lemma NamesKnownAfter(s: State, log: seq<Routing>, e: StreamEvent, kind: Kind, p: nat, s1: State)
    requires KnowsNames(s, log) && Ensured(s, e, kind, p, s1)
    ensures KnowsNames(s1, log + [Routing(p, e)])
  {
    hide ItemIdOf;
    assert (log + [Routing(p, e)])[..|log|] == log;
    assert NamesIn(log + [Routing(p, e)]) == NamesIn(log) + NamesOf(e);
  }

  lemma KindsKnownAfter(s: State, log: seq<Routing>, e: StreamEvent, kind: Kind, p: nat, s1: State)
    requires KnowsKinds(s, log) && Ensured(s, e, kind, p, s1) && kind == KindOf(e)
    ensures KnowsKinds(s1, log + [Routing(p, e)])
  {
    hide ItemIdOf, OrderOf;
    assert (log + [Routing(p, e)])[..|log|] == log;
  }

  lemma EnsuredKnows(s: State, log: seq<Routing>, e: StreamEvent, kind: Kind)
    requires Linked(s) && EnsureBlock(s, e, kind).Some? && Knowing(s, log) && kind == KindOf(e)
    ensures var p := Route(s, e, kind);
            Knowing(EnsureBlock(s, e, kind).value.0, log + [Routing(p, e)])
  {
    hide Linked, Route, EnsureBlock, KindOf, KnowsNames, KnowsKinds, Ensured;
    var p, s1 := Route(s, e, kind), EnsureBlock(s, e, kind).value.0;
    EnsureIs(s, e, kind);
    NamesKnownAfter(s, log, e, kind, p, s1);
    KindsKnownAfter(s, log, e, kind, p, s1);
  }

  lemma OneEachSnoc(owners: seq<Option<Name>>, owner: Option<Name>)
    requires OneEach(owners) && (owner.Some? ==> owner !in owners)
    ensures OneEach(owners + [owner])
  {
  }

  lemma EnsuredDecides(own: map<string, int>, s: State, log: seq<Routing>, owners: seq<Option<Name>>, e: StreamEvent,
                       kind: Kind)
    requires Linked(s) && Consistent(own, e) && kind == KindOf(e)
    requires Routed(own, s, log, owners)
    ensures var p := Route(s, e, kind);
            Decided(own, log + [Routing(p, e)], OwnersAfter(own, owners, p, e))
  {
    hide NamesIn, LastOfKind, Route, ItemOf, NamesOf, AllTracked, SharesByItem, Knowing, Owning, OneEach, KindOf, Met,
         Named, AllGoOn, Consistent;
    var p := Route(s, e, kind);
    var r := Routing(p, e);
    RouteIs(own, s, log, owners, e, kind);
    OwnedBlocks(own, s, log, owners);
    TrackedSnoc(own, log, r);
    assert GoesOn(log, r);
    if AllTracked(own, log) && Tracks(own, log, e) {
      if p == |owners| {
        if Named(e) { OwnedIsMet(own, s, log, owners, ItemOf(own, e)); }
        OneEachSnoc(owners, if Named(e) then Some(ItemOf(own, e)) else None);
      }
    } else if !AllTracked(own, log) {
      StillSplit(own, log, r);
    } else {
      Splits(own, log, r);
    }
  }

  lemma OwnedBlocks(own: map<string, int>, s: State, log: seq<Routing>, owners: seq<Option<Name>>)
    requires Owning(own, s, log, owners)
    ensures |owners| == |s.blocks| && forall k :: 0 <= k < |log| ==> log[k].block < |owners|
  {
    hide Met, Named, ItemOf, Stands;
  }

  lemma OwnedIsMet(own: map<string, int>, s: State, log: seq<Routing>, owners: seq<Option<Name>>, item: Name)
    requires Owning(own, s, log, owners)
    ensures Some(item) in owners ==> Met(own, log, item)
  {
    hide Met, Named, ItemOf, Stands;
    if p :| 0 <= p < |owners| && owners[p] == Some(item) { assert Met(own, log, owners[p].value); }
  }

  lemma StillSplit(own: map<string, int>, log: seq<Routing>, r: Routing)
    requires !SharesByItem(own, log)
    ensures !SharesByItem(own, log + [r])
  {
    hide Named, ItemOf;
    var more := log + [r];
    var i, j :| 0 <= i < j < |log| && Named(log[i].event) && Named(log[j].event)
                && !(log[i].block == log[j].block <==> ItemOf(own, log[i].event) == ItemOf(own, log[j].event));
    assert more[i] == log[i] && more[j] == log[j];
  }

  /** An event that does not track its item takes it to a second block. */
  lemma Splits(own: map<string, int>, log: seq<Routing>, r: Routing)
    requires Named(r.event) && Met(own, log, ItemOf(own, r.event))
    requires forall k :: 0 <= k < |log| ==> log[k].block < r.block
    ensures !SharesByItem(own, log + [r])
  {
    hide Named, ItemOf;
    var more := log + [r];
    var i :| 0 <= i < |log| && Named(log[i].event) && ItemOf(own, log[i].event) == ItemOf(own, r.event);
    assert more[i] == log[i] && more[|log|] == r;
  }

  lemma ObeyRoutes(own: map<string, int>, s: State, e: StreamEvent, kind: Kind, acts: seq<Act>, cite: Cite,
                   log: seq<Routing>, owners: seq<Option<Name>>) returns (owners': seq<Option<Name>>)
    requires Linked(s) && Obey(s, e, kind, acts, cite).Some? && Consistent(own, e) && kind == KindOf(e)
    requires Routed(own, s, log, owners)
    ensures Routed(own, Obey(s, e, kind, acts, cite).value.0, log + [Routing(Route(s, e, kind), e)], owners')
  {
    hide EnsureBlock, PerformAll, Route, Obey, Linked, KindOf, Decided, Owning, Knowing, Consistent;
    ObeyIs(s, e, kind, acts, cite);
    EnsuredOwns(own, s, log, owners, e, kind);
    EnsuredKnows(s, log, e, kind);
    EnsuredDecides(own, s, log, owners, e, kind);
    owners' := OwnersAfter(own, owners, Route(s, e, kind), e);
    SameMaps(own, EnsureBlock(s, e, kind).value.0, Obey(s, e, kind, acts, cite).value.0,
             log + [Routing(Route(s, e, kind), e)], owners');
  }

  lemma SameMaps(own: map<string, int>, s: State, s': State, log: seq<Routing>, owners: seq<Option<Name>>)
    requires |s'.blocks| == |s.blocks| && s'.byOutputIndex == s.byOutputIndex && s'.byItemId == s.byItemId
    requires s'.lastByKind == s.lastByKind && Owning(own, s, log, owners) && Knowing(s, log)
    ensures Owning(own, s', log, owners) && Knowing(s', log)
  {
    hide Named, Met, NamesIn, ItemOf, Stands, LastOfKind;
  }

  lemma OutputKind(item: Item, position: nat)
    ensures ItemOrder(item, true).OnBlock? ==> KindOf(OutputEvent(item, position)) == ItemOrder(item, true).kind
  {
    hide ItemOrder;
  }

  lemma {:induction false} OutputRouted(own: map<string, int>, s: State, output: seq<Item>, cite: Cite,
                                        log: seq<Routing>, owners: seq<Option<Name>>)
    returns (owners': seq<Option<Name>>)
    requires Linked(s) && OutputItems(s, output, cite).Some?
    requires Routed(own, s, log, owners) && AllConsistent(own, OutputRoutes(s, output, cite))
    ensures Routed(own, OutputItems(s, output, cite).value.0, log + OutputRoutes(s, output, cite), owners')
  {
    hide Obey, Routed, Consistent, Route, Linked, ItemOrder, KindOf;
    if output == [] {
      owners' := owners;
      assert log + [] == log;
    } else {
      var n := |output| - 1;
      var before := OutputRoutes(s, output[..n], cite);
      var all := OutputRoutes(s, output, cite);
      assert forall k :: 0 <= k < |before| ==> before[k] == all[k];
      var owners1 := OutputRouted(own, s, output[..n], cite, log, owners);
      var s1 := OutputItems(s, output[..n], cite).value.0;
      var order, e := ItemOrder(output[n], true), OutputEvent(output[n], n);
      if order.OnBlock? {
        OutputKind(output[n], n);
        assert all[|before|] == Routing(Route(s1, e, order.kind), e);
        owners' := ObeyRoutes(own, s1, e, order.kind, order.acts, cite, log + before, owners1);
        assert log + all == log + before + [Routing(Route(s1, e, order.kind), e)];
      } else {
        owners' := owners1;
        assert all == before;
      }
    }
  }

  lemma ConcludeMaps(s: State, response: Option<Response>)
    requires Linked(s)
    ensures var s1 := Conclude(s, response).0;
            && s1.byOutputIndex == s.byOutputIndex && s1.byItemId == s.byItemId && s1.lastByKind == s.lastByKind
            && |s1.blocks| == |s.blocks|
  {
    hide CloseAct, CloseAll;
    CloseAllMaps(s, |s.blocks|);
  }

  lemma {:induction false} CloseAllMaps(s: State, count: nat)
    requires Linked(s) && count <= |s.blocks|
    ensures var s1 := CloseAll(s, count).0;
            s1.byOutputIndex == s.byOutputIndex && s1.byItemId == s.byItemId && s1.lastByKind == s.lastByKind
    ensures CloseAll(s, count).0.done == s.done
  {
    hide CloseAct;
    if count > 0 {
      CloseAllMaps(s, count - 1);
      CloseKept(CloseAll(s, count - 1).0, count - 1);
    }
  }

  lemma ConcludeRouted(own: map<string, int>, s: State, response: Option<Response>, log: seq<Routing>,
                       owners: seq<Option<Name>>)
    requires Linked(s) && Routed(own, s, log, owners)
    ensures Routed(own, Conclude(s, response).0, log, owners)
  {
    hide Conclude, Owning, Knowing, Decided;
    ConcludeMaps(s, response);
    SameMaps(own, s, Conclude(s, response).0, log, owners);
  }

  lemma StepRouted(own: map<string, int>, s: State, event: StreamEvent, cite: Cite, log: seq<Routing>,
                   owners: seq<Option<Name>>) returns (owners': seq<Option<Name>>)
    requires Linked(s) && Step(s, event, cite).Some?
    requires Routed(own, s, log, owners) && AllConsistent(own, StepRoutes(s, event, cite))
    ensures Routed(own, Step(s, event, cite).value.0, log + StepRoutes(s, event, cite), owners')
  {
    hide Obey, Routed, Consistent, Route, Linked, OrderOf, OutputItems, OutputRoutes, Conclude;
    var routes := StepRoutes(s, event, cite);
    owners' := owners;
    if routes == [] {
      assert log + routes == log;
    }
    if !s.done {
      var order := OrderOf(event);
      if order.OnBlock? {
        assert routes[0].event == event;
        owners' := ObeyRoutes(own, s, event, order.kind, order.acts, cite, log, owners);
      } else if order.Finish? {
        var s1 := s;
        if order.response.Some? {
          owners' := OutputRouted(own, s, order.response.value.output, cite, log, owners);
          s1 := OutputItems(s, order.response.value.output, cite).value.0;
        }
        ConcludeRouted(own, s1, order.response, log + routes, owners');
      } else {
        GreetRouted(own, s, Step(s, event, cite).value.0, log, owners);
      }
    }
  }

  lemma GreetRouted(own: map<string, int>, s: State, s': State, log: seq<Routing>, owners: seq<Option<Name>>)
    requires Routed(own, s, log, owners) && s' == s.(sentStart := s'.sentStart)
    ensures Routed(own, s', log, owners)
  {
    hide Owning, Knowing, Decided;
    SameMaps(own, s, s', log, owners);
  }

  lemma {:induction false} RunRouted(own: map<string, int>, events: seq<StreamEvent>, cite: Cite)
    returns (owners: seq<Option<Name>>)
    requires Run(events, cite).Some? && AllConsistent(own, Routes(events, cite))
    ensures Routed(own, Run(events, cite).value.0, Routes(events, cite), owners)
  {
    hide Step, StepRoutes, Consistent, Routed;
    if events == [] {
      owners := [];
      NothingRouted(own);
    } else {
      var n := |events| - 1;
      var before, more := Routes(events[..n], cite), StepRoutes(Run(events[..n], cite).value.0, events[n], cite);
      assert Routes(events, cite) == before + more;
      assert forall k :: 0 <= k < |before| ==> Routes(events, cite)[k] == before[k];
      assert forall k :: 0 <= k < |more| ==> Routes(events, cite)[|before| + k] == more[k];
      var owners1 := RunRouted(own, events[..n], cite);
      owners := StepRouted(own, Run(events[..n], cite).value.0, events[n], cite, before, owners1);
    }
  }

  lemma NothingRouted(own: map<string, int>)
    ensures Routed(own, INITIAL, [], [])
  {
  }

  lemma OneEachShares(own: map<string, int>, s: State, log: seq<Routing>, owners: seq<Option<Name>>)
    requires Owning(own, s, log, owners) && OneEach(owners)
    ensures SharesByItem(own, log)
  {
    hide Named, ItemOf, Stands, Met;
  }

  /** When all names of an event stand for one item, two named events, output items of the terminal
      response included, share a block exactly if they are about the same item - for all of them if
      and only if every event carries a name that its item has been met by. An event without a name
      goes on with the block of the last event of its kind, or begins a new one. */
  lemma EventsShareBlocks(own: map<string, int>, events: seq<StreamEvent>, cite: Cite)
    requires Run(events, cite).Some? && AllConsistent(own, Routes(events, cite))
    ensures SharesByItem(own, Routes(events, cite)) <==> AllTracked(own, Routes(events, cite))
    ensures AllGoOn(Routes(events, cite))
  {
    hide Run, Routes, SharesByItem, AllTracked, Owning, Knowing, AllGoOn, AllConsistent;
    var owners := RunRouted(own, events, cite);
    if AllTracked(own, Routes(events, cite)) {
      OneEachShares(own, Run(events, cite).value.0, Routes(events, cite), owners);
    }
  }
}
