/** What the Responses to Claude converter delivers: each block gets exactly the text
    its own events streamed and its final snapshots completed, once, however often the
    snapshots are repeated. */
module ResponsesToClaudeDelivery {
  import opened ClaudeTrace
  import opened Basics
  import opened ResponsesDto
  import opened ResponsesToClaude
  import opened ResponsesToClaudeGrammar
  import Text

  // ---- what a stream says about its blocks ----------------------------------------------

  /** An event, or an output item of the terminal event, routed to a block. */
  datatype Entry = Entry(block: int, kind: Kind, name: string, acts: seq<Act>)

  /** The name an event gives to its block, if any. */
  function NameIn(event: StreamEvent): string {
    if event.item.Some? then Text.Trim(event.item.value.name) else ""
  }

  function EntryOf(s: State, event: StreamEvent, kind: Kind, acts: seq<Act>): Entry
    requires Linked(s)
  {
    Entry(Route(s, event, kind), kind, NameIn(event), acts)
  }

  function OutputLog(s: State, output: seq<Item>, cite: Cite): seq<Entry>
    requires Linked(s) && OutputItems(s, output, cite).Some?
  {
    if output == [] then [] else
      var n := |output| - 1;
      var order := ItemOrder(output[n], true);
      OutputLog(s, output[..n], cite) +
      if order.OnBlock? then [EntryOf(OutputItems(s, output[..n], cite).value.0, OutputEvent(output[n], n), order.kind,
                                      order.acts)]
      else []
  }

  function StepLog(s: State, event: StreamEvent, cite: Cite): seq<Entry>
    requires Linked(s) && Step(s, event, cite).Some?
  {
    if s.done then [] else
      match OrderOf(event)
      case OnBlock(kind, acts) => [EntryOf(s, event, kind, acts)]
      case Finish(response) => if response.Some? then OutputLog(s, response.value.output, cite) else []
      case _ => []
  }

  /** Every routed event of a stream, in order. */
  function Log(events: seq<StreamEvent>, cite: Cite): seq<Entry>
    requires Run(events, cite).Some?
  {
    if events == [] then [] else
      var n := |events| - 1;
      Log(events[..n], cite) + StepLog(Run(events[..n], cite).value.0, events[n], cite)
  }

  // ---- what a block makes of its own entries -----------------------------------------------

  datatype Heard = Heard(kind: Kind, name: string, text: string, breakPending: bool, closed: bool)

  const NOTHING := Heard(TextKind, "", "", false, false)

  /** A closed block hears nothing more; a snapshot counts if it extends the text; a tool
      nobody named cannot be closed. */
  function HearAct(h: Heard, act: Act): Heard {
    match act
    case Append(text) =>
      var apart := h.kind == ThinkingKind && h.breakPending && text != "";
      h.(text := if h.closed then h.text else h.text + if apart then Separated(text) else text,
         breakPending := h.breakPending && !apart)
    case Merge(text) => if !h.closed && h.text <= text then h.(text := text) else h
    case Break => h.(breakPending := h.breakPending || h.text != "")
    case Cited(_, _) => h
    case Close => h.(closed := h.closed || h.kind != ToolKind || h.name != "")
  }

  function HearActs(h: Heard, acts: seq<Act>): Heard {
    if acts == [] then h else HearAct(HearActs(h, acts[..|acts| - 1]), acts[|acts| - 1])
  }

  function Met(h: Heard, kind: Kind, name: string): Heard {
    h.(kind := kind, name := if name != "" then name else h.name)
  }

  /** What block b makes of the entries routed to it; those of other blocks do not matter. */
  function Hear(log: seq<Entry>, b: int): Heard {
    if log == [] then NOTHING else
      var h, e := Hear(log[..|log| - 1], b), log[|log| - 1];
      if e.block == b then HearActs(Met(h, e.kind, e.name), e.acts) else h
  }

  /** The text a block is due: a tool nobody named is never shown. */
  function Due(h: Heard): string { if h.kind == ToolKind && h.name == "" then "" else h.text }

  lemma HearSnoc(log: seq<Entry>, e: Entry, b: int)
    ensures Hear(log + [e], b) ==
            if e.block == b then HearActs(Met(Hear(log, b), e.kind, e.name), e.acts) else Hear(log, b)
  {
    assert (log + [e])[..|log|] == log;
  }

  // ---- the invariant ---------------------------------------------------------------------------

  /** The block is what its entries say, and the trace has delivered what was sent of it. */
  predicate Tells(block: Block, b: int, trace: seq<Event>, h: Heard) {
    && h == Heard(block.kind, block.name, block.value, block.needsBreak, block.stopped)
    && (block.started ==> Startable(block))
    && block.sent <= |block.value| && DeliveredTo(trace, b) == block.value[..block.sent]
  }

  ghost predicate Tracks(s: State, trace: seq<Event>, log: seq<Entry>) {
    && (forall b :: 0 <= b < |s.blocks| ==> Tells(s.blocks[b], b, trace, Hear(log, b)))
    && (forall b :: b < 0 || b >= |s.blocks| ==> DeliveredTo(trace, b) == "" && Hear(log, b) == NOTHING)
  }

  // ---- events that deliver ---------------------------------------------------------------------

  /** Nothing of these events is for block b. */
  predicate SilentFor(evs: seq<Event>, b: int) {
    forall k :: 0 <= k < |evs| ==> (evs[k].BlockDelta? && evs[k].index == b ==> evs[k].delta.Payload() == "")
  }

  lemma {:induction false} SilentDelivers(trace: seq<Event>, evs: seq<Event>, b: int)
    requires SilentFor(evs, b)
    ensures DeliveredTo(trace + evs, b) == DeliveredTo(trace, b)
  {
    if evs == [] {
      assert trace + evs == trace;
    } else {
      var n := |evs| - 1;
      SilentDelivers(trace, evs[..n], b);
      assert (trace + evs)[..|trace + evs| - 1] == trace + evs[..n];
      assert DeliveredTo(trace, b) + "" == DeliveredTo(trace, b);
    }
  }

  lemma OneDelivers(trace: seq<Event>, p: int, delta: Delta, b: int)
    ensures DeliveredTo(trace + [BlockDelta(p, delta)], b) ==
            if b == p then DeliveredTo(trace, b) + delta.Payload() else DeliveredTo(trace, b)
  {
    assert (trace + [BlockDelta(p, delta)])[..|trace|] == trace;
    assert DeliveredTo(trace, b) + "" == DeliveredTo(trace, b);
  }

  lemma StartSilent(s: State, p: nat, b: int)
    requires Linked(s) && p < |s.blocks|
    ensures SilentFor(StartBlock(s, p).1, b)
  {
  }

  lemma {:induction false} CitationsSilent(p: int, citations: seq<Citation>, b: int)
    ensures SilentFor(ResponsesToClaude.CitationDeltas(p, citations), b)
  {
    if citations != [] {
      CitationsSilent(p, citations[..|citations| - 1], b);
    }
  }

  /** Only block p changes, and only its deliveries. */
  predicate Local(s: State, s': State, p: nat, trace: seq<Event>, evs: seq<Event>, b: int) {
    && p < |s.blocks| == |s'.blocks| && s'.blocks == s.blocks[p := s'.blocks[p]]
    && (b != p ==> DeliveredTo(trace + evs, b) == DeliveredTo(trace, b))
  }

  /** Events for block p alone. */
  lemma LocalDelivers(trace: seq<Event>, evs: seq<Event>, p: int, delta: Delta, b: int)
    requires SilentFor(evs, b)
    ensures DeliveredTo(trace + (evs + [BlockDelta(p, delta)]), b) ==
            if b == p then DeliveredTo(trace, b) + delta.Payload() else DeliveredTo(trace, b)
  {
    SilentDelivers(trace, evs, b);
    OneDelivers(trace + evs, p, delta, b);
    assert trace + (evs + [BlockDelta(p, delta)]) == (trace + evs) + [BlockDelta(p, delta)];
  }

  lemma FlushDelivers(s: State, p: nat, trace: seq<Event>, b: int)
    requires Linked(s) && p < |s.blocks| && Unflushed(s.blocks[p])
    ensures var (s', evs) := Flush(s, p);
            var block := s.blocks[p];
            DeliveredTo(trace + evs, b) ==
            if b == p && !block.stopped && s'.blocks[p].started then DeliveredTo(trace, b) + block.value[block.sent..]
            else DeliveredTo(trace, b)
  {
    hide StartBlock, DeliveredTo, SilentFor;
    if s.blocks[p].stopped {
      assert trace + [] == trace;
    } else {
      StartIsLocal(s, p);
      StartSilent(s, p, b);
      var (s1, evs1) := StartBlock(s, p);
      var block := s1.blocks[p];
      if block.started && block.sent < |block.value| {
        LocalDelivers(trace, evs1, p, DeltaOf(block.kind, block.value[block.sent..]), b);
      } else {
        SilentDelivers(trace, evs1, b);
        assert block.started ==> DeliveredTo(trace, b) + block.value[block.sent..] == DeliveredTo(trace, b);
      }
    }
  }

  lemma FlushSays(s: State, p: nat)
    requires Linked(s) && p < |s.blocks| && Unflushed(s.blocks[p])
    ensures var block := s.blocks[p];
            var started := block.started || (!block.stopped && Startable(block));
            Flush(s, p).0.blocks == s.blocks[p := block.(started := started,
                                                         sent := if started then |block.value| else 0)]
  {
    hide StartBlock, DeltaOf;
    StartIsLocal(s, p);
  }

  lemma FlushTells(s: State, p: nat, trace: seq<Event>, h: Heard, b: int)
    requires Linked(s) && p < |s.blocks| && Unflushed(s.blocks[p]) && Tells(s.blocks[p], p, trace, h)
    ensures var (s', evs) := Flush(s, p);
            && Tells(s'.blocks[p], p, trace + evs, h) && Local(s, s', p, trace, evs, b)
            && (Startable(s'.blocks[p]) ==> s'.blocks[p].started)
  {
    hide Flush, DeliveredTo;
    FlushDelivers(s, p, trace, b);
    FlushDelivers(s, p, trace, p);
    FlushSays(s, p);
    var block := s.blocks[p];
    assert block.value[..block.sent] + block.value[block.sent..] == block.value[..|block.value|];
  }

  lemma RevalueTells(s: State, p: nat, value: string, trace: seq<Event>, h: Heard, b: int)
    requires Linked(s) && p < |s.blocks| && Settled(s.blocks[p]) && Tells(s.blocks[p], p, trace, h)
    requires !s.blocks[p].stopped && s.blocks[p].value <= value
    ensures var (s', evs) := Revalue(s, p, value);
            Tells(s'.blocks[p], p, trace + evs, h.(text := value)) && Local(s, s', p, trace, evs, b)
  {
    hide Flush;
    var s1 := s.(blocks := s.blocks[p := s.blocks[p].(value := value)]);
    assert s1.blocks[p].value[..s1.blocks[p].sent] == s.blocks[p].value[..s.blocks[p].sent];
    FlushTells(s1, p, trace, h.(text := value), b);
  }

  lemma AppendTells(s: State, p: nat, text: string, trace: seq<Event>, h: Heard, b: int)
    requires Linked(s) && p < |s.blocks| && Settled(s.blocks[p]) && Tells(s.blocks[p], p, trace, h)
    ensures var (s', evs) := AppendAct(s, p, text);
            Tells(s'.blocks[p], p, trace + evs, HearAct(h, Append(text))) && Local(s, s', p, trace, evs, b)
  {
    hide Revalue;
    var block := s.blocks[p];
    assert trace + [] == trace && h.text + "" == h.text;
    if text != "" {
      var apart := block.kind == ThinkingKind && block.needsBreak;
      var s1 := if apart then s.(blocks := s.blocks[p := block.(needsBreak := false)]) else s;
      if !block.stopped {
        var value := block.value + if apart then Separated(text) else text;
        RevalueTells(s1, p, value, trace, if apart then h.(breakPending := false) else h, b);
      }
    }
  }

  lemma CiteTells(s: State, p: nat, annotations: seq<Annotation>, snapshot: bool, cite: Cite, trace: seq<Event>,
                  h: Heard, b: int)
    requires Linked(s) && p < |s.blocks| && Settled(s.blocks[p]) && Tells(s.blocks[p], p, trace, h)
    ensures var (s', evs) := CiteAct(s, p, annotations, snapshot, cite);
            Tells(s'.blocks[p], p, trace + evs, h) && Local(s, s', p, trace, evs, b)
  {
    hide CiteAct, SilentFor, DeliveredTo;
    CiteSilent(s, p, annotations, snapshot, cite, b);
    CiteSilent(s, p, annotations, snapshot, cite, p);
    SilentDelivers(trace, CiteAct(s, p, annotations, snapshot, cite).1, b);
    SilentDelivers(trace, CiteAct(s, p, annotations, snapshot, cite).1, p);
  }

  lemma CiteSilent(s: State, p: nat, annotations: seq<Annotation>, snapshot: bool, cite: Cite, b: int)
    requires Linked(s) && p < |s.blocks|
    ensures var (s', evs) := CiteAct(s, p, annotations, snapshot, cite);
            var block := s.blocks[p];
            && SilentFor(evs, b)
            && s'.blocks == s.blocks[p := block.(annotationCount := s'.blocks[p].annotationCount,
                                                 started := s'.blocks[p].started)]
            && (s'.blocks[p].started ==> block.started || block.kind == TextKind)
  {
    hide StartBlock;
    var block := s.blocks[p];
    if block.kind != TextKind || block.stopped || annotations == []
      || (snapshot && |annotations| <= block.annotationCount) {
      return;
    }
    var remaining := if snapshot then annotations[block.annotationCount..] else annotations;
    var count := if snapshot then |annotations| else block.annotationCount + |annotations|;
    var s1 := s.(blocks := s.blocks[p := block.(annotationCount := count)]);
    StartIsLocal(s1, p);
    StartSilent(s1, p, b);
    CitationsSilent(p, cite(remaining, block.value), b);
  }

  /** Closing is flushing, and then stopping what is started. */
  lemma CloseSays(s: State, p: nat)
    requires Linked(s) && p < |s.blocks| && Unflushed(s.blocks[p]) && !s.blocks[p].stopped
    ensures var (s1, evs1) := Flush(s, p);
            var (s', evs) := CloseAct(s, p);
            if s1.blocks[p].started then
              && s'.blocks == s1.blocks[p := s1.blocks[p].(stopped := true)]
              && evs == evs1 + Stopping(s1.blocks[p].kind, p)
            else s'.blocks == s1.blocks && evs == evs1
  {
    hide Flush;
    FlushSays(s, p);
    var (s1, evs1) := Flush(s, p);
    assert StartBlock(s1, p) == (s1, []) && evs1 + [] == evs1;
    assert evs1 + (if s1.blocks[p].kind == ThinkingKind then [BlockDelta(p, SignatureDelta)] else [])
           + [BlockStop(p)] ==
           evs1 + Stopping(s1.blocks[p].kind, p);
  }

  function Stopping(kind: Kind, p: int): seq<Event> {
    (if kind == ThinkingKind then [BlockDelta(p, SignatureDelta)] else []) + [BlockStop(p)]
  }

  lemma CloseTells(s: State, p: nat, trace: seq<Event>, h: Heard, b: int)
    requires Linked(s) && p < |s.blocks| && Settled(s.blocks[p]) && Tells(s.blocks[p], p, trace, h)
    ensures var (s', evs) := CloseAct(s, p);
            Tells(s'.blocks[p], p, trace + evs, HearAct(h, Close)) && Local(s, s', p, trace, evs, b)
  {
    hide Flush, DeliveredTo, CloseAct;
    if s.blocks[p].stopped {
      assert trace + [] == trace;
      ClosedAlready(s, p);
    } else {
      FlushTells(s, p, trace, h, b);
      FlushSays(s, p);
      CloseSays(s, p);
      var (s1, evs1) := Flush(s, p);
      var last := Stopping(s1.blocks[p].kind, p);
      SilentDelivers(trace + evs1, last, b);
      SilentDelivers(trace + evs1, last, p);
      assert trace + (evs1 + last) == (trace + evs1) + last;
    }
  }

  lemma ClosedAlready(s: State, p: nat)
    requires Linked(s) && p < |s.blocks| && s.blocks[p].stopped
    ensures CloseAct(s, p) == (s, [])
  {
  }

  lemma PerformTells(s: State, p: nat, act: Act, cite: Cite, trace: seq<Event>, h: Heard, b: int)
    requires Linked(s) && p < |s.blocks| && Settled(s.blocks[p]) && Tells(s.blocks[p], p, trace, h)
    ensures var (s', evs) := Perform(s, p, act, cite);
            Tells(s'.blocks[p], p, trace + evs, HearAct(h, act)) && Local(s, s', p, trace, evs, b)
  {
    hide AppendAct, CiteAct, CloseAct, Revalue;
    assert trace + [] == trace;
    match act
    case Append(text) => AppendTells(s, p, text, trace, h, b);
    case Merge(text) =>
      if !s.blocks[p].stopped {
        RevalueTells(s, p, Merged(s.blocks[p].value, text), trace, h, b);
        MergedIs(s.blocks[p].value, text);
      }
    case Break =>
    case Cited(annotations, snapshot) => CiteTells(s, p, annotations, snapshot, cite, trace, h, b);
    case Close => CloseTells(s, p, trace, h, b);
  }

  lemma MergedIs(value: string, snapshot: string)
    ensures Merged(value, snapshot) == if value <= snapshot then snapshot else value
  {
  }

  lemma {:induction false} PerformAllTells(s: State, p: nat, acts: seq<Act>, cite: Cite, trace: seq<Event>, h: Heard,
                                           c: Cursor, b: int)
    requires Linked(s) && p < |s.blocks| && Agrees(s, c) && AllSettled(s) && Tells(s.blocks[p], p, trace, h)
    ensures var (s', evs) := PerformAll(s, p, acts, cite);
            Tells(s'.blocks[p], p, trace + evs, HearActs(h, acts)) && Local(s, s', p, trace, evs, b)
  {
    hide Agrees, Tells, Perform, HearAct;
    if acts == [] {
      assert trace + [] == trace;
    } else {
      var n := |acts| - 1;
      PerformAllTells(s, p, acts[..n], cite, trace, h, c, b);
      var c1 := PerformAllFollows(s, p, acts[..n], cite, c);
      var (s1, evs1) := PerformAll(s, p, acts[..n], cite);
      PerformTells(s1, p, acts[n], cite, trace + evs1, HearActs(h, acts[..n]), b);
      var evs2 := Perform(s1, p, acts[n], cite).1;
      assert trace + (evs1 + evs2) == (trace + evs1) + evs2;
    }
  }

  // ---- events ---------------------------------------------------------------------------------

  /** The routed block knows its new name before the acts are performed. */
  lemma EnsureTells(s: State, event: StreamEvent, kind: Kind, trace: seq<Event>, log: seq<Entry>)
    requires Linked(s) && Tracks(s, trace, log) && EnsureBlock(s, event, kind).Some?
    ensures var (s1, p) := EnsureBlock(s, event, kind).value;
            && p == Route(s, event, kind)
            && Tells(s1.blocks[p], p, trace, Met(Hear(log, p), kind, NameIn(event)))
            && |s1.blocks| == (if p < |s.blocks| then |s.blocks| else |s.blocks| + 1)
            && forall b :: 0 <= b < |s.blocks| && b != p ==> s1.blocks[b] == s.blocks[b]
  {
    hide Extends, Hear, ItemIdOf, Route, Text.Trim;
    var p := Route(s, event, kind);
    if p < |s.blocks| {
      assert Tells(s.blocks[p], p, trace, Hear(log, p));
    } else {
      assert DeliveredTo(trace, p) == "" && Hear(log, p) == NOTHING;
      assert "" == ""[..0];
    }
  }

  lemma ObeyTracks(s: State, event: StreamEvent, kind: Kind, acts: seq<Act>, cite: Cite, c: Cursor, trace: seq<Event>,
                   log: seq<Entry>)
    requires Linked(s) && Agrees(s, c) && AllSettled(s) && Tracks(s, trace, log)
             && Obey(s, event, kind, acts, cite).Some?
    ensures var (s', evs) := Obey(s, event, kind, acts, cite).value;
            Tracks(s', trace + evs, log + [EntryOf(s, event, kind, acts)])
  {
    hide Agrees, Tells, EnsureBlock, PerformAll, Hear, HearActs, Met, Route;
    EnsureAgrees(s, event, kind, c);
    EnsureTells(s, event, kind, trace, log);
    var (s1, p) := EnsureBlock(s, event, kind).value;
    var (s', evs) := PerformAll(s1, p, acts, cite);
    var e := EntryOf(s, event, kind, acts);
    var h := Met(Hear(log, p), kind, NameIn(event));
    HearSnoc(log, e, p);
    PerformAllTells(s1, p, acts, cite, trace, h, c, p);
    forall b | b != p
      ensures DeliveredTo(trace + evs, b) == DeliveredTo(trace, b) && Hear(log + [e], b) == Hear(log, b)
      ensures 0 <= b < |s.blocks| ==> s'.blocks[b] == s.blocks[b]
    {
      PerformAllTells(s1, p, acts, cite, trace, h, c, b);
      HearSnoc(log, e, b);
    }
    forall b | 0 <= b < |s'.blocks| ensures Tells(s'.blocks[b], b, trace + evs, Hear(log + [e], b)) {
      if b != p {
        assert Tells(s.blocks[b], b, trace, Hear(log, b));
        SameDelivery(s.blocks[b], b, trace, trace + evs, Hear(log, b));
      }
    }
  }

  lemma SameDelivery(block: Block, b: int, trace: seq<Event>, trace': seq<Event>, h: Heard)
    requires Tells(block, b, trace, h) && DeliveredTo(trace', b) == DeliveredTo(trace, b)
    ensures Tells(block, b, trace', h)
  {
  }

  lemma {:induction false} OutputItemsTrack(s: State, output: seq<Item>, cite: Cite, c: Cursor, trace: seq<Event>,
                                            log: seq<Entry>)
    requires Linked(s) && Agrees(s, c) && AllSettled(s) && Tracks(s, trace, log) && OutputItems(s, output, cite).Some?
    ensures var (s', evs) := OutputItems(s, output, cite).value;
            Tracks(s', trace + evs, log + OutputLog(s, output, cite))
  {
    hide Agrees, Tracks, Obey, Moves, ItemOrder, EntryOf;
    if output == [] {
      assert trace + [] == trace && log + [] == log;
    } else {
      var n := |output| - 1;
      OutputItemsTrack(s, output[..n], cite, c, trace, log);
      var c1 := OutputItemsFollow(s, output[..n], cite, c);
      var (s1, evs1) := OutputItems(s, output[..n], cite).value;
      var log1 := OutputLog(s, output[..n], cite);
      var order := ItemOrder(output[n], true);
      if order.OnBlock? {
        var event := OutputEvent(output[n], n);
        ObeyTracks(s1, event, order.kind, order.acts, cite, c1, trace + evs1, log + log1);
        var evs2 := Obey(s1, event, order.kind, order.acts, cite).value.1;
        assert trace + (evs1 + evs2) == (trace + evs1) + evs2;
        var e := EntryOf(s1, event, order.kind, order.acts);
        assert log + (log1 + [e]) == (log + log1) + [e];
      } else {
        assert log + (log1 + []) == log + log1;
      }
    }
  }

  lemma StepTracks(s: State, event: StreamEvent, cite: Cite, c: Cursor, trace: seq<Event>, log: seq<Entry>)
    requires Linked(s) && !s.done && Agrees(s, c) && AllSettled(s) && Tracks(s, trace, log)
    requires Step(s, event, cite).Some? && !Step(s, event, cite).value.0.done
    ensures var (s', evs) := Step(s, event, cite).value;
            Tracks(s', trace + evs, log + StepLog(s, event, cite))
  {
    hide Tells, Agrees, Obey, FinishWith, OrderOf, Hear;
    assert trace + [] == trace && log + [] == log;
    match OrderOf(event)
    case Ignore =>
    case Fail =>
    case Greet =>
      var evs := MessageOpened(s);
      forall b ensures DeliveredTo(trace + evs, b) == DeliveredTo(trace, b) { SilentDelivers(trace, evs, b); }
      forall b | 0 <= b < |s.blocks| ensures Tells(s.blocks[b], b, trace + evs, Hear(log, b)) {
        SameDelivery(s.blocks[b], b, trace, trace + evs, Hear(log, b));
      }
    case OnBlock(kind, acts) => ObeyTracks(s, event, kind, acts, cite, c, trace, log);
    case Finish(response) => FinishIsDone(s, response, cite);
  }

  lemma FinishIsDone(s: State, response: Option<Response>, cite: Cite)
    requires Linked(s) && FinishWith(s, response, cite).Some?
    ensures FinishWith(s, response, cite).value.0.done
  {
  }

  // ---- the end of the stream ----------------------------------------------------------------------

  /** Block b when everything is closed: all it is due has been delivered. */
  predicate Paid(block: Block, b: int, trace: seq<Event>, h: Heard) {
    block.kind == h.kind && block.name == h.name && block.value == h.text && DeliveredTo(trace, b) == Due(h)
  }

  lemma ClosedIsPaid(block: Block, b: int, trace: seq<Event>, h: Heard)
    requires Tells(block, b, trace, HearAct(h, Close)) && Settled(block)
    ensures Paid(block, b, trace, h)
  {
    assert block.value[..|block.value|] == block.value;
  }

  lemma CloseOnePays(s: State, p: nat, trace: seq<Event>, h: Heard, b: int)
    requires Linked(s) && p < |s.blocks| && Settled(s.blocks[p]) && Tells(s.blocks[p], p, trace, h)
    requires Settled(CloseAct(s, p).0.blocks[p])
    ensures var (s', evs) := CloseAct(s, p);
            && Paid(s'.blocks[p], p, trace + evs, h)
            && (b != p ==> DeliveredTo(trace + evs, b) == DeliveredTo(trace, b))
            && (b != p && 0 <= b < |s.blocks| ==> s'.blocks[b] == s.blocks[b])
  {
    hide CloseAct, Tells, HearAct, DeliveredTo, Settled, Paid;
    CloseTells(s, p, trace, h, b);
    var (s', evs) := CloseAct(s, p);
    ClosedIsPaid(s'.blocks[p], p, trace + evs, h);
  }

  lemma {:induction false} CloseAllPays(s: State, count: nat, c: Cursor, trace: seq<Event>, log: seq<Entry>, b: nat)
    requires Linked(s) && count <= |s.blocks| && b < |s.blocks| && Agrees(s, c) && AllSettled(s)
             && Tracks(s, trace, log)
    ensures var (s', evs) := CloseAll(s, count);
            if b < count then Paid(s'.blocks[b], b, trace + evs, Hear(log, b))
            else Tells(s'.blocks[b], b, trace + evs, Hear(log, b)) && s'.blocks[b] == s.blocks[b]
  {
    hide Moves, Agrees, Tells, CloseAct, Hear, Paid, Settled, DeliveredTo, Due, Extends, Linked;
    if count == 0 {
      assert trace + [] == trace;
    } else {
      var p: nat := count - 1;
      CloseAllPays(s, p, c, trace, log, b);
      CloseAllPays(s, p, c, trace, log, p);
      var c1 := CloseAllFollows(s, p, c);
      var (s1, evs1) := CloseAll(s, p);
      var c2 := CloseFollows(s1, p, c1);
      var (s2, evs2) := CloseAct(s1, p);
      CloseOnePays(s1, p, trace + evs1, Hear(log, p), b);
      assert trace + (evs1 + evs2) == (trace + evs1) + evs2;
      if b < p {
        PaidStays(s1.blocks[b], b, trace + evs1, trace + evs1 + evs2, Hear(log, b));
      } else if b > p {
        SameDelivery(s1.blocks[b], b, trace + evs1, trace + evs1 + evs2, Hear(log, b));
      }
    }
  }

  lemma PaidStays(block: Block, b: int, trace: seq<Event>, trace': seq<Event>, h: Heard)
    requires Paid(block, b, trace, h) && DeliveredTo(trace', b) == DeliveredTo(trace, b)
    ensures Paid(block, b, trace', h)
  {
  }

  /** Every block of the final state was paid, and nothing else was delivered. */
  ghost predicate AllPaid(s: State, trace: seq<Event>, log: seq<Entry>) {
    forall b :: 0 <= b < |s.blocks| ==> Paid(s.blocks[b], b, trace, Hear(log, b))
  }

  lemma ConcludePays(s: State, response: Option<Response>, c: Cursor, trace: seq<Event>, log: seq<Entry>)
    requires Linked(s) && Agrees(s, c) && AllSettled(s) && Tracks(s, trace, log)
    ensures var (s', evs) := Conclude(s, response);
            AllPaid(s', trace + evs, log)
  {
    hide Agrees, Tracks, CloseAll, Paid, Hear;
    var (s1, evs1) := CloseAll(s, |s.blocks|);
    var last := MessageOpened(s1) + [MessageDelta(ResponsesToClaude.StopReason(response, s1.sawToolCall)), MessageStop];
    var evs := Conclude(s, response).1;
    assert evs == evs1 + last;
    forall b: int | 0 <= b < |s.blocks| ensures Paid(s1.blocks[b], b, trace + evs, Hear(log, b)) {
      CloseAllPays(s, |s.blocks|, c, trace, log, b);
      SilentDelivers(trace + evs1, last, b);
      assert trace + evs == (trace + evs1) + last;
      PaidStays(s1.blocks[b], b, trace + evs1, trace + evs, Hear(log, b));
    }
  }

  lemma FinishPays(s: State, response: Option<Response>, cite: Cite, c: Cursor, trace: seq<Event>, log: seq<Entry>)
    requires Linked(s) && Agrees(s, c) && AllSettled(s) && Tracks(s, trace, log) && FinishWith(s, response, cite).Some?
    ensures var (s', evs) := FinishWith(s, response, cite).value;
            AllPaid(s', trace + evs, log + if response.Some? then OutputLog(s, response.value.output, cite) else [])
  {
    hide Moves, Agrees, Tracks, OutputItems, Conclude, AllPaid, OutputLog;
    var c1 := c;
    assert trace + [] == trace && log + [] == log;
    if response.Some? {
      c1 := OutputItemsFollow(s, response.value.output, cite, c);
      OutputItemsTrack(s, response.value.output, cite, c, trace, log);
    }
    var (s1, evs1) := if response.Some? then OutputItems(s, response.value.output, cite).value else (s, []);
    ConcludePays(s1, response, c1, trace + evs1,
                 log + if response.Some? then OutputLog(s, response.value.output, cite) else []);
    var evs2 := Conclude(s1, response).1;
    assert trace + (evs1 + evs2) == (trace + evs1) + evs2;
  }

  /** Where the stream stands after each event. */
  ghost predicate Accounted(s: State, trace: seq<Event>, log: seq<Entry>) {
    if s.done then AllPaid(s, trace, log) else Tracks(s, trace, log)
  }

  lemma StepAccounts(s: State, event: StreamEvent, cite: Cite, c: Cursor, trace: seq<Event>, log: seq<Entry>)
    requires Linked(s) && Coupled(s, c) && Accounted(s, trace, log) && Step(s, event, cite).Some?
    ensures var (s', evs) := Step(s, event, cite).value;
            Accounted(s', trace + evs, log + StepLog(s, event, cite))
  {
    hide Agrees, Tracks, AllPaid, Obey, FinishWith, OrderOf, OutputLog;
    if s.done {
      assert trace + [] == trace && log + [] == log;
    } else if OrderOf(event).Finish? {
      FinishPays(s, OrderOf(event).response, cite, c, trace, log);
      FinishIsDone(s, OrderOf(event).response, cite);
    } else {
      OnlyFinishIsDone(s, event, cite);
      StepTracks(s, event, cite, c, trace, log);
    }
  }

  lemma OnlyFinishIsDone(s: State, event: StreamEvent, cite: Cite)
    requires Linked(s) && !s.done && !OrderOf(event).Finish? && Step(s, event, cite).Some?
    ensures !Step(s, event, cite).value.0.done
  {
    hide OrderOf, Perform;
    match OrderOf(event)
    case OnBlock(kind, acts) =>
      PerformAllNotDone(EnsureBlock(s, event, kind).value.0, EnsureBlock(s, event, kind).value.1, acts, cite);
    case _ =>
  }

  lemma {:induction false} PerformAllNotDone(s: State, p: nat, acts: seq<Act>, cite: Cite)
    requires Linked(s) && p < |s.blocks| && !s.done
    ensures !PerformAll(s, p, acts, cite).0.done
  {
    hide Perform;
    if acts != [] {
      PerformAllNotDone(s, p, acts[..|acts| - 1], cite);
      PerformNotDone(PerformAll(s, p, acts[..|acts| - 1], cite).0, p, acts[|acts| - 1], cite);
    }
  }

  lemma FlushNotDone(s: State, p: nat)
    requires Linked(s) && p < |s.blocks|
    ensures Flush(s, p).0.done == s.done
  {
  }

  lemma StartNotDone(s: State, p: nat)
    requires Linked(s) && p < |s.blocks|
    ensures StartBlock(s, p).0.done == s.done
  {
  }

  lemma PerformNotDone(s: State, p: nat, act: Act, cite: Cite)
    requires Linked(s) && p < |s.blocks| && !s.done
    ensures !Perform(s, p, act, cite).0.done
  {
    hide Flush, StartBlock, Merged;
    match act
    case Append(text) =>
      var block := s.blocks[p];
      var apart := block.kind == ThinkingKind && block.needsBreak;
      var value := block.value + if apart then Separated(text) else text;
      var s1 := if apart then s.(blocks := s.blocks[p := block.(needsBreak := false)]) else s;
      FlushNotDone(s1.(blocks := s1.blocks[p := s1.blocks[p].(value := value)]), p);
    case Merge(text) =>
      FlushNotDone(s.(blocks := s.blocks[p := s.blocks[p].(value := Merged(s.blocks[p].value, text))]), p);
    case Break =>
    case Cited(annotations, snapshot) => CiteNotDone(s, p, annotations, snapshot, cite);
    case Close =>
      FlushNotDone(s, p);
      StartNotDone(Flush(s, p).0, p);
  }

  lemma CiteNotDone(s: State, p: nat, annotations: seq<Annotation>, snapshot: bool, cite: Cite)
    requires Linked(s) && p < |s.blocks| && !s.done
    ensures !CiteAct(s, p, annotations, snapshot, cite).0.done
  {
  }

  lemma {:induction false} RunAccounts(events: seq<StreamEvent>, cite: Cite)
    requires Run(events, cite).Some?
    ensures var (s, evs) := Run(events, cite).value;
            Accounted(s, evs, Log(events, cite))
  {
    hide Moves, Step, Accounted, StepLog, Coupled;
    if events == [] {
      NothingAccounted();
    } else {
      var n := |events| - 1;
      RunAccounts(events[..n], cite);
      var c1 := RunFollows(events[..n], cite);
      var (s, evs) := Run(events[..n], cite).value;
      StepAccounts(s, events[n], cite, c1, evs, Log(events[..n], cite));
    }
  }

  lemma NothingAccounted()
    ensures Accounted(INITIAL, [], [])
  {
  }

  // ---- the theorems -----------------------------------------------------------------------------------

  /** At any point of an error-free stream the deltas sent to a block are a prefix of the
      text it was given, all of it once the block is started. */
  lemma DeltasAreSentValue(events: seq<StreamEvent>, cite: Cite, b: nat)
    requires Run(events, cite).Some? && b < |Run(events, cite).value.0.blocks| && !Run(events, cite).value.0.done
    ensures var (s, evs) := Run(events, cite).value;
            && s.blocks[b].value == Hear(Log(events, cite), b).text
            && DeliveredTo(evs, b) == (if s.blocks[b].started then s.blocks[b].value else "")
            && (s.blocks[b].kind != ToolKind && s.blocks[b].value != "" ==> s.blocks[b].started)
  {
    var (s, evs) := Run(events, cite).value;
    RunAccounts(events, cite);
    var c := RunFollows(events, cite);
    var block := s.blocks[b];
    assert Tells(block, b, evs, Hear(Log(events, cite), b)) && Settled(block);
    assert block.value[..|block.value|] == block.value && block.value[..0] == "";
  }

  /** The whole output delivers to every block exactly the text it is due. */
  lemma OutputDelivers(events: seq<StreamEvent>, cite: Cite, b: nat)
    requires Run(events, cite).Some? && b < |Run(events, cite).value.0.blocks|
    ensures DeliveredTo(Output(events, cite), b) == Due(Hear(Log(events, cite), b))
  {
    hide Agrees, Tracks, Conclude, Hear, Run, Log, Settled;
    var (s, evs) := Run(events, cite).value;
    RunAccounts(events, cite);
    if s.done {
      assert Output(events, cite) == evs;
      assert Paid(s.blocks[b], b, evs, Hear(Log(events, cite), b));
    } else {
      var c := RunFollows(events, cite);
      ConcludePays(s, None, c, evs, Log(events, cite));
      assert Paid(Conclude(s, None).0.blocks[b], b, evs + Conclude(s, None).1, Hear(Log(events, cite), b));
    }
  }

  // ---- snapshots ------------------------------------------------------------------------------------------

  /** The text a block has so far, "" before there is a block, and whether it is still open. */
  function TextOf(s: State, b: int): string { if 0 <= b < |s.blocks| then s.blocks[b].value else "" }

  predicate IsOpen(s: State, b: int) { 0 <= b < |s.blocks| ==> !s.blocks[b].stopped }

  /** The done event of a text, a reasoning part or of arguments, or an item event. */
  predicate CarriesSnapshot(event: StreamEvent, snapshot: string) {
    OrderOf(event).OnBlock? && OrderOf(event).acts != [] && OrderOf(event).acts[0] == Merge(snapshot)
  }

  /** Acts that leave the text alone. */
  predicate Textless(acts: seq<Act>) { forall k :: 0 <= k < |acts| ==> !acts[k].Merge? && !acts[k].Append? }

  lemma {:induction false} TextlessAfter(h: Heard, first: Act, rest: seq<Act>)
    requires Textless(rest)
    ensures HearActs(h, [first] + rest).text == HearAct(h, first).text
  {
    if rest == [] {
      assert [first] + rest == [first] && [first][..0] == [];
    } else {
      var n := |rest| - 1;
      assert ([first] + rest)[..|[first] + rest| - 1] == [first] + rest[..n];
      TextlessAfter(h, first, rest[..n]);
      assert !rest[n].Merge? && !rest[n].Append?;
    }
  }

  lemma SnapshotIsFirst(event: StreamEvent, snapshot: string)
    requires CarriesSnapshot(event, snapshot)
    ensures Textless(OrderOf(event).acts[1..])
  {
    hide ReasoningText, MessageText, MessageAnnotations;
  }

  /** What the acts of a snapshot event make of the text. */
  lemma SnapshotHears(h: Heard, event: StreamEvent, snapshot: string)
    requires CarriesSnapshot(event, snapshot)
    ensures HearActs(h, OrderOf(event).acts).text == if !h.closed && h.text <= snapshot then snapshot else h.text
  {
    hide HearActs, OrderOf, Textless;
    var acts := OrderOf(event).acts;
    SnapshotIsFirst(event, snapshot);
    TextlessAfter(h, acts[0], acts[1..]);
    assert acts == [acts[0]] + acts[1..];
  }

  lemma StepAppends(events: seq<StreamEvent>, event: StreamEvent, cite: Cite)
    requires Run(events + [event], cite).Some?
    ensures Run(events, cite).Some? && Step(Run(events, cite).value.0, event, cite).Some?
    ensures Run(events + [event], cite).value.0 == Step(Run(events, cite).value.0, event, cite).value.0
    ensures Log(events + [event], cite) == Log(events, cite) + StepLog(Run(events, cite).value.0, event, cite)
  {
    hide Step, StepLog;
    assert (events + [event])[..|events|] == events;
  }

  /** What a block heard is its own text. */
  lemma HeardIsText(events: seq<StreamEvent>, cite: Cite, b: nat)
    requires Run(events, cite).Some? && !Run(events, cite).value.0.done
    ensures var s, h := Run(events, cite).value.0, Hear(Log(events, cite), b);
            h.text == TextOf(s, b) && (h.closed <==> !IsOpen(s, b))
  {
    hide Run, Log, Hear;
    RunAccounts(events, cite);
    var (s, evs) := Run(events, cite).value;
    if b < |s.blocks| {
      assert Tells(s.blocks[b], b, evs, Hear(Log(events, cite), b));
    }
  }

  lemma RoutedExists(s: State, event: StreamEvent, cite: Cite)
    requires Linked(s) && !s.done && OrderOf(event).OnBlock? && Step(s, event, cite).Some?
    ensures Route(s, event, OrderOf(event).kind) < |Step(s, event, cite).value.0.blocks|
    ensures StepLog(s, event, cite) == [EntryOf(s, event, OrderOf(event).kind, OrderOf(event).acts)]
    ensures !Step(s, event, cite).value.0.done
  {
    hide OrderOf, Route, PerformAll;
    OnlyFinishIsDone(s, event, cite);
  }

  /** A snapshot becomes the text of its block, and what the deltas sent for it add up to, exactly
      when the block is open and what it has so far is a prefix of the snapshot; otherwise the block
      keeps its text. */
  lemma SnapshotTakesEffect(events: seq<StreamEvent>, event: StreamEvent, cite: Cite, snapshot: string)
    requires Run(events, cite).Some? && !Run(events, cite).value.0.done
    requires Run(events + [event], cite).Some? && CarriesSnapshot(event, snapshot)
    ensures var s, (s', trace) := Run(events, cite).value.0, Run(events + [event], cite).value;
            var b := Route(s, event, OrderOf(event).kind);
            var taken := IsOpen(s, b) && TextOf(s, b) <= snapshot;
            && b < |s'.blocks|
            && s'.blocks[b].value == (if taken then snapshot else TextOf(s, b))
            && DeliveredTo(trace, b) == (if s'.blocks[b].started then s'.blocks[b].value else "")
            && (IsOpen(s, b) ==> (s'.blocks[b].value == snapshot <==> TextOf(s, b) <= snapshot))
            && (IsOpen(s, b) && s'.blocks[b].started
                ==> (DeliveredTo(trace, b) == snapshot <==> TextOf(s, b) <= snapshot))
  {
    hide Run, Log, Hear, HearActs, OrderOf, Route, Step, StepLog, DeliveredTo;
    var s, order := Run(events, cite).value.0, OrderOf(event);
    var b := Route(s, event, order.kind);
    StepAppends(events, event, cite);
    RoutedExists(s, event, cite);
    HeardIsText(events, cite, b);
    var e := EntryOf(s, event, order.kind, order.acts);
    HearSnoc(Log(events, cite), e, b);
    SnapshotHears(Met(Hear(Log(events, cite), b), e.kind, e.name), event, snapshot);
    DeltasAreSentValue(events + [event], cite, b);
  }

  /** Text only grows. */
  lemma {:induction false} ActsGrow(h: Heard, acts: seq<Act>)
    ensures h.text <= HearActs(h, acts).text
  {
    if acts != [] {
      ActsGrow(h, acts[..|acts| - 1]);
    }
  }

  lemma {:induction false} LogGrows(log: seq<Entry>, more: seq<Entry>, b: int)
    ensures Hear(log, b).text <= Hear(log + more, b).text
  {
    if more == [] {
      assert log + more == log;
    } else {
      var n := |more| - 1;
      LogGrows(log, more[..n], b);
      assert log + more == (log + more[..n]) + [more[n]];
      HearSnoc(log + more[..n], more[n], b);
      ActsGrow(Met(Hear(log + more[..n], b), more[n].kind, more[n].name), more[n].acts);
    }
  }

  /** A block that exists has the text it heard, at the end of the message too. */
  lemma HeardAtEnd(events: seq<StreamEvent>, cite: Cite, b: nat)
    requires Run(events, cite).Some? && b < |Run(events, cite).value.0.blocks|
    ensures Run(events, cite).value.0.blocks[b].value == Hear(Log(events, cite), b).text
  {
    hide Run, Log, Hear, Due;
    RunAccounts(events, cite);
    var (s, evs) := Run(events, cite).value;
    if s.done {
      assert Paid(s.blocks[b], b, evs, Hear(Log(events, cite), b));
    } else {
      assert Tells(s.blocks[b], b, evs, Hear(Log(events, cite), b));
    }
  }

  lemma DoneStays(s: State, event: StreamEvent, cite: Cite)
    requires Linked(s) && Step(s, event, cite).Some?
    ensures s.done ==> Step(s, event, cite).value.0 == s
    ensures |s.blocks| <= |Step(s, event, cite).value.0.blocks|
  {
    hide OrderOf, Obey, FinishWith;
  }

  lemma StepTextGrows(events: seq<StreamEvent>, event: StreamEvent, cite: Cite, b: nat)
    requires Run(events + [event], cite).Some?
    ensures Run(events, cite).Some?
    ensures TextOf(Run(events, cite).value.0, b) <= TextOf(Run(events + [event], cite).value.0, b)
  {
    hide Run, Log, Hear, Step, StepLog, Linked;
    StepAppends(events, event, cite);
    var s := Run(events, cite).value.0;
    DoneStays(s, event, cite);
    if !s.done {
      HeardIsText(events, cite, b);
      LogGrows(Log(events, cite), StepLog(s, event, cite), b);
      if b < |Run(events + [event], cite).value.0.blocks| { HeardAtEnd(events + [event], cite, b); }
    }
  }

  /** Whatever events follow, snapshots and the terminal response included, the text of a block only
      grows: what was sent is never taken back. */
  lemma {:induction false} TextGrows(events: seq<StreamEvent>, more: seq<StreamEvent>, cite: Cite, b: nat)
    requires Run(events + more, cite).Some?
    ensures Run(events, cite).Some?
    ensures TextOf(Run(events, cite).value.0, b) <= TextOf(Run(events + more, cite).value.0, b)
  {
    hide Run, TextOf;
    if more == [] {
      assert events + more == events;
    } else {
      var n := |more| - 1;
      assert events + more == (events + more[..n]) + [more[n]];
      StepTextGrows(events + more[..n], more[n], cite, b);
      TextGrows(events, more[..n], cite, b);
    }
  }

  // ---- snapshots that repeat --------------------------------------------------------------------------------

  /** After the act the block still has a part of the text. */
  predicate ActWithin(h: Heard, act: Act, text: string) { HearAct(h, act).text <= text }

  predicate ActsWithin(h: Heard, acts: seq<Act>, text: string) {
    forall k :: 0 <= k < |acts| ==> ActWithin(HearActs(h, acts[..k]), acts[k], text)
  }

  /** No delta, and no snapshot that is taken, goes beyond the text. */
  predicate Within(log: seq<Entry>, b: int, text: string) {
    forall k :: 0 <= k < |log| && log[k].block == b ==>
      ActsWithin(Met(Hear(log[..k], b), log[k].kind, log[k].name), log[k].acts, text)
  }

  predicate SnapshotIn(h: Heard, acts: seq<Act>, text: string) {
    exists k :: 0 <= k < |acts| && acts[k] == Merge(text) && !HearActs(h, acts[..k]).closed
  }

  /** The block got this text as a snapshot before it was closed. */
  predicate SnapshotHeard(log: seq<Entry>, b: int, text: string) {
    exists k :: 0 <= k < |log| && log[k].block == b
      && SnapshotIn(Met(Hear(log[..k], b), log[k].kind, log[k].name), log[k].acts, text)
  }

  lemma ActStaysWithin(h: Heard, act: Act, text: string)
    requires h.text <= text && ActWithin(h, act, text)
    ensures HearAct(h, act).text <= text
    ensures h.text == text || (act == Merge(text) && !h.closed) ==> HearAct(h, act).text == text
  {
    ActsGrow(h, [act]);
    assert [act][..0] == [] && HearActs(h, [act]) == HearAct(h, act);
    if h.text == text { assert HearAct(h, act).text == text; }
  }

  lemma ActsWithinPrefix(h: Heard, acts: seq<Act>, text: string)
    requires acts != []
    ensures ActsWithin(h, acts, text)
            <==> ActsWithin(h, acts[..|acts| - 1], text)
                 && ActWithin(HearActs(h, acts[..|acts| - 1]), acts[|acts| - 1], text)
  {
    hide ActWithin;
    var n := |acts| - 1;
    assert forall k :: 0 <= k < n ==> acts[..n][..k] == acts[..k];
    if ActsWithin(h, acts, text) {
      forall k | 0 <= k < n ensures ActWithin(HearActs(h, acts[..n][..k]), acts[..n][k], text) {
        assert ActWithin(HearActs(h, acts[..k]), acts[k], text);
      }
    }
    if ActsWithin(h, acts[..n], text) && ActWithin(HearActs(h, acts[..n]), acts[n], text) {
      forall k | 0 <= k < |acts| ensures ActWithin(HearActs(h, acts[..k]), acts[k], text) {
        if k < n { assert ActWithin(HearActs(h, acts[..n][..k]), acts[..n][k], text); }
      }
    }
  }

  lemma SnapshotInPrefix(h: Heard, acts: seq<Act>, text: string)
    requires acts != [] && SnapshotIn(h, acts, text)
    ensures SnapshotIn(h, acts[..|acts| - 1], text)
            || (acts[|acts| - 1] == Merge(text) && !HearActs(h, acts[..|acts| - 1]).closed)
  {
    hide HearActs;
    var n := |acts| - 1;
    var k :| 0 <= k < |acts| && acts[k] == Merge(text) && !HearActs(h, acts[..k]).closed;
    if k < n {
      assert acts[..n][..k] == acts[..k] && acts[..n][k] == acts[k];
    }
  }

  lemma {:induction false} ActsStayWithin(h: Heard, acts: seq<Act>, text: string)
    requires h.text <= text && ActsWithin(h, acts, text)
    ensures HearActs(h, acts).text <= text
    ensures h.text == text || SnapshotIn(h, acts, text) ==> HearActs(h, acts).text == text
  {
    hide HearAct, ActWithin, ActsWithin, SnapshotIn;
    if acts == [] {
      NoSnapshotIn(h, text);
    } else {
      var n := |acts| - 1;
      ActsWithinPrefix(h, acts, text);
      ActsStayWithin(h, acts[..n], text);
      ActStaysWithin(HearActs(h, acts[..n]), acts[n], text);
      if SnapshotIn(h, acts, text) {
        SnapshotInPrefix(h, acts, text);
      }
    }
  }

  lemma NoSnapshotIn(h: Heard, text: string)
    ensures !SnapshotIn(h, [], text)
  {
  }

  /** What is within the text at the end was within it all along. */
  lemma {:induction false} ActsWereWithin(h: Heard, acts: seq<Act>, text: string)
    requires HearActs(h, acts).text <= text
    ensures ActsWithin(h, acts, text)
  {
    hide ActsWithin;
    if acts == [] {
      NothingGoesBeyond(h, text);
    } else {
      var n := |acts| - 1;
      OneActGrows(HearActs(h, acts[..n]), acts[n]);
      ActsWereWithin(h, acts[..n], text);
      ActsWithinPrefix(h, acts, text);
    }
  }

  lemma NothingGoesBeyond(h: Heard, text: string)
    ensures ActsWithin(h, [], text)
  {
  }

  lemma OneActGrows(h: Heard, act: Act)
    ensures h.text <= HearAct(h, act).text
  {
  }

  lemma WithinSnoc(log: seq<Entry>, b: int, text: string)
    requires log != []
    ensures var before, e := log[..|log| - 1], log[|log| - 1];
            Within(log, b, text) <==>
            Within(before, b, text)
            && (e.block == b ==> ActsWithin(Met(Hear(before, b), e.kind, e.name), e.acts, text))
  {
    hide ActsWithin, Hear, Met;
    var n := |log| - 1;
    assert forall k :: 0 <= k < n ==> log[..n][..k] == log[..k];
    if Within(log, b, text) {
      forall k | 0 <= k < n && log[..n][k].block == b
        ensures ActsWithin(Met(Hear(log[..n][..k], b), log[..n][k].kind, log[..n][k].name), log[..n][k].acts, text)
      {
        assert log[k].block == b;
      }
    }
    if Within(log[..n], b, text)
       && (log[n].block == b ==> ActsWithin(Met(Hear(log[..n], b), log[n].kind, log[n].name), log[n].acts, text)) {
      forall k | 0 <= k < |log| && log[k].block == b
        ensures ActsWithin(Met(Hear(log[..k], b), log[k].kind, log[k].name), log[k].acts, text)
      {
        if k < n { assert log[..n][k].block == b; }
      }
    }
  }

  lemma SnapshotHeardPrefix(log: seq<Entry>, b: int, text: string)
    requires log != [] && SnapshotHeard(log, b, text)
    ensures var before, e := log[..|log| - 1], log[|log| - 1];
            SnapshotHeard(before, b, text)
            || (e.block == b && SnapshotIn(Met(Hear(before, b), e.kind, e.name), e.acts, text))
  {
    hide SnapshotIn, Hear, Met;
    var n := |log| - 1;
    var k :| 0 <= k < |log| && log[k].block == b
      && SnapshotIn(Met(Hear(log[..k], b), log[k].kind, log[k].name), log[k].acts, text);
    if k < n { assert log[..n][..k] == log[..k] && log[..n][k] == log[k]; }
  }

  lemma {:induction false} StaysWithin(log: seq<Entry>, b: int, text: string)
    requires Within(log, b, text)
    ensures Hear(log, b).text <= text
    ensures SnapshotHeard(log, b, text) ==> Hear(log, b).text == text
  {
    hide Within, SnapshotHeard, ActsWithin, SnapshotIn, HearActs;
    if log == [] {
      NothingHeard(b, text);
    } else {
      var n := |log| - 1;
      WithinSnoc(log, b, text);
      StaysWithin(log[..n], b, text);
      if log[n].block == b {
        ActsStayWithin(Met(Hear(log[..n], b), log[n].kind, log[n].name), log[n].acts, text);
      }
      if SnapshotHeard(log, b, text) { SnapshotHeardPrefix(log, b, text); }
    }
  }

  lemma NothingHeard(b: int, text: string)
    ensures !SnapshotHeard([], b, text) && Within([], b, text) && Hear([], b) == NOTHING
  {
  }

  lemma {:induction false} WasWithin(log: seq<Entry>, b: int, text: string)
    requires Hear(log, b).text <= text
    ensures Within(log, b, text)
  {
    hide Within, ActsWithin, HearActs;
    if log == [] {
      NothingHeard(b, text);
    } else {
      var n := |log| - 1;
      WithinSnoc(log, b, text);
      if log[n].block == b {
        var h := Met(Hear(log[..n], b), log[n].kind, log[n].name);
        ActsGrow(h, log[n].acts);
        ActsWereWithin(h, log[n].acts, text);
      }
      WasWithin(log[..n], b, text);
    }
  }

  /** A tool that nobody named. */
  predicate Nameless(h: Heard) { h.kind == ToolKind && h.name == "" }

  /** A block that gets a text as a snapshot before it is closed is delivered exactly that text, however
      often text.done, item.done and the terminal response repeat it and whatever part of it items and
      earlier snapshots carried, if and only if no delta and no snapshot that is taken goes beyond it. A
      tool nobody named is delivered nothing. */
  lemma SnapshotsDeliverOnce(events: seq<StreamEvent>, cite: Cite, b: nat, text: string)
    requires Run(events, cite).Some? && b < |Run(events, cite).value.0.blocks|
    requires SnapshotHeard(Log(events, cite), b, text)
    ensures var h := Hear(Log(events, cite), b);
            if Nameless(h) then DeliveredTo(Output(events, cite), b) == ""
            else DeliveredTo(Output(events, cite), b) == text <==> Within(Log(events, cite), b, text)
  {
    hide Run, Log, Hear, Within, SnapshotHeard, Output, DeliveredTo;
    OutputDelivers(events, cite, b);
    if Within(Log(events, cite), b, text) { StaysWithin(Log(events, cite), b, text); }
    if Hear(Log(events, cite), b).text == text { WasWithin(Log(events, cite), b, text); }
  }

  // ---- snapshots that say what deltas said ---------------------------------------------------------------------

  /** The acts of the events routed to a block. */
  function ActsFor(log: seq<Entry>, b: int): seq<Act> {
    if log == [] then [] else
      ActsFor(log[..|log| - 1], b) + if log[|log| - 1].block == b then log[|log| - 1].acts else []
  }

  /** The deltas among some acts. */
  function Said(acts: seq<Act>): string {
    if acts == [] then "" else
      Said(acts[..|acts| - 1]) + if acts[|acts| - 1].Append? then acts[|acts| - 1].text else ""
  }

  /** Snapshots carry no more than was said before them, and a part or a block ends only when all of
      the text was said. */
  predicate Echoes(acts: seq<Act>, text: string) {
    forall k :: 0 <= k < |acts| ==>
      && (acts[k].Merge? ==> acts[k].text <= Said(acts[..k]))
      && (acts[k].Break? || acts[k].Close? ==> Said(acts[..k]) == text)
  }

  /** A block that heard what was said, and everything if a part of it or it itself has ended. */
  predicate Echoing(h: Heard, said: string, text: string) {
    h.text == said && (h.closed || h.breakPending ==> said == text)
  }

  lemma EchoAct(h: Heard, act: Act, said: string, text: string)
    requires Echoing(h, said, text) && (act.Merge? ==> act.text <= said)
    requires act.Break? || act.Close? ==> said == text
    requires var said' := said + if act.Append? then act.text else ""; said' <= text
    ensures Echoing(HearAct(h, act), said + if act.Append? then act.text else "", text)
  {
    assert said + "" == said;
    if act.Append? && said == text { assert act.text == "" && said + act.text == said; }
  }

  lemma {:induction false} SaidGrows(acts: seq<Act>, more: seq<Act>)
    ensures Said(acts) <= Said(acts + more)
  {
    if more == [] {
      assert acts + more == acts;
    } else {
      var n := |more| - 1;
      assert (acts + more)[..|acts + more| - 1] == acts + more[..n];
      SaidGrows(acts, more[..n]);
    }
  }

  /** Some acts after others. */
  lemma {:induction false} EchoActs(h: Heard, before: seq<Act>, acts: seq<Act>, text: string)
    requires Echoing(h, Said(before), text) && Echoes(before + acts, text) && Said(before + acts) <= text
    ensures Echoing(HearActs(h, acts), Said(before + acts), text)
  {
    hide Echoing, HearAct, Said, Echoes;
    if acts == [] {
      assert before + acts == before;
    } else {
      var n := |acts| - 1;
      var all := before + acts;
      assert all[..|all| - 1] == before + acts[..n] && all[|all| - 1] == acts[n];
      SaidIs(all);
      EchoesPrefix(all, text);
      EchoActs(h, before, acts[..n], text);
      EchoAct(HearActs(h, acts[..n]), acts[n], Said(before + acts[..n]), text);
    }
  }

  lemma SaidIs(acts: seq<Act>)
    requires acts != []
    ensures Said(acts) == Said(acts[..|acts| - 1]) + if acts[|acts| - 1].Append? then acts[|acts| - 1].text else ""
    ensures Said(acts[..|acts| - 1]) <= Said(acts)
  {
  }

  lemma EchoesPrefix(acts: seq<Act>, text: string)
    requires acts != [] && Echoes(acts, text)
    ensures Echoes(acts[..|acts| - 1], text)
    ensures var before, last := acts[..|acts| - 1], acts[|acts| - 1];
            && (last.Merge? ==> last.text <= Said(before))
            && (last.Break? || last.Close? ==> Said(before) == text)
  {
    hide Said;
    var n := |acts| - 1;
    assert forall k :: 0 <= k < n ==> acts[..n][..k] == acts[..k];
  }

  lemma {:induction false} EchoesPart(acts: seq<Act>, more: seq<Act>, text: string)
    requires Echoes(acts + more, text)
    ensures Echoes(acts, text)
  {
    hide Said;
    assert forall k :: 0 <= k < |acts| ==> (acts + more)[..k] == acts[..k] && (acts + more)[k] == acts[k];
  }

  lemma {:induction false} EchoLog(log: seq<Entry>, b: int, text: string)
    requires Echoes(ActsFor(log, b), text) && Said(ActsFor(log, b)) <= text
    ensures Echoing(Hear(log, b), Said(ActsFor(log, b)), text)
  {
    hide Echoing, Echoes, HearActs;
    if log == [] {
      NothingEchoes(text);
    } else {
      var n := |log| - 1;
      var before, acts := ActsFor(log[..n], b), if log[n].block == b then log[n].acts else [];
      EchoesPart(before, acts, text);
      SaidGrows(before, acts);
      EchoLog(log[..n], b, text);
      if log[n].block == b {
        var h := Met(Hear(log[..n], b), log[n].kind, log[n].name);
        SameEcho(Hear(log[..n], b), h, Said(before), text);
        EchoActs(h, before, acts, text);
      } else {
        assert before + [] == before;
      }
    }
  }

  lemma SameEcho(h: Heard, h': Heard, said: string, text: string)
    requires Echoing(h, said, text) && h'.text == h.text && h'.closed == h.closed && h'.breakPending == h.breakPending
    ensures Echoing(h', said, text)
  {
  }

  lemma NothingEchoes(text: string)
    ensures Echoing(NOTHING, Said([]), text)
  {
  }

  /** In particular a block whose item is announced empty, whose deltas add up to a text, and whose
      snapshots only repeat what was said by then, is delivered the deltas and nothing more. */
  lemma EchoesAddNothing(events: seq<StreamEvent>, cite: Cite, b: nat)
    requires Run(events, cite).Some? && b < |Run(events, cite).value.0.blocks|
    requires Echoes(ActsFor(Log(events, cite), b), Said(ActsFor(Log(events, cite), b)))
    ensures DeliveredTo(Output(events, cite), b) ==
            if Nameless(Hear(Log(events, cite), b)) then "" else Said(ActsFor(Log(events, cite), b))
  {
    hide Run, Log, Hear, Output, DeliveredTo, Echoes, ActsFor, Said;
    OutputDelivers(events, cite, b);
    EchoLog(Log(events, cite), b, Said(ActsFor(Log(events, cite), b)));
  }
}
