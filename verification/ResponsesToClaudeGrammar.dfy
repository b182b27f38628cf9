/** Every error-free Responses to Claude stream is a complete Claude stream whose
    thinking blocks are signed. */
module ResponsesToClaudeGrammar {
  import opened ClaudeTrace
  import opened Basics
  import opened ResponsesDto
  import opened ResponsesToClaude

  // ---- the state and the grammar's cursor ---------------------------------------------

  /** A block about to be flushed. */
  predicate Unflushed(block: Block) {
    && (block.stopped ==> block.started && block.sent == |block.value|)
    && (!block.started ==> block.sent == 0)
  }

  /** Nothing of a started block is held back, and only a nameless tool can hold back. */
  predicate Settled(block: Block) {
    && (block.stopped ==> block.started)
    && (block.started ==> block.sent == |block.value|)
    && (!block.started ==> block.sent == 0 && (block.kind != ToolKind ==> block.value == ""))
  }

  predicate AllSettled(s: State) { forall b :: 0 <= b < |s.blocks| ==> Settled(s.blocks[b]) }

  predicate OthersSettled(s: State, p: nat) { forall b :: 0 <= b < |s.blocks| && b != p ==> Settled(s.blocks[b]) }

  ghost predicate Mirrored(s: State, c: Cursor) {
    && (forall b :: b in c.open <==> 0 <= b < |s.blocks| && s.blocks[b].started && !s.blocks[b].stopped)
    && (forall b :: b in c.open ==> c.open[b] == s.blocks[b].kind)
    && (forall b :: b in c.closed <==> 0 <= b < |s.blocks| && s.blocks[b].stopped)
  }

  /** message_start is out when the state says so, and at the latest with the first block. */
  ghost predicate Agrees(s: State, c: Cursor) {
    && !s.done && c.sealed == {} && c.phase == (if s.sentStart then Streaming else Fresh)
    && (!s.sentStart ==> forall b :: 0 <= b < |s.blocks| ==> !s.blocks[b].started)
    && Mirrored(s, c)
  }

  predicate Moves(c: Cursor, evs: seq<Event>, c': Cursor) { Follows(true, c, evs) && After(c, evs) == c' }

  lemma Chain(c: Cursor, a: seq<Event>, c': Cursor, b: seq<Event>, c'': Cursor)
    requires Moves(c, a, c') && Moves(c', b, c'')
    ensures Moves(c, a + b, c'')
  {
    Concatenation(true, c, a, b);
  }

  lemma Idle(c: Cursor)
    ensures Moves(c, [], c)
  {
  }

  lemma Emit(c: Cursor, e: Event)
    requires Allowed(true, c, e)
    ensures Moves(c, [e], Advance(c, e))
  {
    One(true, c, e);
  }

  // ---- acting on a block -----------------------------------------------------------------

  /** Changes to a block that leave started, stopped and kind alone do not show. */
  lemma Unseen(s: State, p: nat, block: Block, c: Cursor)
    requires Agrees(s, c) && p < |s.blocks|
    requires block.kind == s.blocks[p].kind && block.started == s.blocks[p].started
             && block.stopped == s.blocks[p].stopped
    ensures Agrees(s.(blocks := s.blocks[p := block]), c)
  {
  }

  lemma StartFollows(s: State, p: nat, c: Cursor) returns (c': Cursor)
    requires Linked(s) && p < |s.blocks| && Agrees(s, c)
    ensures var (s', evs) := StartBlock(s, p);
            Agrees(s', c') && Moves(c, evs, c')
  {
    var block := s.blocks[p];
    if block.started || block.stopped || !Startable(block) {
      c' := c;
    } else {
      var c1 := c;
      if !s.sentStart {
        Emit(c, MessageStart);
        c1 := Advance(c, MessageStart);
      }
      var start := BlockStart(p, ContentOf(block));
      Emit(c1, start);
      c' := Advance(c1, start);
      Chain(c, MessageOpened(s), c1, [start], c');
    }
  }

  lemma SendFollows(s: State, p: nat, delta: Delta, c: Cursor)
    requires p < |s.blocks| && Agrees(s, c) && s.blocks[p].started && !s.blocks[p].stopped
    requires delta.BlockKind() == s.blocks[p].kind && !delta.SignatureDelta?
    ensures Moves(c, [BlockDelta(p, delta)], c)
  {
    Emit(c, BlockDelta(p, delta));
  }

  lemma FlushFollows(s: State, p: nat, c: Cursor) returns (c': Cursor)
    requires Linked(s) && p < |s.blocks| && Agrees(s, c) && OthersSettled(s, p) && Unflushed(s.blocks[p])
    ensures var (s', evs) := Flush(s, p);
            Agrees(s', c') && Moves(c, evs, c') && AllSettled(s') && (s'.blocks[p].started || !Startable(s'.blocks[p]))
  {
    hide Moves, Agrees;
    if s.blocks[p].stopped {
      c' := c;
      Idle(c);
    } else {
      c' := StartFollows(s, p, c);
      var (s1, evs) := StartBlock(s, p);
      var block := s1.blocks[p];
      if block.started && block.sent < |block.value| {
        var delta := DeltaOf(block.kind, block.value[block.sent..]);
        SendFollows(s1, p, delta, c');
        Chain(c, evs, c', [BlockDelta(p, delta)], c');
        Unseen(s1, p, block.(sent := |block.value|), c');
      }
    }
  }

  lemma RevalueFollows(s: State, p: nat, value: string, c: Cursor) returns (c': Cursor)
    requires Linked(s) && p < |s.blocks| && Agrees(s, c) && AllSettled(s)
    requires !s.blocks[p].stopped && s.blocks[p].value <= value
    ensures var (s', evs) := Revalue(s, p, value);
            Agrees(s', c') && Moves(c, evs, c') && AllSettled(s')
  {
    hide Moves, Agrees;
    Unseen(s, p, s.blocks[p].(value := value), c);
    c' := FlushFollows(s.(blocks := s.blocks[p := s.blocks[p].(value := value)]), p, c);
  }

  lemma AppendFollows(s: State, p: nat, text: string, c: Cursor) returns (c': Cursor)
    requires Linked(s) && p < |s.blocks| && Agrees(s, c) && AllSettled(s)
    ensures var (s', evs) := AppendAct(s, p, text);
            Agrees(s', c') && Moves(c, evs, c') && AllSettled(s')
  {
    hide Moves, Agrees, Revalue;
    var block := s.blocks[p];
    c' := c;
    Idle(c);
    if text != "" {
      var separate := block.kind == ThinkingKind && block.needsBreak;
      var s1 := if separate then s.(blocks := s.blocks[p := block.(needsBreak := false)]) else s;
      if separate { Unseen(s, p, block.(needsBreak := false), c); }
      if !block.stopped {
        c' := RevalueFollows(s1, p, block.value + if separate then Separated(text) else text, c);
      }
    }
  }

  lemma {:induction false} CitationDeltasFollow(s: State, p: nat, citations: seq<Citation>, c: Cursor)
    requires p < |s.blocks| && Agrees(s, c) && s.blocks[p].started && !s.blocks[p].stopped
             && s.blocks[p].kind == TextKind
    ensures Moves(c, ResponsesToClaude.CitationDeltas(p, citations), c)
  {
    hide Moves, Agrees;
    if citations == [] {
      Idle(c);
    } else {
      var n := |citations| - 1;
      CitationDeltasFollow(s, p, citations[..n], c);
      SendFollows(s, p, CitationDelta(citations[n]), c);
      Chain(c, ResponsesToClaude.CitationDeltas(p, citations[..n]), c, [BlockDelta(p, CitationDelta(citations[n]))], c);
    }
  }

  lemma CiteFollows(s: State, p: nat, annotations: seq<Annotation>, snapshot: bool, cite: Cite, c: Cursor)
    returns (c': Cursor)
    requires Linked(s) && p < |s.blocks| && Agrees(s, c) && AllSettled(s)
    ensures var (s', evs) := CiteAct(s, p, annotations, snapshot, cite);
            Agrees(s', c') && Moves(c, evs, c') && AllSettled(s')
  {
    hide Moves, Agrees, StartBlock, ResponsesToClaude.CitationDeltas;
    var block := s.blocks[p];
    c' := c;
    Idle(c);
    if block.kind != TextKind || block.stopped || annotations == []
      || (snapshot && |annotations| <= block.annotationCount) {
      return;
    }
    var remaining := if snapshot then annotations[block.annotationCount..] else annotations;
    var count := if snapshot then |annotations| else block.annotationCount + |annotations|;
    var s1 := s.(blocks := s.blocks[p := block.(annotationCount := count)]);
    Unseen(s, p, block.(annotationCount := count), c);
    var citations := cite(remaining, block.value);
    if citations != [] {
      c' := StartedCitesFollow(s1, p, citations, c);
    }
  }

  lemma StartedCitesFollow(s: State, p: nat, citations: seq<Citation>, c: Cursor) returns (c': Cursor)
    requires Linked(s) && p < |s.blocks| && Agrees(s, c) && AllSettled(s)
    requires s.blocks[p].kind == TextKind && !s.blocks[p].stopped
    ensures var (s', evs) := StartBlock(s, p);
            Agrees(s', c') && Moves(c, evs + ResponsesToClaude.CitationDeltas(p, citations), c') && AllSettled(s')
  {
    hide Moves, Agrees;
    c' := StartFollows(s, p, c);
    var (s2, evs) := StartBlock(s, p);
    CitationDeltasFollow(s2, p, citations, c');
    Chain(c, evs, c', ResponsesToClaude.CitationDeltas(p, citations), c');
  }

  /** Stopping a started block, signed if it is a thinking block. */
  lemma StopFollows(s: State, p: nat, c: Cursor) returns (c': Cursor)
    requires p < |s.blocks| && Agrees(s, c) && s.blocks[p].started && !s.blocks[p].stopped
    ensures Agrees(s.(blocks := s.blocks[p := s.blocks[p].(stopped := true)]), c')
    ensures Moves(c, (if s.blocks[p].kind == ThinkingKind then [BlockDelta(p, SignatureDelta)] else [])
                  + [BlockStop(p)], c')
  {
    var c1 := c;
    if s.blocks[p].kind == ThinkingKind {
      Emit(c, BlockDelta(p, SignatureDelta));
      c1 := Advance(c, BlockDelta(p, SignatureDelta));
    }
    Emit(c1, BlockStop(p));
    c' := Advance(c1, BlockStop(p));
    Chain(c, if s.blocks[p].kind == ThinkingKind then [BlockDelta(p, SignatureDelta)] else [], c1, [BlockStop(p)], c');
  }

  lemma CloseFollows(s: State, p: nat, c: Cursor) returns (c': Cursor)
    requires Linked(s) && p < |s.blocks| && Agrees(s, c) && AllSettled(s)
    ensures var (s', evs) := CloseAct(s, p);
            Agrees(s', c') && Moves(c, evs, c') && AllSettled(s') && (s'.blocks[p].stopped || !s'.blocks[p].started)
  {
    hide Moves, Agrees, Flush;
    if s.blocks[p].stopped {
      c' := c;
      Idle(c);
    } else {
      var c1 := FlushFollows(s, p, c);
      var (s1, evs1) := Flush(s, p);
      assert StartBlock(s1, p) == (s1, []);
      assert evs1 + [] == evs1;
      c' := c1;
      if s1.blocks[p].started && !s1.blocks[p].stopped {
        c' := StopFollows(s1, p, c1);
        var last := (if s1.blocks[p].kind == ThinkingKind then [BlockDelta(p, SignatureDelta)] else [])
          + [BlockStop(p)];
        Chain(c, evs1, c1, last, c');
        assert CloseAct(s, p).1 == evs1 + last;
      } else if s1.blocks[p].stopped {
        FlushNeverStops(s, p);
      }
    }
  }

  lemma FlushNeverStops(s: State, p: nat)
    requires Linked(s) && p < |s.blocks|
    ensures Flush(s, p).0.blocks[p].stopped == s.blocks[p].stopped
  {
  }

  lemma PerformFollows(s: State, p: nat, act: Act, cite: Cite, c: Cursor) returns (c': Cursor)
    requires Linked(s) && p < |s.blocks| && Agrees(s, c) && AllSettled(s)
    ensures var (s', evs) := Perform(s, p, act, cite);
            Agrees(s', c') && Moves(c, evs, c') && AllSettled(s')
  {
    hide Moves, Agrees, AppendAct, CiteAct, CloseAct, Revalue;
    c' := c;
    Idle(c);
    match act
    case Append(text) => c' := AppendFollows(s, p, text, c);
    case Merge(text) =>
      if !s.blocks[p].stopped {
        c' := RevalueFollows(s, p, Merged(s.blocks[p].value, text), c);
      }
    case Break => Unseen(s, p, s.blocks[p].(needsBreak := true), c);
    case Cited(annotations, snapshot) => c' := CiteFollows(s, p, annotations, snapshot, cite, c);
    case Close => c' := CloseFollows(s, p, c);
  }

  lemma {:induction false} PerformAllFollows(s: State, p: nat, acts: seq<Act>, cite: Cite, c: Cursor)
    returns (c': Cursor)
    requires Linked(s) && p < |s.blocks| && Agrees(s, c) && AllSettled(s)
    ensures var (s', evs) := PerformAll(s, p, acts, cite);
            Agrees(s', c') && Moves(c, evs, c') && AllSettled(s')
  {
    hide Moves, Agrees, Perform;
    if acts == [] {
      c' := c;
      Idle(c);
    } else {
      var n := |acts| - 1;
      var c1 := PerformAllFollows(s, p, acts[..n], cite, c);
      var (s1, evs1) := PerformAll(s, p, acts[..n], cite);
      c' := PerformFollows(s1, p, acts[n], cite, c1);
      Chain(c, evs1, c1, Perform(s1, p, acts[n], cite).1, c');
    }
  }

  // ---- events -------------------------------------------------------------------------------

  /** Routing only adds unstarted blocks and describes them. */
  lemma EnsureAgrees(s: State, event: StreamEvent, kind: Kind, c: Cursor)
    requires Linked(s) && Agrees(s, c) && AllSettled(s) && EnsureBlock(s, event, kind).Some?
    ensures Agrees(EnsureBlock(s, event, kind).value.0, c) && AllSettled(EnsureBlock(s, event, kind).value.0)
  {
    hide ItemIdOf, Linked, Route;
    var s' := EnsureBlock(s, event, kind).value.0;
    var p := Route(s, event, kind);
    assert forall b :: 0 <= b < |s.blocks| ==>
            s'.blocks[b].started == s.blocks[b].started && s'.blocks[b].stopped == s.blocks[b].stopped;
  }

  lemma ObeyFollows(s: State, event: StreamEvent, kind: Kind, acts: seq<Act>, cite: Cite, c: Cursor)
    returns (c': Cursor)
    requires Linked(s) && Agrees(s, c) && AllSettled(s) && Obey(s, event, kind, acts, cite).Some?
    ensures var (s', evs) := Obey(s, event, kind, acts, cite).value;
            Agrees(s', c') && Moves(c, evs, c') && AllSettled(s')
  {
    hide Moves, Agrees, EnsureBlock, PerformAll;
    EnsureAgrees(s, event, kind, c);
    var (s1, p) := EnsureBlock(s, event, kind).value;
    c' := PerformAllFollows(s1, p, acts, cite, c);
  }

  lemma {:induction false} OutputItemsFollow(s: State, output: seq<Item>, cite: Cite, c: Cursor) returns (c': Cursor)
    requires Linked(s) && Agrees(s, c) && AllSettled(s) && OutputItems(s, output, cite).Some?
    ensures var (s', evs) := OutputItems(s, output, cite).value;
            Agrees(s', c') && Moves(c, evs, c') && AllSettled(s')
  {
    hide Moves, Agrees, Obey;
    if output == [] {
      c' := c;
      Idle(c);
    } else {
      var n := |output| - 1;
      var c1 := OutputItemsFollow(s, output[..n], cite, c);
      var (s1, evs1) := OutputItems(s, output[..n], cite).value;
      c' := c1;
      var order := ItemOrder(output[n], true);
      if order.OnBlock? {
        c' := ObeyFollows(s1, OutputEvent(output[n], n), order.kind, order.acts, cite, c1);
        Chain(c, evs1, c1, Obey(s1, OutputEvent(output[n], n), order.kind, order.acts, cite).value.1, c');
      }
    }
  }

  /** The blocks closed so far stay closed while the others are. */
  lemma {:induction false} CloseAllFollows(s: State, count: nat, c: Cursor) returns (c': Cursor)
    requires Linked(s) && count <= |s.blocks| && Agrees(s, c) && AllSettled(s)
    ensures var (s', evs) := CloseAll(s, count);
            && Agrees(s', c') && Moves(c, evs, c') && AllSettled(s')
            && forall b :: 0 <= b < count ==> s'.blocks[b].stopped || !s'.blocks[b].started
  {
    hide Moves, Agrees, CloseAct, After, Extends, Follows, Linked;
    if count == 0 {
      c' := c;
      Idle(c);
    } else {
      var c1 := CloseAllFollows(s, count - 1, c);
      var (s1, evs1) := CloseAll(s, count - 1);
      c' := CloseFollows(s1, count - 1, c1);
      Chain(c, evs1, c1, CloseAct(s1, count - 1).1, c');
      CloseIsLocal(s1, count - 1);
    }
  }

  lemma StartIsLocal(s: State, p: nat)
    requires Linked(s) && p < |s.blocks|
    ensures var block := s.blocks[p];
            StartBlock(s, p).0.blocks ==
            s.blocks[p := block.(started := block.started || (!block.stopped && Startable(block)))]
  {
  }

  lemma FlushIsLocal(s: State, p: nat)
    requires Linked(s) && p < |s.blocks|
    ensures Flush(s, p).0.blocks == s.blocks[p := Flush(s, p).0.blocks[p]]
  {
    hide StartBlock;
    StartIsLocal(s, p);
  }

  lemma CloseIsLocal(s: State, p: nat)
    requires Linked(s) && p < |s.blocks|
    ensures CloseAct(s, p).0.blocks == s.blocks[p := CloseAct(s, p).0.blocks[p]]
  {
    hide StartBlock, Flush;
    FlushIsLocal(s, p);
    StartIsLocal(Flush(s, p).0, p);
  }

  /** message_delta and message_stop, once nothing is open. */
  lemma EndFollows(s: State, reason: string, c: Cursor) returns (c': Cursor)
    requires Agrees(s, c) && forall b :: 0 <= b < |s.blocks| ==> s.blocks[b].stopped || !s.blocks[b].started
    ensures c'.phase == Ended && Moves(c, MessageOpened(s) + [MessageDelta(reason), MessageStop], c')
  {
    var c1 := c;
    if !s.sentStart {
      Emit(c, MessageStart);
      c1 := Advance(c, MessageStart);
    }
    assert forall b :: b !in c1.open;
    assert c1.open == map[];
    var c2 := Advance(c1, MessageDelta(reason));
    c' := Advance(c2, MessageStop);
    Emit(c1, MessageDelta(reason));
    Emit(c2, MessageStop);
    Chain(c1, [MessageDelta(reason)], c2, [MessageStop], c');
    assert [MessageDelta(reason)] + [MessageStop] == [MessageDelta(reason), MessageStop];
    Chain(c, MessageOpened(s), c1, [MessageDelta(reason), MessageStop], c');
  }

  lemma ConcludeFollows(s: State, response: Option<Response>, c: Cursor) returns (c': Cursor)
    requires Linked(s) && Agrees(s, c) && AllSettled(s)
    ensures c'.phase == Ended && Moves(c, Conclude(s, response).1, c')
  {
    hide Moves, Agrees, CloseAll;
    var c1 := CloseAllFollows(s, |s.blocks|, c);
    var (s1, evs1) := CloseAll(s, |s.blocks|);
    var reason := ResponsesToClaude.StopReason(response, s1.sawToolCall);
    c' := EndFollows(s1, reason, c1);
    var last := MessageOpened(s1) + [MessageDelta(reason), MessageStop];
    Chain(c, evs1, c1, last, c');
    assert Conclude(s, response).1 == evs1 + last;
  }

  /** Where the stream stands in the grammar after each event. */
  ghost predicate Coupled(s: State, c: Cursor) {
    if s.done then c.phase == Ended else Agrees(s, c) && AllSettled(s)
  }

  lemma FinishFollows(s: State, response: Option<Response>, cite: Cite, c: Cursor) returns (c': Cursor)
    requires Linked(s) && Agrees(s, c) && AllSettled(s) && FinishWith(s, response, cite).Some?
    ensures var (s', evs) := FinishWith(s, response, cite).value;
            Coupled(s', c') && Moves(c, evs, c')
  {
    hide Moves, Agrees, OutputItems, Conclude;
    var c1 := c;
    Idle(c);
    if response.Some? {
      c1 := OutputItemsFollow(s, response.value.output, cite, c);
    }
    var (s1, evs1) := if response.Some? then OutputItems(s, response.value.output, cite).value else (s, []);
    c' := ConcludeFollows(s1, response, c1);
    Chain(c, evs1, c1, Conclude(s1, response).1, c');
    ConcludeIsDone(s1, response);
  }

  lemma ConcludeIsDone(s: State, response: Option<Response>)
    requires Linked(s)
    ensures Conclude(s, response).0.done
  {
  }

  lemma StepFollows(s: State, event: StreamEvent, cite: Cite, c: Cursor) returns (c': Cursor)
    requires Linked(s) && Coupled(s, c) && Step(s, event, cite).Some?
    ensures var (s', evs) := Step(s, event, cite).value;
            Coupled(s', c') && Moves(c, evs, c')
  {
    hide Moves, Obey, FinishWith, OrderOf;
    c' := c;
    Idle(c);
    if !s.done {
      match OrderOf(event)
      case Ignore =>
      case Fail =>
      case Greet =>
        if !s.sentStart {
          Emit(c, MessageStart);
          c' := Advance(c, MessageStart);
        }
      case OnBlock(kind, acts) => c' := ObeyFollows(s, event, kind, acts, cite, c);
      case Finish(response) => c' := FinishFollows(s, response, cite, c);
    }
  }

  lemma {:induction false} RunFollows(events: seq<StreamEvent>, cite: Cite) returns (c: Cursor)
    requires Run(events, cite).Some?
    ensures var (s, evs) := Run(events, cite).value;
            Coupled(s, c) && Moves(START, evs, c)
  {
    hide Moves, Step;
    if events == [] {
      c := START;
      Idle(c);
    } else {
      var n := |events| - 1;
      var c1 := RunFollows(events[..n], cite);
      var (s, evs) := Run(events[..n], cite).value;
      c := StepFollows(s, events[n], cite, c1);
      Chain(START, evs, c1, Step(s, events[n], cite).value.1, c);
    }
  }

  /** Every error-free stream comes out as a complete, signed Claude message, the empty
      one included, whether a terminal event or the finalizer ended it. */
  lemma OutputIsComplete(events: seq<StreamEvent>, cite: Cite)
    requires Run(events, cite).Some?
    ensures Complete(true, Output(events, cite))
  {
    var (s, evs) := Run(events, cite).value;
    var c := RunFollows(events, cite);
    if s.done {
      assert Output(events, cite) == evs;
    } else {
      var c' := ConcludeFollows(s, None, c);
      Chain(START, evs, c, Final(s).1, c');
    }
  }
}
