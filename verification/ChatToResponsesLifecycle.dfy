/** Every error-free Chat to Responses stream with a fixed id, ended by the finalizer or by
    a failure, announces its items under consecutive indexes, completes each exactly once,
    and lists exactly them in its one terminal event. */
module ChatToResponsesLifecycle {
  import opened Basics
  import opened ChatDto
  import opened ResponsesDto
  import opened ChatToResponses
  import Trace = ResponsesTrace
  import InsertionSort
  import Text

  // ---- the state and the life of its items ---------------------------------------------------

  /** What was announced at index k is what the state has there. */
  predicate Matches(s: State, k: int, item: Item) {
    0 <= k < |s.order| &&
    match s.order[k]
    case MessageRef => s.textStarted && s.textIndex == k && item.itemType.MessageType? && item.id == MessageId(s)
    case ReasoningRef => s.reasoningStarted && s.reasoningIndex == k && item.itemType.ReasoningType?
      && item.id == ReasoningId(s)
    case ToolRef(i) => i in s.tools && s.tools[i].outputIndex == k && item.itemType.ToolType?
      && item.id == s.tools[i].itemId
    case HostedRef(h) => h in s.hosted && s.hosted[h].outputIndex == k && Trace.SameItem(item, s.hosted[h].item)
  }

  predicate DoneAt(s: State, k: int) {
    0 <= k < |s.order| &&
    match s.order[k]
    case MessageRef => s.textDone
    case ReasoningRef => s.reasoningDone
    case ToolRef(i) => i in s.tools && s.tools[i].done
    case HostedRef(h) => h in s.hosted && s.hosted[h].done
  }

  predicate RefAt(s: State, k: int, ref: Ref) { 0 <= k < |s.order| && s.order[k] == ref }

  predicate Indexed(s: State) {
    && (s.textStarted ==> RefAt(s, s.textIndex, MessageRef))
    && (s.reasoningStarted ==> RefAt(s, s.reasoningIndex, ReasoningRef))
    && (forall i :: i in s.tools ==> RefAt(s, s.tools[i].outputIndex, ToolRef(i)))
    && (forall h :: h in s.hosted ==> RefAt(s, s.hosted[h].outputIndex, HostedRef(h)))
    && (s.textDone ==> s.textStarted) && (s.reasoningDone ==> s.reasoningStarted)
  }

  ghost predicate Coupled(s: State, c: Trace.Cursor) {
    && c.created == s.sentCreated && !c.ended && |c.added| == |s.order| && (s.order != [] ==> s.sentCreated)
    && (forall k :: 0 <= k < |s.order| ==> Matches(s, k, c.added[k]))
    && (forall k: nat :: k in c.done <==> DoneAt(s, k))
    && Indexed(s)
  }

  predicate Moves(c: Trace.Cursor, evs: seq<StreamEvent>, c': Trace.Cursor) {
    Trace.Follows(c, evs) && Trace.After(c, evs) == c'
  }

  lemma Chain(c: Trace.Cursor, a: seq<StreamEvent>, c': Trace.Cursor, b: seq<StreamEvent>, c'': Trace.Cursor)
    requires Moves(c, a, c') && Moves(c', b, c'')
    ensures Moves(c, a + b, c'')
  {
    Trace.Concatenation(c, a, b);
  }

  lemma Idle(c: Trace.Cursor)
    ensures Moves(c, [], c)
  {
  }

  lemma Emit(c: Trace.Cursor, e: StreamEvent)
    requires Trace.Allowed(c, e)
    ensures Moves(c, [e], Trace.Advance(c, e))
  {
    assert [e][..0] == [];
  }

  /** An event that only mentions an announced item. */
  lemma Mention(s: State, c: Trace.Cursor, e: StreamEvent)
    requires Coupled(s, c) && s.sentCreated
    requires !e.eventType.Created? && !e.eventType.ItemAdded? && !e.eventType.ItemDone? && !Trace.IsTerminal(e)
    requires e.outputIndex.Some? ==> 0 <= e.outputIndex.value < |s.order|
    ensures Moves(c, [e], c)
  {
    Emit(c, e);
  }

  lemma Announce(s: State, c: Trace.Cursor, itemId: string, item: Item) returns (c': Trace.Cursor)
    requires Coupled(s, c) && s.sentCreated
    ensures c' == c.(added := c.added + [item])
    ensures Moves(c, [Announcing(|s.order|, itemId, item)], c')
  {
    var e := Announcing(|s.order|, itemId, item);
    Emit(c, e);
    c' := Trace.Advance(c, e);
  }

  lemma CompleteItem(s: State, c: Trace.Cursor, k: nat, itemId: string, item: Item) returns (c': Trace.Cursor)
    requires Coupled(s, c) && s.sentCreated && k < |s.order| && !DoneAt(s, k) && Trace.SameItem(item, c.added[k])
    ensures c' == c.(done := c.done + {k})
    ensures Moves(c, [Completing(k, itemId, item)], c')
  {
    var e := Completing(k, itemId, item);
    assert Trace.KnownIndex(c, e);
    Emit(c, e);
    c' := Trace.Advance(c, e);
  }

  // ---- opening -------------------------------------------------------------------------------------

  lemma CreatedFollows(s: State, c: Trace.Cursor) returns (c': Trace.Cursor)
    requires Coupled(s, c)
    ensures var (s', evs) := EnsureCreated(s); Coupled(s', c') && s'.sentCreated && Moves(c, evs, c')
  {
    if s.sentCreated {
      c' := c;
      Idle(c);
    } else {
      var e := Bare(Created, Some(Response(Some("in_progress"), None, [])));
      Emit(c, e);
      c' := Trace.Advance(c, e);
    }
  }

  lemma StartTextFollows(s: State, c: Trace.Cursor) returns (c': Trace.Cursor)
    requires Coupled(s, c) && s.sentCreated
    ensures var (s', evs) := StartText(s); Coupled(s', c') && s'.sentCreated && s'.textStarted && Moves(c, evs, c')
  {
    if s.textStarted {
      c' := c;
      Idle(c);
    } else {
      c' := Announce(s, c, "", EmptyItem(MessageType, MessageId(s)).(role := "assistant"));
    }
  }

  lemma StartReasoningFollows(s: State, c: Trace.Cursor) returns (c': Trace.Cursor)
    requires Coupled(s, c) && s.sentCreated
    ensures var (s', evs) := StartReasoning(s);
            Coupled(s', c') && s'.sentCreated && s'.reasoningStarted && Moves(c, evs, c')
  {
    if s.reasoningStarted {
      c' := c;
      Idle(c);
    } else {
      c' := Announce(s, c, "", EmptyItem(ReasoningType, ReasoningId(s)));
    }
  }

  /** The gathered texts do not matter to the items' life. */
  lemma TextsIgnored(s: State, s': State, c: Trace.Cursor)
    requires Coupled(s, c) && s' == s.(text := s'.text, annotations := s'.annotations, reasoning := s'.reasoning,
                                       status := s'.status, incompleteReason := s'.incompleteReason,
                                         finalized := s'.finalized)
    ensures Coupled(s', c)
  {
  }

  lemma TextFollows(s: State, delta: string, c: Trace.Cursor) returns (c': Trace.Cursor)
    requires Coupled(s, c) && s.sentCreated
    ensures var (s', evs) := TextStep(s, delta); Coupled(s', c') && s'.sentCreated && Moves(c, evs, c')
  {
    hide Moves, Coupled, StartText;
    c' := StartTextFollows(s, c);
    var (s1, evs) := StartText(s);
    var e := About(OutputTextDelta, s1.textIndex, MessageId(s1)).(delta := delta);
    IndexedText(s1, c');
    Mention(s1, c', e);
    Chain(c, evs, c', [e], c');
    TextsIgnored(s1, s1.(text := s1.text + delta), c');
  }

  lemma IndexedText(s: State, c: Trace.Cursor)
    requires Coupled(s, c)
    ensures s.textStarted ==> 0 <= s.textIndex < |s.order|
    ensures s.reasoningStarted ==> 0 <= s.reasoningIndex < |s.order|
  {
  }

  lemma ReasoningFollows(s: State, delta: string, c: Trace.Cursor) returns (c': Trace.Cursor)
    requires Coupled(s, c) && s.sentCreated
    ensures var (s', evs) := ReasoningStep(s, delta); Coupled(s', c') && s'.sentCreated && Moves(c, evs, c')
  {
    hide Moves, Coupled, StartReasoning;
    c' := StartReasoningFollows(s, c);
    var (s1, evs) := StartReasoning(s);
    var e := About(ReasoningDelta, s1.reasoningIndex, ReasoningId(s1)).(delta := delta);
    IndexedText(s1, c');
    Mention(s1, c', e);
    Chain(c, evs, c', [e], c');
    TextsIgnored(s1, s1.(reasoning := s1.reasoning + delta), c');
  }

  lemma {:induction false} AnnotationEventsFollow(s: State, annotations: seq<Annotation>, c: Trace.Cursor)
    requires Coupled(s, c) && s.sentCreated && s.textStarted
    ensures Moves(c, AnnotationEvents(s, annotations), c)
  {
    hide Moves, Coupled;
    if annotations == [] {
      Idle(c);
    } else {
      var n := |annotations| - 1;
      AnnotationEventsFollow(s, annotations[..n], c);
      var e := About(AnnotationAdded, s.textIndex, MessageId(s)).(annotation := Parsed(annotations[n]));
      IndexedText(s, c);
      Mention(s, c, e);
      Chain(c, AnnotationEvents(s, annotations[..n]), c, [e], c);
    }
  }

  lemma AnnotationFollows(s: State, annotations: seq<Annotation>, c: Trace.Cursor) returns (c': Trace.Cursor)
    requires Coupled(s, c) && s.sentCreated
    ensures var (s', evs) := AnnotationStep(s, annotations); Coupled(s', c') && s'.sentCreated && Moves(c, evs, c')
  {
    hide Moves, Coupled, StartText;
    c' := StartTextFollows(s, c);
    var (s1, evs) := StartText(s);
    AnnotationEventsFollow(s1, annotations, c');
    Chain(c, evs, c', AnnotationEvents(s1, annotations), c');
    TextsIgnored(s1, s1.(annotations := s1.annotations + annotations), c');
  }

  lemma StartCallFollows(s: State, index: int, delta: ToolDelta, c: Trace.Cursor) returns (c': Trace.Cursor)
    requires Coupled(s, c) && s.sentCreated
    ensures var (s', evs) := StartCall(s, index, delta); Coupled(s', c') && s'.sentCreated && Moves(c, evs, c')
  {
    if index in s.tools {
      c' := c;
      Idle(c);
    } else {
      c' := Announce(s, c, NewCall(s, index, delta).itemId, ToolItem(NewCall(s, index, delta)));
      CallAdded(s, index, NewCall(s, index, delta), c, c');
    }
  }

  lemma CallAdded(s: State, index: int, call: Call, c: Trace.Cursor, c': Trace.Cursor)
    requires Coupled(s, c) && s.sentCreated && index !in s.tools && call.outputIndex == |s.order| && !call.done
    requires c' == c.(added := c.added + [ToolItem(call)])
    ensures Coupled(s.(order := s.order + [ToolRef(index)], tools := s.tools[index := call]), c')
  {
    var s' := s.(order := s.order + [ToolRef(index)], tools := s.tools[index := call]);
    forall k | 0 <= k < |s.order| ensures Matches(s', k, c'.added[k]) { assert Matches(s, k, c.added[k]); }
    forall k: nat ensures DoneAt(s', k) <==> DoneAt(s, k) {
      if k < |s.order| { assert Matches(s, k, c.added[k]); }
    }
    assert forall i :: i in s.tools ==> RefAt(s, s.tools[i].outputIndex, ToolRef(i));
    assert forall h :: h in s.hosted ==> RefAt(s, s.hosted[h].outputIndex, HostedRef(h));
  }

  /** Filling a call does not move it. */
  lemma CallIgnored(s: State, index: int, call: Call, c: Trace.Cursor)
    requires Coupled(s, c) && index in s.tools
    requires call.outputIndex == s.tools[index].outputIndex && call.itemId == s.tools[index].itemId
             && call.done == s.tools[index].done
    ensures Coupled(s.(tools := s.tools[index := call]), c)
    ensures s.tools[index].outputIndex < |s.order|
  {
  }

  lemma ToolFollows(s: State, delta: ToolDelta, c: Trace.Cursor) returns (c': Trace.Cursor)
    requires Coupled(s, c) && s.sentCreated && ToolStep(s, delta).Some?
    ensures var (s', evs) := ToolStep(s, delta).value; Coupled(s', c') && s'.sentCreated && Moves(c, evs, c')
  {
    hide Moves, Coupled, StartCall;
    var index := delta.index.GetOr(0);
    c' := StartCallFollows(s, index, delta, c);
    var (s1, evs) := StartCall(s, index, delta);
    var call := s1.tools[index];
    CallIgnored(s1, index, Filled(call, delta), c');
    if delta.arguments == "" {
      assert evs + [] == evs;
    } else {
      var e := About(ArgumentsDelta, call.outputIndex, call.itemId).(delta := delta.arguments);
      Mention(s1, c', e);
      Chain(c, evs, c', [e], c');
    }
  }

  lemma {:induction false} ToolsFollow(s: State, deltas: seq<ToolDelta>, c: Trace.Cursor) returns (c': Trace.Cursor)
    requires Coupled(s, c) && s.sentCreated && ToolSteps(s, deltas).Some?
    ensures var (s', evs) := ToolSteps(s, deltas).value; Coupled(s', c') && s'.sentCreated && Moves(c, evs, c')
  {
    hide Moves, Coupled, ToolStep;
    if deltas == [] {
      c' := c;
      Idle(c);
    } else {
      var n := |deltas| - 1;
      var c1 := ToolsFollow(s, deltas[..n], c);
      var (s1, evs1) := ToolSteps(s, deltas[..n]).value;
      c' := ToolFollows(s1, deltas[n], c1);
      Chain(c, evs1, c1, ToolStep(s1, deltas[n]).value.1, c');
    }
  }

  // ---- closing ----------------------------------------------------------------------------------------

  /** Closing never opens anything again, and keeps what is announced. */
  ghost predicate Closes(s: State, s': State) {
    && s'.order == s.order && s'.sentCreated == s.sentCreated && s'.id == s.id && s'.finalized == s.finalized
    && s'.tools.Keys == s.tools.Keys && s'.hosted.Keys == s.hosted.Keys
    && (forall k :: DoneAt(s, k) ==> DoneAt(s', k))
  }

  lemma CloseTextFollows(s: State, numbered: bool, c: Trace.Cursor) returns (c': Trace.Cursor)
    requires Coupled(s, c) && (s.order != [] ==> s.sentCreated)
    ensures var (s', evs) := CloseText(s, numbered);
            Coupled(s', c') && Closes(s, s') && (s'.textStarted ==> s'.textDone) && Moves(c, evs, c')
  {
    if !s.textStarted || s.textDone {
      c' := c;
      Idle(c);
    } else {
      var e := About(OutputTextDone, s.textIndex, MessageId(s)).(text := Given(numbered, s.text));
      assert Matches(s, s.textIndex, c.added[s.textIndex]);
      Mention(s, c, e);
      c' := CompleteItem(s, c, s.textIndex, "", MessageItem(s));
      Chain(c, [e], c, [Completing(s.textIndex, "", MessageItem(s))], c');
      forall k: nat ensures DoneAt(s.(textDone := true), k) <==> DoneAt(s, k) || k == s.textIndex {
        if k < |s.order| { assert Matches(s, k, c.added[k]); }
      }
    }
  }

  lemma CloseReasoningFollows(s: State, numbered: bool, c: Trace.Cursor) returns (c': Trace.Cursor)
    requires Coupled(s, c) && (s.order != [] ==> s.sentCreated)
    ensures var (s', evs) := CloseReasoning(s, numbered);
            Coupled(s', c') && Closes(s, s') && (s'.reasoningStarted ==> s'.reasoningDone) && Moves(c, evs, c')
  {
    if !s.reasoningStarted || s.reasoningDone {
      c' := c;
      Idle(c);
    } else {
      var e := About(ReasoningDone, s.reasoningIndex, ReasoningId(s)).(text := Given(numbered, s.reasoning));
      assert Matches(s, s.reasoningIndex, c.added[s.reasoningIndex]);
      Mention(s, c, e);
      c' := CompleteItem(s, c, s.reasoningIndex, "", ReasoningItem(s));
      Chain(c, [e], c, [Completing(s.reasoningIndex, "", ReasoningItem(s))], c');
      forall k: nat ensures DoneAt(s.(reasoningDone := true), k) <==> DoneAt(s, k) || k == s.reasoningIndex {
        if k < |s.order| { assert Matches(s, k, c.added[k]); }
      }
    }
  }

  lemma CloseCallFollows(s: State, index: int, numbered: bool, c: Trace.Cursor) returns (c': Trace.Cursor)
    requires Coupled(s, c)
    ensures var (s', evs) := CloseCall(s, index, numbered);
            Coupled(s', c') && Closes(s, s') && (index in s'.tools ==> s'.tools[index].done) && Moves(c, evs, c')
  {
    if index !in s.tools || s.tools[index].done {
      c' := c;
      Idle(c);
    } else {
      var call := s.tools[index];
      var e := About(ArgumentsDone, call.outputIndex, call.itemId).(arguments := Given(numbered, call.arguments));
      assert RefAt(s, call.outputIndex, ToolRef(index));
      assert Matches(s, call.outputIndex, c.added[call.outputIndex]);
      Mention(s, c, e);
      c' := CompleteItem(s, c, call.outputIndex, "", ToolItem(call));
      Chain(c, [e], c, [Completing(call.outputIndex, "", ToolItem(call))], c');
      CallDone(s, index, c, c');
    }
  }

  lemma CallDone(s: State, index: int, c: Trace.Cursor, c': Trace.Cursor)
    requires Coupled(s, c) && index in s.tools
    requires c' == c.(done := c.done + {s.tools[index].outputIndex})
    ensures Coupled(s.(tools := s.tools[index := s.tools[index].(done := true)]), c')
    ensures Closes(s, s.(tools := s.tools[index := s.tools[index].(done := true)]))
  {
    var s' := s.(tools := s.tools[index := s.tools[index].(done := true)]);
    assert RefAt(s, s.tools[index].outputIndex, ToolRef(index));
    forall k | 0 <= k < |s.order| ensures Matches(s', k, c'.added[k]) { assert Matches(s, k, c.added[k]); }
    forall k: nat ensures DoneAt(s', k) <==> DoneAt(s, k) || k == s.tools[index].outputIndex {
      if k < |s.order| { assert Matches(s, k, c.added[k]); }
    }
    assert s'.tools.Keys == s.tools.Keys;
  }

  lemma {:induction false} CloseCallsFollow(s: State, indexes: seq<int>, numbered: bool, c: Trace.Cursor)
    returns (c': Trace.Cursor)
    requires Coupled(s, c)
    ensures var (s', evs) := CloseCalls(s, indexes, numbered);
            && Coupled(s', c') && Closes(s, s') && Moves(c, evs, c')
            && forall i :: i in indexes && i in s'.tools ==> s'.tools[i].done
  {
    hide Moves, Coupled, CloseCall, DoneAt;
    if indexes == [] {
      c' := c;
      Idle(c);
    } else {
      var n := |indexes| - 1;
      var c1 := CloseCallsFollow(s, indexes[..n], numbered, c);
      var (s1, evs1) := CloseCalls(s, indexes[..n], numbered);
      c' := CloseCallFollows(s1, indexes[n], numbered, c1);
      var (s2, evs2) := CloseCall(s1, indexes[n], numbered);
      Chain(c, evs1, c1, evs2, c');
      forall i | i in indexes && i in s2.tools ensures s2.tools[i].done {
        if i != indexes[n] {
          assert i in indexes[..n];
          CloseCallKeeps(s1, indexes[n], numbered, i);
        }
      }
    }
  }

  lemma CloseCallKeeps(s: State, index: int, numbered: bool, i: int)
    requires i in s.tools && s.tools[i].done
    ensures var s' := CloseCall(s, index, numbered).0; i in s'.tools && s'.tools[i].done
  {
  }

  lemma FailureFollows(s: State, id: string, itemId: string, c: Trace.Cursor)
    requires Coupled(s, c) && id in s.hosted && s.sentCreated
    ensures Moves(c, FailureEvent(s.hosted[id], itemId), c)
  {
    Idle(c);
    assert RefAt(s, s.hosted[id].outputIndex, HostedRef(id));
    Mention(s, c, About(OtherEvent, s.hosted[id].outputIndex, itemId));
  }

  lemma HostedDone(s: State, id: string, c: Trace.Cursor, c': Trace.Cursor)
    requires Coupled(s, c) && id in s.hosted
    requires c' == c.(done := c.done + {s.hosted[id].outputIndex})
    ensures Coupled(s.(hosted := s.hosted[id := s.hosted[id].(done := true)]), c')
    ensures Closes(s, s.(hosted := s.hosted[id := s.hosted[id].(done := true)]))
  {
    var s' := s.(hosted := s.hosted[id := s.hosted[id].(done := true)]);
    assert RefAt(s, s.hosted[id].outputIndex, HostedRef(id));
    forall k | 0 <= k < |s.order| ensures Matches(s', k, c'.added[k]) { assert Matches(s, k, c.added[k]); }
    forall k: nat ensures DoneAt(s', k) <==> DoneAt(s, k) || k == s.hosted[id].outputIndex {
      if k < |s.order| { assert Matches(s, k, c.added[k]); }
    }
    assert s'.hosted.Keys == s.hosted.Keys;
  }

  /** Completing a hosted call, after the events that lead up to it. */
  lemma CompleteHostedFollows(s: State, id: string, itemId: string, before: seq<StreamEvent>, c: Trace.Cursor)
    returns (c': Trace.Cursor)
    requires Coupled(s, c) && id in s.hosted && !s.hosted[id].done && s.sentCreated && Moves(c, before, c)
    ensures Coupled(s.(hosted := s.hosted[id := s.hosted[id].(done := true)]), c')
    ensures Closes(s, s.(hosted := s.hosted[id := s.hosted[id].(done := true)]))
    ensures Moves(c, before + [Completing(s.hosted[id].outputIndex, itemId, s.hosted[id].item)], c')
  {
    hide Moves;
    var call := s.hosted[id];
    assert RefAt(s, call.outputIndex, HostedRef(id));
    assert Matches(s, call.outputIndex, c.added[call.outputIndex]);
    c' := CompleteItem(s, c, call.outputIndex, itemId, call.item);
    Chain(c, before, c, [Completing(call.outputIndex, itemId, call.item)], c');
    HostedDone(s, id, c, c');
  }

  lemma CloseHostedFollows(s: State, id: string, c: Trace.Cursor) returns (c': Trace.Cursor)
    requires Coupled(s, c)
    ensures var (s', evs) := CloseHosted(s, id);
            Coupled(s', c') && Closes(s, s') && (id in s'.hosted ==> s'.hosted[id].done) && Moves(c, evs, c')
  {
    hide Moves, FailureEvent;
    if id !in s.hosted || s.hosted[id].done {
      c' := c;
      Idle(c);
    } else {
      var failed := s.status == StatusFailed;
      var before := if failed then FailureEvent(s.hosted[id], s.hosted[id].item.id) else [];
      assert RefAt(s, s.hosted[id].outputIndex, HostedRef(id));
      Idle(c);
      FailureFollows(s, id, s.hosted[id].item.id, c);
      c' := CompleteHostedFollows(s, id, s.hosted[id].item.id, before, c);
      var s1 := s.(hosted := s.hosted[id := s.hosted[id].(done := true)]);
      TextsIgnored(s1, s1.(status := if failed then s.status else StatusIncomplete), c');
    }
  }

  lemma {:induction false} CloseHostedRefsFollow(s: State, refs: seq<Ref>, c: Trace.Cursor) returns (c': Trace.Cursor)
    requires Coupled(s, c)
    ensures var (s', evs) := CloseHostedRefs(s, refs);
            && Coupled(s', c') && Closes(s, s') && Moves(c, evs, c')
            && forall h :: HostedRef(h) in refs && h in s'.hosted ==> s'.hosted[h].done
  {
    hide Moves, Coupled, CloseHosted, DoneAt;
    if refs == [] {
      c' := c;
      Idle(c);
    } else {
      var n := |refs| - 1;
      var c1 := CloseHostedRefsFollow(s, refs[..n], c);
      var (s1, evs1) := CloseHostedRefs(s, refs[..n]);
      c' := c1;
      var (s2, evs2) := CloseHostedRefs(s, refs);
      if refs[n].HostedRef? {
        c' := CloseHostedFollows(s1, refs[n].id, c1);
        Chain(c, evs1, c1, CloseHosted(s1, refs[n].id).1, c');
      }
      forall h | HostedRef(h) in refs && h in s2.hosted ensures s2.hosted[h].done {
        if HostedRef(h) != refs[n] {
          assert HostedRef(h) in refs[..n];
          if refs[n].HostedRef? { CloseHostedKeeps(s1, refs[n].id, h); }
        }
      }
    }
  }

  lemma CloseHostedKeeps(s: State, id: string, h: string)
    requires h in s.hosted && s.hosted[h].done
    ensures var s' := CloseHosted(s, id).0; h in s'.hosted && s'.hosted[h].done
  {
  }

  lemma {:induction false} ToolIndexed(refs: seq<Ref>, index: int)
    requires ToolRef(index) in refs
    ensures index in ToolIndexes(refs)
  {
    var n := |refs| - 1;
    if refs[n] != ToolRef(index) {
      assert ToolRef(index) in refs[..n];
      ToolIndexed(refs[..n], index);
    }
  }

  lemma ClosesChain(s: State, s1: State, s2: State)
    requires Closes(s, s1) && Closes(s1, s2)
    ensures Closes(s, s2)
  {
  }

  /** Everything announced is done after doneDeltaEvents. */
  lemma CloseAllFollows(s: State, numbered: bool, c: Trace.Cursor) returns (c': Trace.Cursor)
    requires Coupled(s, c)
    ensures var (s', evs) := CloseAll(s, numbered);
            Coupled(s', c') && Closes(s, s') && Moves(c, evs, c') && forall k :: 0 <= k < |s'.order| ==> DoneAt(s', k)
  {
    hide Moves, Coupled, CloseText, CloseReasoning, CloseCalls, CloseHostedRefs, DoneAt;
    OrderCreated(s, c);
    var c1 := CloseTextFollows(s, numbered, c);
    var (s1, evs1) := CloseText(s, numbered);
    OrderCreated(s1, c1);
    var c2 := CloseReasoningFollows(s1, numbered, c1);
    var (s2, evs2) := CloseReasoning(s1, numbered);
    var indexes := InsertionSort.Sorted(ToolIndexes(s2.order));
    var c3 := CloseCallsFollow(s2, indexes, numbered, c2);
    var (s3, evs3) := CloseCalls(s2, indexes, numbered);
    c' := CloseHostedRefsFollow(s3, s3.order, c3);
    var (s4, evs4) := CloseHostedRefs(s3, s3.order);
    Chain(c, evs1, c1, evs2, c2);
    Chain(c, evs1 + evs2, c2, evs3, c3);
    Chain(c, evs1 + evs2 + evs3, c3, evs4, c');
    ClosesChain(s, s1, s2);
    ClosesChain(s2, s3, s4);
    ClosesChain(s, s2, s4);
    AllClosed(s1, c1, s2, c2, s3, c3, indexes, s4, c');
  }

  lemma OrderCreated(s: State, c: Trace.Cursor)
    requires Coupled(s, c)
    ensures s.order != [] ==> s.sentCreated
  {
  }

  lemma AllClosed(s1: State, c1: Trace.Cursor, s2: State, c2: Trace.Cursor, s3: State, c3: Trace.Cursor,
                  indexes: seq<int>, s4: State, c4: Trace.Cursor)
    requires Coupled(s1, c1) && Coupled(s2, c2) && Coupled(s3, c3) && Coupled(s4, c4)
    requires Closes(s1, s2) && Closes(s2, s3) && Closes(s3, s4)
    requires s1.textStarted ==> s1.textDone
    requires s2.reasoningStarted ==> s2.reasoningDone
    requires indexes == InsertionSort.Sorted(ToolIndexes(s2.order))
    requires forall i :: i in indexes && i in s3.tools ==> s3.tools[i].done
    requires forall h :: HostedRef(h) in s3.order && h in s4.hosted ==> s4.hosted[h].done
    ensures forall k :: 0 <= k < |s4.order| ==> DoneAt(s4, k)
  {
    forall k | 0 <= k < |s4.order| ensures DoneAt(s4, k) {
      match s4.order[k]
      case MessageRef =>
        assert Matches(s1, k, c1.added[k]);
        assert DoneAt(s1, k);
      case ReasoningRef =>
        assert Matches(s2, k, c2.added[k]);
        assert DoneAt(s2, k);
      case ToolRef(i) =>
        ToolIndexed(s2.order, i);
        InsertionSort.SortedMembers(ToolIndexes(s2.order), i);
        assert Matches(s3, k, c3.added[k]);
        assert DoneAt(s3, k);
      case HostedRef(h) =>
        assert Matches(s4, k, c4.added[k]);
    }
  }

  // ---- chunks and hosted calls ---------------------------------------------------------------------

  lemma FinishedIs(s: State, reason: string)
    ensures Finished(s, reason) == s.(status := Finished(s, reason).status,
                                      incompleteReason := Finished(s, reason).incompleteReason)
  {
    hide Text.Trim, StatusFor;
  }

  lemma FinishFollows(s: State, choice: Choice, numbered: bool, c: Trace.Cursor) returns (c': Trace.Cursor)
    requires Coupled(s, c) && s.sentCreated
    ensures var (s', evs) := FinishPart(s, choice, numbered); Coupled(s', c') && s'.sentCreated && Moves(c, evs, c')
  {
    hide Moves, Coupled, CloseAll, DoneAt, Finished;
    if Finishes(choice) {
      var s1 := Finished(s, choice.finishReason.value);
      FinishedIs(s, choice.finishReason.value);
      TextsIgnored(s, s1, c);
      c' := CloseAllFollows(s1, numbered, c);
    } else {
      c' := c;
      Idle(c);
    }
  }

  lemma ChoiceFollows(s: State, choice: Choice, numbered: bool, c: Trace.Cursor) returns (c': Trace.Cursor)
    requires Coupled(s, c) && s.sentCreated && ChoiceStep(s, choice, numbered).Some?
    ensures var (s', evs) := ChoiceStep(s, choice, numbered).value;
            Coupled(s', c') && s'.sentCreated && Moves(c, evs, c')
  {
    hide Moves, Coupled, ReasoningStep, TextStep, AnnotationStep, ToolSteps, FinishPart;
    Idle(c);
    var c1 := c;
    if choice.reasoning != "" { c1 := ReasoningFollows(s, choice.reasoning, c); }
    var (s1, evs1) := ReasoningPart(s, choice);
    Idle(c1);
    var c2 := c1;
    if choice.text != "" { c2 := TextFollows(s1, choice.text, c1); }
    var (s2, evs2) := TextPart(s1, choice);
    Idle(c2);
    var c3 := c2;
    if choice.annotations.AnnotationList? { c3 := AnnotationFollows(s2, choice.annotations.list, c2); }
    var (s3, evs3) := AnnotationPart(s2, choice).value;
    var c4 := ToolsFollow(s3, choice.toolCalls, c3);
    var (s4, evs4) := ToolSteps(s3, choice.toolCalls).value;
    c' := FinishFollows(s4, choice, numbered, c4);
    var evs5 := FinishPart(s4, choice, numbered).1;
    Chain(c, evs1, c1, evs2, c2);
    Chain(c, evs1 + evs2, c2, evs3, c3);
    Chain(c, evs1 + evs2 + evs3, c3, evs4, c4);
    Chain(c, evs1 + evs2 + evs3 + evs4, c4, evs5, c');
  }

  lemma {:induction false} ChoicesFollow(s: State, choices: seq<Choice>, numbered: bool, c: Trace.Cursor)
    returns (c': Trace.Cursor)
    requires Coupled(s, c) && s.sentCreated && ChoiceSteps(s, choices, numbered).Some?
    ensures var (s', evs) := ChoiceSteps(s, choices, numbered).value;
            Coupled(s', c') && s'.sentCreated && Moves(c, evs, c')
  {
    hide Moves, Coupled, ChoiceStep;
    if choices == [] {
      c' := c;
      Idle(c);
    } else {
      var n := |choices| - 1;
      var c1 := ChoicesFollow(s, choices[..n], numbered, c);
      var (s1, evs1) := ChoiceSteps(s, choices[..n], numbered).value;
      c' := ChoiceFollows(s1, choices[n], numbered, c1);
      Chain(c, evs1, c1, ChoiceStep(s1, choices[n], numbered).value.1, c');
    }
  }

  lemma NamedCoupled(s: State, id: string, c: Trace.Cursor)
    requires Coupled(s, c) && (s.id != "" || s.order == [])
    ensures Coupled(Named(s, id), c)
  {
  }

  lemma ChunkFollows(s: State, chunk: Chunk, numbered: bool, c: Trace.Cursor) returns (c': Trace.Cursor)
    requires Coupled(s, c) && (s.id != "" || s.order == []) && ChunkStep(s, chunk, numbered).Some?
    ensures var (s', evs) := ChunkStep(s, chunk, numbered).value;
            Coupled(s', c') && s'.sentCreated && SameStream(Named(s, chunk.id), s') && Moves(c, evs, c')
  {
    hide Moves, Coupled, ChoiceSteps;
    NamedCoupled(s, chunk.id, c);
    var c1 := CreatedFollows(Named(s, chunk.id), c);
    var (s1, evs1) := EnsureCreated(Named(s, chunk.id));
    c' := ChoicesFollow(s1, chunk.choices, numbered, c1);
    Chain(c, evs1, c1, ChoiceSteps(s1, chunk.choices, numbered).value.1, c');
  }

  /** The state with one more hosted call. */
  function WithHosted(s: State, id: string, item: Item): State {
    s.(order := s.order + [HostedRef(id)], hosted := s.hosted[id := HostedCall(|s.order|, item, false)])
  }

  /** The items before the new one are as they were. */
  lemma HostedApart(s: State, id: string, item: Item, k: nat, added: Item)
    requires id !in s.hosted && k < |s.order| && Matches(s, k, added)
    ensures Matches(WithHosted(s, id, item), k, added) && DoneAt(WithHosted(s, id, item), k) == DoneAt(s, k)
  {
    hide Trace.SameItem;
  }

  lemma HostedLast(s: State, id: string, item: Item)
    ensures Matches(WithHosted(s, id, item), |s.order|, item.(arguments := ""))
    ensures !DoneAt(WithHosted(s, id, item), |s.order|)
  {
  }

  lemma HostedIndexed(s: State, id: string, item: Item)
    requires Indexed(s)
    ensures Indexed(WithHosted(s, id, item))
  {
  }

  lemma HostedAdded(s: State, id: string, item: Item, c: Trace.Cursor, c': Trace.Cursor)
    requires Coupled(s, c) && s.sentCreated && id !in s.hosted
    requires c' == c.(added := c.added + [item.(arguments := "")])
    ensures Coupled(s.(order := s.order + [HostedRef(id)],
                       hosted := s.hosted[id := HostedCall(|s.order|, item, false)]), c')
  {
    hide Matches, DoneAt, Indexed;
    var s' := WithHosted(s, id, item);
    HostedLast(s, id, item);
    HostedIndexed(s, id, item);
    forall k: nat | k < |s.order| ensures Matches(s', k, c'.added[k]) && DoneAt(s', k) == DoneAt(s, k) {
      HostedApart(s, id, item, k, c.added[k]);
    }
    forall k: nat | k > |s.order| ensures !DoneAt(s', k) && !DoneAt(s, k) {
      NothingBeyond(s, k);
      NothingBeyond(s', k);
    }
    NothingBeyond(s, |s.order|);
  }

  lemma NothingBeyond(s: State, k: nat)
    requires k >= |s.order|
    ensures !DoneAt(s, k)
  {
  }

  lemma StartFollows(s: State, start: HostedStart, c: Trace.Cursor) returns (c': Trace.Cursor)
    requires Coupled(s, c) && StartStep(s, start).Some?
    ensures var (s', evs) := StartStep(s, start).value; Coupled(s', c') && s'.sentCreated && Moves(c, evs, c')
  {
    hide Moves, Coupled, HostedItem, Bare, Matches, RefAt, SameStream, Text.IsSpace, Text.Trim, Trace.After,
         Trace.Follows;
    var id, index, item := Text.Trim(start.id), |s.order|, HostedItem(start);
    var c1 := CreatedFollows(s, c);
    var (s1, evs1) := EnsureCreated(s);
    var c2 := Announce(s1, c1, id, item.(arguments := ""));
    HostedAdded(s1, id, item, c1, c2);
    var s2 := s1.(order := s1.order + [HostedRef(id)], hosted := s1.hosted[id := HostedCall(index, item, false)]);
    c' := c2;
    var added := [Announcing(index, id, item.(arguments := ""))];
    var e := About(OtherEvent, index, id);
    Mention(s2, c2, e);
    Chain(c1, added, c2, [e], c2);
    if start.hostedType == "web_search_call" {
      Chain(c1, added + [e], c2, [e], c2);
      Chain(c, evs1, c1, added + [e] + [e], c2);
      assert StartStep(s, start).value.1 == evs1 + (added + [e] + [e]);
    } else {
      var e1, e2 := e.(delta := start.action.value), e.(arguments := Some(start.action.value));
      Mention(s2, c2, e1);
      Mention(s2, c2, e2);
      Chain(c1, added + [e], c2, [e1], c2);
      Chain(c1, added + [e] + [e1], c2, [e2], c2);
      Chain(c, evs1, c1, added + [e] + [e1] + [e2], c2);
      assert StartStep(s, start).value.1 == evs1 + (added + [e] + [e1] + [e2]);
    }
    assert StartStep(s, start).value.0 == s2;
  }

  lemma CompleteFollows(s: State, result: HostedResult, c: Trace.Cursor) returns (c': Trace.Cursor)
    requires Coupled(s, c) && CompleteStep(s, result).Some?
    ensures var (s', evs) := CompleteStep(s, result).value; Coupled(s', c') && s'.sentCreated && Moves(c, evs, c')
  {
    hide Moves, FailureEvent;
    var id := Text.Trim(result.id);
    var failed := result.isError || Text.Trim(result.errorCode) != "";
    assert RefAt(s, s.hosted[id].outputIndex, HostedRef(id));
    var before := if failed then FailureEvent(s.hosted[id], id) else [About(OtherEvent, s.hosted[id].outputIndex, id)];
    FailureFollows(s, id, id, c);
    Mention(s, c, About(OtherEvent, s.hosted[id].outputIndex, id));
    c' := CompleteHostedFollows(s, id, id, before, c);
  }

  // ---- the end ------------------------------------------------------------------------------------------

  lemma {:induction false} OutputsMatch(s: State, n: nat, c: Trace.Cursor)
    requires Coupled(s, c) && n <= |s.order|
    ensures |Outputs(s, s.order[..n])| == n
    ensures forall k :: 0 <= k < n ==> Trace.SameItem(Outputs(s, s.order[..n])[k], c.added[k])
  {
    if n > 0 {
      OutputsMatch(s, n - 1, c);
      assert s.order[..n][..n - 1] == s.order[..n - 1];
      assert Matches(s, n - 1, c.added[n - 1]);
    }
  }

  lemma TerminalFollows(s: State, eventType: EventType, c: Trace.Cursor) returns (c': Trace.Cursor)
    requires Coupled(s, c) && s.sentCreated && forall k :: 0 <= k < |s.order| ==> DoneAt(s, k)
    requires eventType.Completed? || eventType.Incomplete? || eventType.Failed?
    ensures c'.ended && Moves(c, [Bare(eventType, Some(FinalResponse(s)))], c')
  {
    var e := Bare(eventType, Some(FinalResponse(s)));
    OutputsMatch(s, |s.order|, c);
    assert s.order[..|s.order|] == s.order;
    Emit(c, e);
    c' := Trace.Advance(c, e);
  }

  lemma DoneIgnored(s: State, s': State, k: int)
    requires s' == s.(finalized := s'.finalized)
    ensures DoneAt(s', k) == DoneAt(s, k)
  {
  }

  lemma FinalizeFollows(s: State, numbered: bool, c: Trace.Cursor) returns (c': Trace.Cursor)
    requires Coupled(s, c) && s.sentCreated && !s.finalized
    ensures c'.ended && Moves(c, Finalize(s, numbered).1, c')
  {
    hide Moves, Coupled, CloseAll, DoneAt, FinalResponse;
    var c1 := CloseAllFollows(s, numbered, c);
    var (s1, evs) := CloseAll(s, numbered);
    var s2 := s1.(finalized := true);
    TextsIgnored(s1, s2, c1);
    forall k | 0 <= k < |s2.order| ensures DoneAt(s2, k) { DoneIgnored(s1, s2, k); }
    var eventType := if s2.status == StatusIncomplete then Incomplete else Completed;
    c' := TerminalFollows(s2, eventType, c1);
    Chain(c, evs, c1, [Bare(eventType, Some(FinalResponse(s2)))], c');
  }

  lemma FailFollows(s: State, numbered: bool, c: Trace.Cursor) returns (c': Trace.Cursor)
    requires Coupled(s, c) && !s.finalized
    ensures c'.ended && Moves(c, Fail(s, numbered).1, c')
  {
    hide Moves, Coupled, CloseAll, DoneAt, FinalResponse;
    TextsIgnored(s, s.(status := StatusFailed), c);
    var c1 := CreatedFollows(s.(status := StatusFailed), c);
    var (s1, evs1) := EnsureCreated(s.(status := StatusFailed));
    var c2 := CloseAllFollows(s1, numbered, c1);
    var (s2, evs2) := CloseAll(s1, numbered);
    var s3 := s2.(finalized := true);
    TextsIgnored(s2, s3, c2);
    forall k | 0 <= k < |s3.order| ensures DoneAt(s3, k) { DoneIgnored(s2, s3, k); }
    Mention(s3, c2, Bare(OtherEvent, None));
    c' := TerminalFollows(s3, Failed, c2);
    Chain(c, evs1, c1, evs2, c2);
    Chain(c, evs1 + evs2, c2, [Bare(OtherEvent, None)], c2);
    Chain(c, evs1 + evs2 + [Bare(OtherEvent, None)], c2, [Bare(Failed, Some(FinalResponse(s3)))], c');
    assert Fail(s, numbered).1 == evs1 + evs2 + [Bare(OtherEvent, None)] + [Bare(Failed, Some(FinalResponse(s3)))];
  }

  // ---- runs ---------------------------------------------------------------------------------------------------

  /** The stream has its id before its first item: from the start, or from the first chunk. */
  predicate HasId(id: string, inputs: seq<Input>) {
    id != "" || inputs == [] || (inputs[0].OnChunk? && inputs[0].chunk.id != "")
  }

  lemma StepFollows(s: State, input: Input, numbered: bool, c: Trace.Cursor) returns (c': Trace.Cursor)
    requires Coupled(s, c) && (s.id != "" || s.order == []) && Step(s, input, numbered).Some?
    ensures var (s', evs) := Step(s, input, numbered).value;
            && Coupled(s', c') && s'.sentCreated && Moves(c, evs, c')
            && s'.id == (if input.OnChunk? then Named(s, input.chunk.id).id else s.id) && s'.finalized == s.finalized
  {
    hide Moves, Coupled, ChunkStep, StartStep, CompleteStep;
    match input
    case OnChunk(chunk) => c' := ChunkFollows(s, chunk, numbered, c);
    case OnStart(start) => c' := StartFollows(s, start, c);
    case OnComplete(result) => c' := CompleteFollows(s, result, c);
  }

  lemma {:induction false} RunFollows(id: string, inputs: seq<Input>, numbered: bool) returns (c: Trace.Cursor)
    requires HasId(id, inputs) && Run(id, inputs, numbered).Some?
    ensures var (s, evs) := Run(id, inputs, numbered).value;
            && Coupled(s, c) && Moves(Trace.START, evs, c) && !s.finalized
            && s.sentCreated == (inputs != []) && (inputs != [] ==> s.id != "")
  {
    hide Moves, Step, Coupled;
    if inputs == [] {
      c := Trace.START;
      Idle(c);
      FreshCoupled(id);
    } else {
      var n := |inputs| - 1;
      var c1 := RunFollows(id, inputs[..n], numbered);
      var (s, evs) := Run(id, inputs[..n], numbered).value;
      c := StepFollows(s, inputs[n], numbered, c1);
      Chain(Trace.START, evs, c1, Step(s, inputs[n], numbered).value.1, c);
    }
  }

  lemma FreshCoupled(id: string)
    ensures Coupled(Initial(id), Trace.START)
  {
  }

  /** Every complete run of a stream that has its id: any chunks and hosted calls, ended by
      the finalizer or by a failure. Only the finalizer of a stream without any input sends
      its terminal event without response.created. */
  lemma OutputLives(id: string, inputs: seq<Input>, numbered: bool)
    requires HasId(id, inputs) && Run(id, inputs, numbered).Some?
    ensures var (s, evs) := Run(id, inputs, numbered).value;
            && (Trace.Complete(evs + Finalize(s, numbered).1) <==> inputs != [])
            && Trace.Complete(evs + Fail(s, numbered).1)
  {
    hide Finalize, Fail, Coupled;
    var (s, evs) := Run(id, inputs, numbered).value;
    var c := RunFollows(id, inputs, numbered);
    var c2 := FailFollows(s, numbered, c);
    Chain(Trace.START, evs, c, Fail(s, numbered).1, c2);
    if inputs == [] {
      EmptyFinalize(id, numbered);
      assert [] + Finalize(s, numbered).1 == Finalize(s, numbered).1;
    } else {
      var c1 := FinalizeFollows(s, numbered, c);
      Chain(Trace.START, evs, c, Finalize(s, numbered).1, c1);
    }
  }

  lemma EmptyFinalize(id: string, numbered: bool)
    ensures !Trace.Complete(Finalize(Initial(id), numbered).1)
  {
    var trace := Finalize(Initial(id), numbered).1;
    assert trace == [Bare(Completed, Some(Response(Some("completed"), None, [])))];
    assert trace[..0] == [];
  }
}
