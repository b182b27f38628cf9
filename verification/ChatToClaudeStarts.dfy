/** Chat to Claude: every tool block that is started has received a fragment. */
module ChatToClaudeStarts {
  import opened ChatDto
  import opened ClaudeTrace
  import opened ChatToClaude
  import opened ChatToClaudeTools
  import Text

  /** Every tool block these events start has received a fragment. */
  predicate Owes(evs: seq<Event>, frags: seq<Fragment>) {
    forall k :: 0 <= k < |evs| && evs[k].BlockStart? && evs[k].content.ToolBlock? ==> Touched(frags, evs[k].index)
  }

  /** Every tool of the open phase has received a fragment. */
  predicate Owned(s: Info, frags: seq<Fragment>) {
    s.last == LastTools ==> forall b :: s.base <= b < s.base + |s.tools| ==> Touched(frags, b)
  }

  /** Blocks these fragments touched stay touched when more arrive. */
  lemma {:induction false} TouchedMore(frags: seq<Fragment>, more: seq<Fragment>, b: int)
    requires Touched(frags, b)
    ensures Touched(frags + more, b)
  {
    if more == [] {
      assert frags + more == frags;
    } else {
      var n := |more| - 1;
      TouchedMore(frags, more[..n], b);
      assert (frags + more)[..|frags + more| - 1] == frags + more[..n];
    }
  }

  lemma OwesMore(evs: seq<Event>, frags: seq<Fragment>, more: seq<Fragment>)
    requires Owes(evs, frags)
    ensures Owes(evs, frags + more)
  {
    hide Touched;
    forall k | 0 <= k < |evs| && evs[k].BlockStart? && evs[k].content.ToolBlock?
      ensures Touched(frags + more, evs[k].index)
    {
      TouchedMore(frags, more, evs[k].index);
    }
  }

  lemma OwesConcat(a: seq<Event>, b: seq<Event>, frags: seq<Fragment>)
    requires Owes(a, frags) && Owes(b, frags)
    ensures Owes(a + b, frags)
  {
    hide Touched;
  }

  /** No tool is started here. */
  predicate NoToolStart(evs: seq<Event>) {
    forall k :: 0 <= k < |evs| ==> !(evs[k].BlockStart? && evs[k].content.ToolBlock?)
  }

  lemma NoToolOwes(evs: seq<Event>, frags: seq<Fragment>)
    requires NoToolStart(evs)
    ensures Owes(evs, frags)
  {
  }

  // ---- closing blocks -----------------------------------------------------------------

  lemma {:induction false} StartPendingOwes(tools: seq<Tool>, uuid: Uuid, base: int, frags: seq<Fragment>)
    requires forall p :: 0 <= p < |tools| ==> tools[p].blockIndex == base + p
    requires forall b :: base <= b < base + |tools| ==> Touched(frags, b)
    ensures Owes(StartPending(tools, uuid).1, frags)
  {
    hide Touched;
    if tools != [] {
      var n := |tools| - 1;
      StartPendingOwes(tools[..n], uuid, base, frags);
      assert Touched(frags, base + n);
      if Startable(tools[n]) {
        OwesConcat(StartPending(tools[..n], uuid).1, Start(Identified(tools[n], uuid)), frags);
      }
    }
  }

  lemma {:induction false} StopStartedQuiet(tools: seq<Tool>)
    ensures NoToolStart(StopStarted(tools))
  {
    if tools != [] {
      StopStartedQuiet(tools[..|tools| - 1]);
    }
  }

  lemma {:induction false} StopOffsetsQuiet(base: int, count: nat)
    ensures NoToolStart(StopOffsets(base, count))
  {
    if count > 0 {
      StopOffsetsQuiet(base, count - 1);
    }
  }

  lemma StopOpenQuiet(s: Info)
    ensures NoToolStart(StopOpen(s))
  {
    hide StopStarted, StopOffsets;
    if s.last == LastTools {
      StopStartedQuiet(s.tools);
      StopOffsetsQuiet(s.base, if s.maxOffset < 0 then 0 else s.maxOffset + 1);
    }
  }

  lemma CloseBlocksOwes(s: Info, uuid: Uuid, frags: seq<Fragment>)
    requires Shaped(s) && Owned(s, frags)
    ensures Owes(CloseBlocks(s, uuid).1, frags)
  {
    hide Touched, StartPending, StopOpen, Owes, NoToolStart;
    if s.last == LastTools {
      StartPendingOwes(s.tools, uuid, s.base, frags);
      var s' := s.(tools := StartPending(s.tools, uuid).0);
      StopOpenQuiet(s');
      NoToolOwes(StopOpen(s'), frags);
      OwesConcat(StartPending(s.tools, uuid).1, StopOpen(s'), frags);
    } else {
      StopOpenQuiet(s);
      NoToolOwes(StopOpen(s), frags);
    }
  }

  lemma CloseAndAdvanceOwes(s: Info, uuid: Uuid, frags: seq<Fragment>)
    requires Shaped(s) && Owned(s, frags)
    ensures Owes(CloseAndAdvance(s, uuid).1, frags) && CloseAndAdvance(s, uuid).0.last == LastNone
  {
    hide CloseBlocks, Owes;
    NoToolOwes([], frags);
    CloseBlocksOwes(s, uuid, frags);
  }

  lemma OpenBlockOwes(s: Info, last: Last, content: Content, uuid: Uuid, frags: seq<Fragment>)
    requires Shaped(s) && Owned(s, frags) && (last == LastText || last == LastThinking) && !content.ToolBlock?
    ensures var (s', evs) := OpenBlock(s, last, content, uuid); Owes(evs, frags) && s'.last == last
  {
    hide CloseAndAdvance, Owes;
    CloseAndAdvanceOwes(s, uuid, frags);
    var start := [BlockStart(CloseAndAdvance(s, uuid).0.index, content)];
    NoToolOwes(start, frags);
    NoToolOwes([], frags);
    OwesConcat(CloseAndAdvance(s, uuid).1, start, frags);
  }

  // ---- tool deltas --------------------------------------------------------------------

  lemma DeltaOwes(s: Info, position: int, delta: ToolDelta, frags: seq<Fragment>)
    requires InPhase(s) && Owned(s, frags)
    ensures var (s', evs) := ApplyToolDelta(s, position, delta);
            var frags' := frags + [FragmentOf(s, position, delta)];
            Owes(evs, frags') && Owned(s', frags')
  {
    hide Text.Trim, Lookup;
    var f := FragmentOf(s, position, delta);
    forall b ensures Touched(frags + [f], b) == (f.block == b || Touched(frags, b)) {
      FragmentSnoc(frags, f, b);
    }
  }

  lemma {:induction false} DeltasOwe(s: Info, deltas: seq<ToolDelta>, frags: seq<Fragment>)
    requires InPhase(s) && Owned(s, frags)
    ensures var (s', evs) := ApplyToolDeltas(s, deltas);
            var frags' := frags + DeltaFragments(s, deltas);
            Owes(evs, frags') && Owned(s', frags')
  {
    hide ApplyToolDelta, FragmentOf, Owes, Owned, InPhase;
    if deltas == [] {
      assert frags + [] == frags;
      NoToolOwes([], frags);
    } else {
      var n := |deltas| - 1;
      DeltasOwe(s, deltas[..n], frags);
      var (s1, evs1) := ApplyToolDeltas(s, deltas[..n]);
      var before, f := frags + DeltaFragments(s, deltas[..n]), FragmentOf(s1, n, deltas[n]);
      DeltaOwes(s1, n, deltas[n], before);
      OwesMore(evs1, before, [f]);
      OwesConcat(evs1, ApplyToolDelta(s1, n, deltas[n]).1, before + [f]);
      assert frags + DeltaFragments(s, deltas) == before + [f];
    }
  }

  lemma EnterOwes(s: Info, uuid: Uuid, frags: seq<Fragment>)
    requires Shaped(s) && Owned(s, frags)
    ensures var (s', evs) := EnterTools(s, uuid); Owes(evs, frags) && Owned(s', frags)
  {
    hide CloseAndAdvance, Owes, Touched;
    CloseAndAdvanceOwes(s, uuid, frags);
    NoToolOwes([], frags);
  }

  // ---- one chunk ----------------------------------------------------------------------

  lemma ToolPartOwes(s: Info, deltas: seq<ToolDelta>, uuid: Uuid, frags: seq<Fragment>)
    requires Shaped(s) && Owned(s, frags) && deltas != []
    ensures var (s', evs) := ToolPart(s, deltas, uuid);
            var frags' := frags + DeltaFragments(EnterTools(s, uuid).0, deltas);
            Owes(evs, frags') && Owned(s', frags')
  {
    hide EnterTools, ApplyToolDeltas, DeltaFragments, Owes, Touched;
    EnterOwes(s, uuid, frags);
    var (s1, evs1) := EnterTools(s, uuid);
    DeltasOwe(s1, deltas, frags);
    OwesMore(evs1, frags, DeltaFragments(s1, deltas));
    OwesConcat(evs1, ApplyToolDeltas(s1, deltas).1, frags + DeltaFragments(s1, deltas));
  }

  lemma ProsePartOwes(s: Info, reasoning: string, text: string, uuid: Uuid, frags: seq<Fragment>)
    requires Shaped(s) && Owned(s, frags)
    ensures var (s', evs) := ProsePart(s, reasoning, text, uuid); Owes(evs, frags) && Owned(s', frags)
  {
    hide OpenBlock, Owes, Touched;
    NoToolOwes([], frags);
    if reasoning != "" {
      OpenBlockOwes(s, LastThinking, ThinkingBlock, uuid, frags);
      var (s', evs) := OpenBlock(s, LastThinking, ThinkingBlock, uuid);
      NoToolOwes([BlockDelta(s'.index, ThinkingDelta(reasoning))], frags);
      OwesConcat(evs, [BlockDelta(s'.index, ThinkingDelta(reasoning))], frags);
    } else if text != "" {
      OpenBlockOwes(s, LastText, TextBlock, uuid, frags);
      var (s', evs) := OpenBlock(s, LastText, TextBlock, uuid);
      NoToolOwes([BlockDelta(s'.index, TextDelta(text))], frags);
      OwesConcat(evs, [BlockDelta(s'.index, TextDelta(text))], frags);
    }
  }

  lemma {:induction false} CitationsQuiet(index: int, citations: seq<Citation>)
    ensures NoToolStart(ChatToClaude.CitationDeltas(index, citations))
  {
    if citations != [] {
      CitationsQuiet(index, citations[..|citations| - 1]);
    }
  }

  lemma CitationPartOwes(s: Info, citations: seq<Citation>, uuid: Uuid, frags: seq<Fragment>)
    requires Shaped(s) && Owned(s, frags)
    ensures var (s', evs) := CitationPart(s, citations, uuid); Owes(evs, frags) && Owned(s', frags)
  {
    hide OpenBlock, Owes, Touched, NoToolStart;
    NoToolOwes([], frags);
    if citations != [] {
      OpenBlockOwes(s, LastText, TextBlock, uuid, frags);
      var (s', evs) := OpenBlock(s, LastText, TextBlock, uuid);
      CitationsQuiet(s'.index, citations);
      NoToolOwes(ChatToClaude.CitationDeltas(s'.index, citations), frags);
      OwesConcat(evs, ChatToClaude.CitationDeltas(s'.index, citations), frags);
    }
  }

  /** The fragments of a choice that goes into state s. */
  function ChoiceFragments(s: Info, choice: Choice, uuid: Uuid): seq<Fragment>
    requires Shaped(s)
  {
    if choice.toolCalls == [] then [] else DeltaFragments(EnterTools(s, uuid).0, choice.toolCalls)
  }

  lemma ChoicePartOwes(s: Info, choice: Choice, uuid: Uuid, frags: seq<Fragment>)
    requires Shaped(s) && Owned(s, frags)
    ensures var (s', evs) := ChoicePart(s, choice, uuid);
            var frags' := frags + ChoiceFragments(s, choice, uuid);
            Owes(evs, frags') && Owned(s', frags')
  {
    hide ToolPart, ProsePart, CitationPart, EnterTools, DeltaFragments, Owes, Owned;
    var frags' := frags + ChoiceFragments(s, choice, uuid);
    if choice.toolCalls != [] {
      ToolPartOwes(s, choice.toolCalls, uuid, frags);
    } else {
      assert frags' == frags;
      ProsePartOwes(s, choice.reasoning, choice.text, uuid, frags);
    }
    var (s1, evs1) := if choice.toolCalls != [] then ToolPart(s, choice.toolCalls, uuid)
                      else ProsePart(s, choice.reasoning, choice.text, uuid);
    CitationPartOwes(s1, choice.citations, uuid, frags');
    OwesConcat(evs1, CitationPart(s1, choice.citations, uuid).1, frags');
  }

  lemma ConcludeOwes(s: Info, reason: string, uuid: Uuid, frags: seq<Fragment>)
    requires Shaped(s) && Owned(s, frags)
    ensures Owes(Conclude(s, reason, uuid).1, frags) && Conclude(s, reason, uuid).0.done
  {
    hide CloseBlocks, Owes;
    CloseBlocksOwes(s, uuid, frags);
    NoToolOwes([MessageDelta(reason), MessageStop], frags);
    OwesConcat(CloseBlocks(s, uuid).1, [MessageDelta(reason), MessageStop], frags);
  }

  /** Usage, counters and the finish reason do not matter to what is owned. */
  lemma SameOwned(s: Info, s': Info, frags: seq<Fragment>)
    requires Owned(s, frags) && s'.last == s.last && s'.base == s.base && s'.tools == s.tools
    ensures Owned(s', frags)
  {
  }

  lemma FinishingOwes(s: Info, choice: Choice, usage: Usage, uuid: Uuid, frags: seq<Fragment>)
    requires Shaped(s) && !s.done && Owned(s, frags)
    ensures var (s', evs) := Finishing(s, choice, usage, uuid); Owes(evs, frags) && (s'.done || Owned(s', frags))
  {
    hide Conclude, Owes, Owned, StopReason;
    NoToolOwes([], frags);
    var s1 := Reported(s, usage);
    SameOwned(s, s1, frags);
    ConcludeOwes(s1, StopReason(s1.finishReason), uuid, frags);
  }

  lemma ChoiceChunkOwes(s: Info, choice: Choice, usage: Usage, uuid: Uuid, frags: seq<Fragment>)
    requires Shaped(s) && !s.done && Owned(s, frags)
    ensures var (s1, evs1) := ChoicePart(Noted(s, choice), choice, uuid);
            var (s2, evs2) := Finishing(s1, choice, usage, uuid);
            var frags' := frags + ChoiceFragments(Noted(s, choice), choice, uuid);
            Owes(evs1 + evs2, frags') && (s2.done || Owned(s2, frags'))
  {
    hide ChoicePart, Finishing, ChoiceFragments, Owes, Owned;
    SameOwned(s, Noted(s, choice), frags);
    ChoicePartOwes(Noted(s, choice), choice, uuid, frags);
    var (s1, evs1) := ChoicePart(Noted(s, choice), choice, uuid);
    var frags' := frags + ChoiceFragments(Noted(s, choice), choice, uuid);
    FinishingOwes(s1, choice, usage, uuid, frags');
    OwesConcat(evs1, Finishing(s1, choice, usage, uuid).1, frags');
  }

  lemma ChunkPartOwes(s: Info, chunk: Chunk, uuid: Uuid, frags: seq<Fragment>)
    requires Shaped(s) && !s.done && Owned(s, frags)
    ensures var (s', evs) := ChunkPart(s, chunk, uuid);
            var frags' := frags + if chunk.choices == [] then []
                                  else ChoiceFragments(Noted(s, chunk.choices[0]), chunk.choices[0], uuid);
            Owes(evs, frags') && (s'.done || Owned(s', frags'))
  {
    hide ChoicePart, Finishing, Conclude, ChoiceFragments, Owes, Owned, StopReason;
    if chunk.choices == [] {
      assert frags + [] == frags;
      NoToolOwes([], frags);
      var s1 := Reported(s, chunk.usage);
      SameOwned(s, s1, frags);
      ConcludeOwes(s1, StopReasonOrEnd(s1.finishReason), uuid, frags);
    } else {
      ChoiceChunkOwes(s, chunk.choices[0], chunk.usage, uuid, frags);
    }
  }

  lemma StepOwes(s: Info, chunk: Chunk, uuid: Uuid, frags: seq<Fragment>)
    requires Shaped(s) && (s.done || Owned(s, frags))
    ensures var (s', evs) := Step(s, chunk, uuid);
            var frags' := frags + ChunkFragments(s, chunk, uuid);
            Owes(evs, frags') && (s'.done || Owned(s', frags'))
  {
    hide ChunkPart, EnterTools, DeltaFragments, Owes, Owned;
    if s.done {
      NoToolOwes([], frags);
      assert frags + [] == frags;
    } else {
      var (s1, evs1) := OpenMessage(s.(sent := s.sent + 1), chunk.usage);
      SameOwned(s, s1, frags);
      ChunkPartOwes(s1, chunk, uuid, frags);
      NoToolOwes(evs1, frags + ChunkFragments(s, chunk, uuid));
      OwesConcat(evs1, ChunkPart(s1, chunk, uuid).1, frags + ChunkFragments(s, chunk, uuid));
    }
  }

  lemma {:induction false} RunOwes(chunks: seq<Chunk>, uuid: Uuid)
    ensures var (s, evs) := Run(chunks, uuid);
            Owes(evs, Fragments(chunks, uuid)) && (s.done || Owned(s, Fragments(chunks, uuid)))
  {
    hide Step, ChunkFragments, Owes, Owned;
    if chunks == [] {
      NothingOwed();
    } else {
      var n := |chunks| - 1;
      RunOwes(chunks[..n], uuid);
      var (s, evs) := Run(chunks[..n], uuid);
      var frags := Fragments(chunks[..n], uuid);
      StepOwes(s, chunks[n], uuid, frags);
      OwesMore(evs, frags, ChunkFragments(s, chunks[n], uuid));
      OwesConcat(evs, Step(s, chunks[n], uuid).1, Fragments(chunks, uuid));
    }
  }

  lemma NothingOwed()
    ensures Owes([], []) && Owned(INITIAL, [])
  {
  }

  /** In the whole output only blocks that received fragments are started as tools. */
  lemma OnlyTouchedToolsStart(chunks: seq<Chunk>, uuid: Uuid)
    ensures Owes(Output(chunks, uuid), Fragments(chunks, uuid))
  {
    hide Conclude, StopReason, Owes, Owned, Fragments;
    RunOwes(chunks, uuid);
    var (s, evs) := Run(chunks, uuid);
    if s.done {
      assert evs + [] == evs;
    } else {
      ConcludeOwes(s, StopReasonOrEnd(s.finishReason), uuid, Fragments(chunks, uuid));
      OwesConcat(evs, Final(s, uuid).1, Fragments(chunks, uuid));
    }
  }
}
