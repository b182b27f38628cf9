/** What a Chat to Claude stream says besides its tool calls: prose and citations in
    order, and the stop reason at the end. */
module ChatToClaudeSpeech {
  import opened ChatDto
  import opened ClaudeTrace
  import opened ChatToClaude

  /** The deltas of a trace that are not tool arguments. */
  function Spoken(trace: seq<Event>): seq<Delta> {
    if trace == [] then [] else
      var e := trace[|trace| - 1];
      Spoken(trace[..|trace| - 1]) + if e.BlockDelta? && !e.delta.InputJsonDelta? then [e.delta] else []
  }

  function Cited(citations: seq<Citation>): seq<Delta> {
    seq(|citations|, i requires 0 <= i < |citations| => CitationDelta(citations[i]))
  }

  /** A live chunk says its reasoning, or else its text, unless it carries tool calls;
      its citations follow in any case. */
  function ChunkSpeech(s: Info, chunk: Chunk): seq<Delta> {
    if s.done || chunk.choices == [] then [] else
      var choice := chunk.choices[0];
      (if choice.toolCalls != [] then []
       else if choice.reasoning != "" then [ThinkingDelta(choice.reasoning)]
       else if choice.text != "" then [TextDelta(choice.text)] else [])
      + Cited(choice.citations)
  }

  function Speech(chunks: seq<Chunk>, uuid: Uuid): seq<Delta> {
    if chunks == [] then [] else
      var n := |chunks| - 1;
      Speech(chunks[..n], uuid) + ChunkSpeech(Run(chunks[..n], uuid).0, chunks[n])
  }

  lemma {:induction false} SpokenConcat(a: seq<Event>, b: seq<Event>)
    ensures Spoken(a + b) == Spoken(a) + Spoken(b)
  {
    if b == [] {
      assert a + b == a;
    } else {
      assert (a + b)[..|a + b| - 1] == a + b[..|b| - 1];
      SpokenConcat(a, b[..|b| - 1]);
    }
  }

  predicate Mute(evs: seq<Event>) {
    forall k :: 0 <= k < |evs| ==> evs[k].BlockDelta? ==> evs[k].delta.InputJsonDelta?
  }

  lemma {:induction false} MuteSpeaks(evs: seq<Event>)
    requires Mute(evs)
    ensures Spoken(evs) == []
  {
    if evs != [] {
      MuteSpeaks(evs[..|evs| - 1]);
    }
  }

  lemma {:induction false} StartPendingIsMute(tools: seq<Tool>, uuid: Uuid)
    ensures Mute(StartPending(tools, uuid).1)
  {
    if tools != [] {
      StartPendingIsMute(tools[..|tools| - 1], uuid);
    }
  }

  lemma {:induction false} StopsAreMute(tools: seq<Tool>)
    ensures Mute(StopStarted(tools))
  {
    if tools != [] {
      StopsAreMute(tools[..|tools| - 1]);
    }
  }

  lemma ClosingIsMute(s: Info, uuid: Uuid)
    requires Shaped(s)
    ensures Mute(CloseBlocks(s, uuid).1) && Mute(CloseAndAdvance(s, uuid).1)
  {
    StartPendingIsMute(s.tools, uuid);
    StopsAreMute(StartPending(s.tools, uuid).0);
  }

  lemma OpeningIsMute(s: Info, last: Last, content: Content, uuid: Uuid)
    requires Shaped(s) && (last == LastText || last == LastThinking)
    ensures Mute(OpenBlock(s, last, content, uuid).1)
  {
    ClosingIsMute(s, uuid);
  }

  lemma ToolDeltaIsMute(s: Info, position: int, delta: ToolDelta)
    requires InPhase(s)
    ensures Mute(ApplyToolDelta(s, position, delta).1)
  {
    hide Lookup, Routed;
  }

  lemma {:induction false} ToolDeltasAreMute(s: Info, deltas: seq<ToolDelta>)
    requires InPhase(s)
    ensures Mute(ApplyToolDeltas(s, deltas).1)
  {
    hide ApplyToolDelta, InPhase;
    if deltas != [] {
      var n := |deltas| - 1;
      ToolDeltasAreMute(s, deltas[..n]);
      ToolDeltaIsMute(ApplyToolDeltas(s, deltas[..n]).0, n, deltas[n]);
    }
  }

  lemma {:induction false} CitationsSpeak(index: int, citations: seq<Citation>)
    ensures Spoken(CitationDeltas(index, citations)) == Cited(citations)
  {
    if citations != [] {
      CitationsSpeak(index, citations[..|citations| - 1]);
    }
  }

  lemma CitationPartSpeaks(s: Info, citations: seq<Citation>, uuid: Uuid)
    requires Shaped(s)
    ensures Spoken(CitationPart(s, citations, uuid).1) == Cited(citations)
  {
    if citations != [] {
      var (s', evs) := OpenBlock(s, LastText, TextBlock, uuid);
      OpeningIsMute(s, LastText, TextBlock, uuid);
      MuteSpeaks(evs);
      CitationsSpeak(s'.index, citations);
      SpokenConcat(evs, CitationDeltas(s'.index, citations));
    }
  }

  lemma ToolPartIsMute(s: Info, deltas: seq<ToolDelta>, uuid: Uuid)
    requires Shaped(s) && deltas != []
    ensures Mute(ToolPart(s, deltas, uuid).1)
  {
    ClosingIsMute(s, uuid);
    ToolDeltasAreMute(EnterTools(s, uuid).0, deltas);
  }

  lemma ProsePartSpeaks(s: Info, reasoning: string, text: string, uuid: Uuid)
    requires Shaped(s)
    ensures Spoken(ProsePart(s, reasoning, text, uuid).1) ==
            if reasoning != "" then [ThinkingDelta(reasoning)] else if text != "" then [TextDelta(text)] else []
  {
    if reasoning != "" || text != "" {
      var last, content, delta := if reasoning != "" then LastThinking else LastText,
                                  if reasoning != "" then ThinkingBlock else TextBlock,
                                  if reasoning != "" then ThinkingDelta(reasoning) else TextDelta(text);
      var (s', evs) := OpenBlock(s, last, content, uuid);
      OpeningIsMute(s, last, content, uuid);
      MuteSpeaks(evs);
      assert (evs + [BlockDelta(s'.index, delta)])[..|evs|] == evs;
      assert ProsePart(s, reasoning, text, uuid).1 == evs + [BlockDelta(s'.index, delta)];
    }
  }

  lemma ChoicePartSpeaks(s: Info, choice: Choice, uuid: Uuid)
    requires Shaped(s) && !s.done
    ensures Spoken(ChoicePart(s, choice, uuid).1) == ChunkSpeech(s, Chunk("", [choice], NoUsage))
  {
    hide ToolPart, ProsePart, CitationPart;
    var (s1, evs1) := if choice.toolCalls != [] then ToolPart(s, choice.toolCalls, uuid)
                      else ProsePart(s, choice.reasoning, choice.text, uuid);
    if choice.toolCalls != [] {
      ToolPartIsMute(s, choice.toolCalls, uuid);
      MuteSpeaks(evs1);
    } else {
      ProsePartSpeaks(s, choice.reasoning, choice.text, uuid);
    }
    CitationPartSpeaks(s1, choice.citations, uuid);
    SpokenConcat(evs1, CitationPart(s1, choice.citations, uuid).1);
  }

  lemma ConcludingIsMute(s: Info, reason: string, uuid: Uuid)
    requires Shaped(s)
    ensures Spoken(Conclude(s, reason, uuid).1) == []
  {
    ClosingIsMute(s, uuid);
    MuteSpeaks(Conclude(s, reason, uuid).1);
  }

  lemma FinishingIsMute(s: Info, choice: Choice, usage: Usage, uuid: Uuid)
    requires Shaped(s)
    ensures Spoken(Finishing(s, choice, usage, uuid).1) == []
  {
    hide Conclude, StopReason;
    ConcludingIsMute(Reported(s, usage), StopReason(Reported(s, usage).finishReason), uuid);
  }

  lemma ChunkPartSpeaks(s: Info, chunk: Chunk, uuid: Uuid)
    requires Shaped(s) && !s.done
    ensures Spoken(ChunkPart(s, chunk, uuid).1) == ChunkSpeech(s, chunk)
  {
    hide ChoicePart, Conclude, Finishing, StopReason;
    if chunk.choices == [] {
      var s1 := Reported(s, chunk.usage);
      ConcludingIsMute(s1, StopReasonOrEnd(s1.finishReason), uuid);
    } else {
      var choice := chunk.choices[0];
      ChoicePartSpeaks(Noted(s, choice), choice, uuid);
      var (s1, evs1) := ChoicePart(Noted(s, choice), choice, uuid);
      FinishingIsMute(s1, choice, chunk.usage, uuid);
      SpokenConcat(evs1, Finishing(s1, choice, chunk.usage, uuid).1);
    }
  }

  lemma StepSpeaks(s: Info, chunk: Chunk, uuid: Uuid)
    requires Shaped(s)
    ensures Spoken(Step(s, chunk, uuid).1) == ChunkSpeech(s, chunk)
  {
    hide ChunkPart;
    if !s.done {
      var (s1, evs1) := OpenMessage(s.(sent := s.sent + 1), chunk.usage);
      MuteSpeaks(evs1);
      SpokenConcat(evs1, ChunkPart(s1, chunk, uuid).1);
      ChunkPartSpeaks(s1, chunk, uuid);
    }
  }

  lemma {:induction false} RunSpeaks(chunks: seq<Chunk>, uuid: Uuid)
    ensures Spoken(Run(chunks, uuid).1) == Speech(chunks, uuid)
  {
    if chunks != [] {
      var n := |chunks| - 1;
      RunSpeaks(chunks[..n], uuid);
      StepSpeaks(Run(chunks[..n], uuid).0, chunks[n], uuid);
      hide Step;
      SpokenConcat(Run(chunks[..n], uuid).1, Step(Run(chunks[..n], uuid).0, chunks[n], uuid).1);
    }
  }

  /** The output says what the live chunks say, in order, and nothing else. */
  lemma OutputSpeaks(chunks: seq<Chunk>, uuid: Uuid)
    ensures Spoken(Output(chunks, uuid)) == Speech(chunks, uuid)
  {
    var (s, evs) := Run(chunks, uuid);
    RunSpeaks(chunks, uuid);
    ConcludingIsMute(s, StopReasonOrEnd(s.finishReason), uuid);
    SpokenConcat(evs, Final(s, uuid).1);
  }

  // ---- the stop reason -------------------------------------------------------------

  /** The last finish reason a live chunk carried. */
  function FinishReason(chunks: seq<Chunk>, uuid: Uuid): string {
    if chunks == [] then "" else
      var n := |chunks| - 1;
      if !Run(chunks[..n], uuid).0.done && chunks[n].choices != [] && Finishes(chunks[n].choices[0])
      then chunks[n].choices[0].finishReason.value
      else FinishReason(chunks[..n], uuid)
  }

  predicate EndsWith(evs: seq<Event>, reason: string) {
    |evs| >= 2 && evs[|evs| - 2] == MessageDelta(reason) && evs[|evs| - 1] == MessageStop
  }

  lemma StopReasonGiven(reason: string)
    requires reason != ""
    ensures StopReason(reason) == StopReasonOrEnd(reason)
  {
  }

  lemma StepKeepsReason(s: Info, chunk: Chunk, uuid: Uuid)
    requires Shaped(s) && !s.done
    ensures var (s', evs) := Step(s, chunk, uuid);
            && s'.finishReason == (if chunk.choices != [] && Finishes(chunk.choices[0])
                                   then chunk.choices[0].finishReason.value else s.finishReason)
            && (s'.done ==> EndsWith(evs, StopReasonOrEnd(s'.finishReason)))
  {
    hide ChunkPart, StopReason, EndsWith;
    var (s1, evs1) := OpenMessage(s.(sent := s.sent + 1), chunk.usage);
    ChunkPartKeepsReason(s1, chunk, uuid);
    EndsAfter(evs1, ChunkPart(s1, chunk, uuid).1, StopReasonOrEnd(ChunkPart(s1, chunk, uuid).0.finishReason));
  }

  lemma EndsAfter(before: seq<Event>, evs: seq<Event>, reason: string)
    ensures EndsWith(evs, reason) ==> EndsWith(before + evs, reason)
  {
  }

  lemma ConcludeEnds(s: Info, reason: string, uuid: Uuid)
    requires Shaped(s)
    ensures EndsWith(Conclude(s, reason, uuid).1, reason) && Conclude(s, reason, uuid).0.finishReason == s.finishReason
  {
    hide CloseBlocks;
  }

  lemma ChunkPartKeepsReason(s: Info, chunk: Chunk, uuid: Uuid)
    requires Shaped(s) && !s.done
    ensures var (s', evs) := ChunkPart(s, chunk, uuid);
            && s'.finishReason == (if chunk.choices != [] && Finishes(chunk.choices[0])
                                   then chunk.choices[0].finishReason.value else s.finishReason)
            && (s'.done ==> EndsWith(evs, StopReasonOrEnd(s'.finishReason)))
  {
    hide ChoicePart, Conclude, StopReason, EndsWith;
    if chunk.choices == [] {
      var s1 := Reported(s, chunk.usage);
      ConcludeEnds(s1, StopReasonOrEnd(s1.finishReason), uuid);
    } else {
      var choice := chunk.choices[0];
      var (s1, evs1) := ChoicePart(Noted(s, choice), choice, uuid);
      var s2 := Reported(s1, chunk.usage);
      if Finishes(choice) {
        StopReasonGiven(choice.finishReason.value);
        ConcludeEnds(s2, StopReason(s2.finishReason), uuid);
        EndsAfter(evs1, Conclude(s2, StopReason(s2.finishReason), uuid).1, StopReason(s2.finishReason));
      }
    }
  }

  lemma DoneIsFinal(s: Info, chunk: Chunk, uuid: Uuid)
    requires Shaped(s) && s.done
    ensures Step(s, chunk, uuid) == (s.(sent := s.sent + 1), [])
  {
  }

  lemma {:induction false} RunKeepsReason(chunks: seq<Chunk>, uuid: Uuid)
    ensures var (s, evs) := Run(chunks, uuid);
            s.finishReason == FinishReason(chunks, uuid) && (s.done ==> EndsWith(evs, StopReasonOrEnd(s.finishReason)))
  {
    hide Step, StopReason;
    if chunks != [] {
      var n := |chunks| - 1;
      RunKeepsReason(chunks[..n], uuid);
      var (s, evs) := Run(chunks[..n], uuid);
      if s.done {
        DoneIsFinal(s, chunks[n], uuid);
        assert evs + [] == evs;
      } else {
        StepKeepsReason(s, chunks[n], uuid);
      }
    }
  }

  /** Every output ends with the stop reason of the last finish reason a live chunk
      carried, end_turn when there was none. */
  lemma OutputStopReason(chunks: seq<Chunk>, uuid: Uuid)
    ensures EndsWith(Output(chunks, uuid), StopReasonOrEnd(FinishReason(chunks, uuid)))
  {
    RunKeepsReason(chunks, uuid);
    var (s, evs) := Run(chunks, uuid);
    if s.done {
      assert evs + [] == evs;
    }
  }
}
