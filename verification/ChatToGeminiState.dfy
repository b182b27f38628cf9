/** The Chat to Gemini converter as it runs: one object that gathers the calls of every
    choice. The records of a choice are kept together, its tools by position. */
module ChatToGeminiStreamState {
  import opened Basics
  import opened ChatDto
  import Spec = ChatToGemini
  import InsertionSort
  import Text

  class ChatToGeminiStreamState {
    var seenChoices: seq<int>
    var choices: map<int, Spec.ChoiceState>
    var finalized: bool

    function View(): Spec.State
      reads this
    {
      Spec.State(seenChoices, choices, finalized)
    }

    ghost predicate Valid()
      reads this
    {
      Spec.Valid(View())
    }

    constructor ()
      ensures Valid() && View() == Spec.INITIAL
    {
      seenChoices, choices, finalized := [], map[], false;
    }

    /** appendToolCallDelta, on the records of one choice. */
    static method AppendToolCallDelta(cs: Spec.ChoiceState, position: nat, delta: ToolDelta)
      returns (out: Result<Spec.ChoiceState, Spec.Error>)
      requires Spec.Linked(cs)
      ensures out == Spec.AppendDelta(cs, position, delta)
    {
      hide Text.Trim;
      var toolIndex := delta.index.GetOr(position);
      if toolIndex < 0 { return Err(Spec.NegativeIndex); }
      var incomingID, incomingName := Text.Trim(delta.id), Text.Trim(delta.name);
      var found: nat := |cs.tools|;
      if incomingID != "" && incomingID in cs.byId {
        found := cs.byId[incomingID];
      } else if toolIndex in cs.byIndex {
        found := cs.byIndex[toolIndex];
      }
      if found < |cs.tools| && incomingID != "" && cs.tools[found].id != "" && cs.tools[found].id != incomingID {
        found := |cs.tools|;
      }
      var tools := cs.tools;
      if found == |cs.tools| { tools := tools + [Spec.Tool("", "", "", false)]; }
      var tool := tools[found];
      if tool.emitted { return Err(Spec.DataAfterCompletion); }
      var byId := cs.byId;
      if incomingID != "" {
        if tool.id != "" && tool.id != incomingID { return Err(Spec.ChangedId); }
        tool := tool.(id := incomingID);
        byId := byId[incomingID := found];
      }
      if incomingName != "" {
        if tool.name != "" && tool.name != incomingName { return Err(Spec.ChangedName); }
        tool := tool.(name := incomingName);
      }
      tool := tool.(arguments := tool.arguments + delta.arguments);
      out := Ok(cs.(tools := tools[found := tool], byIndex := cs.byIndex[toolIndex := found], byId := byId));
    }

    static method AppendToolCallDeltas(cs: Spec.ChoiceState, deltas: seq<ToolDelta>)
      returns (out: Result<Spec.ChoiceState, Spec.Error>)
      requires Spec.Linked(cs)
      ensures out == Spec.AppendDeltas(cs, deltas)
    {
      hide Spec.AppendDelta;
      var current := cs;
      for i := 0 to |deltas|
        invariant Spec.Linked(current) && Spec.AppendDeltas(cs, deltas[..i]) == Ok(current)
      {
        assert deltas[..i + 1][..i] == deltas[..i];
        var next := AppendToolCallDelta(current, i, deltas[i]);
        if next.Err? {
          DeltasFail(cs, deltas, i + 1);
          return next;
        }
        current := next.value;
      }
      assert deltas[..|deltas|] == deltas;
      out := Ok(current);
    }

    static lemma {:induction false} DeltasFail(cs: Spec.ChoiceState, deltas: seq<ToolDelta>, k: nat)
      requires Spec.Linked(cs) && k <= |deltas| && Spec.AppendDeltas(cs, deltas[..k]).Err?
      ensures Spec.AppendDeltas(cs, deltas) == Spec.AppendDeltas(cs, deltas[..k])
      decreases |deltas|
    {
      hide Spec.AppendDelta;
      if k < |deltas| {
        assert deltas[..|deltas| - 1][..k] == deltas[..k];
        DeltasFail(cs, deltas[..|deltas| - 1], k);
      } else {
        assert deltas[..k] == deltas;
      }
    }

    /** finishChoice: nothing is emitted unless every pending tool is named. */
    static method FinishChoice(cs: Spec.ChoiceState)
      returns (out: Result<(Spec.ChoiceState, seq<Spec.Part>), Spec.Error>)
      requires Spec.Linked(cs)
      ensures out == Spec.FinishChoice(cs)
    {
      var parts: seq<Spec.Part> := [];
      for i := 0 to |cs.tools|
        invariant parts == Spec.Pending(cs.tools[..i]) && Spec.AllNamed(cs.tools[..i])
      {
        assert cs.tools[..i + 1][..i] == cs.tools[..i];
        if !cs.tools[i].emitted {
          if cs.tools[i].name == "" { return Err(Spec.Nameless); }
          parts := parts + [Spec.CallPart(cs.tools[i].id, cs.tools[i].name, cs.tools[i].arguments)];
        }
      }
      assert cs.tools[..|cs.tools|] == cs.tools;
      var tools := cs.tools;
      for i := 0 to |cs.tools|
        invariant |tools| == |cs.tools|
        invariant forall t :: 0 <= t < |tools| ==> tools[t] == if t < i then cs.tools[t].(emitted := true)
                  else cs.tools[t]
      {
        tools := tools[i := tools[i].(emitted := true)];
      }
      assert tools == Spec.Emitted(cs.tools);
      out := Ok((cs.(tools := tools), parts));
    }

    method ConvertChoice(choice: Choice) returns (out: Result<seq<Spec.Candidate>, Spec.Error>)
      requires Valid()
      modifies this`seenChoices, this`choices
      ensures Valid()
      ensures var r := Spec.RouteStep(old(View()), choice);
              if r.Err? then out == Err(r.error) else out == Ok(r.value.1) && View() == r.value.0
    {
      hide Spec.AppendDeltas, Spec.FinishChoice, Spec.FinishReason, Text.Trim;
      var cs := if choice.index in choices then choices[choice.index] else Spec.UNSEEN;
      if cs.finished && (choice.text != "" || choice.toolCalls != []) { return Err(Spec.ChoiceCompleted); }
      var shown: seq<Spec.Candidate> := [];
      if !cs.finished {
        var appended := AppendToolCallDeltas(cs, choice.toolCalls);
        if appended.Err? { return Err(appended.error); }
        cs := appended.value;
        var parts: seq<Spec.Part> := [];
        if choice.text != "" { parts := [Spec.TextPart(choice.text)]; }
        if Spec.Finishes(choice) {
          var ended := FinishChoice(cs);
          if ended.Err? { return Err(ended.error); }
          cs := ended.value.0.(finished := true);
          shown := [Spec.Candidate(choice.index, parts + ended.value.1,
                                   Some(Spec.FinishReason(choice.finishReason.value)))];
        } else if parts != [] {
          shown := [Spec.Candidate(choice.index, parts, None)];
        }
      }
      if choice.index !in choices { seenChoices := seenChoices + [choice.index]; }
      choices := choices[choice.index := cs];
      out := Ok(shown);
    }

    /** ConvertChunk. */
    method ConvertChunk(chunk: Chunk) returns (out: Result<seq<Spec.Candidate>, Spec.Error>)
      requires Valid()
      modifies this`seenChoices, this`choices
      ensures Valid()
      ensures var r := Spec.ChunkStep(old(View()), chunk);
              if r.Err? then out == Err(r.error) else out == Ok(r.value.1) && View() == r.value.0
    {
      hide Spec.RouteStep;
      if finalized { return Err(Spec.AfterFinalization); }
      var shown: seq<Spec.Candidate> := [];
      for i := 0 to |chunk.choices|
        invariant Valid() && Spec.RouteSteps(old(View()), chunk.choices[..i]) == Ok((View(), shown))
      {
        assert chunk.choices[..i + 1][..i] == chunk.choices[..i];
        var more := ConvertChoice(chunk.choices[i]);
        if more.Err? {
          RoutesFail(old(View()), chunk.choices, i + 1);
          return more;
        }
        shown := shown + more.value;
      }
      assert chunk.choices[..|chunk.choices|] == chunk.choices;
      out := Ok(shown);
    }

    static lemma {:induction false} RoutesFail(s: Spec.State, choices: seq<Choice>, k: nat)
      requires Spec.Valid(s) && k <= |choices| && Spec.RouteSteps(s, choices[..k]).Err?
      ensures Spec.RouteSteps(s, choices) == Spec.RouteSteps(s, choices[..k])
      decreases |choices|
    {
      hide Spec.RouteStep;
      if k < |choices| {
        assert choices[..|choices| - 1][..k] == choices[..k];
        RoutesFail(s, choices[..|choices| - 1], k);
      } else {
        assert choices[..k] == choices;
      }
    }

    method UnfinishedChoices() returns (unfinished: seq<int>)
      requires Valid()
      ensures unfinished == Spec.Unfinished(View(), seenChoices)
    {
      unfinished := [];
      for i := 0 to |seenChoices|
        invariant unfinished == Spec.Unfinished(View(), seenChoices[..i])
      {
        assert seenChoices[..i + 1][..i] == seenChoices[..i];
        var cs := choices[seenChoices[i]];
        if !cs.finished || exists t :: 0 <= t < |cs.tools| && !cs.tools[t].emitted {
          unfinished := unfinished + [seenChoices[i]];
        }
      }
      assert seenChoices[..|seenChoices|] == seenChoices;
    }

    /** Finalize; a second call finds nothing to do. */
    method Finalize() returns (out: Result<seq<Spec.Candidate>, Spec.Error>)
      requires Valid()
      modifies this
      ensures Valid() && (out.Ok? ==> finalized)
      ensures var r := Spec.Finalize(old(View()));
              if r.Err? then out == Err(r.error) else out == Ok(r.value.1) && View() == r.value.0
      ensures old(finalized) ==> out == Ok([]) && View() == old(View())
    {
      hide Spec.FinishChoice, Spec.Unfinished, InsertionSort.Sorted;
      if finalized { return Ok([]); }
      var unfinished := UnfinishedChoices();
      var order := InsertionSort.Sorted(unfinished);
      var shown: seq<Spec.Candidate> := [];
      for i := 0 to |order|
        invariant Valid() && Spec.FinishAll(old(View()), order[..i]) == Ok((View(), shown))
      {
        assert order[..i + 1][..i] == order[..i];
        var cs := Spec.At(View(), order[i]);
        var ended := FinishChoice(cs);
        if ended.Err? {
          FinishAllFails(old(View()), order, i + 1);
          return Err(ended.error);
        }
        choices := choices[order[i] := ended.value.0];
        shown := shown + [Spec.Candidate(order[i], ended.value.1, Some("STOP"))];
      }
      assert order[..|order|] == order;
      finalized := true;
      out := Ok(shown);
    }

    static lemma {:induction false} FinishAllFails(s: Spec.State, order: seq<int>, k: nat)
      requires Spec.Valid(s) && k <= |order| && Spec.FinishAll(s, order[..k]).Err?
      ensures Spec.FinishAll(s, order) == Spec.FinishAll(s, order[..k])
      decreases |order|
    {
      hide Spec.FinishChoice;
      if k < |order| {
        assert order[..|order| - 1][..k] == order[..k];
        FinishAllFails(s, order[..|order| - 1], k);
      } else {
        assert order[..k] == order;
      }
    }
  }
}
