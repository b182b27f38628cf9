/** The Chat to Responses converter as it runs: one object whose fields and dictionaries
    are updated by every chunk and hosted call. */
module ChatToResponsesStreamState {
  import opened Basics
  import opened ChatDto
  import opened ResponsesDto
  import Spec = ChatToResponses
  import InsertionSort
  import Text

  class ChatToResponsesStreamState {
    const emitSequenceNumber: bool
    var id: string
    var status: Spec.Status
    var incompleteReason: Option<string>
    var sentCreated: bool
    var textOutputIndex: int
    var textStarted: bool
    var textDone: bool
    var reasoningIndex: int
    var reasoningStarted: bool
    var reasoningDone: bool
    var finalized: bool
    var nextOutputIndex: nat
    var toolsByIndex: map<int, Spec.Call>
    var hostedByID: map<string, Spec.HostedCall>
    var outputOrder: seq<Spec.Ref>
    var text: string
    var annotations: seq<Annotation>
    var reasoning: string

    function View(): Spec.State
      reads this
    {
      Spec.State(id, status, incompleteReason, sentCreated, finalized, outputOrder, textOutputIndex, textStarted,
                 textDone, text, annotations, reasoningIndex, reasoningStarted, reasoningDone, reasoning,
                 toolsByIndex, hostedByID)
    }

    /** Indexes are handed out in the order of the announcements. */
    ghost predicate Valid()
      reads this
    {
      nextOutputIndex == |outputOrder|
    }

    constructor (id: string, emitSequenceNumber: bool)
      ensures Valid() && View() == Spec.Initial(id) && this.emitSequenceNumber == emitSequenceNumber
    {
      this.id, this.emitSequenceNumber := id, emitSequenceNumber;
      status, incompleteReason, sentCreated, finalized := Spec.StatusCompleted, None, false, false;
      textOutputIndex, textStarted, textDone, text, annotations := -1, false, false, "", [];
      reasoningIndex, reasoningStarted, reasoningDone, reasoning := -1, false, false, "";
      nextOutputIndex, toolsByIndex, hostedByID, outputOrder := 0, map[], map[], [];
    }

    method NextIndex(ref: Spec.Ref) returns (index: nat)
      requires Valid()
      modifies this`nextOutputIndex, this`outputOrder
      ensures Valid() && index == |old(outputOrder)| && outputOrder == old(outputOrder) + [ref]
    {
      index := nextOutputIndex;
      nextOutputIndex := nextOutputIndex + 1;
      outputOrder := outputOrder + [ref];
    }

    method EnsureCreated() returns (evs: seq<StreamEvent>)
      requires Valid()
      modifies this`sentCreated
      ensures Valid() && (View(), evs) == Spec.EnsureCreated(old(View()))
    {
      if sentCreated { return []; }
      sentCreated := true;
      evs := [Spec.Bare(Created, Some(Response(Some("in_progress"), None, [])))];
    }

    // ---- deltas ------------------------------------------------------------------------------

    method StartText() returns (evs: seq<StreamEvent>)
      requires Valid()
      modifies this`textStarted, this`textOutputIndex, this`nextOutputIndex, this`outputOrder
      ensures Valid() && (View(), evs) == Spec.StartText(old(View()))
    {
      hide Spec.EmptyItem, Spec.Announcing, Spec.MessageId, Spec.SameStream;
      MessageIdIs();
      if textStarted { return []; }
      textStarted := true;
      textOutputIndex := NextIndex(Spec.MessageRef);
      evs := [Spec.Announcing(textOutputIndex, "", Spec.EmptyItem(MessageType, id + "_msg_0").(role := "assistant"))];
    }

    lemma MessageIdIs()
      ensures Spec.MessageId(View()) == id + "_msg_0" && Spec.ReasoningId(View()) == id + "_reasoning_0"
    {
    }

    method AppendTextDelta(delta: string) returns (evs: seq<StreamEvent>)
      requires Valid()
      modifies this`textStarted, this`textOutputIndex, this`nextOutputIndex, this`outputOrder, this`text
      ensures Valid() && (View(), evs) == Spec.TextStep(old(View()), delta)
    {
      evs := StartText();
      text := text + delta;
      evs := evs + [Spec.About(OutputTextDelta, textOutputIndex, id + "_msg_0").(delta := delta)];
    }

    method AppendAnnotationDelta(list: seq<Annotation>) returns (evs: seq<StreamEvent>)
      requires Valid()
      modifies this`textStarted, this`textOutputIndex, this`nextOutputIndex, this`outputOrder, this`annotations
      ensures Valid() && (View(), evs) == Spec.AnnotationStep(old(View()), list)
    {
      hide Spec.StartText, Spec.AnnotationEvents;
      evs := StartText();
      ghost var started := View();
      ghost var opening := evs;
      NoAnnotations(started);
      assert list[..0] == [];
      for i := 0 to |list|
        invariant Valid() && View() == started.(annotations := started.annotations + list[..i])
        invariant evs == opening + Spec.AnnotationEvents(started, list[..i])
      {
        OneAnnotation(started, list, i);
        annotations := annotations + [list[i]];
        evs := evs + [Spec.About(AnnotationAdded, textOutputIndex, id + "_msg_0").(annotation := Parsed(list[i]))];
      }
      assert list[..|list|] == list;
    }

    static lemma NoAnnotations(s: Spec.State)
      ensures Spec.AnnotationEvents(s, []) == []
    {
    }

    static lemma OneAnnotation(s: Spec.State, list: seq<Annotation>, i: nat)
      requires i < |list|
      ensures Spec.AnnotationEvents(s, list[..i + 1])
           == Spec.AnnotationEvents(s, list[..i])
              + [Spec.About(AnnotationAdded, s.textIndex, Spec.MessageId(s)).(annotation := Parsed(list[i]))]
    {
      assert list[..i + 1][..i] == list[..i];
    }

    method StartReasoning() returns (evs: seq<StreamEvent>)
      requires Valid()
      modifies this`reasoningStarted, this`reasoningIndex, this`nextOutputIndex, this`outputOrder
      ensures Valid() && (View(), evs) == Spec.StartReasoning(old(View()))
    {
      hide Spec.EmptyItem, Spec.Announcing, Spec.ReasoningId, Spec.SameStream;
      MessageIdIs();
      if reasoningStarted { return []; }
      reasoningStarted := true;
      reasoningIndex := NextIndex(Spec.ReasoningRef);
      evs := [Spec.Announcing(reasoningIndex, "", Spec.EmptyItem(ReasoningType, id + "_reasoning_0"))];
    }

    method AppendReasoningDelta(delta: string) returns (evs: seq<StreamEvent>)
      requires Valid()
      modifies this`reasoningStarted, this`reasoningIndex, this`nextOutputIndex, this`outputOrder, this`reasoning
      ensures Valid() && (View(), evs) == Spec.ReasoningStep(old(View()), delta)
    {
      evs := StartReasoning();
      reasoning := reasoning + delta;
      evs := evs + [Spec.About(ReasoningDelta, reasoningIndex, id + "_reasoning_0").(delta := delta)];
    }

    method AnnounceCall(chatIndex: int, delta: ToolDelta) returns (evs: seq<StreamEvent>)
      requires Valid()
      modifies this`toolsByIndex, this`nextOutputIndex, this`outputOrder
      ensures Valid() && (View(), evs) == Spec.StartCall(old(View()), chatIndex, delta)
    {
      if chatIndex in toolsByIndex { return []; }
      var incomingID := Text.Trim(delta.id);
      var index := NextIndex(Spec.ToolRef(chatIndex));
      var itemID := if incomingID == "" then id + "_call_" + Text.SignedDecimal(chatIndex) else incomingID;
      var call := Spec.Call(index, itemID, incomingID, Text.Trim(delta.name), "", false);
      toolsByIndex := toolsByIndex[chatIndex := call];
      evs := [Spec.Announcing(index, call.itemId, Spec.ToolItem(call))];
    }

    method AppendToolCallDelta(delta: ToolDelta) returns (out: Option<seq<StreamEvent>>)
      requires Valid()
      modifies this`toolsByIndex, this`nextOutputIndex, this`outputOrder
      ensures Valid()
      ensures var r := Spec.ToolStep(old(View()), delta);
              if r.None? then out.None? else out == Some(r.value.1) && View() == r.value.0
    {
      hide Spec.StartCall, Spec.About, Text.Trim;
      var chatIndex := delta.index.GetOr(0);
      var evs := AnnounceCall(chatIndex, delta);
      var call := toolsByIndex[chatIndex];
      var incomingID, incomingName := Text.Trim(delta.id), Text.Trim(delta.name);
      if call.done { return None; }
      if incomingID != "" {
        if call.callId != "" && call.callId != incomingID { return None; }
        call := call.(callId := incomingID);
      }
      if incomingName != "" {
        if call.name != "" && call.name != incomingName { return None; }
        call := call.(name := incomingName);
      }
      if delta.arguments != "" {
        call := call.(arguments := call.arguments + delta.arguments);
        evs := evs + [Spec.About(ArgumentsDelta, call.outputIndex, call.itemId).(delta := delta.arguments)];
      } else {
        assert call.arguments + delta.arguments == call.arguments && evs + [] == evs;
      }
      toolsByIndex := toolsByIndex[chatIndex := call];
      out := Some(evs);
    }

    // ---- completion ----------------------------------------------------------------------------

    method CloseText() returns (evs: seq<StreamEvent>)
      requires Valid()
      modifies this`textDone
      ensures Valid() && (View(), evs) == Spec.CloseText(old(View()), emitSequenceNumber)
    {
      if !textStarted || textDone { return []; }
      evs := [Spec.About(OutputTextDone, textOutputIndex,
                         id + "_msg_0").(text := if emitSequenceNumber then Some(text) else None),
              Spec.Completing(textOutputIndex, "", Spec.MessageItem(View()))];
      textDone := true;
    }

    method CloseReasoning() returns (evs: seq<StreamEvent>)
      requires Valid()
      modifies this`reasoningDone
      ensures Valid() && (View(), evs) == Spec.CloseReasoning(old(View()), emitSequenceNumber)
    {
      if !reasoningStarted || reasoningDone { return []; }
      evs := [Spec.About(ReasoningDone, reasoningIndex,
                         id + "_reasoning_0").(text := if emitSequenceNumber then Some(reasoning) else None),
              Spec.Completing(reasoningIndex, "", Spec.ReasoningItem(View()))];
      reasoningDone := true;
    }

    method SortedTools() returns (indexes: seq<int>)
      requires Valid()
      ensures indexes == InsertionSort.Sorted(Spec.ToolIndexes(outputOrder))
    {
      var announced: seq<int> := [];
      for i := 0 to |outputOrder|
        invariant announced == Spec.ToolIndexes(outputOrder[..i])
      {
        assert outputOrder[..i + 1][..i] == outputOrder[..i];
        if outputOrder[i].ToolRef? { announced := announced + [outputOrder[i].index]; }
      }
      assert outputOrder[..|outputOrder|] == outputOrder;
      indexes := InsertionSort.Sorted(announced);
    }

    method CloseCall(chatIndex: int) returns (evs: seq<StreamEvent>)
      requires Valid()
      modifies this`toolsByIndex
      ensures Valid() && (View(), evs) == Spec.CloseCall(old(View()), chatIndex, emitSequenceNumber)
    {
      if chatIndex !in toolsByIndex || toolsByIndex[chatIndex].done { return []; }
      var call := toolsByIndex[chatIndex];
      toolsByIndex := toolsByIndex[chatIndex := call.(done := true)];
      evs := [Spec.About(ArgumentsDone, call.outputIndex,
                         call.itemId).(arguments := if emitSequenceNumber then Some(call.arguments) else None),
              Spec.Completing(call.outputIndex, "", Spec.ToolItem(call))];
    }

    method CloseCalls() returns (evs: seq<StreamEvent>)
      requires Valid()
      modifies this`toolsByIndex
      ensures Valid()
      ensures (View(), evs) == Spec.CloseCalls(old(View()), InsertionSort.Sorted(Spec.ToolIndexes(old(outputOrder))),
                                               emitSequenceNumber)
    {
      hide View, Spec.CloseCall;
      var indexes := SortedTools();
      evs := [];
      for i := 0 to |indexes|
        invariant Valid() && (View(), evs) == Spec.CloseCalls(old(View()), indexes[..i], emitSequenceNumber)
      {
        assert indexes[..i + 1][..i] == indexes[..i];
        var more := CloseCall(indexes[i]);
        evs := evs + more;
      }
      assert indexes[..|indexes|] == indexes;
    }

    method CloseHostedCall(callID: string) returns (evs: seq<StreamEvent>)
      requires Valid()
      modifies this`status, this`hostedByID
      ensures Valid() && (View(), evs) == Spec.CloseHosted(old(View()), callID)
    {
      hide Spec.Completing, Spec.FailureEvent;
      if callID !in hostedByID || hostedByID[callID].done { return []; }
      var call := hostedByID[callID];
      if status != Spec.StatusFailed { status := Spec.StatusIncomplete; }
      hostedByID := hostedByID[callID := call.(done := true)];
      evs := [];
      if status == Spec.StatusFailed { evs := Spec.FailureEvent(call, call.item.id); }
      evs := evs + [Spec.Completing(call.outputIndex, call.item.id, call.item)];
    }

    method CloseHosted() returns (evs: seq<StreamEvent>)
      requires Valid()
      modifies this`status, this`hostedByID
      ensures Valid() && (View(), evs) == Spec.CloseHostedRefs(old(View()), old(outputOrder))
    {
      hide View, Spec.CloseHosted;
      evs := [];
      for i := 0 to |outputOrder|
        invariant Valid() && (View(), evs) == Spec.CloseHostedRefs(old(View()), outputOrder[..i])
      {
        assert outputOrder[..i + 1][..i] == outputOrder[..i];
        if outputOrder[i].HostedRef? {
          var more := CloseHostedCall(outputOrder[i].id);
          evs := evs + more;
        }
      }
      assert outputOrder[..|outputOrder|] == outputOrder;
    }

    method DoneDeltaEvents() returns (evs: seq<StreamEvent>)
      requires Valid()
      modifies this`textDone, this`reasoningDone, this`toolsByIndex, this`status, this`hostedByID
      ensures Valid() && (View(), evs) == Spec.CloseAll(old(View()), emitSequenceNumber)
    {
      hide Spec.CloseText, Spec.CloseReasoning, Spec.CloseCalls, Spec.CloseHostedRefs;
      evs := CloseText();
      var more := CloseReasoning();
      evs := evs + more;
      more := CloseCalls();
      evs := evs + more;
      more := CloseHosted();
      evs := evs + more;
    }

    // ---- chunks --------------------------------------------------------------------------------------

    method ApplyFinishReason(reason: string)
      requires Valid()
      modifies this`status, this`incompleteReason
      ensures Valid() && View() == Spec.Finished(old(View()), reason)
    {
      hide Text.Trim;
      var status' := Spec.StatusFor(Text.Trim(reason));
      status, incompleteReason := status'.0, status'.1;
    }

    method AppendToolCalls(deltas: seq<ToolDelta>) returns (out: Option<seq<StreamEvent>>)
      requires Valid()
      modifies this`toolsByIndex, this`nextOutputIndex, this`outputOrder
      ensures Valid()
      ensures var r := Spec.ToolSteps(old(View()), deltas);
              if r.None? then out.None? else out == Some(r.value.1) && View() == r.value.0
    {
      hide Spec.ToolStep;
      var evs := [];
      for i := 0 to |deltas|
        invariant Valid() && Spec.ToolSteps(old(View()), deltas[..i]) == Some((View(), evs))
      {
        assert deltas[..i + 1][..i] == deltas[..i];
        var more := AppendToolCallDelta(deltas[i]);
        if more.None? {
          ToolStepsFail(old(View()), deltas, i + 1);
          return None;
        }
        evs := evs + more.value;
      }
      assert deltas[..|deltas|] == deltas;
      out := Some(evs);
    }

    static lemma {:induction false} ToolStepsFail(s: Spec.State, deltas: seq<ToolDelta>, k: nat)
      requires k <= |deltas| && Spec.ToolSteps(s, deltas[..k]).None?
      ensures Spec.ToolSteps(s, deltas).None?
      decreases |deltas|
    {
      hide Spec.ToolStep;
      if k < |deltas| {
        assert deltas[..|deltas| - 1][..k] == deltas[..k];
        ToolStepsFail(s, deltas[..|deltas| - 1], k);
      } else {
        assert deltas[..k] == deltas;
      }
    }

    method ApplyChoice(choice: Choice) returns (out: Option<seq<StreamEvent>>)
      requires Valid()
      modifies this
      ensures Valid()
      ensures var r := Spec.ChoiceStep(old(View()), choice, emitSequenceNumber);
              if r.None? then out.None? else out == Some(r.value.1) && View() == r.value.0
    {
      hide View, Spec.ReasoningStep, Spec.TextStep, Spec.AnnotationStep, Spec.ToolSteps, Spec.CloseAll, Spec.Finished,
           Text.Trim;
      var evs: seq<StreamEvent> := [];
      if choice.reasoning != "" { evs := AppendReasoningDelta(choice.reasoning); }
      var more: seq<StreamEvent> := [];
      if choice.text != "" { more := AppendTextDelta(choice.text); }
      evs := evs + more;
      more := [];
      if choice.annotations.BadAnnotations? { return None; }
      if choice.annotations.AnnotationList? { more := AppendAnnotationDelta(choice.annotations.list); }
      evs := evs + more;
      var calls := AppendToolCalls(choice.toolCalls);
      if calls.None? { return None; }
      evs := evs + calls.value;
      more := [];
      if Spec.Finishes(choice) {
        ApplyFinishReason(choice.finishReason.value);
        more := DoneDeltaEvents();
      }
      out := Some(evs + more);
    }

    method ApplyChoices(choices: seq<Choice>) returns (out: Option<seq<StreamEvent>>)
      requires Valid()
      modifies this
      ensures Valid()
      ensures var r := Spec.ChoiceSteps(old(View()), choices, emitSequenceNumber);
              if r.None? then out.None? else out == Some(r.value.1) && View() == r.value.0
    {
      hide View, Spec.ChoiceStep;
      var evs := [];
      for i := 0 to |choices|
        invariant Valid() && Spec.ChoiceSteps(old(View()), choices[..i], emitSequenceNumber) == Some((View(), evs))
      {
        assert choices[..i + 1][..i] == choices[..i];
        var more := ApplyChoice(choices[i]);
        if more.None? {
          ChoiceStepsFail(old(View()), choices, i + 1, emitSequenceNumber);
          return None;
        }
        evs := evs + more.value;
      }
      assert choices[..|choices|] == choices;
      out := Some(evs);
    }

    static lemma {:induction false} ChoiceStepsFail(s: Spec.State, choices: seq<Choice>, k: nat, numbered: bool)
      requires k <= |choices| && Spec.ChoiceSteps(s, choices[..k], numbered).None?
      ensures Spec.ChoiceSteps(s, choices, numbered).None?
      decreases |choices|
    {
      hide Spec.ChoiceStep;
      if k < |choices| {
        assert choices[..|choices| - 1][..k] == choices[..k];
        ChoiceStepsFail(s, choices[..|choices| - 1], k, numbered);
      } else {
        assert choices[..k] == choices;
      }
    }

    /** ChatCompletionsStreamChunkToResponsesEvents. */
    method ConvertChunk(chunk: Chunk) returns (out: Option<seq<StreamEvent>>)
      requires Valid()
      modifies this
      ensures Valid()
      ensures var r := Spec.ChunkStep(old(View()), chunk, emitSequenceNumber);
              if r.None? then out.None? else out == Some(r.value.1) && View() == r.value.0
    {
      hide Spec.ChoiceSteps, Spec.EnsureCreated;
      if id == "" { id := chunk.id; }
      assert View() == Spec.Named(old(View()), chunk.id);
      var evs := EnsureCreated();
      var rest := ApplyChoices(chunk.choices);
      if rest.None? { return None; }
      out := Some(evs + rest.value);
    }

    // ---- hosted calls ----------------------------------------------------------------------------------

    method Enroll(callID: string, item: Item) returns (index: nat)
      requires Valid()
      modifies this`nextOutputIndex, this`outputOrder, this`hostedByID
      ensures Valid() && index == |old(View()).order|
      ensures View() == old(View()).(order := old(View()).order + [Spec.HostedRef(callID)],
                                     hosted := old(View()).hosted[callID := Spec.HostedCall(index, item, false)])
    {
      index := NextIndex(Spec.HostedRef(callID));
      hostedByID := hostedByID[callID := Spec.HostedCall(index, item, false)];
    }

    method StartHostedTool(start: Spec.HostedStart) returns (out: Option<seq<StreamEvent>>)
      requires Valid()
      modifies this`nextOutputIndex, this`outputOrder, this`hostedByID, this`sentCreated
      ensures Valid()
      ensures var r := Spec.StartStep(old(View()), start);
              if r.None? then out.None? else out == Some(r.value.1) && View() == r.value.0
    {
      hide View, Spec.HostedItem, Spec.EnsureCreated, Text.Trim, Spec.Announcing, Spec.About, Spec.SameStream;
      if !Spec.Startable(View(), start) { return None; }
      var callID := Text.Trim(start.id);
      var item := Spec.HostedItem(start);
      var index := Enroll(callID, item);
      var evs := EnsureCreated();
      evs := evs + [Spec.Announcing(index, callID, item.(arguments := "")), Spec.About(OtherEvent, index, callID)];
      if start.hostedType == "web_search_call" {
        evs := evs + [Spec.About(OtherEvent, index, callID)];
      } else {
        evs := evs + [Spec.About(OtherEvent, index, callID).(delta := start.action.value),
                      Spec.About(OtherEvent, index, callID).(arguments := Some(start.action.value))];
      }
      out := Some(evs);
    }

    method CompleteHostedTool(result: Spec.HostedResult) returns (out: Option<seq<StreamEvent>>)
      requires Valid()
      modifies this`hostedByID
      ensures Valid()
      ensures var r := Spec.CompleteStep(old(View()), result);
              if r.None? then out.None? else out == Some(r.value.1) && View() == r.value.0
    {
      if !Spec.Completable(View(), result) { return None; }
      var callID := Text.Trim(result.id);
      var call := hostedByID[callID];
      hostedByID := hostedByID[callID := call.(done := true)];
      var evs;
      if result.isError || Text.Trim(result.errorCode) != "" {
        evs := Spec.FailureEvent(call, callID);
      } else {
        evs := [Spec.About(OtherEvent, call.outputIndex, callID)];
      }
      out := Some(evs + [Spec.Completing(call.outputIndex, callID, call.item)]);
    }

    // ---- the end -----------------------------------------------------------------------------------------

    method FinalResponse() returns (response: Response)
      requires Valid()
      ensures response == Spec.FinalResponse(View())
    {
      var output: seq<Item> := [];
      for i := 0 to |outputOrder|
        invariant output == Spec.Outputs(View(), outputOrder[..i])
      {
        assert outputOrder[..i + 1][..i] == outputOrder[..i];
        match outputOrder[i] {
          case MessageRef => output := output + [Spec.MessageItem(View())];
          case ReasoningRef => output := output + [Spec.ReasoningItem(View())];
          case ToolRef(index) => if index in toolsByIndex { output := output + [Spec.ToolItem(toolsByIndex[index])]; }
          case HostedRef(callID) => if callID in hostedByID { output := output + [hostedByID[callID].item]; }
        }
      }
      assert outputOrder[..|outputOrder|] == outputOrder;
      response := Response(Some(Spec.StatusText(status)), incompleteReason, output);
    }

    method Finalize() returns (evs: seq<StreamEvent>)
      requires Valid()
      modifies this
      ensures Valid() && (View(), evs) == Spec.Finalize(old(View()), emitSequenceNumber)
    {
      hide Spec.CloseAll, Spec.FinalResponse;
      if finalized { return []; }
      evs := DoneDeltaEvents();
      finalized := true;
      var response := FinalResponse();
      evs := evs + [Spec.Bare(if status == Spec.StatusIncomplete then Incomplete else Completed, Some(response))];
    }

    method Fail() returns (evs: seq<StreamEvent>)
      requires Valid()
      modifies this
      ensures Valid() && (View(), evs) == Spec.Fail(old(View()), emitSequenceNumber)
    {
      hide View, Spec.CloseAll, Spec.FinalResponse, Spec.EnsureCreated, Spec.Bare;
      FinalizedSeen();
      if finalized { return []; }
      status := Spec.StatusFailed;
      StatusUpdated();
      evs := EnsureCreated();
      var more := DoneDeltaEvents();
      evs := evs + more;
      label done:
      finalized := true;
      FinalizedUpdated@done();
      var response := FinalResponse();
      evs := evs + [Spec.Bare(OtherEvent, None), Spec.Bare(Failed, Some(response))];
    }

    lemma FinalizedSeen()
      ensures View().finalized == finalized
    {
    }

    /** Only the status was written. */
    twostate lemma StatusUpdated()
      requires old(Valid()) && unchanged(`finalized) && OthersUnchanged()
      ensures Valid() && View() == old(View()).(status := status)
    {
    }

    /** Only the end of the stream was noted. */
    twostate lemma FinalizedUpdated()
      requires old(Valid()) && unchanged(`status) && OthersUnchanged()
      ensures Valid() && View() == old(View()).(finalized := finalized)
    {
    }

    twostate predicate OthersUnchanged()
      reads this
    {
      && unchanged(`id, `incompleteReason, `sentCreated, `textOutputIndex, `textStarted, `textDone, `reasoningIndex)
      && unchanged(`reasoningStarted, `reasoningDone, `nextOutputIndex, `toolsByIndex, `hostedByID, `outputOrder)
      && unchanged(`text, `annotations, `reasoning)
    }
  }
}
