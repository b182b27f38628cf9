/** Function calls through the Chat to Gemini converter: every call of a choice is emitted
    once, whole, and in order of first appearance, and every choice ends once. */
module ChatToGeminiCalls {
  import opened Basics
  import opened ChatDto
  import opened ChatToGemini
  import InsertionSort
  import Text

  // ---- what a choice says -----------------------------------------------------------------

  /** A fragment and the tool it was routed to. */
  datatype Fragment = Fragment(tool: nat, index: int, id: string, name: string, text: string)

  function FragmentOf(cs: ChoiceState, position: nat, delta: ToolDelta): Fragment
    requires Linked(cs)
  {
    var id := Text.Trim(delta.id);
    Fragment(Lookup(cs, IndexOf(delta, position), id), IndexOf(delta, position), id, Text.Trim(delta.name),
             delta.arguments)
  }

  function DeltaFragments(cs: ChoiceState, deltas: seq<ToolDelta>): seq<Fragment>
    requires Linked(cs) && AppendDeltas(cs, deltas).Ok?
  {
    if deltas == [] then [] else
      var n := |deltas| - 1;
      DeltaFragments(cs, deltas[..n]) + [FragmentOf(AppendDeltas(cs, deltas[..n]).value, n, deltas[n])]
  }

  /** The choices of one index, in order. */
  function Mine(choices: seq<Choice>, c: int): seq<Choice> {
    if choices == [] then [] else
      Mine(choices[..|choices| - 1], c) + if choices[|choices| - 1].index == c then [choices[|choices| - 1]] else []
  }

  function AllChoices(chunks: seq<Chunk>): seq<Choice> {
    if chunks == [] then [] else AllChoices(chunks[..|chunks| - 1]) + chunks[|chunks| - 1].choices
  }

  /** One choice by itself. */
  function ChoiceRun(choices: seq<Choice>): (r: Result<(ChoiceState, seq<Candidate>), Error>)
    ensures r.Ok? ==> Linked(r.value.0)
  {
    if choices == [] then Ok((UNSEEN, [])) else
      var before := ChoiceRun(choices[..|choices| - 1]);
      if before.Err? then before else
        var after := ChoiceStep(before.value.0, choices[|choices| - 1]);
        if after.Err? then after else Ok((after.value.0, before.value.1 + after.value.1))
  }

  /** The fragments of a choice, in order of arrival. */
  function Fragments(choices: seq<Choice>): seq<Fragment>
    requires ChoiceRun(choices).Ok?
  {
    if choices == [] then [] else
      var n := |choices| - 1;
      var cs := ChoiceRun(choices[..n]).value.0;
      Fragments(choices[..n]) + if cs.finished then [] else DeltaFragments(cs, choices[n].toolCalls)
  }

  // ---- what the fragments say about a tool -----------------------------------------------------

  /** How many tools have appeared. */
  function Count(log: seq<Fragment>): nat {
    if log == [] then 0 else
      var n, t := Count(log[..|log| - 1]), log[|log| - 1].tool;
      if t >= n then t + 1 else n
  }

  /** The first non-empty id and name of a tool, and all its arguments. */
  function ToolOf(log: seq<Fragment>, t: nat): Tool {
    if log == [] then Tool("", "", "", false) else
      var tool, f := ToolOf(log[..|log| - 1], t), log[|log| - 1];
      if f.tool != t then tool
      else Tool(if tool.id == "" then f.id else tool.id, if tool.name == "" then f.name else tool.name,
                tool.arguments + f.text, false)
  }

  function CallOf(log: seq<Fragment>, t: nat): Part {
    CallPart(ToolOf(log, t).id, ToolOf(log, t).name, ToolOf(log, t).arguments)
  }

  /** The calls a choice is due. */
  function CallsDue(log: seq<Fragment>): seq<Part> { seq(Count(log), t requires 0 <= t < Count(log) => CallOf(log, t)) }

  /** The tool last active at an index. */
  function LastAt(log: seq<Fragment>, index: int): Option<nat> {
    if log == [] then None
    else if log[|log| - 1].index == index then Some(log[|log| - 1].tool)
    else LastAt(log[..|log| - 1], index)
  }

  /** The tool last active at an index, else the next new one. */
  function ActiveAt(log: seq<Fragment>, index: int): nat {
    if LastAt(log, index).Some? then LastAt(log, index).value else Count(log)
  }

  lemma LogSnoc(log: seq<Fragment>, f: Fragment, t: nat)
    ensures Count(log + [f]) == if f.tool >= Count(log) then f.tool + 1 else Count(log)
    ensures ToolOf(log + [f], t) ==
            var tool := ToolOf(log, t);
            if f.tool != t then tool
            else Tool(if tool.id == "" then f.id else tool.id, if tool.name == "" then f.name else tool.name,
                      tool.arguments + f.text, false)
  {
    assert (log + [f])[..|log|] == log;
  }

  // ---- what candidates show ----------------------------------------------------------------------

  function Calls(parts: seq<Part>): seq<Part> {
    if parts == [] then [] else
      Calls(parts[..|parts| - 1]) + if parts[|parts| - 1].CallPart? then [parts[|parts| - 1]] else []
  }

  function TextsOf(parts: seq<Part>): string {
    if parts == [] then "" else
      TextsOf(parts[..|parts| - 1]) + if parts[|parts| - 1].TextPart? then parts[|parts| - 1].text else ""
  }

  function CallsOf(out: seq<Candidate>): seq<Part> {
    if out == [] then [] else CallsOf(out[..|out| - 1]) + Calls(out[|out| - 1].parts)
  }

  function TextOf(out: seq<Candidate>): string {
    if out == [] then "" else TextOf(out[..|out| - 1]) + TextsOf(out[|out| - 1].parts)
  }

  function FinishCount(out: seq<Candidate>): nat {
    if out == [] then 0 else FinishCount(out[..|out| - 1]) + if out[|out| - 1].finish.Some? then 1 else 0
  }

  /** The candidates of one index. */
  function CandidatesOf(out: seq<Candidate>, c: int): seq<Candidate> {
    if out == [] then [] else
      CandidatesOf(out[..|out| - 1], c) + if out[|out| - 1].index == c then [out[|out| - 1]] else []
  }

  function SpokenText(choices: seq<Choice>): string {
    if choices == [] then "" else SpokenText(choices[..|choices| - 1]) + choices[|choices| - 1].text
  }

  lemma OutSnoc(out: seq<Candidate>, candidate: Candidate)
    ensures CallsOf(out + [candidate]) == CallsOf(out) + Calls(candidate.parts)
    ensures TextOf(out + [candidate]) == TextOf(out) + TextsOf(candidate.parts)
    ensures FinishCount(out + [candidate]) == FinishCount(out) + if candidate.finish.Some? then 1 else 0
  {
    assert (out + [candidate])[..|out|] == out;
  }

  lemma {:induction false} CallsConcat(a: seq<Part>, b: seq<Part>)
    ensures Calls(a + b) == Calls(a) + Calls(b)
  {
    if b == [] {
      assert a + b == a;
    } else {
      assert (a + b)[..|a + b| - 1] == a + b[..|b| - 1];
      CallsConcat(a, b[..|b| - 1]);
    }
  }

  lemma {:induction false} TextsConcat(a: seq<Part>, b: seq<Part>)
    ensures TextsOf(a + b) == TextsOf(a) + TextsOf(b)
  {
    if b == [] {
      assert a + b == a;
    } else {
      assert (a + b)[..|a + b| - 1] == a + b[..|b| - 1];
      TextsConcat(a, b[..|b| - 1]);
    }
  }

  // ---- the invariant of a choice -------------------------------------------------------------------

  /** The tools are what the fragments say, emitted exactly when the choice is finished. */
  ghost predicate Mirrors(cs: ChoiceState, log: seq<Fragment>)
    requires Linked(cs)
  {
    && |cs.tools| == Count(log)
    && (forall t :: 0 <= t < |cs.tools| ==> cs.tools[t] == ToolOf(log, t).(emitted := cs.finished))
    && IdsLead(cs) && IndexesLead(cs, log)
  }

  predicate IdsLead(cs: ChoiceState)
    requires Linked(cs)
  {
    && (forall id :: id in cs.byId ==> id != "" && cs.tools[cs.byId[id]].id == id)
    && (forall t :: 0 <= t < |cs.tools| && cs.tools[t].id != "" ==>
            cs.tools[t].id in cs.byId && cs.byId[cs.tools[t].id] == t)
  }

  ghost predicate IndexesLead(cs: ChoiceState, log: seq<Fragment>) {
    forall index :: LastAt(log, index) == if index in cs.byIndex then Some(cs.byIndex[index]) else None
  }

  /** Fragments with ids go to one tool exactly when the ids are equal. */
  predicate IdsAgree(log: seq<Fragment>) {
    forall i, j :: 0 <= i < |log| && 0 <= j < |log| && log[i].id != "" && log[j].id != "" ==>
      (log[i].id == log[j].id <==> log[i].tool == log[j].tool)
  }

  /** A fragment without id goes to the tool last active at its index, or begins a new one when
      there is none. */
  predicate IndexesAgree(log: seq<Fragment>) {
    forall k :: 0 <= k < |log| && log[k].id == "" ==> log[k].tool == ActiveAt(log[..k], log[k].index)
  }

  /** Tools are numbered in the order in which they first appear. */
  predicate InOrder(log: seq<Fragment>) { forall k :: 0 <= k < |log| ==> log[k].tool <= Count(log[..k]) }

  /** Every id a fragment carries is that of its tool. */
  predicate Fixed(log: seq<Fragment>) {
    forall k :: 0 <= k < |log| && log[k].id != "" ==> ToolOf(log, log[k].tool).id == log[k].id
  }

  predicate Told(log: seq<Fragment>) { Fixed(log) && IndexesAgree(log) && InOrder(log) }

  // ---- one fragment ----------------------------------------------------------------------------------

  lemma {:induction false} UntouchedTool(log: seq<Fragment>, t: nat)
    requires t >= Count(log)
    ensures ToolOf(log, t) == Tool("", "", "", false)
  {
    if log != [] { UntouchedTool(log[..|log| - 1], t); }
  }

  /** The routed tool has the fragment's id or none, and is the known one for it. */
  lemma LookupFits(cs: ChoiceState, index: int, id: string)
    requires Linked(cs) && IdsLead(cs)
    ensures var t := Lookup(cs, index, id);
            && (t < |cs.tools| && id != "" ==> cs.tools[t].id == "" || cs.tools[t].id == id)
            && (id != "" && id in cs.byId ==> t == cs.byId[id])
  {
  }

  /** The appended state, spelled out. */
  lemma AppendIs(cs: ChoiceState, position: nat, delta: ToolDelta)
    requires Linked(cs) && AppendDelta(cs, position, delta).Ok?
    ensures var cs', f := AppendDelta(cs, position, delta).value, FragmentOf(cs, position, delta);
            var tools := if f.tool < |cs.tools| then cs.tools else cs.tools + [Tool("", "", "", false)];
            var tool := tools[f.tool];
            && !tool.emitted && (f.id == "" || tool.id == "" || tool.id == f.id)
               && (f.name == "" || tool.name == "" || tool.name == f.name)
            && cs' == cs.(tools := tools[f.tool := Tool(if tool.id == "" then f.id else tool.id,
                                                        if tool.name == "" then f.name else tool.name,
                                                        tool.arguments + f.text, false)],
                          byIndex := cs.byIndex[f.index := f.tool],
                          byId := if f.id != "" then cs.byId[f.id := f.tool] else cs.byId)
  {
    hide Text.Trim, Lookup;
  }

  lemma AppendTools(cs: ChoiceState, log: seq<Fragment>, position: nat, delta: ToolDelta)
    requires Linked(cs) && Mirrors(cs, log) && !cs.finished && AppendDelta(cs, position, delta).Ok?
    ensures var cs', more := AppendDelta(cs, position, delta).value, log + [FragmentOf(cs, position, delta)];
            |cs'.tools| == Count(more) && forall t :: 0 <= t < |cs'.tools| ==> cs'.tools[t] == ToolOf(more, t)
  {
    hide AppendDelta, Text.Trim, Lookup, ToolOf, Count, IdsLead, IndexesLead;
    var f := FragmentOf(cs, position, delta);
    AppendIs(cs, position, delta);
    FragmentBound(cs, position, delta);
    UntouchedTool(log, |cs.tools|);
    forall t: nat ensures Count(log + [f]) == (if f.tool >= Count(log) then f.tool + 1 else Count(log))
                  ensures ToolOf(log + [f], t) ==
                          var tool := ToolOf(log, t);
                          if f.tool != t then tool
                          else Tool(if tool.id == "" then f.id else tool.id,
                                    if tool.name == "" then f.name else tool.name,
                                    tool.arguments + f.text, false)
                  ensures !ToolOf(log, t).emitted
    {
      LogSnoc(log, f, t);
      NeverEmitted(log, t);
    }
  }

  lemma FragmentBound(cs: ChoiceState, position: nat, delta: ToolDelta)
    requires Linked(cs)
    ensures FragmentOf(cs, position, delta).tool <= |cs.tools|
  {
  }

  lemma AppendLeads(cs: ChoiceState, position: nat, delta: ToolDelta)
    requires Linked(cs) && IdsLead(cs) && AppendDelta(cs, position, delta).Ok?
    ensures IdsLead(AppendDelta(cs, position, delta).value)
  {
    hide AppendDelta, Text.Trim, Lookup;
    var f := FragmentOf(cs, position, delta);
    AppendIs(cs, position, delta);
    FragmentBound(cs, position, delta);
    LookupFits(cs, f.index, f.id);
    var cs' := AppendDelta(cs, position, delta).value;
    forall t | 0 <= t < |cs'.tools| && cs'.tools[t].id != ""
      ensures cs'.tools[t].id in cs'.byId && cs'.byId[cs'.tools[t].id] == t
    {
      if t != f.tool { assert cs'.tools[t] == cs.tools[t]; }
    }
  }

  lemma AppendIndexes(cs: ChoiceState, log: seq<Fragment>, position: nat, delta: ToolDelta)
    requires Linked(cs) && IndexesLead(cs, log) && AppendDelta(cs, position, delta).Ok?
    ensures IndexesLead(AppendDelta(cs, position, delta).value, log + [FragmentOf(cs, position, delta)])
  {
    hide AppendDelta, Text.Trim, Lookup, FragmentOf;
    var f := FragmentOf(cs, position, delta);
    AppendIs(cs, position, delta);
    assert (log + [f])[..|log|] == log;
  }

  lemma AppendMirrors(cs: ChoiceState, log: seq<Fragment>, position: nat, delta: ToolDelta)
    requires Linked(cs) && Mirrors(cs, log) && !cs.finished && AppendDelta(cs, position, delta).Ok?
    ensures var cs' := AppendDelta(cs, position, delta).value;
            Mirrors(cs', log + [FragmentOf(cs, position, delta)]) && !cs'.finished
  {
    hide AppendDelta, FragmentOf, IdsLead, IndexesLead, ToolOf, Count;
    AppendTools(cs, log, position, delta);
    AppendLeads(cs, position, delta);
    AppendIndexes(cs, log, position, delta);
    AppendIs(cs, position, delta);
    var cs' := AppendDelta(cs, position, delta).value;
    forall t | 0 <= t < |cs'.tools|
      ensures !cs'.tools[t].emitted
    {
      NeverEmitted(log + [FragmentOf(cs, position, delta)], t);
    }
  }

  lemma {:induction false} NeverEmitted(log: seq<Fragment>, t: nat)
    ensures !ToolOf(log, t).emitted
  {
    if log != [] { NeverEmitted(log[..|log| - 1], t); }
  }

  lemma AppendTold(cs: ChoiceState, log: seq<Fragment>, position: nat, delta: ToolDelta)
    requires Linked(cs) && Mirrors(cs, log) && !cs.finished && Told(log) && AppendDelta(cs, position, delta).Ok?
    ensures Told(log + [FragmentOf(cs, position, delta)])
  {
    hide AppendDelta, ToolOf, Count, IndexesLead, ActiveAt, Text.Trim;
    var f := FragmentOf(cs, position, delta);
    var more := log + [f];
    AppendIs(cs, position, delta);
    FragmentBound(cs, position, delta);
    LookupFits(cs, f.index, f.id);
    UntouchedTool(log, |cs.tools|);
    forall k | 0 <= k < |more| && more[k].id != "" ensures ToolOf(more, more[k].tool).id == more[k].id {
      LogSnoc(log, f, more[k].tool);
    }
    forall k | 0 <= k < |more| ensures more[k].tool <= Count(more[..k]) { assert more[..k] == log[..k]; }
    assert log[..|log|] == log;
    IndexFollowed(cs, log, position, delta);
    forall k | 0 <= k < |more| && more[k].id == "" ensures more[k].tool == ActiveAt(more[..k], more[k].index) {
      assert more[..k] == log[..k];
    }
  }

  lemma IndexFollowed(cs: ChoiceState, log: seq<Fragment>, position: nat, delta: ToolDelta)
    requires Linked(cs) && IndexesLead(cs, log) && |cs.tools| == Count(log)
    ensures var f := FragmentOf(cs, position, delta); f.id == "" ==> f.tool == ActiveAt(log, f.index)
  {
    var f := FragmentOf(cs, position, delta);
    assert LastAt(log, f.index) == if f.index in cs.byIndex then Some(cs.byIndex[f.index]) else None;
  }

  lemma {:induction false} DeltasMirror(cs: ChoiceState, log: seq<Fragment>, deltas: seq<ToolDelta>)
    requires Linked(cs) && Mirrors(cs, log) && !cs.finished && Told(log) && AppendDeltas(cs, deltas).Ok?
    ensures var cs', more := AppendDeltas(cs, deltas).value, log + DeltaFragments(cs, deltas);
            Mirrors(cs', more) && !cs'.finished && Told(more)
  {
    hide Mirrors, Told, AppendDelta, FragmentOf;
    if deltas == [] {
      assert log + [] == log;
    } else {
      var n := |deltas| - 1;
      DeltasMirror(cs, log, deltas[..n]);
      var cs1 := AppendDeltas(cs, deltas[..n]).value;
      var log1 := log + DeltaFragments(cs, deltas[..n]);
      AppendMirrors(cs1, log1, n, deltas[n]);
      AppendTold(cs1, log1, n, deltas[n]);
      assert log + DeltaFragments(cs, deltas) == log1 + [FragmentOf(cs1, n, deltas[n])];
    }
  }

  // ---- one choice ------------------------------------------------------------------------------------------

  /** What a choice shows: its calls once it is finished, its text as it came, one end. */
  predicate Shows(cs: ChoiceState, log: seq<Fragment>, text: string, out: seq<Candidate>) {
    && CallsOf(out) == (if cs.finished then CallsDue(log) else [])
    && TextOf(out) == text
    && FinishCount(out) == (if cs.finished then 1 else 0)
  }

  lemma PendingNext(tools: seq<Tool>, m: nat)
    requires m < |tools| && !tools[m].emitted
    ensures Pending(tools[..m + 1]) == Pending(tools[..m]) + [CallPart(tools[m].id, tools[m].name, tools[m].arguments)]
  {
    assert tools[..m + 1][..m] == tools[..m];
  }

  lemma OneMoreCall(parts: seq<Part>, part: Part)
    requires part.CallPart?
    ensures Calls(parts + [part]) == Calls(parts) + [part] && TextsOf(parts + [part]) == TextsOf(parts)
  {
    assert (parts + [part])[..|parts|] == parts;
    assert TextsOf(parts) + "" == TextsOf(parts);
  }

  lemma NothingPending()
    ensures Pending([]) == [] && Calls([]) == [] && TextsOf([]) == ""
  {
  }

  lemma {:induction false} PendingIs(tools: seq<Tool>, log: seq<Fragment>, n: nat)
    requires n <= |tools| && forall t :: 0 <= t < n ==> tools[t] == ToolOf(log, t)
    ensures |Pending(tools[..n])| == n && forall t :: 0 <= t < n ==> Pending(tools[..n])[t] == CallOf(log, t)
    ensures Calls(Pending(tools[..n])) == Pending(tools[..n]) && TextsOf(Pending(tools[..n])) == ""
  {
    hide ToolOf, Pending, Calls, TextsOf;
    if n > 0 {
      var m: nat := n - 1;
      PendingIs(tools, log, m);
      NeverEmitted(log, m);
      PendingNext(tools, m);
      OneMoreCall(Pending(tools[..m]), CallOf(log, m));
    } else {
      assert tools[..0] == [];
      NothingPending();
    }
  }

  lemma PendingIsDue(cs: ChoiceState, log: seq<Fragment>)
    requires Linked(cs) && Mirrors(cs, log) && !cs.finished
    ensures Pending(cs.tools) == CallsDue(log) && Calls(CallsDue(log)) == CallsDue(log) && TextsOf(CallsDue(log)) == ""
  {
    hide ToolOf, Pending, Calls, TextsOf, Count;
    forall t | 0 <= t < |cs.tools| ensures cs.tools[t] == ToolOf(log, t) { NeverEmitted(log, t); }
    PendingIs(cs.tools, log, |cs.tools|);
    assert cs.tools[..|cs.tools|] == cs.tools;
    assert Pending(cs.tools) == CallsDue(log);
  }

  lemma TextPartCounts(text: string)
    ensures var parts := if text != "" then [TextPart(text)] else [];
            Calls(parts) == [] && TextsOf(parts) == text
  {
    var parts := if text != "" then [TextPart(text)] else [];
    if text != "" { assert parts[..0] == []; }
  }

  lemma FinishMirrors(cs: ChoiceState, log: seq<Fragment>)
    requires Linked(cs) && Mirrors(cs, log) && FinishChoice(cs).Ok?
    ensures Mirrors(FinishChoice(cs).value.0.(finished := true), log)
  {
    hide ToolOf, Count, Pending, AllNamed;
  }

  /** A finishing choice shows its text and then all its calls, and ends. */
  lemma FinishingShows(cs: ChoiceState, log: seq<Fragment>, text: string, out: seq<Candidate>, c: int, more: string,
                       reason: string)
    requires Linked(cs) && Mirrors(cs, log) && !cs.finished && Shows(cs, log, text, out) && FinishChoice(cs).Ok?
    ensures var parts := (if more != "" then [TextPart(more)] else []) + FinishChoice(cs).value.1;
            var cs' := FinishChoice(cs).value.0.(finished := true);
            Mirrors(cs', log) && Shows(cs', log, text + more, out + [Candidate(c, parts, Some(reason))])
  {
    hide Mirrors, CallsDue, CallsOf, TextOf, FinishCount, Pending, Calls, TextsOf;
    var parts := if more != "" then [TextPart(more)] else [];
    TextPartCounts(more);
    PendingIsDue(cs, log);
    FinishMirrors(cs, log);
    FinishIs(cs);
    CallsConcat(parts, Pending(cs.tools));
    TextsConcat(parts, Pending(cs.tools));
    OutSnoc(out, Candidate(c, parts + Pending(cs.tools), Some(reason)));
    assert [] + CallsDue(log) == CallsDue(log) && more + "" == more;
  }

  lemma FinishIs(cs: ChoiceState)
    requires Linked(cs) && FinishChoice(cs).Ok?
    ensures FinishChoice(cs).value.1 == Pending(cs.tools)
  {
  }

  lemma TalkingShows(cs: ChoiceState, log: seq<Fragment>, text: string, out: seq<Candidate>, c: int, more: string)
    requires !cs.finished && Shows(cs, log, text, out)
    ensures Shows(cs, log, text + more, out + if more != "" then [Candidate(c, [TextPart(more)], None)] else [])
  {
    hide CallsDue, CallsOf, TextOf, FinishCount;
    if more != "" {
      TextPartCounts(more);
      OutSnoc(out, Candidate(c, [TextPart(more)], None));
    } else {
      assert out + [] == out && text + "" == text;
    }
  }

  lemma StepShows(cs: ChoiceState, log: seq<Fragment>, text: string, out: seq<Candidate>, choice: Choice)
    requires Linked(cs) && Mirrors(cs, log) && Told(log) && Shows(cs, log, text, out) && ChoiceStep(cs, choice).Ok?
    ensures var (cs', more) := ChoiceStep(cs, choice).value;
            var log' := log + if cs.finished then [] else DeltaFragments(cs, choice.toolCalls);
            && (cs.finished || AppendDeltas(cs, choice.toolCalls).Ok?)
            && Mirrors(cs', log') && Told(log') && Shows(cs', log', text + choice.text, out + more)
            && forall k :: 0 <= k < |more| ==> more[k].index == choice.index
  {
    hide Mirrors, Told, AppendDeltas, DeltaFragments, FinishChoice, FinishReason, Text.Trim, Shows;
    if cs.finished {
      assert log + [] == log && out + [] == out && text + "" == text;
    } else {
      DeltasMirror(cs, log, choice.toolCalls);
      var cs1, log1 := AppendDeltas(cs, choice.toolCalls).value, log + DeltaFragments(cs, choice.toolCalls);
      StillShows(cs, log, cs1, log1, text, out);
      if Finishes(choice) {
        FinishingShows(cs1, log1, text, out, choice.index, choice.text, FinishReason(choice.finishReason.value));
      } else {
        TalkingShows(cs1, log1, text, out, choice.index, choice.text);
      }
    }
  }

  lemma StillShows(cs: ChoiceState, log: seq<Fragment>, cs': ChoiceState, log': seq<Fragment>, text: string,
                   out: seq<Candidate>)
    requires !cs.finished && !cs'.finished && Shows(cs, log, text, out)
    ensures Shows(cs', log', text, out)
  {
  }

  lemma NothingShown()
    ensures Mirrors(UNSEEN, []) && Told([]) && Shows(UNSEEN, [], "", [])
  {
  }

  lemma {:induction false} ChoiceShows(choices: seq<Choice>, c: int)
    requires ChoiceRun(choices).Ok? && forall k :: 0 <= k < |choices| ==> choices[k].index == c
    ensures var (cs, out) := ChoiceRun(choices).value;
            && Mirrors(cs, Fragments(choices)) && Told(Fragments(choices))
            && Shows(cs, Fragments(choices), SpokenText(choices), out)
            && forall k :: 0 <= k < |out| ==> out[k].index == c
  {
    hide Mirrors, Told, Shows, ChoiceStep, DeltaFragments;
    if choices == [] {
      NothingShown();
    } else {
      var n := |choices| - 1;
      ChoiceShows(choices[..n], c);
      var (cs, out) := ChoiceRun(choices[..n]).value;
      StepShows(cs, Fragments(choices[..n]), SpokenText(choices[..n]), out, choices[n]);
    }
  }

  // ---- all choices ------------------------------------------------------------------------------------------

  lemma {:induction false} CandidatesConcat(a: seq<Candidate>, b: seq<Candidate>, c: int)
    ensures CandidatesOf(a + b, c) == CandidatesOf(a, c) + CandidatesOf(b, c)
  {
    if b == [] {
      assert a + b == a && CandidatesOf(a, c) + [] == CandidatesOf(a, c);
    } else {
      var n := |b| - 1;
      assert (a + b)[..|a + b| - 1] == a + b[..n];
      CandidatesConcat(a, b[..n], c);
      assert CandidatesOf(a, c) + CandidatesOf(b, c) ==
             (CandidatesOf(a, c) + CandidatesOf(b[..n], c)) + if b[n].index == c then [b[n]] else [];
    }
  }

  lemma {:induction false} CandidatesAll(out: seq<Candidate>, c: int)
    requires forall k :: 0 <= k < |out| ==> out[k].index == c
    ensures CandidatesOf(out, c) == out
  {
    if out != [] {
      CandidatesAll(out[..|out| - 1], c);
      assert out == out[..|out| - 1] + [out[|out| - 1]];
    }
  }

  lemma {:induction false} CandidatesNone(out: seq<Candidate>, c: int)
    requires forall k :: 0 <= k < |out| ==> out[k].index != c
    ensures CandidatesOf(out, c) == []
  {
    if out != [] { CandidatesNone(out[..|out| - 1], c); }
  }

  lemma {:induction false} MineIndexed(choices: seq<Choice>, c: int)
    ensures forall k :: 0 <= k < |Mine(choices, c)| ==> Mine(choices, c)[k].index == c
  {
    if choices != [] { MineIndexed(choices[..|choices| - 1], c); }
  }

  /** Each choice runs as if it were alone. */
  ghost predicate Alone(s: State, out: seq<Candidate>, choices: seq<Choice>, c: int)
    requires Valid(s)
  {
    && ChoiceRun(Mine(choices, c)) == Ok((At(s, c), CandidatesOf(out, c)))
    && (c in s.choices <==> Mine(choices, c) != []) && (c in s.choices <==> c in s.seen)
  }

  lemma StepIndexed(cs: ChoiceState, choice: Choice)
    requires Linked(cs) && ChoiceStep(cs, choice).Ok?
    ensures forall k :: 0 <= k < |ChoiceStep(cs, choice).value.1| ==>
            ChoiceStep(cs, choice).value.1[k].index == choice.index
  {
    hide AppendDeltas, FinishChoice, FinishReason;
  }

  lemma MineSnoc(choices: seq<Choice>, choice: Choice, c: int)
    ensures Mine(choices + [choice], c) == if choice.index == c then Mine(choices, c) + [choice] else Mine(choices, c)
  {
    assert (choices + [choice])[..|choices|] == choices;
    assert Mine(choices, c) + [] == Mine(choices, c);
  }

  lemma ChoiceRunSnoc(choices: seq<Choice>, choice: Choice)
    requires ChoiceRun(choices).Ok? && ChoiceStep(ChoiceRun(choices).value.0, choice).Ok?
    ensures var (cs, out) := ChoiceRun(choices).value; var (cs', more) := ChoiceStep(cs, choice).value;
            ChoiceRun(choices + [choice]) == Ok((cs', out + more))
  {
    hide ChoiceStep;
    assert (choices + [choice])[..|choices|] == choices;
  }

  lemma RouteAlone(s: State, out: seq<Candidate>, choices: seq<Choice>, choice: Choice, c: int)
    requires Valid(s) && Alone(s, out, choices, c) && RouteStep(s, choice).Ok?
    ensures var (s', more) := RouteStep(s, choice).value;
            Alone(s', out + more, choices + [choice], c)
  {
    hide ChoiceStep, ChoiceRun, Mine, CandidatesOf, Valid;
    var (s', more) := RouteStep(s, choice).value;
    StepIndexed(At(s, choice.index), choice);
    CandidatesConcat(out, more, c);
    MineSnoc(choices, choice, c);
    if choice.index == c {
      CandidatesAll(more, c);
      ChoiceRunSnoc(Mine(choices, c), choice);
    } else {
      CandidatesNone(more, c);
      assert CandidatesOf(out, c) + [] == CandidatesOf(out, c);
    }
  }

  lemma {:induction false} RoutesAlone(s: State, out: seq<Candidate>, before: seq<Choice>, choices: seq<Choice>, c: int)
    requires Valid(s) && Alone(s, out, before, c) && RouteSteps(s, choices).Ok?
    ensures var (s', more) := RouteSteps(s, choices).value;
            Alone(s', out + more, before + choices, c)
  {
    hide Alone, RouteStep;
    if choices == [] {
      assert out + [] == out && before + [] == before;
    } else {
      var n := |choices| - 1;
      RoutesAlone(s, out, before, choices[..n], c);
      var (s1, out1) := RouteSteps(s, choices[..n]).value;
      RouteAlone(s1, out + out1, before + choices[..n], choices[n], c);
      var more := RouteStep(s1, choices[n]).value.1;
      assert out + (out1 + more) == (out + out1) + more;
      assert before + choices == (before + choices[..n]) + [choices[n]];
    }
  }

  lemma {:induction false} RunAlone(chunks: seq<Chunk>, c: int)
    requires Run(chunks).Ok?
    ensures var (s, out) := Run(chunks).value;
            Alone(s, out, AllChoices(chunks), c) && !s.finalized
  {
    hide Alone, RouteSteps;
    if chunks == [] {
      NobodyAlone(c);
    } else {
      var n := |chunks| - 1;
      RunAlone(chunks[..n], c);
      var (s, out) := Run(chunks[..n]).value;
      RoutesAlone(s, out, AllChoices(chunks[..n]), chunks[n].choices, c);
      StaysOpen(s, chunks[n].choices);
    }
  }

  lemma NobodyAlone(c: int)
    ensures Alone(INITIAL, [], [], c)
  {
  }

  lemma {:induction false} StaysOpen(s: State, choices: seq<Choice>)
    requires Valid(s) && RouteSteps(s, choices).Ok?
    ensures RouteSteps(s, choices).value.0.finalized == s.finalized
  {
    hide ChoiceStep;
    if choices != [] { StaysOpen(s, choices[..|choices| - 1]); }
  }

  // ---- the finalizer ----------------------------------------------------------------------------------------

  lemma {:induction false} UnfinishedMembers(s: State, seen: seq<int>, c: int)
    requires Valid(s)
    ensures c in Unfinished(s, seen) <==>
            c in seen && (!At(s, c).finished || exists t :: 0 <= t < |At(s, c).tools| && !At(s, c).tools[t].emitted)
  {
    if seen != [] {
      var n := |seen| - 1;
      UnfinishedMembers(s, seen[..n], c);
      assert seen == seen[..n] + [seen[n]];
      var last := if !At(s, seen[n]).finished
                     || exists t :: 0 <= t < |At(s, seen[n]).tools| && !At(s, seen[n]).tools[t].emitted
                  then [seen[n]] else [];
      assert c in Unfinished(s, seen) <==> c in Unfinished(s, seen[..n]) || c in last;
    }
  }

  /** Finishing a list of choices gives each of them one candidate, with its pending calls. */
  lemma {:induction false} FinishAllOnce(s: State, order: seq<int>, c: int)
    requires Valid(s) && FinishAll(s, order).Ok? && InsertionSort.Distinct(order)
    ensures var (s', out) := FinishAll(s, order).value;
            if c in order then
              FinishChoice(At(s, c)).Ok? &&
              CandidatesOf(out, c) == [Candidate(c, Pending(At(s, c).tools), Some("STOP"))]
            else CandidatesOf(out, c) == [] && At(s', c) == At(s, c)
  {
    hide FinishChoice, Pending;
    if order != [] {
      var n := |order| - 1;
      FinishAllOnce(s, order[..n], c);
      FinishAllOnce(s, order[..n], order[n]);
      assert order == order[..n] + [order[n]];
      assert order[n] !in order[..n];
      var (s1, out1) := FinishAll(s, order[..n]).value;
      var last := Candidate(order[n], FinishChoice(At(s1, order[n])).value.1, Some("STOP"));
      FinishIs(At(s1, order[n]));
      CandidatesConcat(out1, [last], c);
      OneCandidate(last, c);
      if c in order[..n] {
        assert CandidatesOf(out1, c) + [] == CandidatesOf(out1, c);
      } else {
        assert [] + [last] == [last];
      }
    }
  }

  lemma OneCandidate(candidate: Candidate, c: int)
    ensures CandidatesOf([candidate], c) == if candidate.index == c then [candidate] else []
  {
    assert [candidate][..0] == [];
    assert [] + [candidate] == [candidate];
  }

  lemma {:induction false} UnfinishedDistinct(s: State, seen: seq<int>)
    requires Valid(s) && InsertionSort.Distinct(seen)
    ensures InsertionSort.Distinct(Unfinished(s, seen))
  {
    if seen != [] {
      var n := |seen| - 1;
      UnfinishedDistinct(s, seen[..n]);
      UnfinishedMembers(s, seen[..n], seen[n]);
      assert seen[n] !in seen[..n];
      var before := Unfinished(s, seen[..n]);
      assert forall j :: 0 <= j < |before| ==> before[j] != seen[n];
    }
  }

  lemma {:induction false} RoutesDistinct(s: State, out: seq<Candidate>, before: seq<Choice>, choices: seq<Choice>)
    requires Valid(s) && InsertionSort.Distinct(s.seen) && RouteSteps(s, choices).Ok?
    requires forall c :: Alone(s, out, before, c)
    ensures InsertionSort.Distinct(RouteSteps(s, choices).value.0.seen)
  {
    hide RouteStep;
    if choices != [] {
      var n := |choices| - 1;
      RoutesDistinct(s, out, before, choices[..n]);
      var (s1, out1) := RouteSteps(s, choices[..n]).value;
      RoutesAlone(s, out, before, choices[..n], choices[n].index);
      RouteDistinct(s1, out + out1, before + choices[..n], choices[n]);
    }
  }

  lemma RouteDistinct(s: State, out: seq<Candidate>, before: seq<Choice>, choice: Choice)
    requires Valid(s) && InsertionSort.Distinct(s.seen) && RouteStep(s, choice).Ok?
             && Alone(s, out, before, choice.index)
    ensures InsertionSort.Distinct(RouteStep(s, choice).value.0.seen)
  {
    hide ChoiceStep, ChoiceRun;
    assert choice.index !in s.choices ==> forall k :: 0 <= k < |s.seen| ==> s.seen[k] != choice.index;
  }

  lemma {:induction false} RunDistinct(chunks: seq<Chunk>)
    requires Run(chunks).Ok?
    ensures InsertionSort.Distinct(Run(chunks).value.0.seen)
  {
    hide RouteSteps, Alone;
    if chunks != [] {
      var n := |chunks| - 1;
      RunDistinct(chunks[..n]);
      var (s, out) := Run(chunks[..n]).value;
      forall c ensures Alone(s, out, AllChoices(chunks[..n]), c) { RunAlone(chunks[..n], c); }
      RoutesDistinct(s, out, AllChoices(chunks[..n]), chunks[n].choices);
    }
  }

  /** The indexes of the candidates the finalizer emits are those it visits. */
  lemma {:induction false} FinishAllOrder(s: State, order: seq<int>)
    requires Valid(s) && FinishAll(s, order).Ok?
    ensures var out := FinishAll(s, order).value.1;
            && |out| == |order|
            && forall k :: 0 <= k < |order| ==> out[k].index == order[k] && out[k].finish == Some("STOP")
  {
    hide FinishChoice;
    if order != [] {
      FinishAllOrder(s, order[..|order| - 1]);
    }
  }

  // ---- the theorems ---------------------------------------------------------------------------------------------

  /** How the fragments of a choice are routed, in every error-free stream: those with ids
      go to one tool exactly when the ids are equal, those without go on with the tool last
      active at their index or begin a new one when there is none, and tools are numbered as
      they first appear. */
  lemma FragmentsRoute(chunks: seq<Chunk>, c: int)
    requires Run(chunks).Ok?
    ensures ChoiceRun(Mine(AllChoices(chunks), c)).Ok?
    ensures var log := Fragments(Mine(AllChoices(chunks), c)); IdsAgree(log) && IndexesAgree(log) && InOrder(log)
  {
    var mine := Mine(AllChoices(chunks), c);
    RunAlone(chunks, c);
    MineIndexed(AllChoices(chunks), c);
    ChoiceShows(mine, c);
    IdsFollow(ChoiceRun(mine).value.0, Fragments(mine));
  }

  lemma IdsFollow(cs: ChoiceState, log: seq<Fragment>)
    requires Linked(cs) && Mirrors(cs, log) && Told(log)
    ensures IdsAgree(log)
  {
    hide ToolOf, IndexesLead, IndexesAgree;
    forall k | 0 <= k < |log| && log[k].id != ""
      ensures log[k].tool < |cs.tools| && cs.tools[log[k].tool].id == log[k].id && cs.byId[log[k].id] == log[k].tool
    {
      CountBounds(log, k);
      assert ToolOf(log, log[k].tool).id == log[k].id;
    }
  }

  lemma {:induction false} CountBounds(log: seq<Fragment>, k: nat)
    requires k < |log|
    ensures log[k].tool < Count(log)
  {
    if k < |log| - 1 { CountBounds(log[..|log| - 1], k); }
  }

  /** In every stream that is finalized without an error each choice shows its text as it
      came, every one of its calls once and whole, in order of first appearance, and ends
      exactly once. */
  lemma OutputShows(chunks: seq<Chunk>, c: int)
    requires Output(chunks).Ok?
    ensures ChoiceRun(Mine(AllChoices(chunks), c)).Ok?
    ensures var mine := Mine(AllChoices(chunks), c);
            var shown := CandidatesOf(Output(chunks).value, c);
            && CallsOf(shown) == CallsDue(Fragments(mine))
            && TextOf(shown) == SpokenText(mine)
            && FinishCount(shown) == if mine == [] then 0 else 1
  {
    hide Run, ChoiceRun, Shows, Mirrors, Told, FinishAll, CallsOf, TextOf, FinishCount, CallsDue, Fragments, SpokenText,
         Unfinished, AllChoices, Mine;
    var mine := Mine(AllChoices(chunks), c);
    RunAlone(chunks, c);
    RunDistinct(chunks);
    MineIndexed(AllChoices(chunks), c);
    ChoiceShows(mine, c);
    var (s, out) := Run(chunks).value;
    var order := InsertionSort.Sorted(Unfinished(s, s.seen));
    UnfinishedDistinct(s, s.seen);
    InsertionSort.SortedDistinct(Unfinished(s, s.seen));
    FinishAllOnce(s, order, c);
    InsertionSort.SortedMembers(Unfinished(s, s.seen), c);
    UnfinishedMembers(s, s.seen, c);
    var last := FinishAll(s, order).value.1;
    CandidatesConcat(out, last, c);
    EndShows(s, out, mine, c, CandidatesOf(out, c), CandidatesOf(last, c), c in order);
  }

  /** What the finalizer adds to a choice: its calls and its end, unless it had them. */
  lemma EndShows(s: State, out: seq<Candidate>, mine: seq<Choice>, c: int, shown: seq<Candidate>, more: seq<Candidate>,
                 ended: bool)
    requires Valid(s) && ChoiceRun(mine) == Ok((At(s, c), shown)) && (c in s.choices <==> mine != [])
             && (c in s.choices <==> c in s.seen)
    requires Mirrors(At(s, c), Fragments(mine)) && Shows(At(s, c), Fragments(mine), SpokenText(mine), shown)
    requires ended <==> c in s.seen && (!At(s, c).finished
                                        || exists t :: 0 <= t < |At(s, c).tools| && !At(s, c).tools[t].emitted)
    requires if ended then FinishChoice(At(s, c)).Ok? && more == [Candidate(c, Pending(At(s, c).tools), Some("STOP"))]
             else more == []
    ensures CallsOf(shown + more) == CallsDue(Fragments(mine)) && TextOf(shown + more) == SpokenText(mine)
    ensures FinishCount(shown + more) == if mine == [] then 0 else 1
  {
    hide Pending, Fragments, SpokenText, ChoiceRun, CallsOf, TextOf, FinishCount, CallsDue, FinishChoice, Mirrors;
    var cs := At(s, c);
    if !ended {
      assert shown + [] == shown;
      if mine == [] {
        NothingDue();
      } else {
        assert cs.finished;
      }
    } else {
      if cs.finished { AllEmitted(cs, Fragments(mine)); }
      FinishingShows(cs, Fragments(mine), SpokenText(mine), shown, c, "", "STOP");
      FinishIs(cs);
      assert SpokenText(mine) + "" == SpokenText(mine) && [] + Pending(cs.tools) == Pending(cs.tools);
    }
  }

  lemma AllEmitted(cs: ChoiceState, log: seq<Fragment>)
    requires Linked(cs) && Mirrors(cs, log) && cs.finished
    ensures forall t :: 0 <= t < |cs.tools| ==> cs.tools[t].emitted
  {
  }

  lemma NothingDue()
    ensures ChoiceRun([]).Ok? && CallsDue(Fragments([])) == [] && CallsOf([]) == [] && FinishCount([]) == 0
  {
  }

  // ---- finish reasons ------------------------------------------------------------------------------------------

  function Reasons(out: seq<Candidate>): seq<string> {
    if out == [] then [] else
      Reasons(out[..|out| - 1]) + if out[|out| - 1].finish.Some? then [out[|out| - 1].finish.value] else []
  }

  /** The first finish reason of a choice, in Gemini's terms. */
  function ReasonDue(choices: seq<Choice>): Option<string> {
    if choices == [] then None else
      var before, last := ReasonDue(choices[..|choices| - 1]), choices[|choices| - 1];
      if before.Some? || !Finishes(last) then before else Some(FinishReason(last.finishReason.value))
  }

  lemma {:induction false} ReasonsConcat(a: seq<Candidate>, b: seq<Candidate>)
    ensures Reasons(a + b) == Reasons(a) + Reasons(b)
  {
    if b == [] {
      assert a + b == a;
    } else {
      assert (a + b)[..|a + b| - 1] == a + b[..|b| - 1];
      ReasonsConcat(a, b[..|b| - 1]);
    }
  }

  lemma OneReason(candidate: Candidate)
    ensures Reasons([candidate]) == if candidate.finish.Some? then [candidate.finish.value] else []
  {
    assert [candidate][..0] == [];
  }

  lemma {:induction false} DeltasDoNotFinish(cs: ChoiceState, deltas: seq<ToolDelta>)
    requires Linked(cs) && AppendDeltas(cs, deltas).Ok?
    ensures AppendDeltas(cs, deltas).value.finished == cs.finished
  {
    hide Text.Trim;
    if deltas != [] { DeltasDoNotFinish(cs, deltas[..|deltas| - 1]); }
  }

  lemma {:induction false} ChoiceEnds(choices: seq<Choice>)
    requires ChoiceRun(choices).Ok?
    ensures var (cs, out) := ChoiceRun(choices).value;
            && (cs.finished <==> ReasonDue(choices).Some?)
            && Reasons(out) == if cs.finished then [ReasonDue(choices).value] else []
  {
    hide AppendDeltas, FinishReason, Finishes, FinishChoice, Linked;
    if choices != [] {
      var n := |choices| - 1;
      ChoiceEnds(choices[..n]);
      var (cs, out) := ChoiceRun(choices[..n]).value;
      var more := ChoiceStep(cs, choices[n]).value.1;
      ReasonsConcat(out, more);
      if !cs.finished {
        DeltasDoNotFinish(cs, choices[n].toolCalls);
        if more != [] { OneReason(more[0]); }
      }
    }
  }

  /** Each choice ends with its own first finish reason, or with STOP if it had none, and with no
      other. */
  lemma OutputEnds(chunks: seq<Chunk>, c: int)
    requires Output(chunks).Ok?
    ensures var mine := Mine(AllChoices(chunks), c);
            Reasons(CandidatesOf(Output(chunks).value, c)) == if mine == [] then [] else [ReasonDue(mine).GetOr("STOP")]
  {
    hide Run, ChoiceRun, Shows, Mirrors, Told, FinishAll, Reasons, ReasonDue, Fragments, SpokenText, Unfinished,
         AllChoices, Mine;
    var mine := Mine(AllChoices(chunks), c);
    RunAlone(chunks, c);
    RunDistinct(chunks);
    MineIndexed(AllChoices(chunks), c);
    ChoiceShows(mine, c);
    ChoiceEnds(mine);
    var (s, out) := Run(chunks).value;
    var order := InsertionSort.Sorted(Unfinished(s, s.seen));
    UnfinishedDistinct(s, s.seen);
    InsertionSort.SortedDistinct(Unfinished(s, s.seen));
    FinishAllOnce(s, order, c);
    InsertionSort.SortedMembers(Unfinished(s, s.seen), c);
    UnfinishedMembers(s, s.seen, c);
    var last := FinishAll(s, order).value.1;
    CandidatesConcat(out, last, c);
    ReasonsConcat(CandidatesOf(out, c), CandidatesOf(last, c));
    if c in order {
      OneReason(Candidate(c, Pending(At(s, c).tools), Some("STOP")));
      if At(s, c).finished { AllEmitted(At(s, c), Fragments(mine)); }
    } else {
      assert CandidatesOf(last, c) == [];
      NoReasons();
    }
  }

  /** A choice is left to the finalizer exactly when it appeared and had no finish reason. */
  lemma LeftOver(chunks: seq<Chunk>, c: int)
    requires Run(chunks).Ok?
    ensures var s, mine := Run(chunks).value.0, Mine(AllChoices(chunks), c);
            c in Unfinished(s, s.seen) <==> mine != [] && ReasonDue(mine).None?
  {
    hide Run, ChoiceRun, Shows, Mirrors, Told, ReasonDue, Reasons, Fragments, SpokenText, Unfinished, AllChoices, Mine;
    var s, mine := Run(chunks).value.0, Mine(AllChoices(chunks), c);
    RunAlone(chunks, c);
    MineIndexed(AllChoices(chunks), c);
    ChoiceShows(mine, c);
    ChoiceEnds(mine);
    UnfinishedMembers(s, s.seen, c);
    if At(s, c).finished { AllEmitted(At(s, c), Fragments(mine)); }
  }

  /** The finalizer ends exactly the choices that appeared and had no finish reason, with STOP, one
      candidate each, in increasing order of their indexes. */
  lemma FinalizerEndsInOrder(chunks: seq<Chunk>)
    requires Run(chunks).Ok? && Finalize(Run(chunks).value.0).Ok?
    ensures var last := Finalize(Run(chunks).value.0).value.1;
            && (forall i, j :: 0 <= i < j < |last| ==> last[i].index < last[j].index)
            && (forall k :: 0 <= k < |last| ==> last[k].finish == Some("STOP"))
            && forall c :: (exists k :: 0 <= k < |last| && last[k].index == c)
                           <==> Mine(AllChoices(chunks), c) != [] && ReasonDue(Mine(AllChoices(chunks), c)).None?
  {
    hide Run, FinishAll, ReasonDue, Unfinished, AllChoices, Mine;
    var s := Run(chunks).value.0;
    RunAlone(chunks, 0);
    RunDistinct(chunks);
    UnfinishedDistinct(s, s.seen);
    var order := InsertionSort.Sorted(Unfinished(s, s.seen));
    var last := Finalize(s).value.1;
    FinishAllOrder(s, order);
    InsertionSort.SortedIncreases(Unfinished(s, s.seen));
    forall c ensures (exists k :: 0 <= k < |last| && last[k].index == c)
                     <==> Mine(AllChoices(chunks), c) != [] && ReasonDue(Mine(AllChoices(chunks), c)).None?
    {
      LeftOver(chunks, c);
      InsertionSort.SortedMembers(Unfinished(s, s.seen), c);
      assert c in order <==> exists k :: 0 <= k < |last| && last[k].index == c;
    }
  }

  lemma NoReasons()
    ensures Reasons([]) == []
  {
  }

  // ---- errors that cannot happen -----------------------------------------------------------------------------

  lemma {:induction false} DeltasNeverFail(cs: ChoiceState, log: seq<Fragment>, deltas: seq<ToolDelta>)
    requires Linked(cs) && Mirrors(cs, log) && !cs.finished && Told(log)
    ensures AppendDeltas(cs, deltas) != Err(ChangedId) && AppendDeltas(cs, deltas) != Err(DataAfterCompletion)
  {
    hide Mirrors, Told, AppendDelta;
    if deltas != [] {
      var n := |deltas| - 1;
      DeltasNeverFail(cs, log, deltas[..n]);
      if AppendDeltas(cs, deltas[..n]).Ok? {
        DeltasMirror(cs, log, deltas[..n]);
        DeltaNeverFails(AppendDeltas(cs, deltas[..n]).value, log + DeltaFragments(cs, deltas[..n]), n, deltas[n]);
      }
    }
  }

  lemma DeltaNeverFails(cs: ChoiceState, log: seq<Fragment>, position: nat, delta: ToolDelta)
    requires Linked(cs) && Mirrors(cs, log) && !cs.finished
    ensures AppendDelta(cs, position, delta) != Err(ChangedId)
            && AppendDelta(cs, position, delta) != Err(DataAfterCompletion)
  {
    hide Text.Trim, ToolOf, Count, IndexesLead;
  }

  lemma StepNeverFails(cs: ChoiceState, log: seq<Fragment>, choice: Choice)
    requires Linked(cs) && Mirrors(cs, log) && Told(log)
    ensures ChoiceStep(cs, choice) != Err(ChangedId) && ChoiceStep(cs, choice) != Err(DataAfterCompletion)
  {
    hide Mirrors, Told, AppendDeltas, Text.Trim, AllNamed, FinishReason, Pending;
    if !cs.finished { DeltasNeverFail(cs, log, choice.toolCalls); }
  }

  lemma {:induction false} RoutesNeverFail(s: State, out: seq<Candidate>, before: seq<Choice>, choices: seq<Choice>)
    requires Valid(s) && forall c :: Alone(s, out, before, c)
    ensures RouteSteps(s, choices) != Err(ChangedId) && RouteSteps(s, choices) != Err(DataAfterCompletion)
  {
    hide RouteStep, Alone, ChoiceStep;
    if choices != [] {
      var n := |choices| - 1;
      RoutesNeverFail(s, out, before, choices[..n]);
      if RouteSteps(s, choices[..n]).Ok? {
        var (s1, out1) := RouteSteps(s, choices[..n]).value;
        RoutesAlone(s, out, before, choices[..n], choices[n].index);
        RouteNeverFails(s1, out + out1, before + choices[..n], choices[n]);
      }
    }
  }

  lemma RouteNeverFails(s: State, out: seq<Candidate>, before: seq<Choice>, choice: Choice)
    requires Valid(s) && Alone(s, out, before, choice.index)
    ensures RouteStep(s, choice) != Err(ChangedId) && RouteStep(s, choice) != Err(DataAfterCompletion)
  {
    hide ChoiceStep, ChoiceRun, Mine;
    var mine := Mine(before, choice.index);
    MineIndexed(before, choice.index);
    ChoiceShows(mine, choice.index);
    StepNeverFails(At(s, choice.index), Fragments(mine), choice);
  }

  /** Two of the program's error branches are dead in every stream: a tool delta is never
      told that it changed an id, nor that its call is complete. */
  lemma {:induction false} DeadErrors(chunks: seq<Chunk>)
    ensures Run(chunks) != Err(ChangedId) && Run(chunks) != Err(DataAfterCompletion)
  {
    hide RouteSteps, Alone;
    if chunks != [] {
      var n := |chunks| - 1;
      DeadErrors(chunks[..n]);
      if Run(chunks[..n]).Ok? {
        var (s, out) := Run(chunks[..n]).value;
        forall c ensures Alone(s, out, AllChoices(chunks[..n]), c) { RunAlone(chunks[..n], c); }
        RoutesNeverFail(s, out, AllChoices(chunks[..n]), chunks[n].choices);
      }
    }
  }
}
