/** The protocol-independent reasoning controls of a request, and the routes by which they travel
    inside Chat and Responses requests. */
module Reasoning {
  import opened Basics
  import Text

  /** An effort string: one of the known words, the empty string, or any other spelling. */
  datatype Effort = NoEffort | EffortNone | Minimal | Low | Medium | High | XHigh | Max | Spelled(text: string)

  /** The effort a string is. */
  function EffortOf(text: string): Effort {
    if text == "" then NoEffort
    else if text == "none" then EffortNone
    else if text == "minimal" then Minimal
    else if text == "low" then Low
    else if text == "medium" then Medium
    else if text == "high" then High
    else if text == "xhigh" then XHigh
    else if text == "max" then Max
    else Spelled(text)
  }

  datatype Mode = Unset | Enabled | Adaptive | Disabled | UnknownMode(text: string)

  datatype Source = NoSource | Explicit | Native | Suffix | Pivot

  datatype Error =
    | UnsupportedEffort(effort: Effort)
    | UnsupportedMode(text: string)
    | MalformedReasoning
    | BudgetAndLevel
    | ThinkingNotDisabled
    | TooLarge

  datatype Diagnostic =
    | BudgetAdjusted(budget: int)
    | ZeroBudgetWins
    | BudgetWins(budget: int)
    | NoneWins
    | EnablingDisagrees
    | EffortsDiffer(kept: Effort, dropped: Effort)
    | BudgetsDiffer(keptBudget: int, droppedBudget: int)
    | SuffixOverrode

  datatype Intent = Intent(
    mode: Mode, effort: Effort, budget: Option<int>, visible: Option<bool>, source: Source, budgetSource: Source)
  {
    predicate HasStrength() { mode != Unset || effort != NoEffort || budget.Some? }

    predicate IsEmpty() { !HasStrength() && visible.None? }

    predicate IsOff() { mode == Disabled || effort == EffortNone }

    /** The portable part: everything but where it came from. */
    function Portable(): (Mode, Effort, Option<int>, Option<bool>) { (mode, effort, budget, visible) }
  }

  const EMPTY := Intent(Unset, NoEffort, None, None, NoSource, NoSource)

  /** A result with the diagnostics it was reached with. */
  datatype Diagnosed = Diagnosed(intent: Intent, diagnostics: seq<Diagnostic>)

  // ---- normalizing ------------------------------------------------------------------------

  function ParseEffort(effort: Effort): (r: Result<Effort, Error>)
    ensures r.Ok? ==> !r.value.Spelled?
    ensures !effort.Spelled? ==> r == Ok(effort)
  {
    if !effort.Spelled? then Ok(effort)
    else
      var known := EffortOf(Text.Lower(Text.Trim(effort.text)));
      if known.Spelled? then Err(UnsupportedEffort(effort)) else Ok(known)
  }

  /** The part of normalizeIntent that settles the budget against mode and effort. */
  function SettleBudget(intent: Intent): Diagnosed
    requires intent.budget.Some?
  {
    var requested := intent.budget.value;
    var budget := if requested < -1 then -1 else requested;
    var adjusted := if requested < -1 then [BudgetAdjusted(requested)] else [];
    var intent := intent.(budget := Some(budget));
    if budget == 0 then
      var conflict := intent.mode in {Enabled, Adaptive} || intent.effort !in {NoEffort, EffortNone};
      Diagnosed(intent.(mode := Disabled, effort := EffortNone), adjusted + if conflict then [ZeroBudgetWins] else [])
    else if intent.IsOff() then
      Diagnosed(intent.(mode := Enabled, effort := NoEffort), adjusted + [BudgetWins(budget)])
    else if intent.mode == Unset then Diagnosed(intent.(mode := Enabled), adjusted)
    else Diagnosed(intent, adjusted)
  }

  function NormalizeIntent(intent: Intent): Result<Diagnosed, Error> {
    var parsed := ParseEffort(intent.effort);
    if parsed.Err? then Err(parsed.error)
    else if intent.mode.UnknownMode? then Err(UnsupportedMode(intent.mode.text))
    else
      var intent := intent.(effort := parsed.value);
      var settled := if intent.budget.Some? then SettleBudget(intent) else Diagnosed(intent, []);
      if settled.intent.effort == EffortNone then
        var conflict := settled.intent.mode in {Enabled, Adaptive};
        Ok(Diagnosed(settled.intent.(mode := Disabled), settled.diagnostics + if conflict then [NoneWins] else []))
      else Ok(settled)
  }

  /** Controls that agree with each other: the budget is -1 or more, zero exactly when thinking is
      off, and effort none turns thinking off. */
  predicate Normal(i: Intent) {
    && !i.effort.Spelled? && !i.mode.UnknownMode?
    && (i.effort == EffortNone ==> i.mode == Disabled)
    && (i.budget.Some? ==>
          && i.budget.value >= -1
          && (i.budget.value == 0 ==> i.mode == Disabled && i.effort == EffortNone)
          && (i.budget.value != 0 ==> i.mode in {Enabled, Adaptive} && i.effort != EffortNone))
  }

  /** Normalizing leaves exactly the normal intents alone and reports nothing about them. */
  lemma NormalIsFixpoint(i: Intent)
    ensures NormalizeIntent(i) == Ok(Diagnosed(i, [])) <==> Normal(i)
  {
    if NormalizeIntent(i).Ok? {
      var d := NormalizeIntent(i).value.diagnostics;
      if Normal(i) {
        assert d == [];
      } else if d == [] {
        assert i.budget.Some? ==> SettleBudget(i.(effort := ParseEffort(i.effort).value)).diagnostics == [];
      }
    }
  }

  /** Normalizing succeeds exactly on known words, gives a normal intent, and doing it again
      changes nothing and reports nothing. */
  lemma NormalizeIsIdempotent(i: Intent)
    ensures NormalizeIntent(i).Ok? <==> ParseEffort(i.effort).Ok? && !i.mode.UnknownMode?
    ensures NormalizeIntent(i).Ok? ==>
              var n := NormalizeIntent(i).value.intent;
              Normal(n) && NormalizeIntent(n) == Ok(Diagnosed(n, []))
  {
    if NormalizeIntent(i).Ok? {
      NormalIsFixpoint(NormalizeIntent(i).value.intent);
    }
  }

  /** Which control decides whether thinking is on: a budget before an effort, an effort none
      before a mode. What decided is kept, and the other fields never change. */
  lemma StrongestControlDecides(i: Intent)
    requires NormalizeIntent(i).Ok?
    ensures var n := NormalizeIntent(i).value.intent;
            && n.visible == i.visible && n.source == i.source && n.budgetSource == i.budgetSource
            && (i.budget.Some? ==>
                  && n.budget == Some(if i.budget.value < -1 then -1 else i.budget.value)
                  && (n.IsOff() <==> i.budget.value == 0))
            && (i.budget.None? ==>
                  && n.budget.None? && n.effort == ParseEffort(i.effort).value
                  && (n.IsOff() <==> i.mode == Disabled || n.effort == EffortNone)
                  && (n.mode == i.mode || n.effort == EffortNone))
  {
  }

  // ---- the strength a request asks for ----------------------------------------------------

  function EffortFromBudget(budget: int): Effort {
    if budget == 0 then EffortNone
    else if budget < 0 then High
    else if budget <= 1024 then Low
    else if budget <= 8192 then Medium
    else High
  }

  function EffectiveEffort(intent: Intent): Effort {
    var n := NormalizeIntent(intent);
    if n.Err? then NoEffort
    else
      var i := n.value.intent;
      if i.mode == Disabled then EffortNone
      else if i.effort != NoEffort then i.effort
      else if i.budget.Some? then EffortFromBudget(i.budget.value)
      else if i.mode in {Enabled, Adaptive} then High
      else NoEffort
  }

  /** An effort comes out exactly of intents with some strength, and none exactly of those that
      turn thinking off. */
  lemma EffectiveEffortMeans(n: Intent)
    requires Normal(n)
    ensures EffectiveEffort(n) != NoEffort <==> n.HasStrength()
    ensures EffectiveEffort(n) == EffortNone <==> n.IsOff()
    ensures !EffectiveEffort(n).Spelled?
  {
    NormalIsFixpoint(n);
  }

  // ---- merging ----------------------------------------------------------------------------

  function MergeNormal(p: Intent, s: Intent): Diagnosed
    requires !p.IsEmpty() && !s.IsEmpty()
  {
    if p.HasStrength() && s.HasStrength() && p.IsOff() != s.IsOff() then
      Diagnosed(p.(visible := if p.visible.None? then s.visible else p.visible), [EnablingDisagrees])
    else
      var efforts := if p.effort != NoEffort && s.effort != NoEffort && p.effort != s.effort
        then [EffortsDiffer(p.effort, s.effort)] else [];
      var budgets := if p.budget.Some? && s.budget.Some? && p.budget.value != s.budget.value
        then [BudgetsDiffer(p.budget.value, s.budget.value)] else [];
      Diagnosed(
        s.(mode := if p.mode != Unset then p.mode else s.mode,
           effort := if p.effort != NoEffort then p.effort else s.effort,
           budget := if p.budget.Some? then p.budget else s.budget,
           budgetSource := if p.budget.Some? then p.budgetSource else s.budgetSource,
           visible := if p.visible.Some? then p.visible else s.visible),
        efforts + budgets)
  }

  function MergeExplicit(primary: Intent, secondary: Intent): Result<Diagnosed, Error> {
    var p := NormalizeIntent(primary);
    if p.Err? then Err(p.error)
    else
      var s := NormalizeIntent(secondary);
      if s.Err? then Err(s.error)
      else
        var diagnostics := p.value.diagnostics + s.value.diagnostics;
        if p.value.intent.IsEmpty() then Ok(Diagnosed(s.value.intent, diagnostics))
        else if s.value.intent.IsEmpty() then Ok(Diagnosed(p.value.intent, diagnostics))
        else
          var merged := MergeNormal(p.value.intent, s.value.intent);
          if p.value.intent.HasStrength() && s.value.intent.HasStrength()
             && p.value.intent.IsOff() != s.value.intent.IsOff() then
            Ok(Diagnosed(merged.intent, diagnostics + merged.diagnostics))
          else
            var again := NormalizeIntent(merged.intent);
            if again.Err? then Err(again.error)
            else Ok(Diagnosed(again.value.intent, diagnostics + merged.diagnostics + again.value.diagnostics))
  }

  /** The merge of two representations of one request is normal, and wherever the primary states
      something the merge states it too. */
  lemma PrimaryWins(primary: Intent, secondary: Intent)
    requires NormalizeIntent(primary).Ok? && NormalizeIntent(secondary).Ok?
    ensures MergeExplicit(primary, secondary).Ok?
    ensures var p, m := NormalizeIntent(primary).value.intent, MergeExplicit(primary, secondary).value.intent;
            && Normal(m)
            && (p.HasStrength() ==> m.IsOff() == p.IsOff())
            && (p.visible.Some? ==> m.visible == p.visible)
            && (p.budget.Some? ==> m.budget == p.budget)
            && (p.mode in {Enabled, Adaptive} ==> m.mode == p.mode)
            && (p.effort != NoEffort && !p.IsOff() ==> m.effort == p.effort)
  {
    hide NormalizeIntent, ParseEffort, MergeNormal, Normal;
    NormalizeIsIdempotent(primary);
    NormalizeIsIdempotent(secondary);
    var p, s := NormalizeIntent(primary).value.intent, NormalizeIntent(secondary).value.intent;
    if !p.IsEmpty() && !s.IsEmpty() {
      MergedWins(p, s);
      if p.HasStrength() && s.HasStrength() && p.IsOff() != s.IsOff() {
        DisagreementIsNormal(p, s);
      }
    }
  }

  /** Where the two disagree about thinking the primary stays as it is, but for visibility. */
  lemma DisagreementIsNormal(p: Intent, s: Intent)
    requires Normal(p) && !p.IsEmpty() && !s.IsEmpty()
    requires p.HasStrength() && s.HasStrength() && p.IsOff() != s.IsOff()
    ensures Normal(MergeNormal(p, s).intent)
  {
  }

  lemma MergedWins(p: Intent, s: Intent)
    requires Normal(p) && Normal(s) && !p.IsEmpty() && !s.IsEmpty()
    ensures NormalizeIntent(MergeNormal(p, s).intent).Ok?
    ensures var m := NormalizeIntent(MergeNormal(p, s).intent).value.intent;
            && Normal(m) && (Normal(MergeNormal(p, s).intent) ==> m == MergeNormal(p, s).intent)
            && (p.HasStrength() ==> m.IsOff() == p.IsOff())
            && (p.visible.Some? ==> m.visible == p.visible)
            && (p.budget.Some? ==> m.budget == p.budget)
            && (p.mode in {Enabled, Adaptive} ==> m.mode == p.mode)
            && (p.effort != NoEffort && !p.IsOff() ==> m.effort == p.effort)
  {
    NormalIsFixpoint(MergeNormal(p, s).intent);
  }

  /** Request fields and a model-name suffix: the suffix wins what it states. */
  function MergeExplicitAndSuffix(explicit: Intent, suffix: Intent): Result<Diagnosed, Error> {
    var en := NormalizeIntent(explicit);
    if en.Err? then Err(en.error)
    else
      var sn := NormalizeIntent(suffix);
      if sn.Err? then Err(sn.error)
      else
        var merged := MergeSuffix(en.value.intent, sn.value.intent);
        Ok(Diagnosed(merged.intent, en.value.diagnostics + sn.value.diagnostics + merged.diagnostics))
  }

  function MergeSuffix(e: Intent, s: Intent): Diagnosed {
    var merged := s.(visible := if e.visible.Some? then e.visible else s.visible);
    if !e.HasStrength() then Diagnosed(merged, [])
    else if !s.HasStrength() then
      Diagnosed(e.(visible := if e.visible.None? then s.visible else e.visible), [])
    else if e.IsOff() != s.IsOff() then Diagnosed(merged, [SuffixOverrode])
    else if s.IsOff() then Diagnosed(merged, [])
    else
      var merged := if merged.mode == Enabled && e.mode == Adaptive then merged.(mode := Adaptive) else merged;
      if s.effort == NoEffort && s.budget.None? then
        Diagnosed(merged.(effort := e.effort, budget := e.budget, budgetSource := e.budgetSource), [])
      else
        Diagnosed(merged,
          (if e.effort != NoEffort && e.effort != s.effort then [SuffixOverrode] else [])
          + if e.budget.Some? && e.budget != s.budget then [SuffixOverrode] else [])
  }

  /** The model name decides whether thinking is on and any strength it states, a bare enable takes
      its strength from the fields, and the result is normal. */
  lemma SuffixWins(explicit: Intent, suffix: Intent)
    requires NormalizeIntent(explicit).Ok? && NormalizeIntent(suffix).Ok?
    ensures MergeExplicitAndSuffix(explicit, suffix).Ok?
    ensures var e, s, m := NormalizeIntent(explicit).value.intent, NormalizeIntent(suffix).value.intent,
                           MergeExplicitAndSuffix(explicit, suffix).value.intent;
            && Normal(m)
            && (s.HasStrength() ==> m.IsOff() == s.IsOff())
            && (s.effort != NoEffort || s.budget.Some? ==> m.effort == s.effort && m.budget == s.budget)
            && (s.HasStrength() && s.effort == NoEffort && s.budget.None? && e.HasStrength()
                && e.IsOff() == s.IsOff() == false
                ==> m.effort == e.effort && m.budget == e.budget)
            && (e.visible.Some? ==> m.visible == e.visible)
  {
    hide NormalizeIntent, ParseEffort;
    NormalizeIsIdempotent(explicit);
    NormalizeIsIdempotent(suffix);
  }

  // ---- the Chat route ---------------------------------------------------------------------

  datatype State = State(mode: Mode, effort: Effort, budget: Option<int>, visible: Option<bool>)

  /** The nested reasoning member some clients send. */
  datatype RawReasoning =
    | Missing
    | Malformed
    | Nested(enabled: Option<bool>, effort: Effort, maxTokens: Option<int>, exclude: Option<bool>)

  datatype ChatFields = ChatFields(effort: Effort, reasoning: RawReasoning, conversion: Option<State>)

  function StateOf(i: Intent): State { State(i.mode, i.effort, i.budget, i.visible) }

  function PivotOf(s: State): Intent { Intent(s.mode, s.effort, s.budget, s.visible, Pivot, Pivot) }

  function ApplyToChat(req: ChatFields, intent: Intent): Result<ChatFields, Error> {
    var n := NormalizeIntent(intent);
    if n.Err? then Err(n.error)
    else
      var i := n.value.intent;
      var effort := EffectiveEffort(i);
      var written := if effort != NoEffort then req.(effort := effort) else req;
      Ok(if i.IsEmpty() then written else written.(conversion := Some(StateOf(i))))
  }

  /** The intent of a plain effort field. */
  function EffortIntent(effort: Effort): Result<Intent, Error> {
    if effort == NoEffort then Ok(EMPTY.(source := Explicit))
    else
      var parsed := ParseEffort(effort);
      if parsed.Err? then Err(parsed.error)
      else Ok(EMPTY.(effort := parsed.value, mode := if parsed.value == EffortNone then Disabled else Enabled,
                     source := Explicit))
  }

  function NestedIntent(raw: RawReasoning): Result<Intent, Error>
    requires raw.Nested?
  {
    var base := EMPTY.(
      budget := raw.maxTokens, source := Explicit, budgetSource := Explicit,
      mode := if raw.enabled.None? then Unset else if raw.enabled.value then Enabled else Disabled,
      effort := if raw.enabled == Some(false) then EffortNone else NoEffort,
      visible := if raw.exclude.Some? then Some(!raw.exclude.value) else None);
    if raw.effort == NoEffort then Ok(base)
    else
      var parsed := ParseEffort(raw.effort);
      if parsed.Err? then Err(parsed.error)
      else Ok(base.(effort := parsed.value,
                    mode := if parsed.value == EffortNone then Disabled
                            else if base.mode == Unset then Enabled else base.mode))
  }

  /** The second half of both readers: a pivot state carried along beats fields that merely repeat it. */
  function WithPivot(intent: Intent, effort: Effort, state: State): Result<Diagnosed, Error> {
    var pivot := PivotOf(state);
    var repeats := effort != NoEffort && effort == EffectiveEffort(pivot);
    MergeExplicit(if repeats then intent.(effort := NoEffort, mode := Unset) else intent, pivot)
  }

  function FromChat(req: ChatFields): Result<Diagnosed, Error> {
    var plain := EffortIntent(req.effort);
    if plain.Err? then Err(plain.error)
    else if req.reasoning == Malformed then Err(MalformedReasoning)
    else
      var nested := if req.reasoning.Nested? then NestedIntent(req.reasoning) else Ok(EMPTY);
      if nested.Err? then Err(nested.error)
      else
        var read := if req.reasoning.Nested? then MergeExplicit(plain.value, nested.value)
          else Ok(Diagnosed(plain.value, []));
        if read.Err? then Err(read.error)
        else
          var rest := if req.conversion.None? then NormalizeIntent(read.value.intent)
            else WithPivot(read.value.intent, req.effort, req.conversion.value);
          if rest.Err? then Err(rest.error)
          else Ok(Diagnosed(rest.value.intent, read.value.diagnostics + rest.value.diagnostics))
  }

  const FRESH_CHAT := ChatFields(NoEffort, Missing, None)

  /** An intent that travels in a Chat request is read back as its normal form, mode, effort,
      budget and visibility exactly and without a report: always in a fresh request, and over any
      earlier effort and state when it has some strength. */
  lemma ChatRouteIsExact(req: ChatFields, intent: Intent)
    requires NormalizeIntent(intent).Ok?
    requires req == FRESH_CHAT || (req.reasoning == Missing && NormalizeIntent(intent).value.intent.HasStrength())
    ensures ApplyToChat(req, intent).Ok?
    ensures var read := FromChat(ApplyToChat(req, intent).value);
            && read.Ok? && read.value.diagnostics == []
            && read.value.intent.Portable() == NormalizeIntent(intent).value.intent.Portable()
  {
    hide ParseEffort;
    NormalizeIsIdempotent(intent);
    var n := NormalizeIntent(intent).value.intent;
    EffectiveEffortMeans(n);
    if !n.IsEmpty() {
      PivotRepeats(n);
    }
  }

  lemma PivotRepeats(n: Intent)
    requires Normal(n)
    ensures var pivot := PivotOf(StateOf(n));
            && Normal(pivot) && NormalizeIntent(pivot) == Ok(Diagnosed(pivot, []))
            && EffectiveEffort(pivot) == EffectiveEffort(n)
  {
    NormalIsFixpoint(n);
    NormalIsFixpoint(PivotOf(StateOf(n)));
  }

  // ---- the Responses route ----------------------------------------------------------------

  datatype ReasoningField = ReasoningField(effort: Effort, summary: string)

  datatype ResponsesFields = ResponsesFields(reasoning: Option<ReasoningField>, conversion: Option<State>)

  function ApplyToResponses(req: ResponsesFields, intent: Intent): Result<ResponsesFields, Error> {
    var n := NormalizeIntent(intent);
    if n.Err? then Err(n.error)
    else
      var i := n.value.intent;
      var effort := EffectiveEffort(i);
      var summary := if effort == EffortNone || i.visible == Some(false) then "" else "detailed";
      var written := if effort != NoEffort then req.(reasoning := Some(ReasoningField(effort, summary))) else req;
      Ok(if i.IsEmpty() then written else written.(conversion := Some(StateOf(i))))
  }

  function FromResponses(req: ResponsesFields): Result<Diagnosed, Error> {
    var effort := if req.reasoning.Some? then req.reasoning.value.effort else NoEffort;
    var plain := if req.reasoning.Some? then EffortIntent(effort) else Ok(EMPTY);
    if plain.Err? then Err(plain.error)
    else
      var summary := if req.reasoning.Some? then req.reasoning.value.summary else "";
      var intent := if summary != "" then plain.value.(visible := Some(true)) else plain.value;
      if req.conversion.None? then NormalizeIntent(intent)
      else WithPivot(intent, effort, req.conversion.value)
  }

  const FRESH_RESPONSES := ResponsesFields(None, None)

  /** Through a Responses request mode, effort and budget come back exactly, and the visibility
      flag too, except that an unset one becomes true exactly when thinking is asked for. */
  lemma ResponsesRouteIsExact(req: ResponsesFields, intent: Intent)
    requires NormalizeIntent(intent).Ok?
    requires req == FRESH_RESPONSES || NormalizeIntent(intent).value.intent.HasStrength()
    ensures ApplyToResponses(req, intent).Ok?
    ensures var n := NormalizeIntent(intent).value.intent;
            var read := FromResponses(ApplyToResponses(req, intent).value);
            && read.Ok? && read.value.diagnostics == []
            && read.value.intent.mode == n.mode && read.value.intent.effort == n.effort
            && read.value.intent.budget == n.budget
            && read.value.intent.visible
               == if n.visible.None? && n.HasStrength() && !n.IsOff() then Some(true) else n.visible
  {
    hide ParseEffort, MergeExplicit, NormalizeIntent, EffectiveEffort;
    NormalizeIsIdempotent(intent);
    var n := NormalizeIntent(intent).value.intent;
    EffectiveEffortMeans(n);
    if n.IsEmpty() {
      NormalIsFixpoint(EMPTY);
    } else {
      PivotRepeats(n);
      var pivot := PivotOf(StateOf(n));
      MergeVisible(EMPTY, pivot);
      MergeVisible(EMPTY.(source := Explicit), pivot);
      MergeVisible(EMPTY.(source := Explicit, visible := Some(true)), pivot);
      var sent := ApplyToResponses(req, intent).value;
      assert sent.conversion == Some(StateOf(n));
      if n.HasStrength() {
        var effort := EffectiveEffort(n);
        assert sent.reasoning.value.effort == effort;
        var seen := if sent.reasoning.value.summary != "" then Some(true) else None;
        assert "detailed" != "";
        assert seen == if effort == EffortNone || n.visible == Some(false) then None else Some(true);
        var primary := EMPTY.(source := Explicit, visible := seen);
        assert FromResponses(sent) == MergeExplicit(primary, pivot);
        assert MergeExplicit(primary, pivot) == Ok(Diagnosed(pivot.(visible := if seen.Some? then seen else n.visible),
                                                             []));
        FlagIsTrueOrFalse(n.visible);
      }
    }
  }

  lemma FlagIsTrueOrFalse(flag: Option<bool>)
    ensures flag == None || flag == Some(true) || flag == Some(false)
  {
    if flag.Some? {
      var b: bool := flag.value;
      assert b || !b;
    }
  }

  /** Merging a bare visibility flag, or nothing, over a normal intent. */
  lemma MergeVisible(p: Intent, pivot: Intent)
    requires !p.HasStrength() && Normal(pivot) && !pivot.IsEmpty()
    ensures MergeExplicit(p, pivot)
         == Ok(Diagnosed(pivot.(visible := if p.visible.Some? then p.visible else pivot.visible), []))
  {
    hide NormalizeIntent;
    NormalIsFixpoint(p);
    NormalIsFixpoint(pivot);
    var empty: seq<Diagnostic> := [];
    assert empty + empty == empty;
    if p.visible.Some? {
      var merged := MergeNormal(p, pivot);
      assert merged == Diagnosed(pivot.(visible := p.visible), []);
      NormalIsFixpoint(merged.intent);
      assert NormalizeIntent(merged.intent) == Ok(merged);
      assert MergeExplicit(p, pivot).value == Diagnosed(merged.intent, empty + empty + merged.diagnostics + empty);
    }
  }

  // ---- the requests -----------------------------------------------------------------------

  class GeneralOpenAIRequest {
    var reasoningEffort: Effort
    var reasoning: RawReasoning
    var reasoningConversion: Option<State>

    function Fields(): ChatFields
      reads this
    {
      ChatFields(reasoningEffort, reasoning, reasoningConversion)
    }

    method ApplyToOpenAIChat(intent: Intent) returns (error: Option<Error>)
      modifies this
      ensures match ApplyToChat(old(Fields()), intent)
              case Ok(fields) => error == None && Fields() == fields
              case Err(e) => error == Some(e) && Fields() == old(Fields())
    {
      var n := NormalizeIntent(intent);
      if n.Err? {
        return Some(n.error);
      }
      var i := n.value.intent;
      var effort := EffectiveEffort(i);
      if effort != NoEffort {
        reasoningEffort := effort;
      }
      if i.IsEmpty() {
        return None;
      }
      reasoningConversion := Some(StateOf(i));
      return None;
    }
  }

  class OpenAIResponsesRequest {
    var reasoning: Option<ReasoningField>
    var reasoningConversion: Option<State>

    function Fields(): ResponsesFields
      reads this
    {
      ResponsesFields(reasoning, reasoningConversion)
    }

    method ApplyToOpenAIResponses(intent: Intent) returns (error: Option<Error>)
      modifies this
      ensures match ApplyToResponses(old(Fields()), intent)
              case Ok(fields) => error == None && Fields() == fields
              case Err(e) => error == Some(e) && Fields() == old(Fields())
    {
      var n := NormalizeIntent(intent);
      if n.Err? {
        return Some(n.error);
      }
      var i := n.value.intent;
      var effort := EffectiveEffort(i);
      if effort != NoEffort {
        var summary := "detailed";
        if effort == EffortNone || i.visible == Some(false) {
          summary := "";
        }
        reasoning := Some(ReasoningField(effort, summary));
      }
      if i.IsEmpty() {
        return None;
      }
      reasoningConversion := Some(StateOf(i));
      return None;
    }
  }
}
