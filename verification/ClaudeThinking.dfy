/** A reasoning intent as Claude's thinking controls. */
module ClaudeThinking {
  import opened Basics
  import opened Reasoning
  import Text

  datatype Capabilities = Capabilities(
    adaptive: bool, supportsManual: bool, defaultThinking: bool, supportsDisable: bool,
    supportsEffort: bool, supportsXHigh: bool, supportsMax: bool, strictSampling: bool)

  predicate HasPrefix(s: string, prefix: string) { prefix <= s }

  function CapabilitiesFor(model: string): (c: Capabilities)
    ensures c.adaptive || (c.supportsManual && c.supportsDisable)
  {
    var model := Text.Lower(model);
    var base := Capabilities(false, true, false, true, false, false, false, false);
    if HasPrefix(model, "claude-fable-5") || HasPrefix(model, "claude-mythos-5") then
      Capabilities(true, false, true, false, false, true, true, true)
    else if HasPrefix(model, "claude-mythos-preview") then
      Capabilities(true, true, true, false, false, false, true, true)
    else if HasPrefix(model, "claude-opus-5") || HasPrefix(model, "claude-sonnet-5")
            || HasPrefix(model, "claude-opus-4-8") || HasPrefix(model, "claude-opus-4-7") then
      Capabilities(true, false, HasPrefix(model, "claude-opus-5") || HasPrefix(model, "claude-sonnet-5"), true,
        true, true, true, true)
    else if HasPrefix(model, "claude-opus-4-6") || HasPrefix(model, "claude-sonnet-4-6") then
      base.(adaptive := true, supportsEffort := true, supportsMax := true)
    else if HasPrefix(model, "claude-opus-4-5") then base.(supportsEffort := true)
    else base
  }

  datatype Thinking =
    | NoThinking
    | AdaptiveThinking(display: Option<bool>)
    | DisabledThinking
    | ManualThinking(budget: int, manualDisplay: Option<bool>)

  datatype ClaudeDiagnostic =
    | FromIntent(d: Diagnostic)
    | DisabledEffortIgnored
    | DisableUnsupported
    | BudgetToAdaptive
    | EffortAdjusted(asked: Effort, used: Effort)
    | AdaptiveToManual
    | MaxTokensRaised(raised: int)
    | ClaudeBudgetAdjusted(requested: int, adjusted: int)
    | DynamicBudgetConverted

  datatype Render = Render(
    thinking: Thinking, outputEffort: Effort, effectiveEffort: Effort, clearSampling: bool,
    constrainSampling: bool, maxTokens: Option<int>, diagnostics: seq<ClaudeDiagnostic>)

  const NOTHING := Render(NoThinking, NoEffort, NoEffort, false, false, None, [])

  // ---- numbers ----------------------------------------------------------------------------

  const MAX_INT: int := 0x7FFF_FFFF_FFFF_FFFF

  /** A product of two Go ints wraps around at 64 bits. */
  function Wrapped(x: int): (r: int)
    ensures -MAX_INT - 1 <= r <= MAX_INT
    ensures -MAX_INT - 1 <= x <= MAX_INT ==> r == x
  {
    (x + MAX_INT + 1) % 0x1_0000_0000_0000_0000 - MAX_INT - 1
  }

  /** Go's division rounds toward zero. */
  function Divide(x: int, d: int): int
    requires d > 0
  {
    if x >= 0 then x / d else -(-x / d)
  }

  /** math.Round: halves go away from zero. */
  function Round(x: real): int {
    if x >= 0.0 then (x + 0.5).Floor else -((-x + 0.5).Floor)
  }

  function AtLeast(x: int, low: int): int { if x < low then low else x }

  /** budget = max(asked, 1024), then below max_tokens. */
  function Manual(asked: int, maxTokens: int): int {
    if AtLeast(asked, 1024) >= maxTokens then maxTokens - 1 else AtLeast(asked, 1024)
  }

  function EffortPercentage(effort: Effort, adapterPercentage: real): (p: int)
    ensures 0 < p < 100
  {
    match effort
    case Minimal => 5
    case Low => 20
    case Medium => 50
    case High => 80
    case XHigh => 95
    case Max => 95
    case NoEffort => AdapterPercentage(adapterPercentage)
    case EffortNone => AdapterPercentage(adapterPercentage)
    case Spelled(_) => AdapterPercentage(adapterPercentage)
  }

  function AdapterPercentage(adapterPercentage: real): (p: int)
    ensures 0 < p < 100
  {
    var p := Round(adapterPercentage * 100.0);
    if p <= 0 then 80 else if p >= 100 then 99 else p
  }

  // ---- rendering --------------------------------------------------------------------------

  function NormalizeClaudeEffort(effort: Effort, c: Capabilities): Effort {
    if effort == Minimal then Low
    else if effort == XHigh then (if c.supportsXHigh then XHigh else if c.supportsMax then Max else High)
    else if effort == Max && !c.supportsMax then High
    else effort
  }

  function Reported(diagnostics: seq<Diagnostic>): seq<ClaudeDiagnostic> {
    seq(|diagnostics|, i requires 0 <= i < |diagnostics| => FromIntent(diagnostics[i]))
  }

  function RenderClaude(model: string, intent: Intent, maxTokens: Option<nat>, adapterPercentage: real)
    : Result<Render, Error>
  {
    var disabledWithEffort := intent.mode == Disabled && intent.effort !in {NoEffort, EffortNone};
    var c := CapabilitiesFor(model);
    if disabledWithEffort then
      var effort := ParseEffort(intent.effort);
      if effort.Err? then Err(effort.error)
      else RenderIntent(c, intent.(effort := effort.value), [DisabledEffortIgnored], maxTokens, adapterPercentage)
    else
      var n := NormalizeIntent(intent);
      if n.Err? then Err(n.error)
      else RenderIntent(c, n.value.intent, Reported(n.value.diagnostics), maxTokens, adapterPercentage)
  }

  function RenderIntent(c: Capabilities, i: Intent, diagnostics: seq<ClaudeDiagnostic>, maxTokens: Option<nat>,
                        adapterPercentage: real)
    : Result<Render, Error>
  {
    if !i.HasStrength() then
      Ok(NOTHING.(
        thinking := if i.visible.Some? && c.adaptive && c.defaultThinking then AdaptiveThinking(i.visible)
          else NoThinking,
        effectiveEffort := if c.defaultThinking then High else NoEffort,
        clearSampling := c.strictSampling))
    else if i.IsOff() then Ok(RenderOff(c, i, diagnostics))
    else
      var preferManual := c.supportsManual && i.budget.Some? && i.mode != Adaptive;
      var diagnostics := diagnostics
        + if !c.supportsManual && i.budget.Some? && i.mode == Enabled then [BudgetToAdaptive] else [];
      if c.adaptive && !preferManual then Ok(RenderAdaptive(c, i, diagnostics))
      else RenderManual(c, i, diagnostics, maxTokens, adapterPercentage)
  }

  function RenderOff(c: Capabilities, i: Intent, diagnostics: seq<ClaudeDiagnostic>): Render {
    if c.supportsDisable then
      NOTHING.(thinking := DisabledThinking, effectiveEffort := EffortNone, clearSampling := c.strictSampling,
               diagnostics := diagnostics)
    else if c.adaptive then
      NOTHING.(thinking := AdaptiveThinking(i.visible),
               outputEffort := if c.supportsEffort then Low else NoEffort,
               effectiveEffort := if c.supportsEffort then Low else High,
               clearSampling := c.strictSampling,
               diagnostics := diagnostics + [DisableUnsupported])
    else NOTHING.(diagnostics := diagnostics + [DisableUnsupported])
  }

  function RenderAdaptive(c: Capabilities, i: Intent, diagnostics: seq<ClaudeDiagnostic>): Render {
    var asked :=
      if i.effort != NoEffort then i.effort
      else if i.budget.Some? then EffortFromBudget(i.budget.value)
      else if i.mode == Enabled then High
      else NoEffort;
    var effort := NormalizeClaudeEffort(asked, c);
    var adjusted := if asked != NoEffort && effort != asked then [EffortAdjusted(asked, effort)] else [];
    var effective := if effort == NoEffort && i.mode == Adaptive then High else effort;
    var base := NOTHING.(outputEffort := effort, effectiveEffort := effective, clearSampling := c.strictSampling,
                         diagnostics := diagnostics + adjusted);
    if i.mode == Unset then base
    else base.(thinking := AdaptiveThinking(i.visible), constrainSampling := !c.strictSampling)
  }

  function RenderManual(c: Capabilities, i: Intent, diagnostics: seq<ClaudeDiagnostic>, maxTokens: Option<nat>,
                        adapterPercentage: real)
    : Result<Render, Error>
  {
    var toManual := if i.mode == Adaptive then [AdaptiveToManual] else [];
    var i := if i.mode == Adaptive
      then i.(mode := Enabled, effort := if i.effort == NoEffort then High else i.effort) else i;
    var diagnostics := diagnostics + toManual;
    if i.mode == Unset then
      Ok(NOTHING.(outputEffort := i.effort, effectiveEffort := i.effort, diagnostics := diagnostics))
    else
      var raised := RaisedMaxTokens(i.budget, maxTokens);
      var limit: int := if raised.Some? then raised.value else maxTokens.GetOr(0);
      var diagnostics := diagnostics + if raised.Some? then [MaxTokensRaised(raised.value)] else [];
      if limit > MAX_INT then Err(TooLarge)
      else
        var asked := i.budget.Some? && i.budget.value >= 0;
        var budget :=
          if asked then Manual(i.budget.value, limit)
          else Manual(Share(limit, EffortPercentage(i.effort, adapterPercentage)), limit);
        var about :=
          if asked && budget != i.budget.value then [ClaudeBudgetAdjusted(i.budget.value, budget)]
          else if !asked && i.budget.Some? then [DynamicBudgetConverted]
          else [];
        var output := if c.supportsEffort && i.effort != NoEffort then NormalizeClaudeEffort(i.effort, c) else NoEffort;
        var effective :=
          if output != NoEffort then output
          else if (i.budget.Some? && !c.supportsEffort) || i.effort == NoEffort then EffortFromBudget(budget)
          else i.effort;
        Ok(Render(ManualThinking(budget, i.visible), output, effective, false, true, raised, diagnostics + about))
  }

  /** Manual thinking needs more than 1024 tokens; a request with less gets more. */
  function RaisedMaxTokens(budget: Option<int>, maxTokens: Option<nat>): Option<int> {
    if maxTokens.Some? && maxTokens.value > 1024 then None
    else if budget.Some? && 0 <= budget.value < 0x7FFF_FFFF / 2 then Some(AtLeast(budget.value + 1, 1280))
    else Some(1280)
  }

  /** int(maxTokens) * percentage / 100 in 64-bit arithmetic. */
  function Share(maxTokens: int, percentage: int): int { Divide(Wrapped(maxTokens * percentage), 100) }

  // ---- bounds -----------------------------------------------------------------------------

  /** The max_tokens that goes out with a render. */
  function Limit(r: Render, maxTokens: Option<nat>): int {
    if r.maxTokens.Some? then r.maxTokens.value else maxTokens.GetOr(0)
  }

  lemma RenderManualBounds(c: Capabilities, i: Intent, diagnostics: seq<ClaudeDiagnostic>, maxTokens: Option<nat>,
                           percentage: real)
    ensures var out := RenderManual(c, i, diagnostics, maxTokens, percentage);
            out.Ok? && out.value.thinking.ManualThinking? ==>
              var r := out.value;
              && 1024 <= r.thinking.budget < Limit(r, maxTokens) <= MAX_INT
              && (r.maxTokens.Some? <==> maxTokens.None? || maxTokens.value <= 1024)
              && (r.maxTokens.Some? ==> r.maxTokens.value > 1024)
  {
    hide EffortPercentage, Share;
  }

  /** Every manual budget is at least 1024 and below the max_tokens sent with it, whatever the
      request carried and even where the multiplication overflows; max_tokens is raised exactly
      when it leaves no room. */
  lemma ManualBudgetInBounds(model: string, intent: Intent, maxTokens: Option<nat>, percentage: real)
    ensures var out := RenderClaude(model, intent, maxTokens, percentage);
            out.Ok? && out.value.thinking.ManualThinking? ==>
              var r := out.value;
              && 1024 <= r.thinking.budget < Limit(r, maxTokens) <= MAX_INT
              && (r.maxTokens.Some? <==> maxTokens.None? || maxTokens.value <= 1024)
              && (r.maxTokens.Some? ==> r.maxTokens.value > 1024)
  {
    hide RenderManual, CapabilitiesFor, RenderAdaptive, RenderOff, NormalizeIntent, ParseEffort;
    forall c, i, diagnostics
      ensures var out := RenderManual(c, i, diagnostics, maxTokens, percentage);
            out.Ok? && out.value.thinking.ManualThinking? ==>
              var r := out.value;
              && 1024 <= r.thinking.budget < Limit(r, maxTokens) <= MAX_INT
              && (r.maxTokens.Some? <==> maxTokens.None? || maxTokens.value <= 1024)
              && (r.maxTokens.Some? ==> r.maxTokens.value > 1024)
    {
      RenderManualBounds(c, i, diagnostics, maxTokens, percentage);
    }
    AdaptiveIsNotManual();
  }

  lemma AdaptiveIsNotManual()
    ensures forall c, i, d :: !RenderAdaptive(c, i, d).thinking.ManualThinking?
    ensures forall c, i, d :: !RenderOff(c, i, d).thinking.ManualThinking?
  {
  }

  /** The form of thinking is one the model takes. */
  predicate Suits(thinking: Thinking, c: Capabilities) {
    match thinking
    case NoThinking => true
    case AdaptiveThinking(_) => c.adaptive
    case DisabledThinking => c.supportsDisable
    case ManualThinking(_, _) => c.supportsManual
  }

  lemma ThinkingSuitsModel(model: string, intent: Intent, maxTokens: Option<nat>, percentage: real)
    ensures var out := RenderClaude(model, intent, maxTokens, percentage);
            out.Ok? ==> Suits(out.value.thinking, CapabilitiesFor(model))
  {
    hide CapabilitiesFor, NormalizeIntent, ParseEffort, EffortPercentage, Share, Manual, RaisedMaxTokens;
    var c := CapabilitiesFor(model);
    assert c.adaptive || (c.supportsManual && c.supportsDisable);
  }

  /** An effort the model takes. */
  predicate TakesEffort(effort: Effort, c: Capabilities) {
    && effort != Minimal && !effort.Spelled?
    && (effort == XHigh ==> c.supportsXHigh) && (effort == Max ==> c.supportsMax)
  }

  /** The table moves every effort to one the model takes, and leaves those alone. */
  lemma NormalizedEffortIsTaken(effort: Effort, c: Capabilities)
    requires !effort.Spelled?
    ensures TakesEffort(NormalizeClaudeEffort(effort, c), c)
    ensures NormalizeClaudeEffort(effort, c) == effort <==> TakesEffort(effort, c)
  {
  }

  lemma NormalEffortIsTaken(c: Capabilities, i: Intent, diagnostics: seq<ClaudeDiagnostic>, maxTokens: Option<nat>,
                            percentage: real)
    requires Normal(i)
    ensures var out := RenderIntent(c, i, diagnostics, maxTokens, percentage);
            out.Ok? ==>
              (TakesEffort(out.value.outputEffort, c) <==>
                 !(i.mode == Unset && !c.adaptive && !TakesEffort(i.effort, c)))
  {
    hide EffortPercentage, Share, Manual, RaisedMaxTokens;
    NormalizedEffortIsTaken(i.effort, c);
    NormalizedEffortIsTaken(High, c);
    NormalizedEffortIsTaken(NoEffort, c);
    if i.budget.Some? {
      NormalizedEffortIsTaken(EffortFromBudget(i.budget.value), c);
    }
  }

  /** An effort by itself: no mode and no budget. */
  predicate IsBare(intent: Intent) { intent.mode == Unset && intent.budget.None? }

  lemma OffEffortIsTaken(c: Capabilities, i: Intent, diagnostics: seq<ClaudeDiagnostic>)
    ensures TakesEffort(RenderOff(c, i, diagnostics).outputEffort, c)
  {
  }

  /** Settling the budget leaves a bare effort bare, and makes nothing else bare. */
  lemma NormalizingKeepsBare(intent: Intent)
    requires NormalizeIntent(intent).Ok?
    ensures ParseEffort(intent.effort).Ok?
    ensures var n := NormalizeIntent(intent).value.intent;
            && (n.mode == Unset ==> IsBare(intent) && n.effort == ParseEffort(intent.effort).value)
            && (IsBare(intent) && n.mode != Unset ==> ParseEffort(intent.effort).value == EffortNone)
  {
  }

  /** The effort sent is one the model takes, except in one case: a bare effort, without any
      request to think, goes to a model without adaptive thinking as it is. */
  lemma OutputEffortIsTaken(model: string, intent: Intent, maxTokens: Option<nat>, percentage: real)
    ensures var out, c := RenderClaude(model, intent, maxTokens, percentage), CapabilitiesFor(model);
            out.Ok? ==>
              && ParseEffort(intent.effort).Ok?
              && (TakesEffort(out.value.outputEffort, c) <==>
                    !(IsBare(intent) && !c.adaptive && !TakesEffort(ParseEffort(intent.effort).value, c)))
  {
    hide CapabilitiesFor, NormalizeIntent, ParseEffort, RenderOff, RenderAdaptive, RenderManual, TakesEffort;
    var c := CapabilitiesFor(model);
    if intent.mode == Disabled && intent.effort !in {NoEffort, EffortNone} {
      forall i, d ensures TakesEffort(RenderOff(c, i, d).outputEffort, c) {
        OffEffortIsTaken(c, i, d);
      }
    } else if NormalizeIntent(intent).Ok? {
      var n := NormalizeIntent(intent).value;
      NormalizeIsIdempotent(intent);
      NormalizingKeepsBare(intent);
      NormalEffortIsTaken(c, n.intent, Reported(n.diagnostics), maxTokens, percentage);
      NoneIsTaken(c);
    }
  }

  lemma NoneIsTaken(c: Capabilities)
    ensures TakesEffort(EffortNone, c) && TakesEffort(NoEffort, c)
  {
  }

  /** A model without adaptive thinking is sent an effort it does not take. */
  lemma BareEffortIsNotTaken()
    ensures var out := RenderClaude("claude-3", EMPTY.(effort := Max), None, 0.8);
            out.Ok? && out.value.outputEffort == Max && !TakesEffort(Max, CapabilitiesFor("claude-3"))
  {
    OldModel();
    hide CapabilitiesFor;
  }

  lemma OldModel()
    ensures CapabilitiesFor("claude-3") == Capabilities(false, true, false, true, false, false, false, false)
  {
    assert |Text.Lower("claude-3")| == 8;
  }

  /** What becomes of a requested budget. */
  predicate BudgetIsKept(asked: int, out: Result<Render, Error>, maxTokens: Option<nat>) {
    out.Ok? && out.value.thinking.ManualThinking? ==>
      var r := out.value;
      && (r.thinking.budget == asked <==> 1024 <= asked < Limit(r, maxTokens))
      && (asked < 1024 ==> r.thinking.budget == 1024)
      && (asked >= Limit(r, maxTokens) ==> r.thinking.budget == Limit(r, maxTokens) - 1)
      && (r.maxTokens.Some? && asked < 1_000_000_000 ==> r.thinking.budget == AtLeast(asked, 1024))
      && (ClaudeBudgetAdjusted(asked, r.thinking.budget) in r.diagnostics <==> r.thinking.budget != asked)
  }

  lemma ManualBudgetIsKept(c: Capabilities, i: Intent, diagnostics: seq<ClaudeDiagnostic>, maxTokens: Option<nat>,
                           percentage: real)
    requires i.budget.Some? && i.budget.value >= 0 && forall d :: d in diagnostics ==> !d.ClaudeBudgetAdjusted?
    ensures BudgetIsKept(i.budget.value, RenderManual(c, i, diagnostics, maxTokens, percentage), maxTokens)
  {
    hide EffortPercentage, Share;
  }

  /** A requested budget within the bounds is kept, one outside goes to the nearest bound, and the
      change is reported exactly when there is one; raising max_tokens makes room for any budget
      up to a thousand million tokens. */
  lemma RequestedBudgetIsKept(model: string, intent: Intent, maxTokens: Option<nat>, percentage: real)
    requires intent.budget.Some? && intent.budget.value >= 0
    ensures BudgetIsKept(intent.budget.value, RenderClaude(model, intent, maxTokens, percentage), maxTokens)
  {
    hide CapabilitiesFor, NormalizeIntent, ParseEffort, RenderOff, RenderAdaptive, RenderManual, BudgetIsKept;
    var asked, c := intent.budget.value, CapabilitiesFor(model);
    NotManual(asked, maxTokens);
    if !(intent.mode == Disabled && intent.effort !in {NoEffort, EffortNone}) && NormalizeIntent(intent).Ok? {
      var n := NormalizeIntent(intent).value;
      StrongestControlDecides(intent);
      var more :=
        if !c.supportsManual && n.intent.budget.Some? && n.intent.mode == Enabled then [BudgetToAdaptive] else [];
      ManualBudgetIsKept(c, n.intent, Reported(n.diagnostics) + more, maxTokens, percentage);
    }
  }

  lemma NotManual(asked: int, maxTokens: Option<nat>)
    ensures forall out: Result<Render, Error> :: out.Err? || !out.value.thinking.ManualThinking? ==>
              BudgetIsKept(asked, out, maxTokens)
    ensures forall c, i, d :: !RenderAdaptive(c, i, d).thinking.ManualThinking?
                              && !RenderOff(c, i, d).thinking.ManualThinking?
  {
  }

  lemma ShareIsExact(maxTokens: int, percentage: int)
    requires 1024 < maxTokens <= MAX_INT && 0 < percentage < 100
    ensures Manual(Share(maxTokens, percentage), maxTokens) == AtLeast(maxTokens * percentage / 100, 1024)
            <==> maxTokens * percentage <= MAX_INT
  {
    var product := maxTokens * percentage;
    assert product <= 99 * maxTokens && product > 0;
    if product > MAX_INT {
      assert Wrapped(product) <= MAX_INT;
      WrapsDown(product);
    }
  }

  lemma WrapsDown(x: int)
    requires x > MAX_INT
    ensures Wrapped(x) <= x - 0x1_0000_0000_0000_0000
  {
  }

  /** The effort a manual budget is derived from. */
  function ShareEffort(i: Intent): Effort {
    if i.mode == Adaptive && i.effort == NoEffort then High else i.effort
  }

  lemma ManualShare(c: Capabilities, i: Intent, diagnostics: seq<ClaudeDiagnostic>, maxTokens: Option<nat>,
                    percentage: real)
    requires i.budget.None? || i.budget.value < 0
    ensures var out := RenderManual(c, i, diagnostics, maxTokens, percentage);
            out.Ok? && out.value.thinking.ManualThinking? ==>
              var limit := Limit(out.value, maxTokens);
              && 1024 < limit <= MAX_INT
              && out.value.thinking.budget == Manual(Share(limit, EffortPercentage(ShareEffort(i), percentage)), limit)
  {
    hide EffortPercentage, Share, Manual;
  }

  /** Without a requested budget a manual budget is the share of max_tokens that the effort stands
      for, at least 1024, exactly as long as the product fits in 64 bits: beyond that the
      multiplication wraps around and the budget is some other number. */
  lemma ShareIsExactUnlessWrapped(model: string, intent: Intent, maxTokens: Option<nat>, percentage: real)
    requires intent.budget.None? || intent.budget.value < 0
    ensures var out := RenderClaude(model, intent, maxTokens, percentage);
            out.Ok? && out.value.thinking.ManualThinking? ==>
              && NormalizeIntent(intent).Ok?
              && var limit := Limit(out.value, maxTokens);
                 var share := EffortPercentage(ShareEffort(NormalizeIntent(intent).value.intent), percentage);
                 (out.value.thinking.budget == AtLeast(limit * share / 100, 1024) <==> limit * share <= MAX_INT)
  {
    hide CapabilitiesFor, NormalizeIntent, ParseEffort, RenderOff, RenderAdaptive, RenderManual, Share, Manual,
         EffortPercentage, AtLeast;
    AdaptiveIsNotManual();
    if !(intent.mode == Disabled && intent.effort !in {NoEffort, EffortNone}) && NormalizeIntent(intent).Ok? {
      var n := NormalizeIntent(intent).value.intent;
      StrongestControlDecides(intent);
      forall d ensures ManualShareIsExact(n, RenderManual(CapabilitiesFor(model), n, d, maxTokens, percentage),
                                          maxTokens, percentage)
      {
        ManualShare(CapabilitiesFor(model), n, d, maxTokens, percentage);
        var out := RenderManual(CapabilitiesFor(model), n, d, maxTokens, percentage);
        if out.Ok? && out.value.thinking.ManualThinking? {
          ShareIsExact(Limit(out.value, maxTokens), EffortPercentage(ShareEffort(n), percentage));
        }
      }
    }
  }

  predicate ManualShareIsExact(n: Intent, out: Result<Render, Error>, maxTokens: Option<nat>, percentage: real) {
    out.Ok? && out.value.thinking.ManualThinking? ==>
      var limit, share := Limit(out.value, maxTokens), EffortPercentage(ShareEffort(n), percentage);
      (out.value.thinking.budget == AtLeast(limit * share / 100, 1024) <==> limit * share <= MAX_INT)
  }

  /** For instance high effort, 80 percent, of the largest max_tokens comes out as 1024. */
  lemma ShareCanWrap()
    ensures var out := RenderClaude("claude-3", EMPTY.(mode := Enabled, effort := High), Some(MAX_INT), 0.8);
            out.Ok? && out.value.thinking == ManualThinking(1024, None)
  {
    OldModel();
    hide CapabilitiesFor;
  }
}
