/** A reasoning intent as Gemini's thinkingConfig, and native configs rewritten into the dialect
    of the model they go to. */
module GeminiThinking {
  import opened Basics
  import opened Reasoning
  import ClaudeThinking
  import Text

  datatype Kind = Unknown | NotConfigurable | Budget | Level

  datatype Capabilities = Capabilities(
    kind: Kind, supportsDisable: bool, supportsVisible: bool, minBudget: int, maxBudget: int)

  predicate HasPrefix(s: string, prefix: string) { prefix <= s }

  predicate Contains(s: string, part: string) {
    exists i :: 0 <= i <= |s| && StandsAt(s, part, i)
  }

  predicate StandsAt(s: string, part: string, i: int) {
    0 <= i <= |s| - |part| && s[i..i + |part|] == part
  }

  const BUDGETS := Capabilities(Budget, true, false, 0, 24576)

  function CapabilitiesFor(model: string): (c: Capabilities)
    ensures c.kind == Budget ==> 0 <= c.minBudget <= 1024 && 24576 <= c.maxBudget
    ensures c.kind == Budget && !c.supportsDisable ==> c.minBudget > 0
  {
    var model := Text.Lower(model);
    if HasPrefix(model, "gemini-2.5-flash-native-audio")
       || HasPrefix(model, "gemini-live-2.5-flash-preview-native-audio") then BUDGETS
    else if HasPrefix(model, "gemini-2.5-flash-image") || Contains(model, "-tts")
            || Contains(model, "-native-audio") || Contains(model, "-live") then
      Capabilities(NotConfigurable, false, false, 0, 0)
    else if HasPrefix(model, "gemini-3-pro-image") || HasPrefix(model, "nano-banana-pro") then
      Capabilities(NotConfigurable, false, true, 0, 0)
    else if model in ["gemini-flash-latest", "gemini-flash-lite-latest", "gemini-pro-latest"] then
      Capabilities(Level, false, false, 0, 0)
    else if HasPrefix(model, "gemini-2.5-pro") then Capabilities(Budget, false, false, 128, 32768)
    else if HasPrefix(model, "gemini-2.5-flash-lite") then BUDGETS.(minBudget := 512)
    else if HasPrefix(model, "gemini-2.5-") then BUDGETS
    else if HasPrefix(model, "gemini-3") then Capabilities(Level, false, false, 0, 0)
    else Capabilities(Unknown, false, false, 0, 0)
  }

  datatype Config = Config(visible: Option<bool>, budget: Option<int>, level: Effort)

  datatype GeminiDiagnostic =
    | FromIntent(d: Diagnostic)
    | BudgetLevelConflict
    | ThinkingUnsupported
    | UnknownCapability
    | DisableUnsupported
    | BudgetClamped(asked: int, used: int)
    | BudgetToLevel(budget: int)
    | LevelToBudget(level: Effort)
    | LevelAdjusted(askedLevel: Effort, usedLevel: Effort)

  function Reported(diagnostics: seq<Diagnostic>): (r: seq<GeminiDiagnostic>)
    ensures diagnostics == [] <==> r == []
  {
    seq(|diagnostics|, i requires 0 <= i < |diagnostics| => FromIntent(diagnostics[i]))
  }

  // ---- tables -----------------------------------------------------------------------------

  function Clamp(budget: int, c: Capabilities): int {
    var low := if budget < c.minBudget then c.minBudget else budget;
    if low > c.maxBudget then c.maxBudget else low
  }

  function BudgetForEffort(effort: Effort): int {
    if effort in {Minimal, Low} then 1024
    else if effort == Medium then 8192
    else if effort in {High, XHigh, Max} then 24576
    else 0
  }

  function LevelForEffort(model: string, effort: Effort): (r: Result<Effort, Error>)
    ensures effort == Minimal || effort == Low || effort == Medium || effort == High ==> r.Ok?
  {
    var model := Text.Lower(model);
    if HasPrefix(model, "gemini-3.1-flash-image") || HasPrefix(model, "gemini-3.1-flash-lite-image") then
      Ok(if effort in {Minimal, Low} then Minimal else High)
    else if HasPrefix(model, "gemini-3-pro") && !HasPrefix(model, "gemini-3.1-pro") then
      Ok(if effort in {Minimal, Low} then Low else High)
    else if (HasPrefix(model, "gemini-3.1-pro") || model == "gemini-pro-latest") && effort == Minimal then Ok(Low)
    else if effort in {Minimal, Low, Medium, High} then Ok(effort)
    else if effort in {XHigh, Max} then Ok(High)
    else if effort == EffortNone then Err(ThinkingNotDisabled)
    else Err(UnsupportedEffort(effort))
  }

  /** A level the model takes as it is. */
  predicate TakesLevel(model: string, level: Effort) {
    level in {Minimal, Low, Medium, High} && LevelForEffort(model, level) == Ok(level)
  }

  /** The table moves every effort to a level the model takes, and leaves those alone. */
  lemma LevelIsTaken(model: string, effort: Effort)
    ensures LevelForEffort(model, effort).Ok? ==> TakesLevel(model, LevelForEffort(model, effort).value)
  {
    hide HasPrefix, Text.Lower;
  }

  function DefaultEffort(model: string): Effort {
    var model := Text.Lower(model);
    if model == "gemini-flash-latest"
       || (HasPrefix(model, "gemini-3.5-flash") && !HasPrefix(model, "gemini-3.5-flash-lite"))
       || HasPrefix(model, "gemini-3.6-flash") then Medium
    else if model == "gemini-flash-lite-latest" || HasPrefix(model, "gemini-3.5-flash-lite")
            || HasPrefix(model, "gemini-3.1-flash-lite") then Minimal
    else if model == "gemini-pro-latest" || HasPrefix(model, "gemini-3.1-pro")
            || HasPrefix(model, "gemini-3-pro") || HasPrefix(model, "gemini-3-flash") then High
    else NoEffort
  }

  // ---- rendering --------------------------------------------------------------------------

  datatype Render = Render(config: Option<Config>, effort: Effort, diagnostics: seq<GeminiDiagnostic>)

  function RenderGemini(model: string, intent: Intent, maxOutputTokens: Option<nat>, percentage: real)
    : Result<Render, Error>
  {
    var n := NormalizeIntent(intent);
    if n.Err? then Err(n.error)
    else
      var i, diagnostics := n.value.intent, Reported(n.value.diagnostics);
      var c := CapabilitiesFor(model);
      if i.IsEmpty() then Ok(Render(None, NoEffort, diagnostics))
      else
        match c.kind
        case NotConfigurable => Ok(RenderNotConfigurable(c, i, diagnostics))
        case Unknown => Ok(RenderUnknown(i, diagnostics))
        case Budget => RenderBudget(model, c, i, diagnostics, maxOutputTokens, percentage)
        case Level => RenderLevel(model, i, diagnostics)
  }

  function RenderNotConfigurable(c: Capabilities, i: Intent, diagnostics: seq<GeminiDiagnostic>): Render {
    Render(
      if c.supportsVisible && i.visible.Some? then Some(Config(i.visible, None, NoEffort)) else None,
      if c.supportsVisible then High else NoEffort,
      diagnostics + if i.HasStrength() || (i.visible.Some? && !c.supportsVisible) then [ThinkingUnsupported] else [])
  }

  function RenderUnknown(i: Intent, diagnostics: seq<GeminiDiagnostic>): Render {
    Render(
      if i.visible.Some? then Some(Config(i.visible, None, NoEffort)) else None,
      NoEffort,
      diagnostics + if i.HasStrength() then [UnknownCapability] else [])
  }

  function ShareOf(maxOutputTokens: nat, percentage: real): int {
    var share := if percentage <= 0.0 then 0.6 else if percentage > 1.0 then 1.0 else percentage;
    ClaudeThinking.Round(maxOutputTokens as real * share)
  }

  function RenderBudget(model: string, c: Capabilities, i: Intent, diagnostics: seq<GeminiDiagnostic>,
                        maxOutputTokens: Option<nat>, percentage: real): Result<Render, Error>
  {
    if i.IsOff() then
      var budget := if c.supportsDisable then 0 else c.minBudget;
      Ok(Render(
        Some(Config(i.visible, Some(budget), NoEffort)),
        if c.supportsDisable then EffortNone else EffortFromBudget(budget),
        diagnostics + if c.supportsDisable then [] else [DisableUnsupported]))
    else if i.budget.Some? then
      var asked := i.budget.value;
      var budget := if asked == -1 then -1 else Clamp(asked, c);
      Ok(Render(
        Some(Config(i.visible, Some(budget), NoEffort)), EffortFromBudget(budget),
        diagnostics + if budget != asked then [BudgetClamped(asked, budget)] else []))
    else if i.effort != NoEffort then
      var budget := BudgetForEffort(i.effort);
      Ok(Render(Some(Config(i.visible, Some(budget), NoEffort)), EffortFromBudget(budget), diagnostics))
    else if i.mode != Unset && maxOutputTokens.Some? && maxOutputTokens.value > 0 then
      if maxOutputTokens.value > ClaudeThinking.MAX_INT then Err(TooLarge)
      else
        var budget := Clamp(ShareOf(maxOutputTokens.value, percentage), c);
        Ok(Render(Some(Config(i.visible, Some(budget), NoEffort)), EffortFromBudget(budget), diagnostics))
    else
      Ok(Render(
        Some(Config(i.visible, None, NoEffort)),
        if i.mode in {Enabled, Adaptive} then DefaultEffort(model) else i.effort, diagnostics))
  }

  function RenderLevel(model: string, i: Intent, diagnostics: seq<GeminiDiagnostic>): Result<Render, Error> {
    if i.IsOff() then
      var level := LevelForEffort(model, Minimal).value;
      Ok(Render(Some(Config(i.visible, None, level)), level, diagnostics + [DisableUnsupported]))
    else
      var fromBudget := i.effort == NoEffort && i.budget.Some?;
      var effort := if fromBudget then EffortFromBudget(i.budget.value) else i.effort;
      var diagnostics := diagnostics + if fromBudget then [BudgetToLevel(i.budget.value)] else [];
      if effort == NoEffort then
        Ok(Render(
          Some(Config(i.visible, None, NoEffort)),
          if i.mode in {Enabled, Adaptive} then DefaultEffort(model) else NoEffort, diagnostics))
      else
        var level := LevelForEffort(model, effort);
        if level.Err? then Err(level.error)
        else
          Ok(Render(
            Some(Config(i.visible, None, level.value)), level.value,
            diagnostics + if level.value != effort then [LevelAdjusted(effort, level.value)] else []))
  }

  // ---- native configs ---------------------------------------------------------------------

  /** The intent of a native config. */
  function FromGemini(config: Config): Result<Diagnosed, Error> {
    if config.budget.Some? && config.level != NoEffort then Err(BudgetAndLevel)
    else
      var base := EMPTY.(budget := config.budget, visible := config.visible, source := Native, budgetSource := Native);
      if config.level == NoEffort then NormalizeIntent(base)
      else
        var effort := ParseEffort(config.level);
        if effort.Err? then Err(effort.error)
        else
          NormalizeIntent(base.(effort := effort.value,
                                mode := if effort.value == EffortNone then Disabled else Enabled))
  }

  /** What rewriting leaves: the config, the accounting label, the reports, and an error if any. */
  datatype Rewritten = Rewritten(
    config: Option<Config>, effort: Effort, diagnostics: seq<GeminiDiagnostic>, error: Option<Error>)

  function Normalize(model: string, config: Option<Config>): Rewritten {
    if config.None? then Rewritten(None, NoEffort, [], None)
    else
      var c := CapabilitiesFor(model);
      var both := config.value.budget.Some? && config.value.level != NoEffort && c.kind in {Budget, Level};
      var one :=
        if !both then config.value
        else if c.kind == Budget then config.value.(level := NoEffort)
        else config.value.(budget := None);
      var diagnostics := if both then [BudgetLevelConflict] else [];
      if c.kind == NotConfigurable then NormalizeNotConfigurable(c, one, diagnostics)
      else
        var read := FromGemini(one);
        if read.Err? then Rewritten(Some(one), NoEffort, diagnostics, Some(read.error))
        else
          var diagnostics := diagnostics + Reported(read.value.diagnostics);
          if c.kind == Unknown then Rewritten(Some(one), EffectiveEffort(read.value.intent), diagnostics, None)
          else if c.kind == Budget then NormalizeBudget(c, one, read.value.intent, diagnostics)
          else NormalizeLevel(model, one, read.value.intent, diagnostics)
  }

  function NormalizeNotConfigurable(c: Capabilities, config: Config, diagnostics: seq<GeminiDiagnostic>): Rewritten {
    var dropped := config.budget.Some? || config.level != NoEffort || (config.visible.Some? && !c.supportsVisible);
    var diagnostics := diagnostics + if dropped then [ThinkingUnsupported] else [];
    if !c.supportsVisible || config.visible.None? then Rewritten(None, NoEffort, diagnostics, None)
    else Rewritten(Some(config.(budget := None, level := NoEffort)), High, diagnostics, None)
  }

  function FitBudget(budget: int, c: Capabilities): int {
    if budget < -1 then -1
    else if budget == 0 then (if c.supportsDisable then 0 else c.minBudget)
    else if budget == -1 then -1
    else Clamp(budget, c)
  }

  function NormalizeBudget(c: Capabilities, config: Config, intent: Intent,
                           diagnostics: seq<GeminiDiagnostic>): Rewritten {
    var fromLevel := config.level != NoEffort;
    var diagnostics := diagnostics + if fromLevel then [LevelToBudget(config.level)] else [];
    var config := if fromLevel then config.(level := NoEffort, budget := Some(BudgetForEffort(intent.effort)))
      else config;
    if config.budget.None? then Rewritten(Some(config), EffectiveEffort(intent), diagnostics, None)
    else
      var asked := config.budget.value;
      var budget := FitBudget(asked, c);
      var about :=
        if asked == 0 && !c.supportsDisable then [DisableUnsupported]
        else if asked > 0 && budget != asked then [BudgetClamped(asked, budget)]
        else [];
      Rewritten(Some(config.(budget := Some(budget))), EffortFromBudget(budget), diagnostics + about, None)
  }

  function NormalizeLevel(model: string, config: Config, intent: Intent,
                          diagnostics: seq<GeminiDiagnostic>): Rewritten {
    if config.budget.Some? then
      var budget := config.budget.value;
      var level := LevelForEffort(model, if budget == 0 then Minimal else EffortFromBudget(budget)).value;
      Rewritten(Some(config.(budget := None, level := level)), level,
        diagnostics + [if budget == 0 then DisableUnsupported else BudgetToLevel(budget)], None)
    else if config.level == NoEffort then Rewritten(Some(config), NoEffort, diagnostics, None)
    else if intent.effort == EffortNone then
      var level := LevelForEffort(model, Minimal).value;
      Rewritten(Some(config.(level := level)), level, diagnostics + [DisableUnsupported], None)
    else
      var level := LevelForEffort(model, intent.effort);
      if level.Err? then Rewritten(Some(config), NoEffort, diagnostics, Some(level.error))
      else
        Rewritten(Some(config.(level := level.value)), level.value,
          diagnostics + if level.value != intent.effort then [LevelAdjusted(config.level, level.value)] else [], None)
  }

  // ---- bounds and dialects ----------------------------------------------------------------

  /** A budget the model takes: dynamic, off where it can be off, or within its range. */
  predicate TakesBudget(c: Capabilities, budget: int) {
    budget == -1 || (budget == 0 && c.supportsDisable) || c.minBudget <= budget <= c.maxBudget
  }

  /** A config in the dialect of the model: nothing to convert, clamp or drop. */
  predicate InDialect(model: string, config: Option<Config>) {
    var c := CapabilitiesFor(model);
    config.None? ||
    var cfg := config.value;
    match c.kind
    case Unknown => !(cfg.budget.Some? && cfg.level != NoEffort)
      && (cfg.level != NoEffort ==> ParseEffort(cfg.level).Ok?)
    case NotConfigurable => c.supportsVisible && cfg.visible.Some? && cfg.budget.None? && cfg.level == NoEffort
    case Budget => cfg.level == NoEffort && (cfg.budget.Some? ==> TakesBudget(c, cfg.budget.value))
    case Level => cfg.budget.None? && (cfg.level != NoEffort ==> TakesLevel(model, cfg.level))
  }

  lemma FitBudgetIsTaken(budget: int, model: string)
    requires CapabilitiesFor(model).kind == Budget
    ensures TakesBudget(CapabilitiesFor(model), FitBudget(budget, CapabilitiesFor(model)))
    ensures TakesBudget(CapabilitiesFor(model), budget) ==> FitBudget(budget, CapabilitiesFor(model)) == budget
  {
    hide CapabilitiesFor;
  }

  /** Whatever is rendered for a model is in its dialect; in particular every budget is -1, or 0
      where thinking can be turned off, or within the model's range. */
  lemma RenderIsNative(model: string, intent: Intent, maxOutputTokens: Option<nat>, percentage: real)
    ensures var out := RenderGemini(model, intent, maxOutputTokens, percentage);
            out.Ok? ==> InDialect(model, out.value.config)
  {
    hide CapabilitiesFor, LevelForEffort, DefaultEffort, ShareOf, ParseEffort, TakesLevel, NormalizeIntent, Reported;
    NormalizeIsIdempotent(intent);
    LevelIsTaken(model, Minimal);
    var n := NormalizeIntent(intent);
    if n.Ok? {
      var i := n.value.intent;
      LevelIsTaken(model, i.effort);
      if i.budget.Some? {
        LevelIsTaken(model, EffortFromBudget(i.budget.value));
      }
    }
  }

  /** The accounting label is that of whatever is in the config. */
  predicate LabelFits(config: Option<Config>, shown: Effort) {
    config.Some? ==>
      && (config.value.budget.Some? ==> shown == EffortFromBudget(config.value.budget.value))
      && (config.value.level != NoEffort ==> shown == config.value.level)
  }

  lemma RenderLabelFits(model: string, intent: Intent, maxOutputTokens: Option<nat>, percentage: real)
    ensures var out := RenderGemini(model, intent, maxOutputTokens, percentage);
            out.Ok? ==> LabelFits(out.value.config, out.value.effort)
  {
    hide CapabilitiesFor, LevelForEffort, DefaultEffort, ShareOf, ParseEffort, NormalizeIntent, Reported, Clamp;
    NormalizeIsIdempotent(intent);
  }

  /** Rewriting for a known model labels what it leaves. */
  lemma NormalizeLabelFits(model: string, config: Option<Config>)
    requires CapabilitiesFor(model).kind in {Budget, Level} && Normalize(model, config).error.None?
    ensures LabelFits(Normalize(model, config).config, Normalize(model, config).effort)
  {
    hide CapabilitiesFor, LevelForEffort, FromGemini, EffectiveEffort, FitBudget, EffortFromBudget, Reported;
  }

  /** An effort turned into a budget reads back as itself exactly if it is one of the efforts that
      budgets are read as. */
  lemma EffortSurvivesBudget(effort: Effort)
    ensures EffortFromBudget(BudgetForEffort(effort)) == effort <==> effort in {EffortNone, Low, Medium, High}
  {
  }

  /** Rewriting that succeeds leaves a config in the dialect of the model. */
  lemma NormalizeIsNative(model: string, config: Option<Config>)
    ensures Normalize(model, config).error.None? ==> InDialect(model, Normalize(model, config).config)
  {
    hide CapabilitiesFor, LevelForEffort, ParseEffort, TakesLevel, NormalizeIntent, Reported, EffectiveEffort,
         FitBudget, TakesBudget;
    var c := CapabilitiesFor(model);
    forall b: int | c.kind == Budget ensures TakesBudget(c, FitBudget(b, c)) {
      FitBudgetIsTaken(b, model);
    }
    forall e: Effort | LevelForEffort(model, e).Ok? ensures TakesLevel(model, LevelForEffort(model, e).value) {
      LevelIsTaken(model, e);
    }
  }

  /** The reports the intent of a native config gives rise to: only about a budget below -1. */
  lemma ReadReports(config: Config)
    requires config.budget.None? || config.level == NoEffort
    ensures FromGemini(config).Ok? <==> config.level == NoEffort || ParseEffort(config.level).Ok?
    ensures FromGemini(config).Ok? ==>
              && (FromGemini(config).value.diagnostics == [] <==> config.budget.None? || config.budget.value >= -1)
              && (config.level != NoEffort ==>
                    FromGemini(config).value.intent.effort == ParseEffort(config.level).value)
              && (config.budget.None? && config.level == NoEffort ==>
                    EffectiveEffort(FromGemini(config).value.intent) == NoEffort)
  {
    hide ParseEffort;
  }

  /** Level words the program does not know. */
  predicate Strange(level: Effort) { level != NoEffort && ParseEffort(level).Err? }

  /** Blanks: a word that is read as no level at all. */
  predicate Blank(level: Effort) { level != NoEffort && ParseEffort(level) == Ok(NoEffort) }

  /** The models whose level table has an entry for everything. */
  predicate TakesAnyLevel(model: string) {
    var model := Text.Lower(model);
    || HasPrefix(model, "gemini-3.1-flash-image") || HasPrefix(model, "gemini-3.1-flash-lite-image")
    || (HasPrefix(model, "gemini-3-pro") && !HasPrefix(model, "gemini-3.1-pro"))
  }

  /** The error of a rewriting that fails, None if it does not. */
  function Failure(model: string, config: Config): Option<Error> {
    var both := config.budget.Some? && config.level != NoEffort;
    match CapabilitiesFor(model).kind
    case NotConfigurable => None
    case Unknown =>
      if both then Some(BudgetAndLevel)
      else if Strange(config.level) then Some(ParseEffort(config.level).error) else None
    case Budget => if !both && Strange(config.level) then Some(ParseEffort(config.level).error) else None
    case Level =>
      if Strange(config.level) then Some(ParseEffort(config.level).error)
      else if Blank(config.level) && !TakesAnyLevel(model) then Some(UnsupportedEffort(NoEffort)) else None
  }

  /** Rewriting fails exactly on a level word nobody knows, on a budget and a level together for a
      model that is not in the table, and on a blank level for a model whose levels do not cover it;
      a level that comes with a budget for a model that takes budgets is dropped unread. */
  lemma NormalizeFails(model: string, config: Option<Config>)
    ensures Normalize(model, config).error == if config.Some? then Failure(model, config.value) else None
  {
    hide CapabilitiesFor, LevelForEffort, ParseEffort, FromGemini, EffectiveEffort, Reported, EffortFromBudget,
         TakesAnyLevel;
    if config.Some? {
      var cfg := config.value;
      ReadFails(cfg);
      ReadFails(cfg.(level := NoEffort));
      ReadFails(cfg.(budget := None));
      NoWordIsKnown();
      if !Strange(cfg.level) && cfg.level != NoEffort {
        ReadReports(cfg.(budget := None));
        if ParseEffort(cfg.level) != Ok(EffortNone) { LevelsAreKnown(model, ParseEffort(cfg.level).value); }
      }
    }
  }

  lemma ReadFails(config: Config)
    ensures FromGemini(config).Err? <==> (config.budget.Some? && config.level != NoEffort) || Strange(config.level)
    ensures FromGemini(config).Err? ==>
              FromGemini(config).error == if config.budget.Some? && config.level != NoEffort then BudgetAndLevel
                                          else ParseEffort(config.level).error
  {
    hide ParseEffort;
    NoWordIsKnown();
  }

  lemma NoWordIsKnown()
    ensures ParseEffort(NoEffort).Ok? && ParseEffort(NoEffort).value == NoEffort
    ensures forall e: Effort :: ParseEffort(e).Ok? ==> ParseEffort(ParseEffort(e).value) == ParseEffort(e)
  {
  }

  /** Any effort but none is some level of any model. */
  lemma LevelsAreKnown(model: string, effort: Effort)
    requires !effort.Spelled? && effort != EffortNone
    ensures if effort == NoEffort && !TakesAnyLevel(model)
            then LevelForEffort(model, effort) == Err(UnsupportedEffort(NoEffort))
            else LevelForEffort(model, effort).Ok?
  {
    hide HasPrefix, Text.Lower;
  }

  /** Rewriting a config that is native to its model changes nothing, and reports nothing unless
      the model is unknown and the budget below -1. */
  lemma NativeIsFixpoint(model: string, config: Option<Config>)
    requires InDialect(model, config)
    ensures var again := Normalize(model, config);
            && again.error.None? && again.config == config
            && (again.diagnostics == [] <==> !BelowDynamic(model, config))
  {
    hide CapabilitiesFor, LevelForEffort, FromGemini, EffectiveEffort, ParseEffort, EffortFromBudget;
    if config.Some? {
      var cfg := config.value;
      var c := CapabilitiesFor(model);
      if c.kind != NotConfigurable {
        if c.kind != Unknown && cfg.level != NoEffort {
          KnownLevel(cfg.level);
        }
        ReadReports(cfg);
      }
    }
  }

  lemma KnownLevel(level: Effort)
    requires level in {Minimal, Low, Medium, High}
    ensures ParseEffort(level) == Ok(level)
  {
  }

  /** The one config that is reported on every time: a budget below -1 for a model that is not in
      the table, which is left as it is. */
  predicate BelowDynamic(model: string, config: Option<Config>) {
    CapabilitiesFor(model).kind == Unknown && config.Some? && config.value.budget.Some?
      && config.value.budget.value < -1
  }

  lemma NativeLabel(model: string, config: Option<Config>)
    requires Normalize(model, config).error.None?
    ensures Normalize(model, Normalize(model, config).config).effort == Normalize(model, config).effort
  {
    hide CapabilitiesFor, LevelForEffort, FromGemini, ParseEffort, EffectiveEffort, TakesLevel, EffortFromBudget,
         Reported;
    var once := Normalize(model, config);
    NormalizeIsNative(model, config);
    NativeIsFixpoint(model, once.config);
    if config.Some? && once.config.Some? {
      var c := CapabilitiesFor(model);
      var cfg := once.config.value;
      if c.kind == Budget || c.kind == Level {
        ReadReports(cfg);
        ReadReports(if c.kind == Budget then config.value.(level := NoEffort) else config.value.(budget := None));
        ReadReports(config.value.(level := NoEffort));
        ReadReports(config.value.(budget := None));
        if cfg.level != NoEffort {
          TakenLevel(model, cfg.level);
        }
      }
    }
  }

  lemma TakenLevel(model: string, level: Effort)
    requires TakesLevel(model, level)
    ensures LevelForEffort(model, level) == Ok(level) && ParseEffort(level) == Ok(level) && level != EffortNone
  {
    hide LevelForEffort;
  }

  /** Rewriting is idempotent: a second time it changes neither the config nor the label, and it
      reports nothing more exactly when the config is not one for an unknown model with a budget
      below -1. */
  lemma RewritingIsIdempotent(model: string, config: Option<Config>)
    requires Normalize(model, config).error.None?
    ensures var once := Normalize(model, config);
            var twice := Normalize(model, once.config);
            && twice.error.None? && twice.config == once.config && twice.effort == once.effort
            && (twice.diagnostics == [] <==> !BelowDynamic(model, config))
  {
    hide CapabilitiesFor, FromGemini, EffectiveEffort, LevelForEffort, NormalizeBudget, NormalizeLevel,
         NormalizeNotConfigurable;
    NormalizeIsNative(model, config);
    NativeIsFixpoint(model, Normalize(model, config).config);
    NativeLabel(model, config);
  }

  /** "No further diagnostics" fails: this config is reported on again and again. */
  lemma ReportedAgain()
    ensures var config := Some(Config(None, Some(-2), NoEffort));
            var once := Normalize("m", config);
            && once.error.None? && once.config == config
            && Normalize("m", once.config).diagnostics == [FromIntent(BudgetAdjusted(-2))]
  {
    hide Text.Lower;
    UnknownModel();
    var config := Config(None, Some(-2), NoEffort);
    assert FromGemini(config).value.diagnostics == [BudgetAdjusted(-2)];
  }

  lemma UnknownModel()
    ensures CapabilitiesFor("m").kind == Unknown
  {
    assert Text.Lower("m") == "m";
  }

  /** What is rendered is not touched again on its way out. */
  lemma RenderedStays(model: string, intent: Intent, maxOutputTokens: Option<nat>, percentage: real)
    ensures var out := RenderGemini(model, intent, maxOutputTokens, percentage);
            out.Ok? ==>
              var again := Normalize(model, out.value.config);
              again.error.None? && again.config == out.value.config && again.diagnostics == []
  {
    hide CapabilitiesFor, Normalize, InDialect;
    RenderIsNative(model, intent, maxOutputTokens, percentage);
    var out := RenderGemini(model, intent, maxOutputTokens, percentage);
    if out.Ok? {
      NativeIsFixpoint(model, out.value.config);
    }
  }

  // ---- the config on the heap -------------------------------------------------------------

  class ThinkingConfig {
    var includeThoughts: Option<bool>
    var thinkingBudget: Option<int>
    var thinkingLevel: Effort

    function View(): Config
      reads this
    {
      Config(includeThoughts, thinkingBudget, thinkingLevel)
    }
  }

  class GenerationConfig {
    var thinkingConfig: ThinkingConfig?

    function View(): Option<Config>
      reads this, thinkingConfig
    {
      if thinkingConfig == null then None else Some(thinkingConfig.View())
    }
  }

  method NormalizeGeminiThinkingConfig(model: string, generation: GenerationConfig)
    returns (effort: Effort, diagnostics: seq<GeminiDiagnostic>, error: Option<Error>)
    modifies generation, generation.thinkingConfig
    ensures generation.thinkingConfig == null || generation.thinkingConfig == old(generation.thinkingConfig)
    ensures Rewritten(generation.View(), effort, diagnostics, error) == Normalize(model, old(generation.View()))
  {
    hide CapabilitiesFor, FromGemini, EffectiveEffort, LevelForEffort, Reported, BudgetForEffort, Clamp;
    effort, diagnostics, error := NoEffort, [], None;
    var config := generation.thinkingConfig;
    if config == null {
      return;
    }
    var c := CapabilitiesFor(model);
    if config.thinkingBudget.Some? && config.thinkingLevel != NoEffort {
      if c.kind == Budget {
        diagnostics := [BudgetLevelConflict];
        config.thinkingLevel := NoEffort;
      } else if c.kind == Level {
        diagnostics := [BudgetLevelConflict];
        config.thinkingBudget := None;
      }
    }
    if c.kind == NotConfigurable {
      if config.thinkingBudget.Some? || config.thinkingLevel != NoEffort
         || (config.includeThoughts.Some? && !c.supportsVisible) {
        diagnostics := diagnostics + [ThinkingUnsupported];
      }
      if !c.supportsVisible || config.includeThoughts.None? {
        generation.thinkingConfig := null;
        return;
      }
      config.thinkingBudget := None;
      config.thinkingLevel := NoEffort;
      effort := High;
      return;
    }
    var read := FromGemini(config.View());
    if read.Err? {
      error := Some(read.error);
      return;
    }
    var intent := read.value.intent;
    diagnostics := diagnostics + Reported(read.value.diagnostics);
    if c.kind == Unknown {
      effort := EffectiveEffort(intent);
      return;
    }
    if c.kind == Budget {
      if config.thinkingLevel != NoEffort {
        diagnostics := diagnostics + [LevelToBudget(config.thinkingLevel)];
        config.thinkingLevel := NoEffort;
        config.thinkingBudget := Some(BudgetForEffort(intent.effort));
      }
      if config.thinkingBudget.None? {
        effort := EffectiveEffort(intent);
        return;
      }
      var budget := config.thinkingBudget.value;
      if budget < -1 {
        budget := -1;
      } else if budget == 0 && !c.supportsDisable {
        diagnostics := diagnostics + [DisableUnsupported];
        budget := c.minBudget;
      } else if budget != 0 && budget != -1 {
        var clamped := Clamp(budget, c);
        if clamped != budget {
          diagnostics := diagnostics + [BudgetClamped(budget, clamped)];
          budget := clamped;
        }
      }
      config.thinkingBudget := Some(budget);
      effort := EffortFromBudget(budget);
      return;
    }
    if config.thinkingBudget.Some? {
      var budget := config.thinkingBudget.value;
      config.thinkingBudget := None;
      if budget == 0 {
        var level := LevelForEffort(model, Minimal).value;
        diagnostics := diagnostics + [DisableUnsupported];
        config.thinkingLevel := level;
        effort := level;
        return;
      }
      var level := LevelForEffort(model, EffortFromBudget(budget)).value;
      diagnostics := diagnostics + [BudgetToLevel(budget)];
      config.thinkingLevel := level;
      effort := level;
      return;
    }
    if config.thinkingLevel == NoEffort {
      return;
    }
    if intent.effort == EffortNone {
      var level := LevelForEffort(model, Minimal).value;
      diagnostics := diagnostics + [DisableUnsupported];
      config.thinkingLevel := level;
      effort := level;
      return;
    }
    var level := LevelForEffort(model, intent.effort);
    if level.Err? {
      error := Some(level.error);
      return;
    }
    if level.value != intent.effort {
      diagnostics := diagnostics + [LevelAdjusted(config.thinkingLevel, level.value)];
    }
    config.thinkingLevel := level.value;
    effort := level.value;
  }
}
