/**
 * The task layer's validator (lib/lambda/taskValid.js): the mode-token check,
 * the sampling checks (with their accept-but-warn outcome) and the performance
 * phase checks. Each is a guard chain in source order; the first failing guard
 * is the one reported.
 */
module TaskValid {

  import opened Base
  import opened Js
  import opened Records
  import opened TaskDef

  /**
   * `validateSciptMode`: the lower-cased mode must be one of the six tokens.
   * A mode that is not a string has no `toLocaleLowerCase`, a `TypeError`.
   */
  function ValidateSciptMode(script: Script): (r: Check)
    ensures r.Ok? <==> script.mode.Str? && Lower(script.mode.s) in ModeTokens
    ensures r.Err? && script.mode.Str? ==> r.error == Failure(TaskError, InvalidMode(script.mode.s))
    ensures r.Err? && !script.mode.Str? ==> r.error.kind == TypeError
  {
    match script.mode
    case Str(m) =>
      if Lower(m) in ModeTokens then Ok(()) else Err(Failure(TaskError, InvalidMode(m)))
    case _ => Err(Failure(TypeError, ModeNotString(script.mode)))
  }

  /** Every mode the classification predicates recognise passes the mode check. */
  lemma RecognisedModesPass(script: Script)
    requires IsAcceptanceScript(script) || IsMonitoringScript(script) || (Truthy(script.mode) && IsPerformanceScript(script))
    ensures ValidateSciptMode(script).Ok?
  {
    var m := script.mode.s;
    assert m in ModeTokens;
    LowerOfLower(m);
  }

  /** Upper-case tokens pass the mode check although no mode predicate recognises them. */
  lemma UpperCaseModePasses(script: Script)
    requires script.mode == Str("ACC") || script.mode == Str("MON")
    ensures ValidateSciptMode(script).Ok?
    ensures !IsSamplingScript(script) && !IsPerformanceScript(script)
  {
    var m := script.mode.s;
    var l := Lower(m);
    assert |l| == 3 && l[0] == LowerChar(m[0]) && l[1] == LowerChar(m[1]) && l[2] == LowerChar(m[2]);
    if m == "ACC" {
      assert l == ACC;
    } else {
      assert l == MON;
    }
    assert l in ModeTokens;
  }

  predicate PositiveNumber(v: JsValue) { v.Num? && v.n > 0.0 }
  predicate NonNegativeNumber(v: JsValue) { v.Num? && v.n >= 0.0 }
  predicate Fraction(v: JsValue) { v.Num? && 0.0 < v.n <= 1.0 }

  /** The type and range conditions on the five fields, all at once. */
  predicate FieldsWellFormed(b: SamplingBlock) {
    && PositiveNumber(b.size)
    && PositiveNumber(b.averagePause)
    && NonNegativeNumber(b.pauseVariance)
    && NonNegativeNumber(b.errorBudget)
    && Fraction(b.warningThreshold)
  }

  /** Every field condition the block violates, in check order: the reference the chain is proved against. */
  function FieldViolations(b: SamplingBlock): seq<Rule> {
    (if PositiveNumber(b.size) then [] else [BadSize(b.size)])
    + (if PositiveNumber(b.averagePause) then [] else [BadAveragePause(b.averagePause)])
    + (if NonNegativeNumber(b.pauseVariance) then [] else [BadPauseVariance(b.pauseVariance)])
    + (if NonNegativeNumber(b.errorBudget) then [] else [BadErrorBudget(b.errorBudget)])
    + (if Fraction(b.warningThreshold) then [] else [BadWarningThreshold(b.warningThreshold)])
  }

  /**
   * The per-field guard chain: size > 0, averagePause > 0, pauseVariance >= 0,
   * errorBudget >= 0, 0 < warningThreshold <= 1, each also requiring a number.
   * Only the first violation is reported.
   */
  function FieldChecks(kind: ErrorKind, b: SamplingBlock): (r: Check)
    ensures r.Ok? <==> FieldsWellFormed(b)
    ensures r.Ok? <==> FieldViolations(b) == []
    ensures r.Err? ==> r.error == Failure(kind, FieldViolations(b)[0])
  {
    if !PositiveNumber(b.size) then Err(Failure(kind, BadSize(b.size)))
    else if !PositiveNumber(b.averagePause) then Err(Failure(kind, BadAveragePause(b.averagePause)))
    else if !NonNegativeNumber(b.pauseVariance) then Err(Failure(kind, BadPauseVariance(b.pauseVariance)))
    else if !NonNegativeNumber(b.errorBudget) then Err(Failure(kind, BadErrorBudget(b.errorBudget)))
    else if !Fraction(b.warningThreshold) then Err(Failure(kind, BadWarningThreshold(b.warningThreshold)))
    else Ok(())
  }

  /** `script.scenarios ? script.scenarios.length : 1`: an empty array counts 0. */
  function ScenarioCount(scenarios: Option<nat>): (n: real)
    ensures scenarios.Some? ==> n == scenarios.value as real
    ensures scenarios.None? ==> n == 1.0
  {
    match scenarios
    case Some(k) => k as real
    case None => 1.0
  }

  function TotalSamples(b: SamplingBlock, scenarios: Option<nat>): real
    requires FieldsWellFormed(b)
  {
    b.size.n * ScenarioCount(scenarios)
  }

  /** The worst-case total pause: (averagePause + pauseVariance) * totalSamples. */
  function MostPossiblePause(b: SamplingBlock, scenarios: Option<nat>): real
    requires FieldsWellFormed(b)
  {
    (b.averagePause.n + b.pauseVariance.n) * TotalSamples(b, scenarios)
  }

  /**
   * The relational checks on a well-formed block, then the duration risk: a
   * worst-case pause over the script ceiling fails; over the ceiling times the
   * warning threshold it only warns.
   */
  function RelationChecks(kind: ErrorKind, b: SamplingBlock, scenarios: Option<nat>, maxDuration: real): (r: Verdict)
    requires FieldsWellFormed(b)
    ensures r.Ok? <==> && TotalSamples(b, scenarios) > b.errorBudget.n
                       && b.pauseVariance.n <= b.averagePause.n
                       && MostPossiblePause(b, scenarios) <= maxDuration
    ensures r.Ok? ==> r.value == (MostPossiblePause(b, scenarios) > maxDuration * b.warningThreshold.n)
    ensures r.Err? ==> r.error.kind == kind
  {
    var totalSamples := TotalSamples(b, scenarios);
    if totalSamples <= b.errorBudget.n then
      Err(Failure(kind, BudgetNeverExercised(totalSamples, b.errorBudget.n)))
    else if b.pauseVariance.n > b.averagePause.n then
      Err(Failure(kind, VarianceExceedsAverage(b.pauseVariance.n, b.averagePause.n)))
    else
      var mostPossiblePause := MostPossiblePause(b, scenarios);
      if mostPossiblePause > maxDuration then
        Err(Failure(kind, PauseExceedsDuration(b.averagePause.n, b.pauseVariance.n, totalSamples, maxDuration)))
      else
        Ok(mostPossiblePause > maxDuration * b.warningThreshold.n)
  }

  /** The sampling rules stated declaratively: what an accepted sampling configuration is. */
  predicate SamplingAcceptable(b: SamplingBlock, scenarios: Option<nat>, maxDuration: real) {
    && FieldsWellFormed(b)
    && TotalSamples(b, scenarios) > b.errorBudget.n
    && b.pauseVariance.n <= b.averagePause.n
    && MostPossiblePause(b, scenarios) <= maxDuration
  }

  /**
   * The whole sampling chain: field checks, then relations. It accepts exactly
   * the acceptable configurations, warns exactly when the worst-case pause
   * exceeds the warning fraction of the ceiling, and every failure carries the
   * given kind.
   */
  function SamplingChecks(kind: ErrorKind, b: SamplingBlock, scenarios: Option<nat>, maxDuration: real): (r: Verdict)
    ensures r.Ok? <==> SamplingAcceptable(b, scenarios, maxDuration)
    ensures r.Ok? ==> r.value == (MostPossiblePause(b, scenarios) > maxDuration * b.warningThreshold.n)
    ensures r.Err? ==> r.error.kind == kind
  {
    match FieldChecks(kind, b)
    case Err(e) => Err(e)
    case Ok(_) => RelationChecks(kind, b, scenarios, maxDuration)
  }

  /** A field violation is reported before any relation is looked at, and it is the first one. */
  lemma FieldFailureFirst(kind: ErrorKind, b: SamplingBlock, scenarios: Option<nat>, maxDuration: real)
    requires FieldViolations(b) != []
    ensures SamplingChecks(kind, b, scenarios, maxDuration) == Err(Failure(kind, FieldViolations(b)[0]))
  {
  }

  /** With well-formed fields the budget check fails iff totalSamples <= errorBudget. */
  lemma BudgetRule(kind: ErrorKind, b: SamplingBlock, scenarios: Option<nat>, maxDuration: real)
    requires FieldsWellFormed(b)
    ensures TotalSamples(b, scenarios) <= b.errorBudget.n <==>
      SamplingChecks(kind, b, scenarios, maxDuration) ==
        Err(Failure(kind, BudgetNeverExercised(TotalSamples(b, scenarios), b.errorBudget.n)))
  {
  }

  /** An empty `scenarios` array always fails the budget check, whatever the budget. */
  lemma EmptyScenariosFail(kind: ErrorKind, b: SamplingBlock, maxDuration: real)
    requires FieldsWellFormed(b)
    ensures SamplingChecks(kind, b, Some(0), maxDuration) == Err(Failure(kind, BudgetNeverExercised(0.0, b.errorBudget.n)))
  {
  }

  /** totalSamples == errorBudget + 1 passes the budget check. */
  lemma BudgetBoundaryPasses(kind: ErrorKind, b: SamplingBlock, scenarios: Option<nat>, maxDuration: real)
    requires FieldsWellFormed(b) && TotalSamples(b, scenarios) == b.errorBudget.n + 1.0
    ensures SamplingChecks(kind, b, scenarios, maxDuration).Err? ==>
      SamplingChecks(kind, b, scenarios, maxDuration).error.rule !in
        {BudgetNeverExercised(TotalSamples(b, scenarios), b.errorBudget.n)}
  {
  }

  /** Past the budget check, pauseVariance > averagePause fails and pauseVariance == averagePause passes. */
  lemma VarianceRule(kind: ErrorKind, b: SamplingBlock, scenarios: Option<nat>, maxDuration: real)
    requires FieldsWellFormed(b) && TotalSamples(b, scenarios) > b.errorBudget.n
    ensures b.pauseVariance.n > b.averagePause.n ==>
      SamplingChecks(kind, b, scenarios, maxDuration) ==
        Err(Failure(kind, VarianceExceedsAverage(b.pauseVariance.n, b.averagePause.n)))
    ensures b.pauseVariance.n == b.averagePause.n ==>
      !SamplingChecks(kind, b, scenarios, maxDuration).Err? ||
      !SamplingChecks(kind, b, scenarios, maxDuration).error.rule.VarianceExceedsAverage?
  {
  }

  /** Past the relational checks, the worst-case pause decides: fail, warn only, or silent. */
  lemma PauseRule(kind: ErrorKind, b: SamplingBlock, scenarios: Option<nat>, maxDuration: real)
    requires FieldsWellFormed(b) && TotalSamples(b, scenarios) > b.errorBudget.n
    requires b.pauseVariance.n <= b.averagePause.n
    ensures var p := MostPossiblePause(b, scenarios);
      && (p > maxDuration ==>
            (SamplingChecks(kind, b, scenarios, maxDuration) ==
             Err(Failure(kind, PauseExceedsDuration(b.averagePause.n, b.pauseVariance.n, TotalSamples(b, scenarios), maxDuration)))))
      && (p <= maxDuration && p > maxDuration * b.warningThreshold.n ==> SamplingChecks(kind, b, scenarios, maxDuration) == Ok(true))
      && (p <= maxDuration && p <= maxDuration * b.warningThreshold.n ==> SamplingChecks(kind, b, scenarios, maxDuration) == Ok(false))
  {
  }

  /**
   * The performance checks: a non-empty `config.phases` array, then the
   * planner's total duration in (0, maxScriptDurationInSeconds] and its peak
   * rate in (0, maxScriptRequestsPerSecond], in that order.
   */
  function PerformanceChecks(constraints: Settings, script: Script, planner: Planner): (v: Verdict)
    ensures v.Ok? ==> v.value == false
    ensures v.Ok? <==> && script.phases.Some? && |script.phases.value| > 0
                       && 0.0 < planner.scriptDurationInSeconds(script) <= constraints.func.maxScriptDurationInSeconds
                       && 0.0 < planner.scriptRequestsPerSecond(script) <= constraints.func.maxScriptRequestsPerSecond
    ensures v.Err? ==> v.error.kind == TaskError
    ensures script.phases.None? || script.phases.value == [] ==> v == Err(Failure(TaskError, MissingPhases))
  {
    if !(script.phases.Some? && |script.phases.value| > 0) then
      Err(Failure(TaskError, MissingPhases))
    else
      var duration := planner.scriptDurationInSeconds(script);
      var rate := planner.scriptRequestsPerSecond(script);
      if duration <= 0.0 then Err(Failure(TaskError, DurationNotPositive(duration)))
      else if duration > constraints.func.maxScriptDurationInSeconds then
        Err(Failure(TaskError, DurationExceedsLimit(duration, constraints.func.maxScriptDurationInSeconds)))
      else if rate <= 0.0 then Err(Failure(TaskError, RateNotPositive(rate)))
      else if rate > constraints.func.maxScriptRequestsPerSecond then
        Err(Failure(TaskError, RateExceedsLimit(rate, constraints.func.maxScriptRequestsPerSecond)))
      else Ok(false)
  }

  /** A duration problem is reported before any rate problem. */
  lemma DurationBeforeRate(constraints: Settings, script: Script, planner: Planner)
    requires script.phases.Some? && |script.phases.value| > 0
    requires !(0.0 < planner.scriptDurationInSeconds(script) <= constraints.func.maxScriptDurationInSeconds)
    ensures PerformanceChecks(constraints, script, planner).Err?
    ensures PerformanceChecks(constraints, script, planner).error.rule.DurationNotPositive? ||
            PerformanceChecks(constraints, script, planner).error.rule.DurationExceedsLimit?
  {
  }

  /**
   * `validate`: the mode check when `mode` is truthy, then the sampling chain
   * for sampling scripts, reading the block from `constraints.task.sampling`,
   * or else the performance checks.
   */
  function Validate(constraints: Settings, script: Script, planner: Planner): (r: Verdict)
    ensures Truthy(script.mode) && ValidateSciptMode(script).Err? ==> r == Err(ValidateSciptMode(script).error)
    ensures IsSamplingScript(script) ==>
      (r.Ok? <==> SamplingAcceptable(constraints.task.sampling, script.scenarios, constraints.func.maxScriptDurationInSeconds))
    ensures !IsSamplingScript(script) && (!Truthy(script.mode) || ValidateSciptMode(script).Ok?) ==>
      (r.Ok? <==> && script.phases.Some? && |script.phases.value| > 0
                  && 0.0 < planner.scriptDurationInSeconds(script) <= constraints.func.maxScriptDurationInSeconds
                  && 0.0 < planner.scriptRequestsPerSecond(script) <= constraints.func.maxScriptRequestsPerSecond)
    ensures r.Ok? && !IsSamplingScript(script) ==> r.value == false
    ensures r.Err? ==> r.error.kind == TaskError || (r.error.kind == TypeError && !script.mode.Str?)
  {
    assert IsSamplingScript(script) ==> !Truthy(script.mode) || ValidateSciptMode(script).Ok? by {
      if IsSamplingScript(script) {
        RecognisedModesPass(script);
      }
    }
    if Truthy(script.mode) && ValidateSciptMode(script).Err? then
      Err(ValidateSciptMode(script).error)
    else if IsSamplingScript(script) then
      SamplingChecks(TaskError, constraints.task.sampling, script.scenarios, constraints.func.maxScriptDurationInSeconds)
    else
      PerformanceChecks(constraints, script, planner)
  }

  /** A truthy mode whose lower-cased form is not a token fails with `TaskError`, before anything else. */
  lemma InvalidModeRejected(constraints: Settings, script: Script, planner: Planner)
    requires script.mode.Str? && script.mode.s != "" && Lower(script.mode.s) !in ModeTokens
    ensures Validate(constraints, script, planner) == Err(Failure(TaskError, InvalidMode(script.mode.s)))
  {
  }

  /** Without a mode the mode is not checked: no failure is a mode failure. */
  lemma AbsentModeUnchecked(constraints: Settings, script: Script, planner: Planner)
    requires !Truthy(script.mode)
    ensures Validate(constraints, script, planner) == PerformanceChecks(constraints, script, planner)
  {
  }

  /** Sampling scripts are judged on `constraints.task.sampling`; the script's own `sampling` is not read. */
  lemma SamplingReadFromConstraints(constraints: Settings, script: Script, planner: Planner, other: Option<Overrides>)
    requires IsSamplingScript(script)
    ensures Validate(constraints, script, planner) == Validate(constraints, script.(sampling := other), planner)
    ensures Validate(constraints, script, planner) ==
      SamplingChecks(TaskError, constraints.task.sampling, script.scenarios, constraints.func.maxScriptDurationInSeconds)
  {
    RecognisedModesPass(script);
    RecognisedModesPass(script.(sampling := other));
  }

  /** An upper-case "ACC" passes the mode check and is then validated as a performance script. */
  lemma UpperCaseAccValidatedAsPerformance(constraints: Settings, script: Script, planner: Planner)
    requires script.mode == Str("ACC")
    ensures Validate(constraints, script, planner) == PerformanceChecks(constraints, script, planner)
  {
    UpperCaseModePasses(script);
  }

  /** With a 60 s ceiling, 5 samples of 0.2 +/- 0.1 s pause pass silently; 400 samples fail. */
  lemma SixtySecondExample(kind: ErrorKind)
    ensures SamplingChecks(kind, SamplingBlock(Num(5.0), Num(0.2), Num(0.1), Num(4.0), Num(0.9)), Some(1), 60.0) == Ok(false)
    ensures SamplingChecks(kind, SamplingBlock(Num(400.0), Num(0.2), Num(0.1), Num(4.0), Num(0.9)), Some(1), 60.0) ==
      Err(Failure(kind, PauseExceedsDuration(0.2, 0.1, 400.0, 60.0)))
  {
  }

  /** A property of `impl` (lines 6-118): its two functions, an inherited `Object.prototype` method, or `undefined`. */
  function ImplProperty(name: string): (v: JsValue)
    ensures v.Fn? <==> name in {"validateSciptMode", "validate"} || name in ObjectPrototypeMethods
    ensures !v.Fn? ==> v == Undefined
  {
    if name == "validateSciptMode" || name == "validate" || name in ObjectPrototypeMethods then Fn else Undefined
  }

  /**
   * The own properties of the module's export, the arrow function
   * `impl.validate` (line 120): `length`, `name`, and the property assigned at
   * line 121, copied from `impl.validateScriptMode`.
   */
  function ExportOwnProperties(): (props: map<string, JsValue>)
    ensures props.Keys == {"length", "name", "validateScriptMode"}
  {
    map["length" := Num(2.0), "name" := Str("validate"), "validateScriptMode" := ImplProperty("validateScriptMode")]
  }

  /** Reading a property of the export: an own property, else a method a function inherits, else `undefined`. */
  function ExportProperty(name: string): (v: JsValue)
    ensures name in FunctionPrototypeMethods || name in ObjectPrototypeMethods ==> v.Fn? || name in ExportOwnProperties()
  {
    if name in ExportOwnProperties() then ExportOwnProperties()[name]
    else if name in FunctionPrototypeMethods || name in ObjectPrototypeMethods then Fn
    else Undefined
  }

  /** The export's property `name` can be called. */
  predicate ExportsFunction(name: string) {
    ExportProperty(name).Fn?
  }

  /**
   * The three validators other modules call on the export are all `undefined`:
   * `impl` spells the mode check `validateSciptMode`, so line 121 copies
   * `undefined`, and neither sampling nor performance validator exists.
   * The export is still a function: `call` and `bind` are there.
   */
  lemma CalledValidatorsUndefined(name: string)
    requires name in {"validateScriptMode", "validateSamplingScript", "validatePerformanceScript"}
    ensures ExportProperty(name) == Undefined
    ensures !ExportsFunction(name)
    ensures ExportsFunction("call") && ExportsFunction("bind")
  {
    assert ImplProperty("validateScriptMode") == Undefined;
  }
}
