/**
 * The sampling engine (lib/lambda/sampling.js): its own copy of the default
 * tables, the default merge, the copy-then-validate step that installs a
 * sampling block on a script, and its own copy of the sampling checks.
 */
module Sampling {

  import opened Base
  import opened Js
  import opened Records
  import TaskDef
  import TaskValid

  const AcceptanceDefaults := Table(1.0, 0.2, 0.1, 0.0, None)
  const MonitoringDefaults := Table(5.0, 0.2, 0.1, 4.0, None)
  /** The generic `sampling` table, the only one with a warning threshold. */
  const SamplingDefaults := Table(5.0, 0.2, 0.1, 4.0, Some(0.9))

  /** `defaultSampling`: the mode table overridden field by field by `script.sampling`. */
  function DefaultSampling(modeDefaults: Table, script: Script): (b: SamplingBlock)
    ensures var u := script.sampling;
      && b.size == (if u.Some? && u.value.size.Some? then u.value.size.value else Num(modeDefaults.defaultSize))
      && b.averagePause == (if u.Some? && u.value.averagePause.Some? then u.value.averagePause.value
                            else Num(modeDefaults.defaultAveragePause))
      && b.pauseVariance == (if u.Some? && u.value.pauseVariance.Some? then u.value.pauseVariance.value
                             else Num(modeDefaults.defaultPauseVariance))
      && b.errorBudget == (if u.Some? && u.value.errorBudget.Some? then u.value.errorBudget.value
                           else Num(modeDefaults.defaultErrorBudget))
      && b.warningThreshold == (if u.Some? && u.value.warningThreshold.Some? then u.value.warningThreshold.value
                                else Num(0.9))
  {
    Merge(modeDefaults, SamplingDefaults.defaultWarningThreshold.value, script.sampling)
  }

  /** The tables and the merge agree with the task layer's copies in lib/lambda/taskDef.js. */
  lemma SameDefaultsAsTaskDef(script: Script)
    ensures DefaultSampling(AcceptanceDefaults, script) == TaskDef.DefaultSettings(TaskDef.AcceptanceDefaults, script)
    ensures DefaultSampling(MonitoringDefaults, script) == TaskDef.DefaultSettings(TaskDef.MonitoringDefaults, script)
    ensures DefaultSampling(SamplingDefaults, script) == TaskDef.DefaultSettings(TaskDef.SamplingDefaults, script)
  {
  }

  /** With no user block: acceptance {1, 0.2, 0.1, 0, 0.9}; monitoring {5, 0.2, 0.1, 4, 0.9}. */
  lemma DefaultsWithoutUserBlock(script: Script)
    requires script.sampling.None?
    ensures DefaultSampling(AcceptanceDefaults, script) == SamplingBlock(Num(1.0), Num(0.2), Num(0.1), Num(0.0), Num(0.9))
    ensures DefaultSampling(MonitoringDefaults, script) == SamplingBlock(Num(5.0), Num(0.2), Num(0.1), Num(4.0), Num(0.9))
  {
  }

  /** `defaultSampling` is idempotent: its output fed back in as `script.sampling` gives the same block. */
  lemma DefaultSamplingIdempotent(modeDefaults: Table, script: Script)
    ensures var b := DefaultSampling(modeDefaults, script);
      DefaultSampling(modeDefaults, script.(sampling := Some(Populated(b)))) == b
  {
    MergeIdempotent(modeDefaults, 0.9, script.sampling);
  }

  /**
   * `validateSampling` as corrected: the same chain as the task validator,
   * reading `script.sampling`, throwing plain `Error`. A script without a
   * `sampling` object makes the first read a `TypeError`.
   */
  function ValidateSampling(script: Script, settings: Settings): (v: Verdict)
    ensures script.sampling.None? ==> v.Err? && v.error.kind == TypeError
    ensures script.sampling.Some? ==> v == TaskValid.SamplingChecks(PlainError, Read(script.sampling.value),
      script.scenarios, settings.func.maxScriptDurationInSeconds)
  {
    match script.sampling
    case None => Err(Failure(TypeError, ReadOfUndefined("sampling.size")))
    case Some(o) =>
      TaskValid.SamplingChecks(PlainError, Read(o), script.scenarios, settings.func.maxScriptDurationInSeconds)
  }

  /** The keys of the `sampling` module object (lines 1-135): five functions and the tables. */
  const ModuleKeys: set<string> := {"defaults", "defaultSampling", "applySamplingToScript",
    "applyAcceptanceSamplingToScript", "applyMonitoringSamplingToScript", "validateSampling"}

  /**
   * A property of the module object: the `defaults` tables, one of its five
   * functions, an inherited `Object.prototype` method, or `undefined`.
   */
  function ModuleProperty(name: string): (v: JsValue)
    ensures v.Undefined? <==> name !in ModuleKeys && name !in ObjectPrototypeMethods
  {
    if name == "defaults" then Obj
    else if name in ModuleKeys || name in ObjectPrototypeMethods then Fn
    else Undefined
  }

  /**
   * `validateSampling` as written: the field checks read `script.sampling`, but
   * the relational checks of lines 76-111 read `sampling.errorBudget`,
   * `sampling.pauseVariance` and `sampling.averagePause` off the module object.
   */
  function ValidateSamplingAsWritten(script: Script, settings: Settings): (v: Verdict)
    ensures script.sampling.None? ==> v.Err? && v.error.kind == TypeError
    ensures script.sampling.Some? ==>
      var checked := TaskValid.FieldChecks(PlainError, Read(script.sampling.value));
      v == (if checked.Err? then Err(checked.error) else Ok(false))
  {
    assert ModuleProperty("averagePause") == Undefined && ModuleProperty("pauseVariance") == Undefined;
    assert ModuleProperty("errorBudget") == Undefined;
    match script.sampling
    case None => Err(Failure(TypeError, ReadOfUndefined("sampling.size")))
    case Some(o) =>
      var b := Read(o);
      match TaskValid.FieldChecks(PlainError, b)
      case Err(e) => Err(e)
      case Ok(_) =>
        var totalSamples := b.size.n * TaskValid.ScenarioCount(script.scenarios);
        var averagePause := ToNumber(ModuleProperty("averagePause"));
        var pauseVariance := ToNumber(ModuleProperty("pauseVariance"));
        if AtMost(Finite(totalSamples), ToNumber(ModuleProperty("errorBudget"))) then
          Err(Failure(PlainError, BudgetNeverExercised(totalSamples, b.errorBudget.n)))
        else if Greater(pauseVariance, averagePause) then
          Err(Failure(PlainError, VarianceExceedsAverage(b.pauseVariance.n, b.averagePause.n)))
        else
          var mostPossiblePause := Mul(Add(averagePause, pauseVariance), Finite(totalSamples));
          var max := settings.func.maxScriptDurationInSeconds;
          if Greater(mostPossiblePause, Finite(max)) then
            Err(Failure(PlainError, PauseExceedsDuration(b.averagePause.n, b.pauseVariance.n, totalSamples, max)))
          else
            Ok(Greater(mostPossiblePause, Finite(max * b.warningThreshold.n)))
  }

  /** The corrected check rejects only more: wherever it accepts, the as-written one accepts silently. */
  lemma CorrectedStricter(script: Script, settings: Settings)
    requires ValidateSampling(script, settings).Ok?
    ensures ValidateSamplingAsWritten(script, settings) == Ok(false)
  {
  }

  /** A block whose budget can never be exercised (1 sample, budget 5) gets past the as-written check. */
  lemma AsWrittenMissesBudget(script: Script, settings: Settings)
    requires script.sampling == Some(Populated(SamplingBlock(Num(1.0), Num(0.2), Num(0.1), Num(5.0), Num(0.9))))
    requires script.scenarios == Some(1)
    ensures ValidateSamplingAsWritten(script, settings) == Ok(false)
    ensures ValidateSampling(script, settings) == Err(Failure(PlainError, BudgetNeverExercised(1.0, 5.0)))
  {
  }

  /**
   * `applySamplingToScript`: a copy of the script with only `sampling` replaced
   * by the applied block, returned unless `validateSampling` (as written)
   * throws on the copy, which only its field checks can make it do. The input
   * script is a value and stays as it was.
   */
  function ApplySamplingToScript(script: Script, settings: Settings, applied: SamplingBlock): (r: Result<Script, Failure>)
    ensures r.Ok? ==> r.value == script.(sampling := Some(Populated(applied)))
    ensures r.Err? <==> TaskValid.FieldChecks(PlainError, applied).Err?
    ensures r.Err? ==> r.error == TaskValid.FieldChecks(PlainError, applied).error
  {
    var updated := script.(sampling := Some(Populated(applied)));
    ReadPopulated(applied);
    match ValidateSamplingAsWritten(updated, settings)
    case Err(e) => Err(e)
    case Ok(_) => Ok(updated)
  }

  /** `applySamplingToScript` over the corrected `validateSampling`: the copy must pass the whole sampling chain. */
  function ApplySamplingToScriptCorrected(script: Script, settings: Settings, applied: SamplingBlock): (r: Result<Script, Failure>)
    ensures r.Ok? ==> r.value == script.(sampling := Some(Populated(applied)))
    ensures r.Err? <==>
      TaskValid.SamplingChecks(PlainError, applied, script.scenarios, settings.func.maxScriptDurationInSeconds).Err?
    ensures r.Err? ==>
      r.error == TaskValid.SamplingChecks(PlainError, applied, script.scenarios, settings.func.maxScriptDurationInSeconds).error
  {
    var updated := script.(sampling := Some(Populated(applied)));
    ReadPopulated(applied);
    match ValidateSampling(updated, settings)
    case Err(e) => Err(e)
    case Ok(_) => Ok(updated)
  }

  /** As written, a block whose budget can never be exercised is installed; the corrected step rejects it. */
  lemma ApplyAsWrittenMissesBudget(script: Script, settings: Settings)
    requires script.scenarios == Some(1)
    ensures var applied := SamplingBlock(Num(1.0), Num(0.2), Num(0.1), Num(5.0), Num(0.9));
      && ApplySamplingToScript(script, settings, applied) == Ok(script.(sampling := Some(Populated(applied))))
      && ApplySamplingToScriptCorrected(script, settings, applied) == Err(Failure(PlainError, BudgetNeverExercised(1.0, 5.0)))
  {
  }

  /** The acceptance-defaulted copy, checked as written. */
  function ApplyAcceptanceSamplingToScript(script: Script, settings: Settings): (r: Result<Script, Failure>)
    ensures r.Ok? ==> r.value.sampling == Some(Populated(DefaultSampling(AcceptanceDefaults, script)))
    ensures r.Ok? ==> r.value.(sampling := script.sampling) == script
    ensures r.Err? <==> TaskValid.FieldChecks(PlainError, DefaultSampling(AcceptanceDefaults, script)).Err?
  {
    ApplySamplingToScript(script, settings, DefaultSampling(AcceptanceDefaults, script))
  }

  /** The monitoring-defaulted copy, checked as written. */
  function ApplyMonitoringSamplingToScript(script: Script, settings: Settings): (r: Result<Script, Failure>)
    ensures r.Ok? ==> r.value.sampling == Some(Populated(DefaultSampling(MonitoringDefaults, script)))
    ensures r.Ok? ==> r.value.(sampling := script.sampling) == script
    ensures r.Err? <==> TaskValid.FieldChecks(PlainError, DefaultSampling(MonitoringDefaults, script)).Err?
  {
    ApplySamplingToScript(script, settings, DefaultSampling(MonitoringDefaults, script))
  }

  /** An acceptance script with no user block and one scenario is accepted under a 60 s ceiling, as written and corrected. */
  lemma AcceptanceDefaultsAccepted(script: Script, settings: Settings)
    requires script.sampling.None? && script.scenarios == Some(1)
    requires settings.func.maxScriptDurationInSeconds == 60.0
    ensures ApplyAcceptanceSamplingToScript(script, settings).Ok?
    ensures ApplySamplingToScriptCorrected(script, settings, DefaultSampling(AcceptanceDefaults, script)).Ok?
  {
    DefaultsWithoutUserBlock(script);
  }
}
