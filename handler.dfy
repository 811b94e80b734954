/**
 * The invocation handler (lib/lambda/handler.js): settings assembly, the
 * three-way mode classification, the choice of task, and one `handle` call.
 */
module Handler {

  import opened Base
  import opened Js
  import opened Records
  import opened TaskDef
  import TaskValid
  import Task

  /** The classification of lines 18-22: acceptance first, then monitoring, otherwise performance. */
  function Modality(script: Script): (m: string)
    ensures m == ACCEPTANCE <==> IsAcceptanceScript(script)
    ensures m == MONITORING <==> IsMonitoringScript(script)
    ensures m == PERFORMANCE <==> !IsSamplingScript(script)
  {
    if IsAcceptanceScript(script) then ACCEPTANCE
    else if IsMonitoringScript(script) then MONITORING
    else PERFORMANCE
  }

  /** `getScriptModality`, with its mode check read as the guarded check of the task validator. */
  function GetScriptModality(script: Script): (r: Result<string, Failure>)
    ensures r.Err? <==> Truthy(script.mode) && TaskValid.ValidateSciptMode(script).Err?
    ensures r.Err? ==> r.error == TaskValid.ValidateSciptMode(script).error
    ensures r.Ok? ==> r.value == Modality(script)
  {
    if Truthy(script.mode) && TaskValid.ValidateSciptMode(script).Err? then Err(TaskValid.ValidateSciptMode(script).error)
    else Ok(Modality(script))
  }

  /** `getScriptModality` as written: line 16 calls `task.valid.validateScriptMode`, which is `undefined`, so every script throws. */
  function GetScriptModalityAsWritten(script: Script): (r: Result<string, Failure>)
    ensures r == Err(Failure(TypeError, NotAFunction("task.valid.validateScriptMode")))
  {
    TaskValid.CalledValidatorsUndefined("validateScriptMode");
    if TaskValid.ExportsFunction("validateScriptMode") then GetScriptModality(script)
    else Err(Failure(TypeError, NotAFunction("task.valid.validateScriptMode")))
  }

  /** An acceptance script is classified once corrected, but throws as written. */
  lemma ModalityAsWrittenDiffers(script: Script)
    requires script.mode == Str(ACC)
    ensures GetScriptModality(script) == Ok(ACCEPTANCE)
    ensures GetScriptModalityAsWritten(script).Err?
  {
    TaskValid.RecognisedModesPass(script);
  }

  /** A mode that passes the mode check but that no case-sensitive predicate recognises is classified as performance. */
  lemma UpperCaseModeIsPerformance(script: Script)
    requires script.mode == Str("ACC") || script.mode == Str("MON")
    ensures GetScriptModality(script) == Ok(PERFORMANCE)
  {
    TaskValid.UpperCaseModePasses(script);
  }

  /** Every recognised mode is classified as itself: the mode check never interferes. */
  lemma RecognisedModesClassified(script: Script)
    requires IsSamplingScript(script) || IsPerformanceScript(script)
    ensures IsAcceptanceScript(script) ==> GetScriptModality(script) == Ok(ACCEPTANCE)
    ensures IsMonitoringScript(script) ==> GetScriptModality(script) == Ok(MONITORING)
    ensures IsPerformanceScript(script) ==> GetScriptModality(script) == Ok(PERFORMANCE)
  {
    if Truthy(script.mode) {
      TaskValid.RecognisedModesPass(script);
    }
  }

  /** `createArtilleryTask`: the task factory matching the modality, one to one, over the same script. */
  function CreateArtilleryTask(script: Script): (r: Result<Task.ArtilleryTask, Failure>)
    ensures r.Err? <==> GetScriptModality(script).Err?
    ensures r.Err? ==> r.error == GetScriptModality(script).error
    ensures r.Ok? ==> r.value.script == script
    ensures r.Ok? ==> (r.value.AcceptanceTask? <==> IsAcceptanceScript(script))
    ensures r.Ok? ==> (r.value.MonitoringTask? <==> IsMonitoringScript(script))
    ensures r.Ok? ==> (r.value.PerformanceTask? <==> !IsSamplingScript(script))
  {
    match GetScriptModality(script)
    case Err(e) => Err(e)
    case Ok(m) =>
      // `Modality` yields one of the three tokens, so the switch is total.
      if m == ACCEPTANCE then Ok(Task.AcceptanceTask(script))
      else if m == MONITORING then Ok(Task.MonitoringTask(script))
      else Ok(Task.PerformanceTask(script))
  }

  /** The settings object `func.def.getSettings` returns, to which `alert` and `task` are added in place. */
  class SettingsObject {
    var func: FuncSettings
    var alert: Option<Alert>
    var task: Option<TaskSettings>

    constructor (func: FuncSettings)
      ensures this.func == func && alert == None && task == None
    {
      this.func := func;
      alert := None;
      task := None;
    }

    /** The object once both keys are present, as a settings value. */
    function Value(): Settings
      reads this
      requires alert.Some? && task.Some?
    {
      Settings(func, alert.value, task.value)
    }
  }

  /** `getSettings`: keeps the function layer's settings and adds exactly `alert` and `task`. */
  method GetSettings(script: Script, funcSettings: Script -> FuncSettings) returns (settings: SettingsObject)
    ensures fresh(settings)
    ensures settings.func == funcSettings(script)
    ensures settings.alert == Some(AlertModule)
    ensures settings.task == Some(TaskDef.GetSettings(script))
  {
    settings := new SettingsObject(funcSettings(script));
    settings.alert := Some(AlertModule);
    settings.task := Some(TaskDef.GetSettings(script));
  }

  /** The settings value `getSettings` assembles for a script. */
  function SettingsFor(script: Script, funcSettings: Script -> FuncSettings): Settings {
    Settings(funcSettings(script), AlertModule, TaskDef.GetSettings(script))
  }

  /**
   * The specification of `handle`: classify and build the task (a failure is
   * thrown before anything else), then run it with the assembled settings and
   * the one time id `timeNow`.
   */
  function HandleRun(script: Script, timeNow: real, funcSettings: Script -> FuncSettings, planner: Planner,
                     clock: nat -> real, env: Task.Env): (r: Task.Run)
    ensures CreateArtilleryTask(script).Err? ==> r == Task.Run([], Err(CreateArtilleryTask(script).error))
    ensures CreateArtilleryTask(script).Ok? ==>
      r == Task.TaskRun(CreateArtilleryTask(script).value, timeNow, SettingsFor(script, funcSettings), planner, clock, env)
  {
    match CreateArtilleryTask(script)
    case Err(e) => Task.Run([], Err(e))
    case Ok(t) => Task.TaskRun(t, timeNow, SettingsFor(script, funcSettings), planner, clock, env)
  }

  /** `handle` as written: classification always throws, so every invocation fails with a `TypeError` and runs nothing. */
  function HandleRunAsWritten(script: Script, timeNow: real, funcSettings: Script -> FuncSettings, planner: Planner,
                              clock: nat -> real, env: Task.Env): (r: Task.Run)
    ensures r == Task.Run([], Err(Failure(TypeError, NotAFunction("task.valid.validateScriptMode"))))
  {
    match GetScriptModalityAsWritten(script)
    case Err(e) => Task.Run([], Err(e))
    case Ok(_) => HandleRun(script, timeNow, funcSettings, planner, clock, env)
  }

  /** A script without mode or phases is rejected for its phases once corrected, but as written for the mode check. */
  lemma HandleAsWrittenDiffers(script: Script, timeNow: real, funcSettings: Script -> FuncSettings, planner: Planner,
                               clock: nat -> real, env: Task.Env)
    requires !Truthy(script.mode) && script.phases.None?
    ensures HandleRun(script, timeNow, funcSettings, planner, clock, env) == Task.Run([], Err(Failure(TaskError, MissingPhases)))
    ensures HandleRunAsWritten(script, timeNow, funcSettings, planner, clock, env).outcome.error.kind == TypeError
  {
  }

  /**
   * End to end for an acceptance script: it is validated against the
   * acceptance table merged with its own `sampling`, within the function
   * layer's script duration ceiling, and on success its sample plans are run.
   */
  lemma AcceptanceHandledWithAcceptanceTable(script: Script, timeNow: real, funcSettings: Script -> FuncSettings,
                                             planner: Planner, clock: nat -> real, env: Task.Env)
    requires IsAcceptanceScript(script)
    ensures var settings := SettingsFor(script, funcSettings);
      var verdict := TaskValid.SamplingChecks(TaskError, Merge(AcceptanceDefaults, DefaultWarningThreshold, script.sampling),
                                              script.scenarios, funcSettings(script).maxScriptDurationInSeconds);
      var r := HandleRun(script, timeNow, funcSettings, planner, clock, env);
      && (verdict.Err? ==> r == Task.Run([], Err(verdict.error)))
      && (verdict.Ok? ==> r == Task.ExecuteAllRun(script, settings, planner.planSamples(timeNow, script, settings), timeNow, clock, env))
  {
    TaskValid.RecognisedModesPass(script);
  }

  /** `handle`: build the task, assemble the settings in place, and execute with the invocation's time id. */
  method Handle(script: Script, timeNow: real, funcSettings: Script -> FuncSettings, planner: Planner,
                clock: nat -> real, env: Task.Env) returns (run: Task.Run)
    ensures run == HandleRun(script, timeNow, funcSettings, planner, clock, env)
  {
    var artilleryTask := CreateArtilleryTask(script);
    if artilleryTask.Err? {
      return Task.Run([], Err(artilleryTask.error));
    }
    var settings := GetSettings(script, funcSettings);
    run := Task.TaskExecute(artilleryTask.value, timeNow, settings.Value(), planner, clock, env);
  }
}
