/**
 * The records the scheduler passes around: scripts (which double as plans and
 * as worker events), sampling blocks, settings, and the failures the rules raise.
 */
module Records {

  import opened Base
  import opened Js

  /** The class of an exception: `TaskError`, `FunctionError`, a plain `Error`, or a `TypeError` from the runtime. */
  datatype ErrorKind = TaskError | FunctionError | PlainError | TypeError

  /** Which rule failed, with the values that made it fail. */
  datatype Rule =
    | InvalidMode(mode: string)
    | ModeNotString(value: JsValue)
    | BadSize(value: JsValue)
    | BadAveragePause(value: JsValue)
    | BadPauseVariance(value: JsValue)
    | BadErrorBudget(value: JsValue)
    | BadWarningThreshold(value: JsValue)
    | BudgetNeverExercised(totalSamples: real, errorBudget: real)
    | VarianceExceedsAverage(pauseVariance: real, averagePause: real)
    | PauseExceedsDuration(averagePause: real, pauseVariance: real, totalSamples: real, maxScriptDurationInSeconds: real)
    | MissingPhases
    | DurationNotPositive(durationInSeconds: real)
    | DurationExceedsLimit(durationInSeconds: real, maxScriptDurationInSeconds: real)
    | RateNotPositive(requestsPerSecond: real)
    | RateExceedsLimit(requestsPerSecond: real, maxScriptRequestsPerSecond: real)
    | SplitNotObject(split: JsValue)
    | SettingOutOfBounds(setting: string, value: JsValue, minimum: real, maximum: real)
    | NoExecutableContent(script: Script)
    | NotAFunction(name: string)
    | ReadOfUndefined(property: string)

  /** A thrown (or rejected) error: its kind and the rule behind it. */
  datatype Failure = Failure(kind: ErrorKind, rule: Rule)

  /** A sampling block with all five fields present, as the default merge builds it. */
  datatype SamplingBlock = SamplingBlock(
    size: JsValue,
    averagePause: JsValue,
    pauseVariance: JsValue,
    errorBudget: JsValue,
    warningThreshold: JsValue)

  /** A `sampling` object as a script carries it: a field is `None` when its key is absent. */
  datatype Overrides = Overrides(
    size: Option<JsValue>,
    averagePause: Option<JsValue>,
    pauseVariance: Option<JsValue>,
    errorBudget: Option<JsValue>,
    warningThreshold: Option<JsValue>)

  const NoOverrides := Overrides(None, None, None, None, None)

  /** A block as a script's `sampling` object: every key present. */
  function Populated(b: SamplingBlock): (o: Overrides)
    ensures o.size.Some? && o.averagePause.Some? && o.pauseVariance.Some?
    ensures o.errorBudget.Some? && o.warningThreshold.Some?
  {
    Overrides(Some(b.size), Some(b.averagePause), Some(b.pauseVariance), Some(b.errorBudget), Some(b.warningThreshold))
  }

  /** Reading the five keys of a `sampling` object; an absent key reads as `undefined`. */
  function Read(o: Overrides): (b: SamplingBlock)
    ensures o.size.Some? ==> b.size == o.size.value
    ensures o.size.None? ==> b.size == Undefined
  {
    SamplingBlock(
      o.size.GetOr(Undefined),
      o.averagePause.GetOr(Undefined),
      o.pauseVariance.GetOr(Undefined),
      o.errorBudget.GetOr(Undefined),
      o.warningThreshold.GetOr(Undefined))
  }

  /** A phase of `config.phases`: an opaque JSON object, read only by the planner. */
  datatype Phase = Phase(fields: map<string, JsValue>)

  /**
   * A load-test script. The same record serves as a plan and as the event a
   * worker receives, so it also holds the underscore fields the scheduler sets.
   */
  datatype Script = Script(
    mode: JsValue,                  // `mode`; `Undefined` when absent
    scenarios: Option<nat>,         // the length of `scenarios`, `None` when it is absent
    sampling: Option<Overrides>,    // `sampling`, `None` when it is absent or falsy
    phases: Option<seq<Phase>>,     // `config.phases`, `None` unless `config` is present and `phases` an array
    start: Option<real>,            // `_start`, the plan's absolute start time in milliseconds
    invokeType: JsValue,            // `_invokeType`, handed to the worker-spawn collaborator
    simulation: bool,               // truthiness of `_simulation`
    split: JsValue)                 // `_split`, the user's splitting settings

  /** A per-mode sampling default table (`DefaultSize`, ...). Only the generic table has a warning threshold. */
  datatype Table = Table(
    defaultSize: real,
    defaultAveragePause: real,
    defaultPauseVariance: real,
    defaultErrorBudget: real,
    defaultWarningThreshold: Option<real>)

  /**
   * `Object.assign({ defaults from the table }, script.sampling || {})`: per
   * field, a value the user supplied wins; otherwise the table's default
   * applies, and the warning threshold's default is the one given.
   */
  function Merge(t: Table, warningThreshold: real, user: Option<Overrides>): (b: SamplingBlock)
    ensures user.Some? && user.value.size.Some? ==> b.size == user.value.size.value
    ensures user.None? || user.value.size.None? ==> b.size == Num(t.defaultSize)
    ensures user.Some? && user.value.averagePause.Some? ==> b.averagePause == user.value.averagePause.value
    ensures user.None? || user.value.averagePause.None? ==> b.averagePause == Num(t.defaultAveragePause)
    ensures user.Some? && user.value.pauseVariance.Some? ==> b.pauseVariance == user.value.pauseVariance.value
    ensures user.None? || user.value.pauseVariance.None? ==> b.pauseVariance == Num(t.defaultPauseVariance)
    ensures user.Some? && user.value.errorBudget.Some? ==> b.errorBudget == user.value.errorBudget.value
    ensures user.None? || user.value.errorBudget.None? ==> b.errorBudget == Num(t.defaultErrorBudget)
    ensures user.Some? && user.value.warningThreshold.Some? ==> b.warningThreshold == user.value.warningThreshold.value
    ensures user.None? || user.value.warningThreshold.None? ==> b.warningThreshold == Num(warningThreshold)
  {
    var o := user.GetOr(NoOverrides);
    SamplingBlock(
      o.size.GetOr(Num(t.defaultSize)),
      o.averagePause.GetOr(Num(t.defaultAveragePause)),
      o.pauseVariance.GetOr(Num(t.defaultPauseVariance)),
      o.errorBudget.GetOr(Num(t.defaultErrorBudget)),
      o.warningThreshold.GetOr(Num(warningThreshold)))
  }

  /** Merging is idempotent: a merged block fed back in as the user's block merges to itself. */
  lemma MergeIdempotent(t: Table, w: real, user: Option<Overrides>)
    ensures Merge(t, w, Some(Populated(Merge(t, w, user)))) == Merge(t, w, user)
  {
  }

  /** Reading back a populated block gives the block. */
  lemma ReadPopulated(b: SamplingBlock)
    ensures Read(Populated(b)) == b
  {
  }

  /** The resolved splitting ceilings (from the function layer), one number per key. */
  datatype FuncSettings = FuncSettings(
    maxChunkDurationInSeconds: real,
    maxScriptDurationInSeconds: real,
    maxChunkRequestsPerSecond: real,
    maxScriptRequestsPerSecond: real,
    timeBufferInMilliseconds: real)

  /** The task layer's settings: the sampling block for the script's mode. */
  datatype TaskSettings = TaskSettings(sampling: SamplingBlock)

  /** The alert module, attached to the settings for monitoring mode. */
  datatype Alert = AlertModule

  /** The settings of one invocation: the function layer's ceilings plus `alert` and `task`. */
  datatype Settings = Settings(func: FuncSettings, alert: Alert, task: TaskSettings)

  /** A validator's verdict: `Ok(warn)`, where `warn` says the advisory warning was emitted, or the failure thrown. */
  type Verdict = Result<bool, Failure>

  /** A check that either returns normally or throws. */
  type Check = Result<(), Failure>

  /**
   * The planner's functions, which live in modules not part of this model; the
   * rules here treat them as given functions.
   */
  datatype Planner = Planner(
    scriptDurationInSeconds: Script -> real,
    scriptRequestsPerSecond: Script -> real,
    planSamples: (real, Script, Settings) -> seq<Script>,
    planPerformance: (real, Script, Settings) -> seq<Script>)
}
