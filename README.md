# serverless-artillery scheduler core in Dafny

This project models the decision logic of the serverless-artillery load-test
scheduler (`lib/lambda/`). It covers five parts:

- how an incoming script is classified into acceptance, monitoring or
  performance mode;
- how the per-mode sampling defaults are merged with the user's `sampling`
  block;
- the task, function and sampling validators, each an ordered guard chain;
- how a task's plans are run: one plan in this function, several spread
  over copies of it, none rejected;
- the invocation handler that ties these together.

A validator returns `Ok(warn)` or `Err(Failure(kind, rule))`. Here `kind` is
the thrown error class (`TaskError`, `FunctionError`, plain `Error` or a
JavaScript `TypeError`), and `rule` names the broken rule with the values that
broke it. The advisory warning of the sampling checks is the `warn` flag.

The collaborators are parameters. They are the planner (script duration, peak
rate, sample plans, performance chunks), the load engine, the worker spawn,
the result merge, the function layer's settings and bounds, and the wall
clock. Waits are not performed. A `Step` records how long a branch waits and
which call it then makes.

Modules follow the source files:

- `Base`: `Option`, `Result`.
- `Js`: the JavaScript semantics the code relies on, such as truthiness,
  `Number.isInteger`, NaN-propagating arithmetic and lower-casing. A value
  is `undefined`, `null`, a boolean, a number, a string, an object or a
  function (`Fn`). Reading a property of a module's object is a lookup:
  own properties first, then the inherited `Object.prototype` (and, for a
  function, `Function.prototype`) methods, else `undefined`.
- `Records`: the script, the sampling block, the settings and the errors.
- `TaskDef`: `lib/lambda/taskDef.js`.
- `TaskValid`: `lib/lambda/taskValid.js`.
- `FuncValid`: `lib/lambda/funcValid.js`.
- `Sampling`: `lib/lambda/sampling.js`.
- `Task`: `lib/lambda/task.js`.
- `Handler`: `lib/lambda/handler.js`.

`execute` changes a plan's `_start` in place, so a plan is a class
(`Task.Plan`). `getSettings` in the handler adds keys to an object it was
given, so that object is a class too (`Handler.SettingsObject`). Everything
else is pure in the source and is written as functions.

The model follows the code: an empty `scenarios` array counts as 0
scenarios. The code, `script.scenarios ? script.scenarios.length : 1`, gives
0 because an empty array is truthy. A lower bound of one scenario is not applied. As a result,
sampling with an empty `scenarios` array always fails the error-budget check
(`TaskValid.EmptyScenariosFail`).

## Model

| member | source | states |
|---|---|---|
| TaskDef.IsAcceptanceScript | lib/lambda/taskDef.js:12 | holds iff the mode is exactly the string "acc" or "acceptance" |
| TaskDef.IsMonitoringScript | lib/lambda/taskDef.js:13 | holds iff the mode is exactly the string "mon" or "monitoring" |
| TaskDef.IsPerformanceScript | lib/lambda/taskDef.js:14 | holds for every falsy mode; for a truthy mode, iff it is exactly the string "perf" or "performance" |
| TaskDef.IsSamplingScript | lib/lambda/taskDef.js:15 | holds iff the mode is exactly one of "acc", "acceptance", "mon" and "monitoring"; such a mode is truthy |
| TaskDef.TokensClassifyUniquely | lib/lambda/taskDef.js:3-14 | each of the six tokens satisfies exactly one of the acceptance, monitoring and performance predicates, and the pairs are (acc, acceptance), (mon, monitoring), (perf, performance) |
| TaskDef.NoModeIsPerformance | lib/lambda/taskDef.js:12-15 | a script with no mode or a falsy one is a performance script and not a sampling script |
| TaskDef.SamplingExcludesPerformance | lib/lambda/taskDef.js:14-15 | a sampling script (acceptance or monitoring) is never a performance script |
| TaskDef.UnknownModeMatchesNothing | lib/lambda/taskDef.js:12-14 | matching is exact and case-sensitive: a truthy mode outside the six tokens, such as "ACC", satisfies none of the three predicates |
| TaskDef.DefaultSettings | lib/lambda/taskDef.js:46-52 | per field, the user-supplied value wins; otherwise the mode table's default applies, and the warning threshold defaults to 0.9 from the generic table |
| TaskDef.GetSettings | lib/lambda/taskDef.js:72-83 | the only key is `sampling`; acceptance scripts use the acceptance table, monitoring scripts the monitoring table, every other script the generic table |
| TaskDef.GetSettingsWithoutUserBlock | lib/lambda/taskDef.js:17-35 | with no user block, acceptance gets {1, 0.2, 0.1, 0, 0.9} and every other mode {5, 0.2, 0.1, 4, 0.9} |
| Records.Merge | lib/lambda/taskDef.js:46-52 | `Object.assign` of the user block over the table defaults: for each of the five fields, the user value when supplied, otherwise the table default (or the given threshold) |
| Records.MergeIdempotent | lib/lambda/taskDef.js:46-52 | feeding a merged block back in as the user block gives the same block |
| TaskValid.ValidateSciptMode | lib/lambda/taskValid.js:7-15 | passes iff the mode is a string whose lower-cased form is one of the six tokens; otherwise `TaskError` naming the mode, or `TypeError` for a non-string mode |
| TaskValid.RecognisedModesPass | lib/lambda/taskValid.js:7-15 | every mode the predicates recognise passes the mode check |
| TaskValid.UpperCaseModePasses | lib/lambda/taskValid.js:7-15 | "ACC" and "MON" pass the case-insensitive mode check, but none of the case-sensitive predicates accepts them |
| TaskValid.FieldChecks | lib/lambda/taskValid.js:22-32 | passes iff size > 0, averagePause > 0, pauseVariance >= 0, errorBudget >= 0 and 0 < warningThreshold <= 1, each also a number; otherwise reports the first violation in that order |
| TaskValid.ScenarioCount | lib/lambda/taskValid.js:33 | the scenario count is the length of `scenarios` when the array is present (0 for an empty one), and 1 when it is absent |
| TaskValid.RelationChecks | lib/lambda/taskValid.js:33-86 | on well-formed fields, passes iff totalSamples > errorBudget, pauseVariance <= averagePause and the worst-case pause is within the ceiling; warns iff that pause exceeds ceiling × warningThreshold; failures have the given kind |
| TaskValid.SamplingChecks | lib/lambda/taskValid.js:19-86 | the sampling chain accepts exactly the configurations of the declarative rule `SamplingAcceptable`; it warns iff the worst-case pause exceeds ceiling × warningThreshold; every failure has the given kind |
| TaskValid.FieldFailureFirst | lib/lambda/taskValid.js:22-43 | a field violation is reported before any relational check runs, and it is the first violation in check order |
| TaskValid.BudgetRule | lib/lambda/taskValid.js:33-43 | with well-formed fields, the chain fails with the budget rule iff size × scenarioCount <= errorBudget |
| TaskValid.EmptyScenariosFail | lib/lambda/taskValid.js:33-43 | an empty `scenarios` array always fails the budget check |
| TaskValid.BudgetBoundaryPasses | lib/lambda/taskValid.js:36-43 | totalSamples == errorBudget + 1 does not fail the budget check |
| TaskValid.VarianceRule | lib/lambda/taskValid.js:44-52 | after the budget check, pauseVariance > averagePause fails; pauseVariance == averagePause does not fail the variance check |
| TaskValid.PauseRule | lib/lambda/taskValid.js:54-86 | with P = (averagePause + pauseVariance) × totalSamples: P above the ceiling is a `TaskError`; otherwise P above ceiling × warningThreshold gives Ok(warn) with no error; otherwise Ok(silent) |
| TaskValid.SixtySecondExample | lib/lambda/taskValid.js:54-65 | under a 60 s ceiling, 5 samples with the default pauses pass silently, and 400 samples fail the duration rule |
| TaskValid.PerformanceChecks | lib/lambda/taskValid.js:87-116 | performance checks never warn; they pass iff `config.phases` is a non-empty array and the planner's duration and rate are each in (0, ceiling]; missing phases give the phases error; every failure is a `TaskError` |
| TaskValid.DurationBeforeRate | lib/lambda/taskValid.js:96-114 | a duration problem is reported before any rate problem |
| TaskValid.Validate | lib/lambda/taskValid.js:16-117 | a truthy mode that fails the mode check fails with that error; a sampling script passes iff `constraints.task.sampling` is acceptable; any other script whose mode passes is checked by the performance rules and never warns; every failure is a `TaskError`, or a `TypeError` for a non-string mode |
| TaskValid.InvalidModeRejected | lib/lambda/taskValid.js:16-17 | a non-empty mode whose lower-cased form is not a token fails with `TaskError` before anything else runs |
| TaskValid.AbsentModeUnchecked | lib/lambda/taskValid.js:16-17 | without a truthy mode, no mode check runs and only the performance checks decide |
| TaskValid.SamplingReadFromConstraints | lib/lambda/taskValid.js:19-20 | sampling scripts are checked against `constraints.task.sampling`; changing the script's own `sampling` changes nothing |
| TaskValid.UpperCaseAccValidatedAsPerformance | lib/lambda/taskValid.js:16-19 | "ACC" passes the mode check and is then validated as a performance script |
| TaskValid.CalledValidatorsUndefined | lib/lambda/taskValid.js:120-121 | `validateScriptMode`, `validateSamplingScript` and `validatePerformanceScript`, the three names other modules call on the export, all read as `undefined`; the export itself is a function, so inherited `call` and `bind` are functions |
| FuncValid.CheckBoundedIntegerSetting | lib/lambda/funcValid.js:16-27 | passes iff the setting is falsy (absent or 0), or is an integer within the inclusive bounds; otherwise `FunctionError` naming the setting, its value and its bounds |
| FuncValid.SettingRules | lib/lambda/funcValid.js:29-33 | five distinct settings are checked; chunk duration has the given minimum and the other four have lower bound 1 |
| FuncValid.FirstBroken | lib/lambda/funcValid.js:29-33 | the reference result is None iff every rule is admissible; otherwise it is the first rule whose setting is not admissible |
| FuncValid.ValidateReportsFirstBroken | lib/lambda/funcValid.js:8-34 | once `_split` is acceptable, `validate` returns normally iff every setting is admissible, and otherwise reports the first broken setting in the order chunk duration, script duration, chunk rate, script rate, time buffer |
| FuncValid.Validate | lib/lambda/funcValid.js:8-34 | a truthy `_split` that is not of type object fails with `FunctionError` before any setting is read; every failure is a `FunctionError`; returning normally means all five settings are admissible |
| FuncValid.BoundsInclusive | lib/lambda/funcValid.js:19-25 | both bounds are accepted, 0 and an absent value are accepted unchecked, and a fractional value fails |
| Sampling.DefaultSampling | lib/lambda/sampling.js:24-30 | per field, the user-supplied value wins; otherwise the given mode table's default applies, and the warning threshold defaults to 0.9 from the generic table, for every mode |
| Sampling.SameDefaultsAsTaskDef | lib/lambda/sampling.js:2-22 | the sampling engine's three tables and its merge agree with the task definitions' |
| Sampling.DefaultsWithoutUserBlock | lib/lambda/sampling.js:3-14 | with no user block, acceptance yields {1, 0.2, 0.1, 0, 0.9} and monitoring {5, 0.2, 0.1, 4, 0.9} |
| Sampling.DefaultSamplingIdempotent | lib/lambda/sampling.js:24-30 | feeding `defaultSampling`'s output back in as `script.sampling` returns the same block |
| Sampling.ValidateSampling | lib/lambda/sampling.js:50-111 | corrected check: the task validator's sampling chain, applied to `script.sampling`, throwing plain `Error`; a script without a `sampling` object gives a `TypeError` |
| Sampling.ValidateSamplingAsWritten | lib/lambda/sampling.js:50-134 | as written: with a `sampling` object, only the field checks can reject, and afterwards the result is always Ok with no warning; without one, the first read is a `TypeError` |
| Sampling.CorrectedStricter | lib/lambda/sampling.js:72-111 | wherever the corrected check accepts, the as-written one accepts silently |
| Sampling.AsWrittenMissesBudget | lib/lambda/sampling.js:76-84 | one sample with error budget 5 passes the as-written check, while the corrected check rejects it with the budget rule |
| Sampling.ApplySamplingToScript | lib/lambda/sampling.js:32-38 | on success, the result is the input script with only `sampling` replaced by the applied block; as written it fails iff the field checks reject the applied block, with that error |
| Sampling.ApplySamplingToScriptCorrected | lib/lambda/sampling.js:32-38 | corrected: the same copy, failing iff the whole sampling chain rejects the applied block, with that chain's error |
| Sampling.ApplyAsWrittenMissesBudget | lib/lambda/sampling.js:32-38 | one scenario with the block {1, 0.2, 0.1, 5, 0.9} is installed as written, while the corrected step rejects it with the budget rule |
| Sampling.ApplyAcceptanceSamplingToScript | lib/lambda/sampling.js:40-43 | on success, `sampling` is the acceptance-defaulted block and every other field is unchanged; it fails iff the field checks reject that block |
| Sampling.ApplyMonitoringSamplingToScript | lib/lambda/sampling.js:45-48 | on success, `sampling` is the monitoring-defaulted block and every other field is unchanged; it fails iff the field checks reject that block |
| Sampling.AcceptanceDefaultsAccepted | lib/lambda/sampling.js:40-43 | an acceptance script with no user block and one scenario is accepted under a 60 s ceiling, by the as-written and by the corrected check |
| Task.Delay | lib/lambda/task.js:16-22 | the wait is never negative; it is positive iff ms > 0 (never for NaN), and then it equals ms |
| Task.DefaultStart | lib/lambda/task.js:92-95 | `_start` becomes `timeNow` only when it is falsy; an existing start is never overwritten; no other field changes |
| Task.DefaultStartIdempotent | lib/lambda/task.js:92-95 | with a non-zero time id, a defaulted plan has a start, and defaulting it again changes nothing |
| Task.ExecuteRun | lib/lambda/task.js:91-115 | exactly one engine call, on the start-defaulted plan; a report is wrapped as result(timeNow, sourceEvent, settings, [report]) with the source event rather than the plan; an engine failure is passed on unchanged |
| Task.ExecuteWaitsUntilStart | lib/lambda/task.js:96-97 | the wait before the engine call is `_start - now` (or `timeNow - now` without a start) when positive, and 0 otherwise |
| Task.Execute | lib/lambda/task.js:91-115 | the plan object's new state is the start-defaulted old plan, and the run is `ExecuteRun` on the old plan with the first clock reading |
| Task.InvokeSelf | lib/lambda/task.js:31-53 | after the delay, it handles the event in this function iff `_simulation` is set, and otherwise spawns a worker with the given invocation type |
| Task.InvokeSelfAsWritten | lib/lambda/task.js:31-53 | as written, a simulated invocation makes no call and rejects with a `TypeError` for `impl.handle` after its delay; the spawn branch is identical to the corrected one |
| Task.SimulationAsWrittenRejects | lib/lambda/task.js:33-35 | a simulated invocation whose handling would resolve resolves with that value once corrected, but rejects as written |
| Task.JoinAll | lib/lambda/task.js:76 | the fold succeeds iff every outcome resolved, and then holds all the values in their original order |
| Task.JoinAllFirstFailure | lib/lambda/task.js:76 | a failed fold carries the error of the first rejected outcome |
| Task.PlanInvocation | lib/lambda/task.js:66-70 | the plan is simulated iff `_simulation` is set and otherwise spawned with its own `_invokeType`; it waits max(0, (`_start` - now) - timeBufferInMilliseconds), or not at all without a start |
| Task.PlanOutcomes | lib/lambda/task.js:66-75 | one outcome per plan, in plan order, each that plan's invocation |
| Task.Distribute | lib/lambda/task.js:62-83 | one invocation step per plan, in plan order |
| Task.DistributeInvokesEachPlan | lib/lambda/task.js:66-70 | plan i is invoked with its own `_invokeType` after max(0, (`_start` - now_i) - timeBufferInMilliseconds), or at once without a start |
| Task.DistributeAllOrNothing | lib/lambda/task.js:76-82 | the fan-out resolves iff every invocation resolves, with the merge of their reports in plan order; otherwise it rejects with the error of the first rejected plan in plan order |
| Task.ExecuteAllDispatch | lib/lambda/task.js:116-126 | zero plans reject with "no executable content" naming the script and call nothing; one plan makes exactly one engine call on the defaulted plan and settles to the report wrapped with the script, or to the engine's failure; several plans make one invocation each and no engine call here, and resolve iff every invocation resolves, with the merge of the reports in plan order, else with the first rejected plan's failure |
| Task.ExecuteAllRun | lib/lambda/task.js:116-126 | zero plans reject with "no executable content" naming the script; one plan is `execute` on that plan with the script as source event, one engine call on the defaulted plan, settling to the wrapped report or the engine's failure; several plans are `distribute`, one invocation step per plan in plan order |
| Task.ExecuteAll | lib/lambda/task.js:116-126 | only a lone plan is updated (start defaulted), and the run is the dispatch specification on the old plans |
| Task.TaskRun | lib/lambda/task.js:135-180 | a validation failure is thrown before planning; otherwise the planner's plans (samples for sampling tasks, chunks for performance tasks) go to `executeAll` |
| Task.TaskRunAsWritten | lib/lambda/task.js:135-180 | as written, every task's `execute` fails with a `TypeError` naming the validator it calls, before planning |
| Task.TaskRunAsWrittenDiffers | lib/lambda/task.js:172 | a performance script without mode or phases is rejected for its phases once corrected, but as written with a `TypeError` for `valid.validatePerformanceScript` |
| Task.TaskExecute | lib/lambda/task.js:135-180 | the method builds the plan objects and produces exactly the `TaskRun` specification |
| Handler.Modality | lib/lambda/handler.js:18-22 | acceptance iff the acceptance predicate holds, monitoring iff the monitoring predicate holds, performance iff the script is not a sampling script |
| Handler.GetScriptModality | lib/lambda/handler.js:15-23 | fails iff the mode is truthy and fails the mode check, with that error; otherwise the modality |
| Handler.GetScriptModalityAsWritten | lib/lambda/handler.js:15-23 | as written, classification throws a `TypeError` for `task.valid.validateScriptMode` for every script |
| Handler.ModalityAsWrittenDiffers | lib/lambda/handler.js:15-23 | a script with mode "acc" is classified as acceptance once corrected, but throws as written |
| Handler.UpperCaseModeIsPerformance | lib/lambda/handler.js:18-22 | "ACC" and "MON" are classified as performance |
| Handler.RecognisedModesClassified | lib/lambda/handler.js:15-23 | every recognised mode is classified as itself |
| Handler.CreateArtilleryTask | lib/lambda/handler.js:25-35 | the task kind matches the modality one to one, over the same script; classification failures are passed on |
| Handler.GetSettings | lib/lambda/handler.js:8-13 | keeps the function layer's settings and adds exactly `alert` and `task` = the task definitions' `getSettings(script)` |
| Handler.HandleRun | lib/lambda/handler.js:44-50 | a classification failure is thrown before anything runs; otherwise the task runs with the assembled settings and the one time id |
| Handler.HandleRunAsWritten | lib/lambda/handler.js:44-50 | as written, every invocation fails with a `TypeError` and runs nothing |
| Handler.HandleAsWrittenDiffers | lib/lambda/handler.js:44-50 | a script without mode or phases is rejected for its phases once corrected, but with a `TypeError` as written |
| Handler.AcceptanceHandledWithAcceptanceTable | lib/lambda/handler.js:44-50 | end to end, an acceptance script is checked against the acceptance table merged with its own `sampling` and the function layer's duration ceiling; if that passes, its sample plans are run |
| Handler.Handle | lib/lambda/handler.js:44-50 | the method builds the task, fills the settings object and produces exactly the `HandleRun` specification |

## Left out

- Promise scheduling, `setTimeout` and `Date.now()` are not modelled; they are concurrency and wall-clock I/O. A wait is recorded as a `Step`, and the clock readings are a parameter `clock(i)`. The steps of a fan-out start together. Their order in `Run.steps` is plan order, not time order.
- A synchronous throw and a rejected promise are not distinguished. Both are an `Err` outcome.
- The collaborators are given functions: the artillery engine (`taskExec`), the worker spawn (`func.exec`), the result merge (`taskResult`), the planner (`taskPlan`), and the function layer's `getSettings` and bound constants (`funcDef`). lib/lambda/taskPlan.js, taskResult.js, taskExec.js, funcDef.js and func.js are not part of this model.
- `Task.Env.handle` stands for the top-level handler that a simulated self-invocation should reach. The `func.handle` wrapper of handler.js:54 is not part of this model.
- The alert module is an opaque value, `AlertModule`. Sending alerts is not modelled.
- Console logging, tracing (`_trace`, `_genesis`) and exact error-message text are left out. An error is its kind plus the offending values.
- IEEE-754 rounding in the pause arithmetic is not modelled; numbers are `real`, so for example 0.2 + 0.1 is exact.
- The model's lower-casing (`Js.Lower`) maps ASCII letters only; other letters and locale-specific mappings are left out.
- A script records only what the rules read. `scenarios` is kept as its length. `config.phases` is a sequence of opaque phases. `_split` is a value checked only for type.
- NaN and the infinities are not representable as sampling values or settings; a JSON script cannot carry them. Under `typeof x === 'number'`, NaN would pass every field check.
- The string case of JavaScript's numeric coercion is not modelled; no operand in the modelled rules is a string.
- On the warning path, lib/lambda/taskValid.js:74 reads `script.scenarios.length`, which crashes when `scenarios` is absent. This is not modelled: the warning is still reported as `Ok(true)`. The same read at lib/lambda/sampling.js:121 cannot be reached as written, because line 97 makes the pause NaN and line 111 is then false. Only the corrected `Sampling.ValidateSampling` could reach it, and there it is not modelled either.
- Task.DistributeAllOrNothing: `Promise.all` (lib/lambda/task.js:76) rejects with the first rejection in time. The model has no time order and picks the first rejection in plan order.
- Sampling.ValidateSampling: `sampling == None` stands for every falsy `sampling`. For `undefined` or `null` the first read is a `TypeError`, as modelled. For `0`, `false` or `""`, lib/lambda/sampling.js:52 reads `.size` as `undefined` and throws a plain `Error` instead. The same holds for Sampling.ValidateSamplingAsWritten.
- TaskValid.ExportProperty: reads of the export and of `impl` cover own properties and the string-named methods of `Function.prototype` and `Object.prototype`. Inherited non-function properties (`arguments`, `caller`, `__proto__`) and symbol-keyed ones read as `undefined` in the model.
- The warning-only `console.error` raised when an acceptance or monitoring task has more than one plan (lib/lambda/task.js:142-144, 159-161) is logging and is left out.
- Handler.GetSettings: the object it fills is created fresh. In the source the object comes from the function layer, so any aliasing with that module's state is not captured.
- Task.NewPlans stands for the planner allocating its plan objects. It is a helper and states only that it holds the planner's events in fresh objects.

## Findings

| source | as written | input that shows it | evidently intended | confidence | as-written member | corrected member |
|---|---|---|---|---|---|---|
| lib/lambda/handler.js:16 | calls `task.valid.validateScriptMode`. lib/lambda/taskValid.js:121 exports `impl.validateScriptMode`, but the method is spelt `validateSciptMode` (line 7), so the property is `undefined` and the call throws `TypeError` | any script, e.g. one with mode "acc" | the guarded mode check of lib/lambda/taskValid.js:17, then classification | not executed | Handler.GetScriptModalityAsWritten, Handler.HandleRunAsWritten (Handler.ModalityAsWrittenDiffers, Handler.HandleAsWrittenDiffers) | Handler.GetScriptModality, Handler.HandleRun |
| lib/lambda/task.js:138 | the acceptance and monitoring tasks (lines 138, 155) call `valid.validateSamplingScript`, and the performance task (line 172) calls `valid.validatePerformanceScript`; the module exports only `validate`, with a `validateScriptMode` property that is `undefined`, so every `execute` throws `TypeError` | any task, e.g. a performance task without mode or phases | the single `validate` of lib/lambda/taskValid.js:16, which dispatches on mode itself | not executed | Task.TaskRunAsWritten (Task.TaskRunAsWrittenDiffers) | Task.TaskRun |
| lib/lambda/task.js:35 | the simulation branch calls `impl.handle`, which is not a member of the `impl` object of lib/lambda/task.js, so a simulated self-invocation rejects with `TypeError` after its delay | a plan with `_simulation` set, among two or more plans | the top-level handler, as the comment at lines 24-25 describes | not executed | Task.InvokeSelfAsWritten (Task.SimulationAsWrittenRejects) | Task.InvokeSelf |
| lib/lambda/sampling.js:77 | the relational checks at lines 77, 87 and 97 read `errorBudget`, `pauseVariance` and `averagePause` from the module object `sampling`, not from `script.sampling`; these are `undefined`, so every comparison is false or against NaN, and the budget, variance and duration rules never fire; `applySamplingToScript` (line 36) therefore installs such blocks | sampling {size 1, averagePause 0.2, pauseVariance 0.1, errorBudget 5, warningThreshold 0.9} with one scenario | read `script.sampling`, as the error messages of the same lines do | not executed | Sampling.ValidateSamplingAsWritten, Sampling.ApplySamplingToScript (Sampling.AsWrittenMissesBudget, Sampling.ApplyAsWrittenMissesBudget) | Sampling.ValidateSampling, Sampling.ApplySamplingToScriptCorrected |
