/**
 * Execution dispatch (lib/lambda/task.js): choosing between in-process
 * execution and fan-out by plan count, defaulting a plan's start in place,
 * the per-plan delay arithmetic, and the all-or-nothing fan-in.
 *
 * Time is explicit: `timeNow` is the invocation's time id and `clock(i)` the
 * i-th reading of the wall clock during one dispatch. The engine, the worker
 * spawn, the recursive top-level handling and the result merge are given
 * functions (`Env`). Waits are recorded, not performed: a `Step` says how long
 * one branch waits and what it then calls. The steps of a fan-out all start at
 * once; their order is plan order, not time order.
 */
module Task {

  import opened Base
  import opened Js
  import opened Records
  import TaskValid

  /** The task objects the three factories build, each closing over its script. */
  datatype ArtilleryTask = AcceptanceTask(script: Script) | MonitoringTask(script: Script) | PerformanceTask(script: Script)

  /** How a promise settles: resolved with a value or rejected with a failure. */
  type Outcome = Result<JsValue, Failure>

  /** An outgoing call: the load engine, the worker spawn, the in-process handler, or a call of a missing function. */
  datatype Call =
    | Engine(timeNow: real, plan: Script)
    | Spawn(event: Script, invocationType: JsValue)
    | SelfHandle(event: Script)
    | Missing(name: string)

  /** One branch of work: wait `wait` milliseconds, then make `call`. */
  datatype Step = Step(wait: real, call: Call)

  /** The branches an execution started and how its promise settles. */
  datatype Run = Run(steps: seq<Step>, outcome: Outcome)

  /** The collaborators: the load engine, the worker spawn, the top-level handler, and the result merge. */
  datatype Env = Env(
    engine: (real, Script) -> Outcome,
    spawn: (Script, JsValue) -> Outcome,
    handle: Script -> Outcome,
    result: (real, Script, Settings, seq<JsValue>) -> JsValue)

  /** `delay(ms)`: waits `ms` only when `ms > 0` (so not for NaN), otherwise resolves at once. */
  function Delay(ms: Number): (waited: real)
    ensures waited >= 0.0
    ensures waited > 0.0 <==> Greater(ms, Finite(0.0))
    ensures waited > 0.0 ==> ms == Finite(waited)
  {
    if Greater(ms, Finite(0.0)) then ms.value else 0.0
  }

  /** `_start` is truthy: present and non-zero. */
  predicate HasStart(plan: Script) {
    plan.start.Some? && plan.start.value != 0.0
  }

  /** Lines 93-95: `_start` becomes `timeNow` only when it is falsy; nothing else changes. */
  function DefaultStart(plan: Script, timeNow: real): (r: Script)
    ensures r.(start := plan.start) == plan
    ensures HasStart(plan) ==> r == plan
    ensures !HasStart(plan) ==> r.start == Some(timeNow)
  {
    if HasStart(plan) then plan else plan.(start := Some(timeNow))
  }

  /** Defaulting the start twice is defaulting it once, whatever the second time id. */
  lemma DefaultStartIdempotent(plan: Script, timeNow: real, later: real)
    requires timeNow != 0.0
    ensures HasStart(DefaultStart(plan, timeNow))
    ensures DefaultStart(DefaultStart(plan, timeNow), later) == DefaultStart(plan, timeNow)
  {
  }

  /**
   * The specification of `execute` on a plan: default its start, wait
   * `_start - now`, run the engine once, and wrap the one report with the
   * source event (not the plan); a failure is passed on unchanged.
   */
  function ExecuteRun(timeNow: real, sourceEvent: Script, settings: Settings, plan: Script, now: real, env: Env): (r: Run)
    ensures |r.steps| == 1
    ensures r.steps[0].call == Engine(timeNow, DefaultStart(plan, timeNow))
    ensures env.engine(timeNow, DefaultStart(plan, timeNow)).Err? ==> r.outcome == env.engine(timeNow, DefaultStart(plan, timeNow))
    ensures env.engine(timeNow, DefaultStart(plan, timeNow)).Ok? ==>
      r.outcome == Ok(env.result(timeNow, sourceEvent, settings, [env.engine(timeNow, DefaultStart(plan, timeNow)).value]))
  {
    var started := DefaultStart(plan, timeNow);
    var step := Step(Delay(Sub(OfOption(started.start), Finite(now))), Engine(timeNow, started));
    match env.engine(timeNow, started)
    case Ok(report) => Run([step], Ok(env.result(timeNow, sourceEvent, settings, [report])))
    case Err(e) => Run([step], Err(e))
  }

  /** The wait before the engine call is `_start - now` when positive: `timeNow - now` for a plan without a start. */
  lemma ExecuteWaitsUntilStart(timeNow: real, sourceEvent: Script, settings: Settings, plan: Script, now: real, env: Env)
    ensures var w := ExecuteRun(timeNow, sourceEvent, settings, plan, now, env).steps[0].wait;
      var s := if HasStart(plan) then plan.start.value else timeNow;
      (s > now ==> w == s - now) && (s <= now ==> w == 0.0)
  {
  }

  /** A plan: the event object that `execute` updates in place. */
  class Plan {
    var event: Script

    constructor (event: Script)
      ensures this.event == event
    {
      this.event := event;
    }
  }

  /** The current contents of a sequence of plan objects. */
  function Events(plans: seq<Plan>): (r: seq<Script>)
    reads plans
    ensures |r| == |plans| && forall i :: 0 <= i < |plans| ==> r[i] == plans[i].event
  {
    if plans == [] then [] else [plans[0].event] + Events(plans[1..])
  }

  /** `execute`: defaults the plan's `_start` in place, then waits and runs it. */
  method Execute(timeNow: real, sourceEvent: Script, settings: Settings, plan: Plan, clock: nat -> real, env: Env)
    returns (run: Run)
    modifies plan
    ensures plan.event == DefaultStart(old(plan.event), timeNow)
    ensures run == ExecuteRun(timeNow, sourceEvent, settings, old(plan.event), clock(0), env)
  {
    if !HasStart(plan.event) {
      plan.event := plan.event.(start := Some(timeNow));
    }
    var timeDelay := Sub(OfOption(plan.event.start), Finite(clock(0)));
    var step := Step(Delay(timeDelay), Engine(timeNow, plan.event));
    var report := env.engine(timeNow, plan.event);
    match report {
      case Ok(r) =>
        run := Run([step], Ok(env.result(timeNow, sourceEvent, settings, [r])));
      case Err(e) =>
        run := Run([step], Err(e));
    }
  }

  /** `invokeSelf`: wait, then handle the event in process when `_simulation` is set, or spawn a worker. */
  function InvokeSelf(timeDelay: Number, event: Script, invocationType: JsValue, env: Env): (r: (Step, Outcome))
    ensures r.0.wait == Delay(timeDelay)
    ensures event.simulation ==> r == (Step(Delay(timeDelay), SelfHandle(event)), env.handle(event))
    ensures !event.simulation ==> r == (Step(Delay(timeDelay), Spawn(event, invocationType)), env.spawn(event, invocationType))
  {
    var wait := Delay(timeDelay);
    if event.simulation then (Step(wait, SelfHandle(event)), env.handle(event))
    else (Step(wait, Spawn(event, invocationType)), env.spawn(event, invocationType))
  }

  /** The members of the `impl` object of task.js (lines 10-127). */
  const ImplMembers: set<string> := {"delay", "invokeSelf", "distribute", "execute", "executeAll"}

  /** A property of `impl`: one of its functions, an inherited `Object.prototype` method, or `undefined`. */
  function ImplProperty(name: string): (v: JsValue)
    ensures v.Fn? <==> name in ImplMembers || name in ObjectPrototypeMethods
    ensures !v.Fn? ==> v == Undefined
  {
    if name in ImplMembers || name in ObjectPrototypeMethods then Fn else Undefined
  }

  /** `invokeSelf` as written: line 35 calls `impl.handle`, which `impl` does not have, so the simulated branch rejects. */
  function InvokeSelfAsWritten(timeDelay: Number, event: Script, invocationType: JsValue, env: Env): (r: (Step, Outcome))
    ensures event.simulation ==>
      r == (Step(Delay(timeDelay), Missing("impl.handle")), Err(Failure(TypeError, NotAFunction("impl.handle"))))
    ensures !event.simulation ==> r == InvokeSelf(timeDelay, event, invocationType, env)
  {
    assert ImplProperty("handle") == Undefined;
    if event.simulation && !ImplProperty("handle").Fn? then
      (Step(Delay(timeDelay), Missing("impl.handle")), Err(Failure(TypeError, NotAFunction("impl.handle"))))
    else InvokeSelf(timeDelay, event, invocationType, env)
  }

  /** A simulated invocation whose handling would resolve rejects as written. */
  lemma SimulationAsWrittenRejects(timeDelay: Number, event: Script, invocationType: JsValue, env: Env)
    requires event.simulation && env.handle(event).Ok?
    ensures InvokeSelf(timeDelay, event, invocationType, env).1 == env.handle(event)
    ensures InvokeSelfAsWritten(timeDelay, event, invocationType, env).1.Err?
  {
  }

  /**
   * `Promise.all` as a sequential fold: all the reports in order when every
   * outcome resolved, otherwise a rejection.
   */
  function JoinAll(outcomes: seq<Outcome>): (r: Result<seq<JsValue>, Failure>)
    ensures r.Ok? <==> forall i :: 0 <= i < |outcomes| ==> outcomes[i].Ok?
    ensures r.Ok? ==> |r.value| == |outcomes| && forall i :: 0 <= i < |outcomes| ==> r.value[i] == outcomes[i].value
  {
    if outcomes == [] then Ok([])
    else
      match outcomes[0]
      case Err(e) => Err(e)
      case Ok(v) =>
        match JoinAll(outcomes[1..])
        case Err(e) => Err(e)
        case Ok(vs) => Ok([v] + vs)
  }

  /** A rejected fold carries the failure of the first rejected outcome. */
  lemma {:induction false} JoinAllFirstFailure(outcomes: seq<Outcome>)
    requires JoinAll(outcomes).Err?
    ensures exists k :: (
      && 0 <= k < |outcomes|
      && outcomes[k] == Err(JoinAll(outcomes).error)
      && forall j :: 0 <= j < k ==> outcomes[j].Ok?)
  {
    if outcomes[0].Ok? {
      JoinAllFirstFailure(outcomes[1..]);
      var k :| 0 <= k < |outcomes[1..]| && outcomes[1..][k] == Err(JoinAll(outcomes[1..]).error)
        && forall j :: 0 <= j < k ==> outcomes[1..][j].Ok?;
      assert outcomes[k + 1] == Err(JoinAll(outcomes).error);
    } else {
      assert outcomes[0] == Err(JoinAll(outcomes).error);
    }
  }

  /** Lines 66-70: one invocation per plan, delayed by `(_start - now) - timeBufferInMilliseconds`, with the plan's own `_invokeType`. */
  function PlanInvocation(settings: Settings, plan: Script, now: real, env: Env): (r: (Step, Outcome))
    ensures r.0.call == if plan.simulation then SelfHandle(plan) else Spawn(plan, plan.invokeType)
    ensures r.1 == if plan.simulation then env.handle(plan) else env.spawn(plan, plan.invokeType)
    ensures plan.start.None? ==> r.0.wait == 0.0
    ensures plan.start.Some? ==>
      r.0.wait == (var d := plan.start.value - now - settings.func.timeBufferInMilliseconds; if d > 0.0 then d else 0.0)
  {
    InvokeSelf(Sub(Sub(OfOption(plan.start), Finite(now)), Finite(settings.func.timeBufferInMilliseconds)),
      plan, plan.invokeType, env)
  }

  /** What each plan's invocation settles to, in plan order. */
  function PlanOutcomes(settings: Settings, plans: seq<Script>, clock: nat -> real, env: Env): (r: seq<Outcome>)
    ensures |r| == |plans|
    ensures forall i :: 0 <= i < |plans| ==> r[i] == PlanInvocation(settings, plans[i], clock(i), env).1
  {
    seq(|plans|, i requires 0 <= i < |plans| => PlanInvocation(settings, plans[i], clock(i), env).1)
  }

  /** `distribute`: invoke every plan, then merge all reports in plan order, or reject if any invocation rejects. */
  function Distribute(timeNow: real, script: Script, settings: Settings, plans: seq<Script>, clock: nat -> real, env: Env): (r: Run)
    ensures |r.steps| == |plans|
    ensures forall i :: 0 <= i < |plans| ==> r.steps[i] == PlanInvocation(settings, plans[i], clock(i), env).0
  {
    var steps := seq(|plans|, i requires 0 <= i < |plans| => PlanInvocation(settings, plans[i], clock(i), env).0);
    match JoinAll(PlanOutcomes(settings, plans, clock, env))
    case Ok(reports) => Run(steps, Ok(env.result(timeNow, script, settings, reports)))
    case Err(e) => Run(steps, Err(e))
  }

  /** Each plan is spawned (or simulated) once, after `max(0, (_start - now) - timeBuffer)`. */
  lemma DistributeInvokesEachPlan(timeNow: real, script: Script, settings: Settings, plans: seq<Script>, clock: nat -> real, env: Env, i: nat)
    requires i < |plans|
    ensures var step := Distribute(timeNow, script, settings, plans, clock, env).steps[i];
      && step.call == (if plans[i].simulation then SelfHandle(plans[i]) else Spawn(plans[i], plans[i].invokeType))
      && (plans[i].start.None? ==> step.wait == 0.0)
      && (plans[i].start.Some? ==>
            step.wait == (var d := plans[i].start.value - clock(i) - settings.func.timeBufferInMilliseconds;
                          if d > 0.0 then d else 0.0))
  {
  }

  /**
   * All or nothing: the fan-out resolves iff every invocation resolves, with
   * the result of merging their reports in plan order; otherwise it rejects
   * with the failure of the first rejected plan.
   */
  lemma DistributeAllOrNothing(timeNow: real, script: Script, settings: Settings, plans: seq<Script>, clock: nat -> real, env: Env)
    ensures var r := Distribute(timeNow, script, settings, plans, clock, env);
      var outcomes := PlanOutcomes(settings, plans, clock, env);
      && (r.outcome.Ok? <==> forall i :: 0 <= i < |plans| ==> outcomes[i].Ok?)
      && (r.outcome.Ok? ==> exists reports: seq<JsValue> ::
            && |reports| == |plans|
            && (forall i :: 0 <= i < |plans| ==> outcomes[i] == Ok(reports[i]))
            && r.outcome.value == env.result(timeNow, script, settings, reports))
      && (r.outcome.Err? ==> exists k :: (
            && 0 <= k < |plans|
            && outcomes[k] == r.outcome
            && forall j :: 0 <= j < k ==> outcomes[j].Ok?))
  {
    var outcomes := PlanOutcomes(settings, plans, clock, env);
    if JoinAll(outcomes).Err? {
      JoinAllFirstFailure(outcomes);
    } else {
      var reports := JoinAll(outcomes).value;
      assert forall i :: 0 <= i < |plans| ==> outcomes[i] == Ok(reports[i]);
    }
  }

  /** The specification of `executeAll`: fan out for several plans, execute one in place, reject none. */
  function ExecuteAllRun(script: Script, settings: Settings, plans: seq<Script>, timeNow: real, clock: nat -> real, env: Env): (r: Run)
    ensures |plans| == 0 ==> r == Run([], Err(Failure(PlainError, NoExecutableContent(script))))
    ensures |plans| == 1 ==> |r.steps| == 1 && r.steps[0].call == Engine(timeNow, DefaultStart(plans[0], timeNow))
    ensures |plans| == 1 ==> r == ExecuteRun(timeNow, script, settings, plans[0], clock(0), env)
    ensures |plans| == 1 ==> var e := env.engine(timeNow, DefaultStart(plans[0], timeNow));
      r.outcome == if e.Ok? then Ok(env.result(timeNow, script, settings, [e.value])) else e
    ensures |plans| > 1 ==> |r.steps| == |plans|
    ensures |plans| > 1 ==> forall i :: 0 <= i < |plans| ==> r.steps[i] == PlanInvocation(settings, plans[i], clock(i), env).0
    ensures |plans| > 1 ==> r == Distribute(timeNow, script, settings, plans, clock, env)
  {
    if |plans| > 1 then Distribute(timeNow, script, settings, plans, clock, env)
    else if |plans| == 1 then ExecuteRun(timeNow, script, settings, plans[0], clock(0), env)
    else Run([], Err(Failure(PlainError, NoExecutableContent(script))))
  }

  /** The plans after `executeAll`: only a lone plan has its start defaulted. */
  function ExecutedPlans(plans: seq<Script>, timeNow: real): (r: seq<Script>)
    ensures |r| == |plans|
  {
    if |plans| == 1 then [DefaultStart(plans[0], timeNow)] else plans
  }

  /**
   * The branch is chosen by plan count: none rejects with "no executable
   * content" and calls nothing; one runs the engine once and never spawns,
   * and settles to the wrapped report or the engine's failure; several
   * invoke one worker per plan and never run the engine here, and settle all
   * or nothing: the merge of every report in plan order, or the failure of
   * the first rejected plan.
   */
  lemma ExecuteAllDispatch(script: Script, settings: Settings, plans: seq<Script>, timeNow: real, clock: nat -> real, env: Env)
    ensures var r := ExecuteAllRun(script, settings, plans, timeNow, clock, env);
      && (|plans| == 0 ==> r == Run([], Err(Failure(PlainError, NoExecutableContent(script)))))
      && (|plans| == 1 ==> |r.steps| == 1 && r.steps[0].call == Engine(timeNow, DefaultStart(plans[0], timeNow)))
      && (|plans| > 1 ==> |r.steps| == |plans| && forall i :: 0 <= i < |plans| ==> !r.steps[i].call.Engine?)
      && (|plans| > 1 ==> forall i :: 0 <= i < |plans| ==>
            r.steps[i].call == if plans[i].simulation then SelfHandle(plans[i]) else Spawn(plans[i], plans[i].invokeType))
      && (|plans| == 1 ==> var e := env.engine(timeNow, DefaultStart(plans[0], timeNow));
            && (r.outcome.Ok? <==> e.Ok?)
            && (e.Ok? ==> r.outcome.value == env.result(timeNow, script, settings, [e.value]))
            && (e.Err? ==> r.outcome.error == e.error))
      && (|plans| > 1 ==> var outcomes := PlanOutcomes(settings, plans, clock, env);
            && (r.outcome.Ok? <==> forall i :: 0 <= i < |plans| ==> outcomes[i].Ok?)
            && (r.outcome.Ok? ==> exists reports: seq<JsValue> ::
                  && |reports| == |plans|
                  && (forall i :: 0 <= i < |plans| ==> outcomes[i] == Ok(reports[i]))
                  && r.outcome.value == env.result(timeNow, script, settings, reports))
            && (r.outcome.Err? ==> exists k :: (
                  && 0 <= k < |plans|
                  && outcomes[k] == r.outcome
                  && forall j :: 0 <= j < k ==> outcomes[j].Ok?)))
  {
    var r := ExecuteAllRun(script, settings, plans, timeNow, clock, env);
    if |plans| > 1 {
      DistributeAllOrNothing(timeNow, script, settings, plans, clock, env);
      forall i | 0 <= i < |plans|
        ensures r.steps[i].call == if plans[i].simulation then SelfHandle(plans[i]) else Spawn(plans[i], plans[i].invokeType)
      {
        DistributeInvokesEachPlan(timeNow, script, settings, plans, clock, env, i);
      }
    }
  }

  /** `executeAll` over the plan objects: the lone plan of a single-plan run is updated in place. */
  method ExecuteAll(script: Script, settings: Settings, plans: seq<Plan>, timeNow: real, clock: nat -> real, env: Env)
    returns (run: Run)
    modifies plans
    ensures Events(plans) == ExecutedPlans(old(Events(plans)), timeNow)
    ensures run == ExecuteAllRun(script, settings, old(Events(plans)), timeNow, clock, env)
  {
    if |plans| > 1 {
      run := Distribute(timeNow, script, settings, Events(plans), clock, env);
    } else if |plans| == 1 {
      run := Execute(timeNow, script, settings, plans[0], clock, env);
    } else {
      run := Run([], Err(Failure(PlainError, NoExecutableContent(script))));
    }
  }

  /** Fresh plan objects holding the planner's events (the planner, not part of this model, builds them). */
  method NewPlans(events: seq<Script>) returns (plans: seq<Plan>)
    ensures |plans| == |events|
    ensures forall i :: 0 <= i < |plans| ==> fresh(plans[i])
    ensures Events(plans) == events
  {
    if events == [] {
      plans := [];
    } else {
      var first := new Plan(events[0]);
      var rest := NewPlans(events[1..]);
      plans := [first] + rest;
    }
  }

  /** The plans a task's planner produces: performance chunks or samples. */
  function PlansFor(task: ArtilleryTask, timeNow: real, settings: Settings, planner: Planner): seq<Script> {
    if task.PerformanceTask? then planner.planPerformance(timeNow, task.script, settings)
    else planner.planSamples(timeNow, task.script, settings)
  }

  /**
   * The specification of a task's `execute` (lines 135-180), with its
   * validation call read as the task validator: a validation failure is thrown
   * before any plan exists; otherwise the planner's plans go to `executeAll`.
   */
  function TaskRun(task: ArtilleryTask, timeNow: real, settings: Settings, planner: Planner, clock: nat -> real, env: Env): (r: Run)
    ensures TaskValid.Validate(settings, task.script, planner).Err? ==>
      r == Run([], Err(TaskValid.Validate(settings, task.script, planner).error))
    ensures TaskValid.Validate(settings, task.script, planner).Ok? ==>
      r == ExecuteAllRun(task.script, settings, PlansFor(task, timeNow, settings, planner), timeNow, clock, env)
  {
    match TaskValid.Validate(settings, task.script, planner)
    case Err(e) => Run([], Err(e))
    case Ok(_) => ExecuteAllRun(task.script, settings, PlansFor(task, timeNow, settings, planner), timeNow, clock, env)
  }

  /** The validator a task's `execute` calls as written: `valid.validateSamplingScript` or `valid.validatePerformanceScript`. */
  function ValidatorName(task: ArtilleryTask): string {
    if task.PerformanceTask? then "validatePerformanceScript" else "validateSamplingScript"
  }

  /** A task's `execute` as written: the validator it names is not a function on taskValid's export, so it throws first. */
  function TaskRunAsWritten(task: ArtilleryTask, timeNow: real, settings: Settings, planner: Planner, clock: nat -> real, env: Env): (r: Run)
    ensures r == Run([], Err(Failure(TypeError, NotAFunction("valid." + ValidatorName(task)))))
  {
    TaskValid.CalledValidatorsUndefined(ValidatorName(task));
    if TaskValid.ExportsFunction(ValidatorName(task)) then TaskRun(task, timeNow, settings, planner, clock, env)
    else Run([], Err(Failure(TypeError, NotAFunction("valid." + ValidatorName(task)))))
  }

  /** A performance script without phases is rejected for its phases once corrected, but as written for the missing validator. */
  lemma TaskRunAsWrittenDiffers(script: Script, timeNow: real, settings: Settings, planner: Planner, clock: nat -> real, env: Env)
    requires !Truthy(script.mode) && script.phases.None?
    ensures TaskRun(PerformanceTask(script), timeNow, settings, planner, clock, env) == Run([], Err(Failure(TaskError, MissingPhases)))
    ensures TaskRunAsWritten(PerformanceTask(script), timeNow, settings, planner, clock, env) ==
      Run([], Err(Failure(TypeError, NotAFunction("valid.validatePerformanceScript"))))
  {
    assert "valid." + ValidatorName(PerformanceTask(script)) == "valid.validatePerformanceScript";
  }

  /** A task's `execute`: validate, plan, and hand the plan objects to `executeAll`. */
  method TaskExecute(task: ArtilleryTask, timeNow: real, settings: Settings, planner: Planner, clock: nat -> real, env: Env)
    returns (run: Run)
    ensures run == TaskRun(task, timeNow, settings, planner, clock, env)
  {
    var verdict := TaskValid.Validate(settings, task.script, planner);
    if verdict.Err? {
      return Run([], Err(verdict.error));
    }
    var plans := NewPlans(PlansFor(task, timeNow, settings, planner));
    run := ExecuteAll(task.script, settings, plans, timeNow, clock, env);
  }
}
