/**
 * Mode tokens, the mode predicates, the per-mode sampling default tables and
 * the task layer's settings (lib/lambda/taskDef.js).
 */
module TaskDef {

  import opened Base
  import opened Js
  import opened Records

  const PERF := "perf"
  const PERFORMANCE := "performance"
  const ACC := "acc"
  const ACCEPTANCE := "acceptance"
  const MON := "mon"
  const MONITORING := "monitoring"

  /** The values of `modes`, in key order. */
  const ModeTokens: seq<string> := [PERF, PERFORMANCE, ACC, ACCEPTANCE, MON, MONITORING]

  /** `isAcceptanceScript`: `mode` is exactly "acc" or "acceptance" (case-sensitive). */
  function IsAcceptanceScript(script: Script): (b: bool)
    ensures b <==> script.mode.Str? && script.mode.s in {ACC, ACCEPTANCE}
  {
    Truthy(script.mode) && (script.mode == Str(ACC) || script.mode == Str(ACCEPTANCE))
  }

  /** `isMonitoringScript`: `mode` is exactly "mon" or "monitoring". */
  function IsMonitoringScript(script: Script): (b: bool)
    ensures b <==> script.mode.Str? && script.mode.s in {MON, MONITORING}
  {
    Truthy(script.mode) && (script.mode == Str(MON) || script.mode == Str(MONITORING))
  }

  /** `isPerformanceScript`: `mode` is falsy, or exactly "perf" or "performance". */
  function IsPerformanceScript(script: Script): (b: bool)
    ensures !Truthy(script.mode) ==> b
    ensures Truthy(script.mode) ==> (b <==> script.mode.Str? && script.mode.s in {PERF, PERFORMANCE})
  {
    !Truthy(script.mode) || script.mode == Str(PERF) || script.mode == Str(PERFORMANCE)
  }

  /** `isSamplingScript`: an acceptance or a monitoring script. */
  function IsSamplingScript(script: Script): (b: bool)
    ensures b <==> script.mode.Str? && script.mode.s in {ACC, ACCEPTANCE, MON, MONITORING}
    ensures b ==> Truthy(script.mode)
  {
    IsAcceptanceScript(script) || IsMonitoringScript(script)
  }

  /** For each of the six tokens exactly one of the three mode predicates holds. */
  lemma TokensClassifyUniquely(script: Script)
    requires script.mode.Str? && script.mode.s in ModeTokens
    ensures IsAcceptanceScript(script) || IsMonitoringScript(script) || IsPerformanceScript(script)
    ensures !(IsAcceptanceScript(script) && IsMonitoringScript(script))
    ensures !(IsAcceptanceScript(script) && IsPerformanceScript(script))
    ensures !(IsMonitoringScript(script) && IsPerformanceScript(script))
    ensures IsAcceptanceScript(script) <==> script.mode.s in [ACC, ACCEPTANCE]
    ensures IsMonitoringScript(script) <==> script.mode.s in [MON, MONITORING]
    ensures IsPerformanceScript(script) <==> script.mode.s in [PERF, PERFORMANCE]
  {
  }

  /** A script without a (truthy) mode is a performance script and not a sampling script. */
  lemma NoModeIsPerformance(script: Script)
    requires !Truthy(script.mode)
    ensures IsPerformanceScript(script) && !IsSamplingScript(script)
  {
  }

  /** A sampling script is never a performance script. */
  lemma SamplingExcludesPerformance(script: Script)
    requires IsSamplingScript(script)
    ensures !IsPerformanceScript(script)
  {
  }

  /**
   * Matching is exact: a truthy mode other than the six tokens (an upper-case
   * "ACC" or "MON", say) satisfies none of the three predicates.
   */
  lemma UnknownModeMatchesNothing(script: Script)
    requires Truthy(script.mode)
    requires !(script.mode.Str? && script.mode.s in ModeTokens)
    ensures !IsAcceptanceScript(script) && !IsMonitoringScript(script) && !IsPerformanceScript(script)
  {
  }

  const AcceptanceDefaults := Table(1.0, 0.2, 0.1, 0.0, None)
  const MonitoringDefaults := Table(5.0, 0.2, 0.1, 4.0, None)
  const DefaultWarningThreshold := 0.9
  /** The generic `sampling` table. */
  const SamplingDefaults := Table(5.0, 0.2, 0.1, 4.0, Some(DefaultWarningThreshold))

  /** `defaultSettings`: the table's values overridden field by field by the script's `sampling`. */
  function DefaultSettings(defaults: Table, script: Script): (b: SamplingBlock)
    ensures var u := script.sampling;
      && b.size == (if u.Some? && u.value.size.Some? then u.value.size.value else Num(defaults.defaultSize))
      && b.averagePause == (if u.Some? && u.value.averagePause.Some? then u.value.averagePause.value
                            else Num(defaults.defaultAveragePause))
      && b.pauseVariance == (if u.Some? && u.value.pauseVariance.Some? then u.value.pauseVariance.value
                             else Num(defaults.defaultPauseVariance))
      && b.errorBudget == (if u.Some? && u.value.errorBudget.Some? then u.value.errorBudget.value
                           else Num(defaults.defaultErrorBudget))
      && b.warningThreshold == (if u.Some? && u.value.warningThreshold.Some? then u.value.warningThreshold.value
                                else Num(0.9))
  {
    Merge(defaults, SamplingDefaults.defaultWarningThreshold.value, script.sampling)
  }

  /** `getSettings`: a settings object whose only key is `sampling`, defaulted by mode. */
  function GetSettings(script: Script): (r: TaskSettings)
    ensures IsAcceptanceScript(script) ==> r.sampling == Merge(AcceptanceDefaults, 0.9, script.sampling)
    ensures IsMonitoringScript(script) ==> r.sampling == Merge(MonitoringDefaults, 0.9, script.sampling)
    ensures !IsSamplingScript(script) ==> r.sampling == Merge(SamplingDefaults, 0.9, script.sampling)
  {
    if IsAcceptanceScript(script) then TaskSettings(DefaultSettings(AcceptanceDefaults, script))
    else if IsMonitoringScript(script) then TaskSettings(DefaultSettings(MonitoringDefaults, script))
    else TaskSettings(DefaultSettings(SamplingDefaults, script))
  }

  /** Without a user block, acceptance is zero-tolerance and monitoring tolerant. */
  lemma GetSettingsWithoutUserBlock(script: Script)
    requires script.sampling.None?
    ensures IsAcceptanceScript(script) ==>
      GetSettings(script).sampling == SamplingBlock(Num(1.0), Num(0.2), Num(0.1), Num(0.0), Num(0.9))
    ensures !IsAcceptanceScript(script) ==>
      GetSettings(script).sampling == SamplingBlock(Num(5.0), Num(0.2), Num(0.1), Num(4.0), Num(0.9))
  {
  }
}
