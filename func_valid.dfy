/**
 * The function layer's validator (lib/lambda/funcValid.js): `_split` must be an
 * object, and each splitting setting that is given must be an integer within
 * inclusive bounds.
 */
module FuncValid {

  import opened Base
  import opened Js
  import opened Records

  /** The bound constants of the function layer's definitions, which are not part of this model. */
  datatype Bounds = Bounds(
    minChunkDurationInSeconds: real,
    maxChunkDurationInSeconds: real,
    maxScriptDurationInSeconds: real,
    maxChunkRequestsPerSecond: real,
    maxScriptRequestsPerSecond: real,
    maxTimeBufferInMilliseconds: real)

  /** `settings[setting]`: `undefined` for a missing key. */
  function Lookup(settings: map<string, JsValue>, setting: string): (v: JsValue)
    ensures setting !in settings ==> v == Undefined
  {
    if setting in settings then settings[setting] else Undefined
  }

  /** What the bounded-integer check accepts: a falsy value, or an integer in [minimum, maximum]. */
  predicate Admissible(value: JsValue, minimum: real, maximum: real) {
    !Truthy(value) || (IsInteger(value) && minimum <= value.n <= maximum)
  }

  /**
   * `checkBoundedIntegerSetting`: a truthy value that is not an integer, or is
   * below the minimum or above the maximum, throws `FunctionError`.
   */
  function CheckBoundedIntegerSetting(settings: map<string, JsValue>, setting: string, minimum: real, maximum: real): (r: Check)
    ensures r.Ok? <==> Admissible(Lookup(settings, setting), minimum, maximum)
    ensures r.Err? ==> r.error == Failure(FunctionError, SettingOutOfBounds(setting, Lookup(settings, setting), minimum, maximum))
  {
    var value := Lookup(settings, setting);
    if Truthy(value) then
      if !IsInteger(value) || value.n < minimum || value.n > maximum then
        Err(Failure(FunctionError, SettingOutOfBounds(setting, value, minimum, maximum)))
      else Ok(())
    else Ok(())
  }

  /** One bounded setting: its key and inclusive bounds. */
  datatype SettingRule = SettingRule(setting: string, minimum: real, maximum: real)

  /** The five settings in the order they are checked. */
  function SettingRules(b: Bounds): (rules: seq<SettingRule>)
    ensures |rules| == 5
    ensures forall i, j :: 0 <= i < j < 5 ==> rules[i].setting != rules[j].setting
    ensures rules[0].minimum == b.minChunkDurationInSeconds
    ensures forall i :: 1 <= i < 5 ==> rules[i].minimum == 1.0
  {
    [ SettingRule("maxChunkDurationInSeconds", b.minChunkDurationInSeconds, b.maxChunkDurationInSeconds),
      SettingRule("maxScriptDurationInSeconds", 1.0, b.maxScriptDurationInSeconds),
      SettingRule("maxChunkRequestsPerSecond", 1.0, b.maxChunkRequestsPerSecond),
      SettingRule("maxScriptRequestsPerSecond", 1.0, b.maxScriptRequestsPerSecond),
      SettingRule("timeBufferInMilliseconds", 1.0, b.maxTimeBufferInMilliseconds) ]
  }

  /** The first rule a setting breaks, if any: the reference the chain is proved against. */
  function FirstBroken(settings: map<string, JsValue>, rules: seq<SettingRule>): (r: Option<SettingRule>)
    ensures r.None? <==> forall i :: 0 <= i < |rules| ==>
      Admissible(Lookup(settings, rules[i].setting), rules[i].minimum, rules[i].maximum)
    ensures r.Some? ==> exists k :: (0 <= k < |rules| && rules[k] == r.value
      && !Admissible(Lookup(settings, rules[k].setting), rules[k].minimum, rules[k].maximum)
      && forall j :: 0 <= j < k ==> Admissible(Lookup(settings, rules[j].setting), rules[j].minimum, rules[j].maximum))
  {
    if rules == [] then None
    else if !Admissible(Lookup(settings, rules[0].setting), rules[0].minimum, rules[0].maximum) then Some(rules[0])
    else
      var rest := FirstBroken(settings, rules[1..]);
      if rest.Some? then
        ghost var k :| 0 <= k < |rules[1..]| && rules[1..][k] == rest.value
          && !Admissible(Lookup(settings, rules[1..][k].setting), rules[1..][k].minimum, rules[1..][k].maximum)
          && forall j :: 0 <= j < k ==> Admissible(Lookup(settings, rules[1..][j].setting), rules[1..][j].minimum, rules[1..][j].maximum);
        assert rules[k + 1] == rest.value;
        rest
      else rest
  }

  /**
   * `validate`: `_split`, when truthy, must be of type object; then the five
   * settings of `def.getSettings(event) || {}` are checked in order.
   */
  function Validate(event: Script, getSettings: Script -> Option<map<string, JsValue>>, bounds: Bounds): (r: Check)
    ensures Truthy(event.split) && !IsObjectType(event.split) ==> r == Err(Failure(FunctionError, SplitNotObject(event.split)))
    ensures r.Err? ==> r.error.kind == FunctionError
    ensures var settings := getSettings(event).GetOr(map[]);
      var rules := SettingRules(bounds);
      r.Ok? ==> forall i :: 0 <= i < |rules| ==> Admissible(Lookup(settings, rules[i].setting), rules[i].minimum, rules[i].maximum)
  {
    if Truthy(event.split) && !IsObjectType(event.split) then
      Err(Failure(FunctionError, SplitNotObject(event.split)))
    else
      var settings := getSettings(event).GetOr(map[]);
      var r1 := CheckBoundedIntegerSetting(settings, "maxChunkDurationInSeconds", bounds.minChunkDurationInSeconds, bounds.maxChunkDurationInSeconds);
      if r1.Err? then r1 else
      var r2 := CheckBoundedIntegerSetting(settings, "maxScriptDurationInSeconds", 1.0, bounds.maxScriptDurationInSeconds);
      if r2.Err? then r2 else
      var r3 := CheckBoundedIntegerSetting(settings, "maxChunkRequestsPerSecond", 1.0, bounds.maxChunkRequestsPerSecond);
      if r3.Err? then r3 else
      var r4 := CheckBoundedIntegerSetting(settings, "maxScriptRequestsPerSecond", 1.0, bounds.maxScriptRequestsPerSecond);
      if r4.Err? then r4 else
      CheckBoundedIntegerSetting(settings, "timeBufferInMilliseconds", 1.0, bounds.maxTimeBufferInMilliseconds)
  }

  /**
   * The chain reports exactly the first broken rule: it returns normally iff
   * `_split` is acceptable and every setting is admissible, and otherwise names
   * the first offending setting in check order.
   */
  lemma {:induction false} ValidateReportsFirstBroken(event: Script, getSettings: Script -> Option<map<string, JsValue>>, bounds: Bounds)
    requires !(Truthy(event.split) && !IsObjectType(event.split))
    ensures var settings := getSettings(event).GetOr(map[]);
      var first := FirstBroken(settings, SettingRules(bounds));
      && (Validate(event, getSettings, bounds).Ok? <==> first.None?)
      && (first.Some? ==>
            (Validate(event, getSettings, bounds) ==
             Err(Failure(FunctionError, SettingOutOfBounds(first.value.setting,
               Lookup(settings, first.value.setting), first.value.minimum, first.value.maximum)))))
  {
    var settings := getSettings(event).GetOr(map[]);
    var rules := SettingRules(bounds);
    // Unfold the reference once per rule, in check order.
    assert rules[1..][1..][1..][1..][1..] == [];
    var t := rules;
    assert FirstBroken(settings, t) ==
      if !Admissible(Lookup(settings, t[0].setting), t[0].minimum, t[0].maximum) then Some(t[0]) else FirstBroken(settings, t[1..]);
    t := t[1..];
    assert FirstBroken(settings, t) ==
      if !Admissible(Lookup(settings, t[0].setting), t[0].minimum, t[0].maximum) then Some(t[0]) else FirstBroken(settings, t[1..]);
    t := t[1..];
    assert FirstBroken(settings, t) ==
      if !Admissible(Lookup(settings, t[0].setting), t[0].minimum, t[0].maximum) then Some(t[0]) else FirstBroken(settings, t[1..]);
    t := t[1..];
    assert FirstBroken(settings, t) ==
      if !Admissible(Lookup(settings, t[0].setting), t[0].minimum, t[0].maximum) then Some(t[0]) else FirstBroken(settings, t[1..]);
    t := t[1..];
    assert FirstBroken(settings, t) ==
      if !Admissible(Lookup(settings, t[0].setting), t[0].minimum, t[0].maximum) then Some(t[0]) else FirstBroken(settings, t[1..]);
    assert FirstBroken(settings, t[1..]) == None;
  }

  /** Both bounds are inclusive, a falsy value is never checked, and a fractional value always fails. */
  lemma BoundsInclusive(settings: map<string, JsValue>, setting: string, minimum: real, maximum: real)
    requires minimum <= maximum && minimum == minimum.Floor as real && maximum == maximum.Floor as real
    ensures minimum != 0.0 ==> CheckBoundedIntegerSetting(settings[setting := Num(minimum)], setting, minimum, maximum).Ok?
    ensures maximum != 0.0 ==> CheckBoundedIntegerSetting(settings[setting := Num(maximum)], setting, minimum, maximum).Ok?
    ensures CheckBoundedIntegerSetting(settings[setting := Num(0.0)], setting, minimum, maximum).Ok?
    ensures CheckBoundedIntegerSetting(settings - {setting}, setting, minimum, maximum).Ok?
    ensures CheckBoundedIntegerSetting(settings[setting := Num(minimum + 0.5)], setting, minimum, maximum).Err?
  {
    assert (minimum + 0.5).Floor == minimum.Floor;
  }
}
