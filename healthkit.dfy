/** The JavaScript bridge to the HealthKit plugin (www/HealthKit.js): JavaScript values and
    objects, the parameter checks, date rounding, and the methods `define` installs, which check
    their options, run an optional post-check step, and then always call into the native side. */
module HealthKitJs {
  import opened Wrappers

  /** A JavaScript value as far as the bridge inspects it. */
  datatype JsValue =
    | Undefined
    | Null
    | Bool(b: bool)
    | Num(x: real)
    | Str(s: string)
    | Date(time: int)
    | Array(elems: seq<JsValue>)
    | Object
    | Function

  /** The constructors `instanceof` is used with. */
  datatype Ctor = DateCtor | ArrayCtor | ObjectCtor | FunctionCtor

  /** The second argument of `matches`: a `typeof` name or a constructor. */
  datatype TypeOrClass = TypeName(name: string) | Class(ctor: Ctor)

  /** JavaScript's `typeof`. */
  function TypeOf(v: JsValue): string {
    match v
    case Undefined => "undefined"
    case Null => "object"
    case Bool(_) => "boolean"
    case Num(_) => "number"
    case Str(_) => "string"
    case Function => "function"
    case _ => "object"
  }

  /** JavaScript's `instanceof` for the built-in constructors (the prototype chains are fixed). */
  predicate InstanceOf(v: JsValue, c: Ctor) {
    match c
    case DateCtor => v.Date?
    case ArrayCtor => v.Array?
    case ObjectCtor => v.Date? || v.Array? || v.Object? || v.Function?
    case FunctionCtor => v.Function?
  }

  /** `matches(object, typeOrClass)` (HealthKit.js:4-7). */
  predicate Matches(o: JsValue, t: TypeOrClass) {
    match t
    case TypeName(n) => TypeOf(o) == n
    case Class(c) => InstanceOf(o, c)
  }

  /** `typeof` cannot tell a Date from any other object, while `instanceof Date` can; and `null`
      is an "object" by `typeof` but an instance of nothing. */
  lemma MatchesDateVersusTypeof(o: JsValue)
    ensures Matches(o, Class(DateCtor)) <==> o.Date?
    ensures Matches(o, Class(DateCtor)) ==> Matches(o, TypeName("object"))
    ensures Matches(Object, TypeName("object")) && !Matches(Object, Class(DateCtor))
    ensures Matches(Null, TypeName("object")) && forall c :: !Matches(Null, Class(c))
  {
  }

  /** JavaScript truthiness; NaN is not modelled, so a number is falsy exactly when it is zero. */
  predicate Truthy(v: JsValue) {
    match v
    case Undefined => false
    case Null => false
    case Bool(b) => b
    case Num(x) => x != 0.0
    case Str(s) => |s| > 0
    case _ => true
  }

  /** `object[prop]`: a missing property reads as undefined. */
  function Get(props: map<string, JsValue>, k: string): JsValue {
    if k in props then props[k] else Undefined
  }

  /** `Math.round(ms / 1000)`: the nearest whole second, halves rounded up. */
  function RoundSeconds(ms: int): (r: int)
    ensures r * 1000 - 500 <= ms < r * 1000 + 500
  {
    (ms + 500) / 1000
  }

  /** The properties after `rounds(object, prop)`: a Date becomes its rounded seconds, anything else
      (including a missing property) is left alone. */
  function Rounded(props: map<string, JsValue>, prop: string): map<string, JsValue> {
    match Get(props, prop)
    case Date(t) => props[prop := Num(RoundSeconds(t) as real)]
    case _ => props
  }

  /** `rounds` changes at most the one property, turns a Date into whole seconds and nothing else,
      and rounding twice is rounding once. */
  lemma RoundedSpec(props: map<string, JsValue>, prop: string)
    ensures forall k :: k != prop ==> Get(Rounded(props, prop), k) == Get(props, k)
    ensures Get(props, prop).Date? ==>
              Get(Rounded(props, prop), prop) == Num(RoundSeconds(Get(props, prop).time) as real)
    ensures !Get(props, prop).Date? ==> Rounded(props, prop) == props
    ensures Rounded(Rounded(props, prop), prop) == Rounded(props, prop)
  {
  }

  /** A JavaScript object whose properties the bridge reads and overwrites in place. */
  class JsObject {
    var props: map<string, JsValue>

    constructor (p: map<string, JsValue>)
      ensures props == p
    {
      props := p;
    }
  }

  /** `rounds(object, prop)` (HealthKit.js:9-13). */
  method Rounds(obj: JsObject, prop: string)
    modifies obj
    ensures obj.props == Rounded(old(obj.props), prop)
  {
    var val := Get(obj.props, prop);
    if !Matches(val, Class(DateCtor)) {
      return;
    }
    obj.props := obj.props[prop := Num(RoundSeconds(val.time) as real)];
  }

  const START_DATE_ERROR: string := "startDate must be a JavaScript Date Object"
  const END_DATE_ERROR: string := "endDate must be a JavaScript Date Object"

  /** `hasValidDates` on the properties: the TypeError's message, or the properties with both dates
      rounded. */
  function ValidDates(props: map<string, JsValue>): Result<map<string, JsValue>, string> {
    if !Matches(Get(props, "startDate"), Class(DateCtor)) then Failure(START_DATE_ERROR)
    else if !Matches(Get(props, "endDate"), Class(DateCtor)) then Failure(END_DATE_ERROR)
    else Success(Rounded(Rounded(props, "startDate"), "endDate"))
  }

  /** The start date is checked first; on success both dates are whole seconds and every other
      property is as it was. */
  lemma ValidDatesSpec(props: map<string, JsValue>)
    ensures ValidDates(props).Success? <==> Get(props, "startDate").Date? && Get(props, "endDate").Date?
    ensures !Get(props, "startDate").Date? ==> ValidDates(props) == Failure(START_DATE_ERROR)
    ensures Get(props, "startDate").Date? && !Get(props, "endDate").Date? ==>
              ValidDates(props) == Failure(END_DATE_ERROR)
    ensures ValidDates(props).Success? ==>
              var r := ValidDates(props).value;
              Get(r, "startDate") == Num(RoundSeconds(Get(props, "startDate").time) as real) &&
              Get(r, "endDate") == Num(RoundSeconds(Get(props, "endDate").time) as real) &&
              forall k :: k != "startDate" && k != "endDate" ==> Get(r, k) == Get(props, k)
  {
    if ValidDates(props).Success? {
      var p1 := Rounded(props, "startDate");
      RoundedSpec(props, "startDate");
      RoundedSpec(p1, "endDate");
    }
  }

  /** `hasValidDates(object)` (HealthKit.js:15-25): throws before touching the object, or rounds
      both dates in place. */
  method HasValidDates(obj: JsObject) returns (r: Result<(), string>)
    modifies obj
    ensures ValidDates(old(obj.props)).Failure? ==>
              r == Failure(ValidDates(old(obj.props)).error) && obj.props == old(obj.props)
    ensures ValidDates(old(obj.props)).Success? ==>
              r.Success? && obj.props == ValidDates(old(obj.props)).value
  {
    if !Matches(Get(obj.props, "startDate"), Class(DateCtor)) {
      return Failure(START_DATE_ERROR);
    }
    if !Matches(Get(obj.props, "endDate"), Class(DateCtor)) {
      return Failure(END_DATE_ERROR);
    }
    Rounds(obj, "startDate");
    Rounds(obj, "endDate");
    r := Success(());
  }

  /** `paramChecker(type)` for the given options (HealthKit.js:27-38): the TypeError's message, if
      it throws. */
  function CheckParam(options: map<string, JsValue>, key: string): Option<string> {
    var value := Get(options, key);
    if key == "startDate" || key == "endDate" then
      if !Matches(value, Class(DateCtor)) then Some(key + " must be a JavaScript Date") else None
    else if key == "samples" then
      if !value.Array? then Some(key + " must be a JavaScript Array") else None
    else
      if !Truthy(value) then Some("Missing required paramter " + key) else None
  }

  /** The three kinds of requirement: the dates must be Date objects, `samples` an array, and any
      other key truthy. */
  lemma CheckParamSpec(options: map<string, JsValue>, key: string)
    ensures key in {"startDate", "endDate"} ==>
              (CheckParam(options, key) == None <==> Get(options, key).Date?)
    ensures key == "samples" ==> (CheckParam(options, key) == None <==> Get(options, key).Array?)
    ensures key !in {"startDate", "endDate", "samples"} ==>
              (CheckParam(options, key) == None <==> Truthy(Get(options, key)))
    ensures CheckParam(options, key).Some? ==>
              CheckParam(options, key).value in
                {key + " must be a JavaScript Date", key + " must be a JavaScript Array",
                 "Missing required paramter " + key}
  {
  }

  /** `checks.forEach(getChecker(options))`: the first check that throws ends the loop. */
  function FirstFailure(checks: seq<string>, options: map<string, JsValue>): Option<string>
    decreases |checks|
  {
    if |checks| == 0 then None
    else if CheckParam(options, checks[0]).Some? then CheckParam(options, checks[0])
    else FirstFailure(checks[1..], options)
  }

  /** The checks pass exactly when every check passes, and a failure reports the first failing
      check, all before it having passed. */
  lemma {:induction false} FirstFailureSpec(checks: seq<string>, options: map<string, JsValue>)
    ensures FirstFailure(checks, options) == None <==>
              forall i :: 0 <= i < |checks| ==> CheckParam(options, checks[i]) == None
    ensures FirstFailure(checks, options).Some? ==>
              exists i :: 0 <= i < |checks| && FirstFailure(checks, options) == CheckParam(options, checks[i]) &&
                forall j :: 0 <= j < i ==> CheckParam(options, checks[j]) == None
    decreases |checks|
  {
    if |checks| > 0 {
      FirstFailureSpec(checks[1..], options);
      if CheckParam(options, checks[0]).None? {
        assert forall i :: 1 <= i < |checks| ==> checks[i] == checks[1..][i - 1];
        if FirstFailure(checks, options).Some? {
          var i :| 0 <= i < |checks[1..]| && FirstFailure(checks[1..], options) == CheckParam(options, checks[1..][i]) &&
                   forall j :: 0 <= j < i ==> CheckParam(options, checks[1..][j]) == None;
          assert forall j :: 1 <= j < i + 1 ==> CheckParam(options, checks[j]) == CheckParam(options, checks[1..][j - 1]);
        }
      }
    }
  }

  /** The loop that runs the checks in order and stops at the first TypeError. */
  method RunChecks(checks: seq<string>, options: map<string, JsValue>) returns (error: Option<string>)
    ensures error == FirstFailure(checks, options)
  {
    var i := 0;
    while i < |checks|
      invariant 0 <= i <= |checks|
      invariant FirstFailure(checks[i..], options) == FirstFailure(checks, options)
    {
      assert checks[i..][1..] == checks[i + 1..];
      var e := CheckParam(options, checks[i]);
      if e.Some? {
        return e;
      }
      i := i + 1;
    }
    return None;
  }

  /** What runs after the checks: nothing (`Function.prototype`) or `hasValidDates`. */
  datatype Hook = NoHook | ValidDatesHook

  /** The `required` option as written: absent, one key, or a list of keys. */
  datatype RequiredArg = NoRequired | RequiredKey(key: string) | RequiredKeys(keys: seq<string>)

  /** The second argument of `define`: absent (null or undefined), a function, or an options object. */
  datatype ParamsArg = NoParams | HookParam(hook: Hook) | Options(noArgs: JsValue, required: RequiredArg)

  /** An installed method: its name, whether it takes no options, its checks in order and its hook. */
  datatype Definition = Definition(name: string, noArgs: bool, checks: seq<string>, hook: Hook)

  /** `params.required || []`, then wrapped in an array unless it already is one. */
  function Checks(required: RequiredArg): (r: seq<string>)
    ensures required.RequiredKeys? ==> r == required.keys
    ensures required.RequiredKey? && required.key != "" ==> r == [required.key]
    ensures required.NoRequired? || required == RequiredKey("") ==> r == []
  {
    match required
    case NoRequired => []
    case RequiredKey(k) => if k == "" then [] else [k]
    case RequiredKeys(ks) => ks
  }

  /** `define(methodName, params, fn)` (HealthKit.js:45-75) as the method it installs. */
  function Defined(name: string, params: ParamsArg, fn: Option<Hook>): (d: Definition)
    ensures d.name == name
    ensures params.HookParam? ==> !d.noArgs && d.checks == [] && d.hook == params.hook
    ensures params.NoParams? ==> !d.noArgs && d.checks == [] && d.hook == fn.GetOr(NoHook)
    ensures params.Options? ==>
              d.noArgs == Truthy(params.noArgs) && d.checks == Checks(params.required) && d.hook == fn.GetOr(NoHook)
  {
    match params
    case NoParams => Definition(name, false, [], fn.GetOr(NoHook))
    case HookParam(h) => Definition(name, false, [], h)
    case Options(noArgs, required) => Definition(name, Truthy(noArgs), Checks(required), fn.GetOr(NoHook))
  }

  /** The call into the native side: `cordova.exec(callback, onError, 'HealthKit', action, args)`,
      with each argument object as it stands at the time of the call. */
  datatype Exec = Exec(action: string, args: seq<map<string, JsValue>>)

  /** What a call of an installed method does: the message `onError` receives, if any; the call
      into the native side, which is made in every case; and the options afterwards. */
  datatype CallOutcome = CallOutcome(error: Option<string>, exec: Exec, options: map<string, JsValue>)

  function CallResult(d: Definition, options: map<string, JsValue>): CallOutcome {
    if d.noArgs then CallOutcome(None, Exec(d.name, []), options)
    else
      match FirstFailure(d.checks, options)
      case Some(e) => CallOutcome(Some(e), Exec(d.name, [options]), options)
      case None =>
        if d.hook == NoHook then CallOutcome(None, Exec(d.name, [options]), options)
        else
          match ValidDates(options)
          case Failure(e) => CallOutcome(Some(e), Exec(d.name, [options]), options)
          case Success(p) => CallOutcome(None, Exec(d.name, [p]), p)
  }

  /** A failed check reaches `onError` with the first failing check's message, the hook does not run,
      and the native side is still called, with the options untouched; a method without arguments
      always passes no arguments. */
  lemma CallAfterFailure(d: Definition, options: map<string, JsValue>)
    ensures d.noArgs ==> CallResult(d, options) == CallOutcome(None, Exec(d.name, []), options)
    ensures !d.noArgs && FirstFailure(d.checks, options).Some? ==>
              CallResult(d, options) == CallOutcome(FirstFailure(d.checks, options), Exec(d.name, [options]), options)
    ensures !d.noArgs ==>
              |CallResult(d, options).exec.args| == 1 && CallResult(d, options).exec.args[0] == CallResult(d, options).options
    ensures CallResult(d, options).error.Some? ==> CallResult(d, options).options == options
    ensures CallResult(d, options).exec.action == d.name
  {
  }

  /** With the date hook and every check passing, the native side gets the dates in whole seconds. */
  lemma CallRoundsDates(d: Definition, options: map<string, JsValue>)
    requires !d.noArgs && d.hook == ValidDatesHook
    requires forall i :: 0 <= i < |d.checks| ==> CheckParam(options, d.checks[i]) == None
    requires Get(options, "startDate").Date? && Get(options, "endDate").Date?
    ensures CallResult(d, options).error == None
    ensures Get(CallResult(d, options).exec.args[0], "startDate") == Num(RoundSeconds(Get(options, "startDate").time) as real)
    ensures Get(CallResult(d, options).exec.args[0], "endDate") == Num(RoundSeconds(Get(options, "endDate").time) as real)
  {
    FirstFailureSpec(d.checks, options);
    ValidDatesSpec(options);
  }

  /** The methods installed at load time (HealthKit.js:77-91). */
  function Installed(): map<string, Definition> {
    map[
      "available" := Defined("available", Options(Bool(true), NoRequired), None),
      "requestAuthorization" := Defined("requestAuthorization", NoParams, None),
      "readDateOfBirth" := Defined("readDateOfBirth", Options(Bool(true), NoRequired), None),
      "readGender" := Defined("readGender", Options(Bool(true), NoRequired), None),
      "findWorkouts" := Defined("findWorkouts", NoParams, None),
      "readWeight" := Defined("readWeight", NoParams, None),
      "readHeight" := Defined("readHeight", NoParams, None),
      "readBloodType" := Defined("readBloodType", Options(Bool(true), NoRequired), None),
      "monitorSampleType" := Defined("monitorSampleType", Options(Undefined, RequiredKey("sampleType")), None),
      "querySampleType" := Defined("querySampleType", Options(Undefined, RequiredKey("sampleType")), Some(ValidDatesHook)),
      "queryCorrelationType" := Defined("queryCorrelationType", Options(Undefined, RequiredKey("correlationType")), Some(ValidDatesHook)),
      "sumQuantityType" := Defined("sumQuantityType", Options(Undefined, RequiredKeys(["sampleType"])), Some(ValidDatesHook))
    ]
  }

  /** `HealthKit.prototype`: the methods installed so far. */
  class HealthKit {
    var methods: map<string, Definition>

    /** The prototype once the script has run its `define` calls. */
    constructor ()
      ensures methods == Installed()
    {
      methods := Installed();
    }

    /** `define(...)`: installs (or replaces) one method. */
    method Define(name: string, params: ParamsArg, fn: Option<Hook>)
      modifies this
      ensures methods == old(methods)[name := Defined(name, params, fn)]
    {
      methods := methods[name := Defined(name, params, fn)];
    }

    /** A call of the installed method `name`: missing options become `{}`, the checks run, then the
        hook, any TypeError goes to `onError`, and `cordova.exec` follows in every case. */
    method Call(name: string, options: JsObject?) returns (error: Option<string>, exec: Exec, used: JsObject?)
      requires name in methods
      modifies options
      ensures var d := methods[name];
              var before := if options == null then map[] else old(options.props);
              var out := CallResult(d, before);
              error == out.error && exec == out.exec &&
              (options != null ==> options.props == out.options) &&
              (d.noArgs ==> used == null) &&
              (!d.noArgs ==> used != null && used.props == out.options &&
                             (options != null ==> used == options))
    {
      var d := methods[name];
      if d.noArgs {
        return None, Exec(d.name, []), null;
      }
      used := options;
      if used == null {
        used := new JsObject(map[]);
      }
      error := RunChecks(d.checks, used.props);
      if error.None? && d.hook == ValidDatesHook {
        var r := HasValidDates(used);
        if r.Failure? {
          error := Some(r.error);
        }
      }
      exec := Exec(d.name, [used.props]);
    }
  }
}
