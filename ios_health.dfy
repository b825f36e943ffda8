/** The iOS wrapper `navigator.health` (www/ios/health.js): the data type and unit tables, the
    date string parser, the type collection of `requestAuthorization`, the shaping of `query`
    requests and results, and the field mapping of `store`. The HealthKit calls themselves are
    outside the model; their answers are inputs. */
module IosHealth {
  import opened Wrappers
  import opened HealthKitJs
  import opened IosActivity

  /** `dataTypes`: the HealthKit quantity type of each supported data type (health.js:7-14). */
  const DATA_TYPES: map<string, string> := map[
    "steps" := "HKQuantityTypeIdentifierStepCount",
    "distance" := "HKQuantityTypeIdentifierDistanceWalkingRunning",
    "calories" := "HKQuantityTypeIdentifierActiveEnergyBurned",
    "height" := "HKQuantityTypeIdentifierHeight",
    "weight" := "HKQuantityTypeIdentifierBodyMass",
    "heart_rate" := "HKQuantityTypeIdentifierHeartRate",
    "fat_percentage" := "HKQuantityTypeIdentifierBodyFatPercentage"
  ]

  /** `units`: the unit each of them is read and written in (health.js:17-24). */
  const UNITS: map<string, string> := map[
    "steps" := "count",
    "distance" := "m",
    "calories" := "kcal",
    "height" := "m",
    "weight" := "kg",
    "heart_rate" := "count/min",
    "fat_percentage" := "%"
  ]

  /** The wrapper's unit table covers every data type it maps to HealthKit. */
  lemma UnitsCoverDataTypes()
    ensures DATA_TYPES.Keys == UNITS.Keys
    ensures forall k :: k in UNITS ==> |UNITS[k]| > 0
  {
  }

  /** What an error branch that names an undefined variable does: it throws a ReferenceError
      instead of calling `onError` (health.js:147, 170). */
  const UNDEFINED_DTS: string := "ReferenceError: dts is not defined"

  // ---- convertDate ----

  /** The arguments `convertDate` passes to `new Date(year, month, day, hours, minutes, seconds)`:
      the six numbers of the string, the month made zero-based. */
  datatype DateArgs = DateArgs(year: int, monthIndex: int, day: int, hours: int, minutes: int, seconds: int)

  predicate IsDigit(c: char) {
    '0' <= c <= '9'
  }

  /** A non-empty run of decimal digits, what `\d+` matches. */
  predicate IsDigits(w: string) {
    |w| > 0 && forall i :: 0 <= i < |w| ==> IsDigit(w[i])
  }

  /** The number a digit string denotes, leading zeros allowed. */
  function Value(w: string): nat
    decreases |w|
  {
    if |w| == 0 then 0 else Value(w[..|w| - 1]) * 10 + ((w[|w| - 1] as int - '0' as int) % 10)
  }

  /** The length of the leading run of digits. */
  function DigitRun(s: string): (n: nat)
    ensures n <= |s|
    decreases |s|
  {
    if |s| > 0 && IsDigit(s[0]) then 1 + DigitRun(s[1..]) else 0
  }

  /** One `(\d+)` followed by the separator: its number and the rest of the string. */
  function Field(s: string, sep: char): Option<(nat, string)> {
    var n := DigitRun(s);
    if 0 < n < |s| && s[n] == sep then Some((Value(s[..n]), s[n + 1..])) else None
  }

  /** The final `(\d+)$`. */
  function LastField(s: string): Option<nat> {
    if |s| > 0 && DigitRun(s) == |s| then Some(Value(s)) else None
  }

  /** Digit runs separated by the given characters, and their numbers: what a pattern
      `^(\d+)s1(\d+)s2...(\d+)$` captures. */
  function Fields(s: string, seps: string): (r: Option<seq<nat>>)
    ensures r.Some? ==> |r.value| == |seps| + 1
    decreases |seps|
  {
    if |seps| == 0 then
      match LastField(s)
      case None => None
      case Some(v) => Some([v])
    else
      match Field(s, seps[0])
      case None => None
      case Some((v, rest)) =>
        match Fields(rest, seps[1..])
        case None => None
        case Some(vs) => Some([v] + vs)
  }

  /** The separators of the date format "Y-M-D h:m:s". */
  const DATE_SEPARATORS: string := "-- ::"

  /** `convertDate(d)` (health.js:50-53): the pattern `^(\d+)-(\d+)-(\d+) (\d+):(\d+):(\d+)$`
      and the constructor's arguments, or None where `match` is null and indexing it throws. */
  function ConvertDate(d: string): Option<DateArgs> {
    match Fields(d, DATE_SEPARATORS)
    case None => None
    case Some(v) => Some(DateArgs(v[0], v[1] as int - 1, v[2], v[3], v[4], v[5]))
  }

  /** The strings the parser accepts: the words joined by the separators, one between each two. */
  function Join(ws: seq<string>, seps: string): string
    requires |ws| == |seps| + 1
    decreases |seps|
  {
    if |seps| == 0 then ws[0] else ws[0] + [seps[0]] + Join(ws[1..], seps[1..])
  }

  /** The digit run of a string starting with the digits w and then a non-digit is w. */
  lemma {:induction false} DigitRunPrefix(w: string, rest: string)
    requires forall i :: 0 <= i < |w| ==> IsDigit(w[i])
    requires |rest| > 0 ==> !IsDigit(rest[0])
    ensures DigitRun(w + rest) == |w|
    decreases |w|
  {
    if |w| > 0 {
      assert (w + rest)[1..] == w[1..] + rest;
      DigitRunPrefix(w[1..], rest);
    } else {
      assert w + rest == rest;
    }
  }

  /** The leading run really is made of digits. */
  lemma {:induction false} DigitRunIsDigits(s: string)
    ensures forall i :: 0 <= i < DigitRun(s) ==> IsDigit(s[i])
    decreases |s|
  {
    if |s| > 0 && IsDigit(s[0]) {
      DigitRunIsDigits(s[1..]);
    }
  }

  /** A field reads back as the number its digits denote, and the rest is left. */
  lemma FieldOf(w: string, sep: char, rest: string)
    requires IsDigits(w) && !IsDigit(sep)
    ensures Field(w + [sep] + rest, sep) == Some((Value(w), rest))
  {
    var s := w + [sep] + rest;
    assert s == w + ([sep] + rest);
    DigitRunPrefix(w, [sep] + rest);
    assert s[..|w|] == w;
    assert s[|w| + 1..] == rest;
  }

  /** A field is exactly a digit run and the separator. */
  lemma FieldShape(s: string, sep: char)
    requires Field(s, sep).Some?
    ensures var n := DigitRun(s);
            IsDigits(s[..n]) && s == s[..n] + [sep] + Field(s, sep).value.1 &&
            Field(s, sep).value.0 == Value(s[..n])
  {
    var n := DigitRun(s);
    DigitRunIsDigits(s);
    assert s == s[..n] + [s[n]] + s[n + 1..];
  }

  /** The final field is a whole digit string. */
  lemma LastFieldOf(w: string)
    ensures LastField(w).Some? <==> IsDigits(w)
    ensures LastField(w).Some? ==> LastField(w).value == Value(w)
  {
    if IsDigits(w) {
      DigitRunPrefix(w, []);
      assert w + [] == w;
    }
    if LastField(w).Some? {
      DigitRunIsDigits(w);
    }
  }

  /** Digit words joined by non-digit separators are read back word by word. */
  lemma {:induction false} FieldsOfJoin(ws: seq<string>, seps: string)
    requires |ws| == |seps| + 1
    requires forall i :: 0 <= i < |ws| ==> IsDigits(ws[i])
    requires forall i :: 0 <= i < |seps| ==> !IsDigit(seps[i])
    ensures Fields(Join(ws, seps), seps) == Some(seq(|ws|, i requires 0 <= i < |ws| => Value(ws[i])))
    decreases |seps|
  {
    if |seps| == 0 {
      LastFieldOf(ws[0]);
      assert seq(|ws|, i requires 0 <= i < |ws| => Value(ws[i])) == [Value(ws[0])];
    } else {
      FieldOf(ws[0], seps[0], Join(ws[1..], seps[1..]));
      FieldsOfJoin(ws[1..], seps[1..]);
      var vs := seq(|ws| - 1, i requires 0 <= i < |ws| - 1 => Value(ws[1..][i]));
      assert seq(|ws|, i requires 0 <= i < |ws| => Value(ws[i])) == [Value(ws[0])] + vs;
    }
  }

  /** Whatever the parser accepts is digit words joined by the separators. */
  lemma {:induction false} FieldsOnlyJoin(s: string, seps: string)
    requires Fields(s, seps).Some?
    ensures exists ws :: |ws| == |seps| + 1 && (forall i :: 0 <= i < |ws| ==> IsDigits(ws[i])) && s == Join(ws, seps)
    decreases |seps|
  {
    if |seps| == 0 {
      LastFieldOf(s);
      assert Join([s], seps) == s;
    } else {
      FieldShape(s, seps[0]);
      var rest := Field(s, seps[0]).value.1;
      FieldsOnlyJoin(rest, seps[1..]);
      var ws :| |ws| == |seps| && (forall i :: 0 <= i < |ws| ==> IsDigits(ws[i])) && rest == Join(ws, seps[1..]);
      var w := s[..DigitRun(s)];
      assert ([w] + ws)[1..] == ws;
      assert Join([w] + ws, seps) == s;
    }
  }

  /** The date is built from the parsed numbers, the month made zero-based. */
  lemma ConvertDateFromFields(d: string)
    requires Fields(d, DATE_SEPARATORS).Some?
    ensures var v := Fields(d, DATE_SEPARATORS).value;
            ConvertDate(d) == Some(DateArgs(v[0], v[1] as int - 1, v[2], v[3], v[4], v[5]))
  {
  }

  /** `convertDate` accepts every "Y-M-D h:m:s" string with all-digit fields and builds the date
      from its numbers with the month minus one ... */
  lemma ConvertDateAccepts(ws: seq<string>)
    requires |ws| == 6 && forall i :: 0 <= i < 6 ==> IsDigits(ws[i])
    ensures var r := ConvertDate(Join(ws, DATE_SEPARATORS));
            r.Some? && r.value.year == Value(ws[0]) && r.value.monthIndex == Value(ws[1]) - 1 &&
            r.value.day == Value(ws[2]) && r.value.hours == Value(ws[3]) &&
            r.value.minutes == Value(ws[4]) && r.value.seconds == Value(ws[5])
  {
    var d := Join(ws, DATE_SEPARATORS);
    FieldsOfJoin(ws, DATE_SEPARATORS);
    ConvertDateFromFields(d);
    var v := Fields(d, DATE_SEPARATORS).value;
    assert v[0] == Value(ws[0]);
    assert v[1] == Value(ws[1]);
    assert v[2] == Value(ws[2]);
    assert v[3] == Value(ws[3]);
    assert v[4] == Value(ws[4]);
    assert v[5] == Value(ws[5]);
  }

  /** ... and accepts nothing else. */
  lemma ConvertDateOnlyAccepts(d: string)
    requires ConvertDate(d).Some?
    ensures exists ws :: |ws| == 6 && (forall i :: 0 <= i < 6 ==> IsDigits(ws[i])) && d == Join(ws, DATE_SEPARATORS)
  {
    FieldsOnlyJoin(d, DATE_SEPARATORS);
  }

  // ---- requestAuthorization ----

  /** Gender and date of birth need no HealthKit type and are skipped. */
  predicate Skipped(dt: string) {
    dt == "gender" || dt == "date_of_birth"
  }

  /** The loop of `requestAuthorization` from a given point: the types collected so far, extended
      with the HealthKit type of each further data type, or the first unknown one's message. */
  function CollectInto(acc: seq<string>, dts: seq<string>): Result<seq<string>, string>
    decreases |dts|
  {
    if |dts| == 0 then Success(acc)
    else if Skipped(dts[0]) then CollectInto(acc, dts[1..])
    else if dts[0] in DATA_TYPES then CollectInto(acc + [DATA_TYPES[dts[0]]], dts[1..])
    else Failure("unknown data type " + dts[0])
  }

  /** The data types that need a HealthKit type, in order. */
  function Requested(dts: seq<string>): seq<string>
    decreases |dts|
  {
    if |dts| == 0 then [] else (if Skipped(dts[0]) then [] else [dts[0]]) + Requested(dts[1..])
  }

  /** The collection succeeds exactly when every requested type is known, and then yields their
      HealthKit types in request order after what was collected before. */
  lemma {:induction false} CollectIntoSucceeds(acc: seq<string>, dts: seq<string>)
    ensures CollectInto(acc, dts).Success? <==> forall t :: t in Requested(dts) ==> t in DATA_TYPES
    ensures CollectInto(acc, dts).Success? ==>
              var r := Requested(dts);
              CollectInto(acc, dts).value == acc + seq(|r|, i requires 0 <= i < |r| => DATA_TYPES[r[i]])
    decreases |dts|
  {
    if |dts| > 0 {
      var x := dts[0];
      var rest := Requested(dts[1..]);
      assert Requested(dts) == (if Skipped(x) then [] else [x]) + rest;
      if Skipped(x) {
        CollectIntoSucceeds(acc, dts[1..]);
        assert Requested(dts) == rest;
      } else if x in DATA_TYPES {
        CollectIntoSucceeds(acc + [DATA_TYPES[x]], dts[1..]);
        var r := Requested(dts);
        assert r == [x] + rest;
        if CollectInto(acc, dts).Success? {
          var tail := seq(|rest|, i requires 0 <= i < |rest| => DATA_TYPES[rest[i]]);
          assert seq(|r|, i requires 0 <= i < |r| => DATA_TYPES[r[i]]) == [DATA_TYPES[x]] + tail;
        }
      } else {
        assert Requested(dts)[0] == x;
      }
    }
  }

  /** A failed collection names the first requested type that is not known. */
  lemma {:induction false} CollectIntoFails(acc: seq<string>, dts: seq<string>)
    ensures CollectInto(acc, dts).Failure? ==>
              exists i :: 0 <= i < |Requested(dts)| && Requested(dts)[i] !in DATA_TYPES &&
                (forall j :: 0 <= j < i ==> Requested(dts)[j] in DATA_TYPES) &&
                CollectInto(acc, dts).error == "unknown data type " + Requested(dts)[i]
    decreases |dts|
  {
    if |dts| > 0 {
      var x := dts[0];
      var rest := Requested(dts[1..]);
      var r := Requested(dts);
      assert r == (if Skipped(x) then [] else [x]) + rest;
      if Skipped(x) {
        CollectIntoFails(acc, dts[1..]);
        assert r == rest;
      } else if x in DATA_TYPES {
        CollectIntoFails(acc + [DATA_TYPES[x]], dts[1..]);
        if CollectInto(acc, dts).Failure? {
          var i :| 0 <= i < |rest| && rest[i] !in DATA_TYPES &&
                   (forall j :: 0 <= j < i ==> rest[j] in DATA_TYPES) &&
                   CollectInto(acc, dts).error == "unknown data type " + rest[i];
          assert r[i + 1] == rest[i];
          assert forall j :: 1 <= j < i + 1 ==> r[j] == rest[j - 1];
        }
      } else {
        assert r[0] == x;
      }
    }
  }

  /** What `requestAuthorization` ends in: `onError` with a message, the HealthKit request with
      the same read and write types, or `onSuccess` straight away when there is nothing to ask. */
  datatype AuthOutcome = AuthError(message: string) | AskHealthKit(readTypes: seq<string>, writeTypes: seq<string>) | AuthSuccess

  function AuthorizationFor(dts: seq<string>): AuthOutcome {
    match CollectInto([], dts)
    case Failure(m) => AuthError(m)
    case Success(ts) => if |ts| > 0 then AskHealthKit(ts, ts) else AuthSuccess
  }

  /** `requestAuthorization(dts, onSuccess, onError)` (health.js:27-45). */
  method RequestAuthorization(dts: seq<string>) returns (outcome: AuthOutcome)
    ensures outcome == AuthorizationFor(dts)
  {
    var hkDataTypes: seq<string> := [];
    var i := 0;
    while i < |dts|
      invariant 0 <= i <= |dts|
      invariant CollectInto(hkDataTypes, dts[i..]) == CollectInto([], dts)
    {
      assert dts[i..][1..] == dts[i + 1..];
      if !Skipped(dts[i]) {
        if dts[i] in DATA_TYPES {
          hkDataTypes := hkDataTypes + [DATA_TYPES[dts[i]]];
        } else {
          return AuthError("unknown data type " + dts[i]);
        }
      }
      i := i + 1;
    }
    if |hkDataTypes| > 0 {
      outcome := AskHealthKit(hkDataTypes, hkDataTypes);
    } else {
      outcome := AuthSuccess;
    }
  }

  /** HealthKit is asked exactly when some requested type is neither gender nor date of birth and
      all of them are known; it is never asked for an empty list. */
  lemma AuthorizationSpec(dts: seq<string>)
    ensures AuthorizationFor(dts).AskHealthKit? <==>
              |Requested(dts)| > 0 && forall t :: t in Requested(dts) ==> t in DATA_TYPES
    ensures AuthorizationFor(dts) == AuthSuccess <==> |Requested(dts)| == 0
    ensures AuthorizationFor(dts).AskHealthKit? ==>
              |AuthorizationFor(dts).readTypes| == |Requested(dts)| && AuthorizationFor(dts).readTypes == AuthorizationFor(dts).writeTypes
  {
    CollectIntoSucceeds([], dts);
  }

  // ---- query ----

  /** The data type named in an options object, when it is a string. */
  function DataTypeName(props: map<string, JsValue>): Option<string> {
    if Get(props, "dataType").Str? then Some(Get(props, "dataType").s) else None
  }

  /** Which branch of `query` a request takes (health.js:55-148). */
  datatype QueryRoute = ReadGender | ReadDateOfBirth | FindWorkouts | QuerySamples(dataType: string) | UnknownQuery

  function RouteOf(dataType: Option<string>): QueryRoute {
    match dataType
    case None => UnknownQuery
    case Some(dt) =>
      if dt == "gender" then ReadGender
      else if dt == "date_of_birth" then ReadDateOfBirth
      else if dt == "activity" then FindWorkouts
      else if dt in DATA_TYPES then QuerySamples(dt)
      else UnknownQuery
  }

  /** The options passed on for a sample query: the HealthKit type, and the table unit. */
  function PreparedOptions(props: map<string, JsValue>, dt: string): map<string, JsValue>
    requires dt in DATA_TYPES
  {
    var p := props["sampleType" := Str(DATA_TYPES[dt])];
    if dt in UNITS then p["unit" := Str(UNITS[dt])] else p
  }

  /** The first part of `query`: chooses the branch and, for a sample type, writes `sampleType` and
      `unit` into the options. An unknown type throws a ReferenceError. */
  method PrepareQuery(opts: JsObject) returns (route: QueryRoute, error: Option<string>)
    modifies opts
    ensures route == RouteOf(DataTypeName(old(opts.props)))
    ensures error == (if route.UnknownQuery? then Some(UNDEFINED_DTS) else None)
    ensures route.QuerySamples? ==> opts.props == PreparedOptions(old(opts.props), route.dataType)
    ensures !route.QuerySamples? ==> opts.props == old(opts.props)
  {
    route := RouteOf(DataTypeName(opts.props));
    error := None;
    if route.QuerySamples? {
      var dt := route.dataType;
      opts.props := opts.props["sampleType" := Str(DATA_TYPES[dt])];
      if dt in UNITS {
        opts.props := opts.props["unit" := Str(UNITS[dt])];
      }
    } else if route.UnknownQuery? {
      error := Some(UNDEFINED_DTS);
    }
  }

  /** A prepared sample query names the type's HealthKit identifier and its table unit, and keeps
      every other option. */
  lemma PreparedOptionsSpec(props: map<string, JsValue>, dt: string)
    requires dt in DATA_TYPES
    ensures Get(PreparedOptions(props, dt), "sampleType") == Str(DATA_TYPES[dt])
    ensures Get(PreparedOptions(props, dt), "unit") == Str(UNITS[dt])
    ensures forall k :: k != "sampleType" && k != "unit" ==> Get(PreparedOptions(props, dt), k) == Get(props, k)
  {
    UnitsCoverDataTypes();
  }

  /** A workout as the native side returns it: dates as strings, HealthKit's activity identifier. */
  datatype Workout = Workout(startDate: string, endDate: string, activityType: string, sourceName: string)

  /** An element of the activity result. */
  datatype ActivitySample = ActivitySample(startDate: DateArgs, endDate: DateArgs, value: string, unit: string, source: string)

  /** How the loops read a date string. The code uses `ConvertDate`; the properties below hold for
      any reader, so they are stated over a parameter `parse`. */
  type DateReader = string -> Option<DateArgs>

  /** A workout inside [from, to] once its dates are read, given the local-time reading `toMs` of
      `new Date(...)`. */
  predicate InWindow(from: int, to: int, toMs: DateArgs -> int, s: DateArgs, e: DateArgs) {
    toMs(s) >= from && toMs(e) <= to
  }

  const BAD_DATE: string := "TypeError: Cannot read properties of null"
  const UNDEFINED_FROM_HK: string := "ReferenceError: fromHKActivity is not defined"

  /** The result of the workout loop over the remaining workouts, labelling each kept workout with
      `labelOf` (the code intends `fromHKActivity`): a workout whose dates cannot be read throws; one
      inside the window is kept. */
  function KeptWorkouts(parse: DateReader, labelOf: string -> string, from: int, to: int, toMs: DateArgs -> int, acc: seq<ActivitySample>, data: seq<Workout>)
    : Result<seq<ActivitySample>, string>
    decreases |data|
  {
    if |data| == 0 then Success(acc)
    else
      var w := data[0];
      match (parse(w.startDate), parse(w.endDate))
      case (None, _) => Failure(BAD_DATE)
      case (_, None) => Failure(BAD_DATE)
      case (Some(s), Some(e)) =>
        if InWindow(from, to, toMs, s, e) then
          KeptWorkouts(parse, labelOf, from, to, toMs, acc + [ActivitySample(s, e, labelOf(w.activityType), "activityType", w.sourceName)], data[1..])
        else KeptWorkouts(parse, labelOf, from, to, toMs, acc, data[1..])
  }

  /** The same loop as written: the bare name `fromHKActivity` is not in scope (it exists only as a
      method of `Health.prototype`), so the first workout inside the window throws. */
  function KeptWorkoutsAsWritten(parse: DateReader, from: int, to: int, toMs: DateArgs -> int, acc: seq<ActivitySample>, data: seq<Workout>)
    : Result<seq<ActivitySample>, string>
    decreases |data|
  {
    if |data| == 0 then Success(acc)
    else
      var w := data[0];
      match (parse(w.startDate), parse(w.endDate))
      case (None, _) => Failure(BAD_DATE)
      case (_, None) => Failure(BAD_DATE)
      case (Some(s), Some(e)) =>
        if InWindow(from, to, toMs, s, e) then Failure(UNDEFINED_FROM_HK)
        else KeptWorkoutsAsWritten(parse, from, to, toMs, acc, data[1..])
  }

  predicate Parses(parse: DateReader, w: Workout) {
    parse(w.startDate).Some? && parse(w.endDate).Some?
  }

  predicate Kept(parse: DateReader, from: int, to: int, toMs: DateArgs -> int, w: Workout)
    requires Parses(parse, w)
  {
    InWindow(from, to, toMs, parse(w.startDate).value, parse(w.endDate).value)
  }

  function Labelled(parse: DateReader, labelOf: string -> string, w: Workout): ActivitySample
    requires Parses(parse, w)
  {
    ActivitySample(parse(w.startDate).value, parse(w.endDate).value, labelOf(w.activityType), "activityType", w.sourceName)
  }

  /** The loop succeeds exactly when every workout's dates can be read. */
  lemma {:induction false} KeptWorkoutsParse(parse: DateReader, labelOf: string -> string, from: int, to: int, toMs: DateArgs -> int, acc: seq<ActivitySample>, data: seq<Workout>)
    ensures KeptWorkouts(parse, labelOf, from, to, toMs, acc, data).Success? <==> forall i :: 0 <= i < |data| ==> Parses(parse, data[i])
    decreases |data|
  {
    if |data| > 0 && Parses(parse, data[0]) {
      var w := data[0];
      var tail := data[1..];
      var acc' := if Kept(parse, from, to, toMs, w) then acc + [Labelled(parse, labelOf, w)] else acc;
      KeptWorkoutsParse(parse, labelOf, from, to, toMs, acc', tail);
      if forall i :: 0 <= i < |tail| ==> Parses(parse, tail[i]) {
        forall i | 0 <= i < |data|
          ensures Parses(parse, data[i])
        {
          if i > 0 {
            assert data[i] == tail[i - 1];
          }
        }
      } else {
        var j :| 0 <= j < |tail| && !Parses(parse, tail[j]);
        assert tail[j] == data[j + 1];
      }
    }
  }

  /** x is the labelled sample of some workout of data that lies inside the window. */
  ghost predicate Drawn(parse: DateReader, labelOf: string -> string, from: int, to: int, toMs: DateArgs -> int, data: seq<Workout>, x: ActivitySample) {
    exists i :: 0 <= i < |data| && Parses(parse, data[i]) && Kept(parse, from, to, toMs, data[i]) && x == Labelled(parse, labelOf, data[i])
  }

  /** `out` lists, in input order and once each, exactly the workouts of `data` that lie inside the
      window, each labelled: `idx` holds their positions, strictly increasing, and every workout
      inside the window has its position in `idx`. */
  ghost predicate Selects(parse: DateReader, labelOf: string -> string, from: int, to: int, toMs: DateArgs -> int, data: seq<Workout>, idx: seq<nat>, out: seq<ActivitySample>) {
    Picks(parse, labelOf, from, to, toMs, data, idx, out) && Ascending(idx) && Covers(parse, from, to, toMs, data, idx)
  }

  /** Entry k of `out` is the labelled sample of workout idx[k], which lies inside the window. */
  ghost predicate Picks(parse: DateReader, labelOf: string -> string, from: int, to: int, toMs: DateArgs -> int, data: seq<Workout>, idx: seq<nat>, out: seq<ActivitySample>) {
    |idx| == |out| &&
    forall k :: 0 <= k < |idx| ==>
      idx[k] < |data| && Parses(parse, data[idx[k]]) && Kept(parse, from, to, toMs, data[idx[k]]) &&
      out[k] == Labelled(parse, labelOf, data[idx[k]])
  }

  ghost predicate Ascending(idx: seq<nat>) {
    forall k, l :: 0 <= k < l < |idx| ==> idx[k] < idx[l]
  }

  /** Every workout inside the window has its position in `idx`. */
  ghost predicate Covers(parse: DateReader, from: int, to: int, toMs: DateArgs -> int, data: seq<Workout>, idx: seq<nat>) {
    forall i :: 0 <= i < |data| && Parses(parse, data[i]) && Kept(parse, from, to, toMs, data[i]) ==> i in idx
  }

  /** The positions of the tail shifted past the head, behind the head's own position when it is kept. */
  function ConsIndices(kept: bool, idx: seq<nat>): (r: seq<nat>)
    ensures |r| == |idx| + (if kept then 1 else 0)
  {
    (if kept then [0] else []) + seq(|idx|, k requires 0 <= k < |idx| => idx[k] + 1)
  }

  /** A selection from the tail, with the head's sample in front when it is kept, is a selection
      from the whole input. */
  lemma SelectsCons(parse: DateReader, labelOf: string -> string, from: int, to: int, toMs: DateArgs -> int, data: seq<Workout>, idx: seq<nat>, out: seq<ActivitySample>)
    requires |data| > 0 && Parses(parse, data[0])
    requires Selects(parse, labelOf, from, to, toMs, data[1..], idx, out)
    ensures
      var kept := Kept(parse, from, to, toMs, data[0]);
      Selects(parse, labelOf, from, to, toMs, data, ConsIndices(kept, idx),
              (if kept then [Labelled(parse, labelOf, data[0])] else []) + out)
  {
    var kept := Kept(parse, from, to, toMs, data[0]);
    PicksCons(parse, labelOf, from, to, toMs, data, idx, out);
    AscendingCons(kept, idx);
    CoversCons(parse, from, to, toMs, data, idx);
  }

  lemma PicksCons(parse: DateReader, labelOf: string -> string, from: int, to: int, toMs: DateArgs -> int, data: seq<Workout>, idx: seq<nat>, out: seq<ActivitySample>)
    requires |data| > 0 && Parses(parse, data[0])
    requires Picks(parse, labelOf, from, to, toMs, data[1..], idx, out)
    ensures
      var kept := Kept(parse, from, to, toMs, data[0]);
      Picks(parse, labelOf, from, to, toMs, data, ConsIndices(kept, idx),
            (if kept then [Labelled(parse, labelOf, data[0])] else []) + out)
  {
    var kept := Kept(parse, from, to, toMs, data[0]);
    var idx' := ConsIndices(kept, idx);
    var out' := (if kept then [Labelled(parse, labelOf, data[0])] else []) + out;
    var h := if kept then 1 else 0;
    forall k | 0 <= k < |idx'|
      ensures idx'[k] < |data| && Parses(parse, data[idx'[k]]) && Kept(parse, from, to, toMs, data[idx'[k]]) &&
              out'[k] == Labelled(parse, labelOf, data[idx'[k]])
    {
      if k >= h {
        assert idx'[k] == idx[k - h] + 1 && out'[k] == out[k - h];
        assert data[idx'[k]] == data[1..][idx[k - h]];
      }
    }
  }

  lemma AscendingCons(kept: bool, idx: seq<nat>)
    requires Ascending(idx)
    ensures Ascending(ConsIndices(kept, idx))
  {
    var idx' := ConsIndices(kept, idx);
    var h := if kept then 1 else 0;
    forall k, l | 0 <= k < l < |idx'|
      ensures idx'[k] < idx'[l]
    {
      assert idx'[l] == idx[l - h] + 1;
      if k >= h {
        assert idx'[k] == idx[k - h] + 1;
      }
    }
  }

  lemma CoversCons(parse: DateReader, from: int, to: int, toMs: DateArgs -> int, data: seq<Workout>, idx: seq<nat>)
    requires |data| > 0 && Parses(parse, data[0])
    requires Covers(parse, from, to, toMs, data[1..], idx)
    ensures Covers(parse, from, to, toMs, data, ConsIndices(Kept(parse, from, to, toMs, data[0]), idx))
  {
    var kept := Kept(parse, from, to, toMs, data[0]);
    var idx' := ConsIndices(kept, idx);
    var h := if kept then 1 else 0;
    forall i | 0 <= i < |data| && Parses(parse, data[i]) && Kept(parse, from, to, toMs, data[i])
      ensures i in idx'
    {
      if i > 0 {
        assert data[1..][i - 1] == data[i];
        var k :| 0 <= k < |idx| && idx[k] == i - 1;
        assert idx'[k + h] == i;
      } else {
        assert idx'[0] == 0;
      }
    }
  }

  /** What the loop returns keeps what came before, and then lists, in input order and once each,
      exactly the workouts of the input that lie inside the window, each labelled by `labelOf`
      (the code means `fromHKActivity`). */
  lemma {:induction false} KeptWorkoutsSound(parse: DateReader, labelOf: string -> string, from: int, to: int, toMs: DateArgs -> int, acc: seq<ActivitySample>, data: seq<Workout>)
    ensures KeptWorkouts(parse, labelOf, from, to, toMs, acc, data).Success? ==>
              var r := KeptWorkouts(parse, labelOf, from, to, toMs, acc, data).value;
              |acc| <= |r| && r[..|acc|] == acc &&
              (forall k :: |acc| <= k < |r| ==> Drawn(parse, labelOf, from, to, toMs, data, r[k])) &&
              exists idx: seq<nat> :: Selects(parse, labelOf, from, to, toMs, data, idx, r[|acc|..])
    decreases |data|
  {
    KeptWorkoutsSelects(parse, labelOf, from, to, toMs, acc, data);
    if |data| > 0 && Parses(parse, data[0]) {
      var w := data[0];
      var tail := data[1..];
      var acc' := if Kept(parse, from, to, toMs, w) then acc + [Labelled(parse, labelOf, w)] else acc;
      KeptWorkoutsSound(parse, labelOf, from, to, toMs, acc', tail);
      var whole := KeptWorkouts(parse, labelOf, from, to, toMs, acc, data);
      assert whole == KeptWorkouts(parse, labelOf, from, to, toMs, acc', tail);
      if whole.Success? {
        var r := whole.value;
        assert r[..|acc|] == acc'[..|acc|];
        forall k | |acc| <= k < |r|
          ensures Drawn(parse, labelOf, from, to, toMs, data, r[k])
        {
          if k < |acc'| {
            assert r[k] == r[..|acc'|][k] == acc'[k] == Labelled(parse, labelOf, data[0]);
            DrawnHead(parse, labelOf, from, to, toMs, data);
          } else {
            DrawnTail(parse, labelOf, from, to, toMs, data, r[k]);
          }
        }
      }
    }
  }

  /** The positions behind what the loop returns after `acc`: see `Selects`. */
  lemma {:induction false} KeptWorkoutsSelects(parse: DateReader, labelOf: string -> string, from: int, to: int, toMs: DateArgs -> int, acc: seq<ActivitySample>, data: seq<Workout>)
    ensures KeptWorkouts(parse, labelOf, from, to, toMs, acc, data).Success? ==>
              var r := KeptWorkouts(parse, labelOf, from, to, toMs, acc, data).value;
              |acc| <= |r| && r[..|acc|] == acc &&
              exists idx: seq<nat> :: Selects(parse, labelOf, from, to, toMs, data, idx, r[|acc|..])
    decreases |data|
  {
    if |data| == 0 {
      var r := KeptWorkouts(parse, labelOf, from, to, toMs, acc, data).value;
      assert Selects(parse, labelOf, from, to, toMs, data, [], r[|acc|..]);
    } else if Parses(parse, data[0]) {
      var w := data[0];
      var tail := data[1..];
      var kept := Kept(parse, from, to, toMs, w);
      var acc' := if kept then acc + [Labelled(parse, labelOf, w)] else acc;
      KeptWorkoutsSelects(parse, labelOf, from, to, toMs, acc', tail);
      var whole := KeptWorkouts(parse, labelOf, from, to, toMs, acc, data);
      assert whole == KeptWorkouts(parse, labelOf, from, to, toMs, acc', tail);
      if whole.Success? {
        var r := whole.value;
        assert r[..|acc|] == acc'[..|acc|];
        assert r[|acc|..|acc'|] == acc'[|acc|..] == (if kept then [Labelled(parse, labelOf, w)] else []);
        assert r[|acc|..] == r[|acc|..|acc'|] + r[|acc'|..];
        var idxT: seq<nat> :| Selects(parse, labelOf, from, to, toMs, tail, idxT, r[|acc'|..]);
        SelectsCons(parse, labelOf, from, to, toMs, data, idxT, r[|acc'|..]);
      }
    }
  }

  lemma DrawnHead(parse: DateReader, labelOf: string -> string, from: int, to: int, toMs: DateArgs -> int, data: seq<Workout>)
    requires |data| > 0 && Parses(parse, data[0]) && Kept(parse, from, to, toMs, data[0])
    ensures Drawn(parse, labelOf, from, to, toMs, data, Labelled(parse, labelOf, data[0]))
  {
    assert 0 < |data|;
  }

  lemma DrawnTail(parse: DateReader, labelOf: string -> string, from: int, to: int, toMs: DateArgs -> int, data: seq<Workout>, x: ActivitySample)
    requires |data| > 0 && Drawn(parse, labelOf, from, to, toMs, data[1..], x)
    ensures Drawn(parse, labelOf, from, to, toMs, data, x)
  {
    var i :| 0 <= i < |data[1..]| && Parses(parse, data[1..][i]) && Kept(parse, from, to, toMs, data[1..][i]) && x == Labelled(parse, labelOf, data[1..][i]);
    assert data[i + 1] == data[1..][i];
  }

  /** Every workout inside the window appears in what the loop returns, after what came before. */
  lemma {:induction false} KeptWorkoutsComplete(parse: DateReader, labelOf: string -> string, from: int, to: int, toMs: DateArgs -> int, acc: seq<ActivitySample>, data: seq<Workout>)
    ensures KeptWorkouts(parse, labelOf, from, to, toMs, acc, data).Success? ==>
              var r := KeptWorkouts(parse, labelOf, from, to, toMs, acc, data).value;
              |acc| <= |r| &&
              forall i :: 0 <= i < |data| && Parses(parse, data[i]) && Kept(parse, from, to, toMs, data[i]) ==>
                Labelled(parse, labelOf, data[i]) in r[|acc|..]
    decreases |data|
  {
    if |data| > 0 && Parses(parse, data[0]) {
      var w := data[0];
      var tail := data[1..];
      var acc' := if Kept(parse, from, to, toMs, w) then acc + [Labelled(parse, labelOf, w)] else acc;
      KeptWorkoutsComplete(parse, labelOf, from, to, toMs, acc', tail);
      KeptWorkoutsSound(parse, labelOf, from, to, toMs, acc', tail);
      assert KeptWorkouts(parse, labelOf, from, to, toMs, acc, data) == KeptWorkouts(parse, labelOf, from, to, toMs, acc', tail);
      assert KeptWorkouts(parse, labelOf, from, to, toMs, acc, data) == KeptWorkouts(parse, labelOf, from, to, toMs, acc', tail);
      if KeptWorkouts(parse, labelOf, from, to, toMs, acc', tail).Success? {
        var r := KeptWorkouts(parse, labelOf, from, to, toMs, acc', tail).value;
        forall i | 0 <= i < |data| && Parses(parse, data[i]) && Kept(parse, from, to, toMs, data[i])
          ensures Labelled(parse, labelOf, data[i]) in r[|acc|..]
        {
          if i == 0 {
            assert r[|acc|..][0] == r[|acc|] == acc'[|acc|];
          } else {
            assert data[i] == tail[i - 1];
            assert r[|acc'|..] == r[|acc|..][|acc'| - |acc|..];
          }
        }
      }
    }
  }

  /** The intended loop never drops what it has already kept. */
  lemma {:induction false} KeptGrows(parse: DateReader, labelOf: string -> string, from: int, to: int, toMs: DateArgs -> int, acc: seq<ActivitySample>, data: seq<Workout>)
    ensures KeptWorkouts(parse, labelOf, from, to, toMs, acc, data).Success? ==>
              |KeptWorkouts(parse, labelOf, from, to, toMs, acc, data).value| >= |acc|
    decreases |data|
  {
    if |data| > 0 && Parses(parse, data[0]) {
      var w := data[0];
      var acc' := if Kept(parse, from, to, toMs, w) then acc + [Labelled(parse, labelOf, w)] else acc;
      KeptGrows(parse, labelOf, from, to, toMs, acc', data[1..]);
    }
  }

  /** As written, a successful activity query always returns nothing ... */
  lemma {:induction false} WorkoutsAsWrittenEmpty(parse: DateReader, from: int, to: int, toMs: DateArgs -> int, data: seq<Workout>)
    ensures KeptWorkoutsAsWritten(parse, from, to, toMs, [], data).Success? ==> KeptWorkoutsAsWritten(parse, from, to, toMs, [], data).value == []
    decreases |data|
  {
    if |data| > 0 && Parses(parse, data[0]) && !Kept(parse, from, to, toMs, data[0]) {
      WorkoutsAsWrittenEmpty(parse, from, to, toMs, data[1..]);
    }
  }

  /** ... because it throws wherever the intended loop would have returned a workout, and agrees
      with it when that loop returns none. */
  lemma {:induction false} WorkoutsAsWrittenFails(parse: DateReader, labelOf: string -> string, from: int, to: int, toMs: DateArgs -> int, data: seq<Workout>)
    ensures KeptWorkouts(parse, labelOf, from, to, toMs, [], data).Success? && KeptWorkouts(parse, labelOf, from, to, toMs, [], data).value != [] ==>
              KeptWorkoutsAsWritten(parse, from, to, toMs, [], data) == Failure(UNDEFINED_FROM_HK)
    ensures KeptWorkouts(parse, labelOf, from, to, toMs, [], data) == Success([]) ==>
              KeptWorkoutsAsWritten(parse, from, to, toMs, [], data) == Success([])
    ensures KeptWorkoutsAsWritten(parse, from, to, toMs, [], data).Success? ==>
              KeptWorkouts(parse, labelOf, from, to, toMs, [], data) == Success([])
    decreases |data|
  {
    if |data| > 0 && Parses(parse, data[0]) {
      var w := data[0];
      if Kept(parse, from, to, toMs, w) {
        assert [] + [Labelled(parse, labelOf, w)] == [Labelled(parse, labelOf, w)];
        assert KeptWorkouts(parse, labelOf, from, to, toMs, [], data) ==
               KeptWorkouts(parse, labelOf, from, to, toMs, [Labelled(parse, labelOf, w)], data[1..]);
        KeptGrows(parse, labelOf, from, to, toMs, [Labelled(parse, labelOf, w)], data[1..]);
      } else {
        WorkoutsAsWrittenFails(parse, labelOf, from, to, toMs, data[1..]);
      }
    }
  }

  /** The workout loop of `query` (health.js:82-98) with the label lookup the code intends. */
  method FilterWorkouts(from: int, to: int, toMs: DateArgs -> int, data: seq<Workout>) returns (r: Result<seq<ActivitySample>, string>)
    ensures r == KeptWorkouts(ConvertDate, FromHK, from, to, toMs, [], data)
  {
    var result: seq<ActivitySample> := [];
    var i := 0;
    while i < |data|
      invariant 0 <= i <= |data|
      invariant KeptWorkouts(ConvertDate, FromHK, from, to, toMs, result, data[i..]) == KeptWorkouts(ConvertDate, FromHK, from, to, toMs, [], data)
    {
      assert data[i..][1..] == data[i + 1..];
      var s := ConvertDate(data[i].startDate);
      if s.None? {
        return Failure(BAD_DATE);
      }
      var e := ConvertDate(data[i].endDate);
      if e.None? {
        return Failure(BAD_DATE);
      }
      if toMs(s.value) >= from && toMs(e.value) <= to {
        result := result + [ActivitySample(s.value, e.value, FromHK(data[i].activityType), "activityType", data[i].sourceName)];
      }
      i := i + 1;
    }
    return Success(result);
  }

  /** A quantity sample as the native side returns it. */
  datatype QuantitySample = QuantitySample(startDate: string, endDate: string, quantity: JsValue, unit: JsValue, sourceName: string)

  /** An element of a sample result; `unit` is undefined when neither source gives one. */
  datatype SampleOut = SampleOut(startDate: DateArgs, endDate: DateArgs, value: JsValue, unit: JsValue, source: string)

  /** `if (data[i].unit) res.unit = data[i].unit; if (opts.unit) res.unit = opts.unit;` */
  function UnitOf(optsUnit: JsValue, sampleUnit: JsValue): (u: JsValue)
    ensures Truthy(optsUnit) ==> u == optsUnit
    ensures !Truthy(optsUnit) && Truthy(sampleUnit) ==> u == sampleUnit
    ensures !Truthy(optsUnit) && !Truthy(sampleUnit) ==> u == Undefined
  {
    var u := if Truthy(sampleUnit) then sampleUnit else Undefined;
    if Truthy(optsUnit) then optsUnit else u
  }

  /** The outcome of a sample query: weight and height fall back to the user's Health profile
      (read in "kg" or "m") when nothing was found, other types list their samples. */
  datatype SampleOutcome = FallbackRead(dataType: string, unit: string) | Samples(samples: seq<SampleOut>)

  function ToSampleOut(parse: DateReader, optsUnit: JsValue, q: QuantitySample): Option<SampleOut> {
    match (parse(q.startDate), parse(q.endDate))
    case (Some(s), Some(e)) => Some(SampleOut(s, e, q.quantity, UnitOf(optsUnit, q.unit), q.sourceName))
    case _ => None
  }

  function SamplesFrom(parse: DateReader, optsUnit: JsValue, acc: seq<SampleOut>, data: seq<QuantitySample>): Result<seq<SampleOut>, string>
    decreases |data|
  {
    if |data| == 0 then Success(acc)
    else
      match ToSampleOut(parse, optsUnit, data[0])
      case None => Failure(BAD_DATE)
      case Some(o) => SamplesFrom(parse, optsUnit, acc + [o], data[1..])
  }

  function SampleResult(parse: DateReader, dt: string, optsUnit: JsValue, data: seq<QuantitySample>): Result<SampleOutcome, string> {
    if dt == "weight" && |data| == 0 then Success(FallbackRead(dt, "kg"))
    else if dt == "height" && |data| == 0 then Success(FallbackRead(dt, "m"))
    else
      match SamplesFrom(parse, optsUnit, [], data)
      case Failure(e) => Failure(e)
      case Success(r) => Success(Samples(r))
  }

  /** The samples come back one for one, in order, with the quantity and source of each, and the
      unit given by the options when they have one. */
  lemma {:induction false} SamplesFromSpec(parse: DateReader, optsUnit: JsValue, acc: seq<SampleOut>, data: seq<QuantitySample>)
    ensures SamplesFrom(parse, optsUnit, acc, data).Success? <==> forall i :: 0 <= i < |data| ==> ToSampleOut(parse, optsUnit, data[i]).Some?
    ensures SamplesFrom(parse, optsUnit, acc, data).Success? ==>
              var r := SamplesFrom(parse, optsUnit, acc, data).value;
              |r| == |acc| + |data| && r[..|acc|] == acc &&
              forall i :: 0 <= i < |data| ==> r[|acc| + i] == ToSampleOut(parse, optsUnit, data[i]).value
    decreases |data|
  {
    if |data| > 0 {
      var o := ToSampleOut(parse, optsUnit, data[0]);
      var tail := data[1..];
      if o.Some? {
        var acc' := acc + [o.value];
        SamplesFromSpec(parse, optsUnit, acc', tail);
        assert SamplesFrom(parse, optsUnit, acc, data) == SamplesFrom(parse, optsUnit, acc', tail);
        if SamplesFrom(parse, optsUnit, acc, data).Success? {
          var r := SamplesFrom(parse, optsUnit, acc, data).value;
          assert r[..|acc|] == acc'[..|acc|];
          forall i | 0 <= i < |data|
            ensures r[|acc| + i] == ToSampleOut(parse, optsUnit, data[i]).value
          {
            if i == 0 {
              assert r[|acc|] == acc'[|acc|];
            } else {
              assert tail[i - 1] == data[i];
              assert r[|acc'| + (i - 1)] == ToSampleOut(parse, optsUnit, tail[i - 1]).value;
            }
          }
        } else {
          var j :| 0 <= j < |tail| && ToSampleOut(parse, optsUnit, tail[j]).None?;
          assert tail[j] == data[j + 1];
        }
      }
    }
  }

  /** With options prepared for a known type, every sample is reported in the table unit,
      whatever unit HealthKit gave it, and with its own quantity. */
  lemma SampleUnitIsTableUnit(parse: DateReader, props: map<string, JsValue>, dt: string, data: seq<QuantitySample>)
    requires dt in DATA_TYPES
    requires SampleResult(parse, dt, Get(PreparedOptions(props, dt), "unit"), data).Success?
    requires SampleResult(parse, dt, Get(PreparedOptions(props, dt), "unit"), data).value.Samples?
    ensures var r := SampleResult(parse, dt, Get(PreparedOptions(props, dt), "unit"), data).value.samples;
            |r| == |data| && forall i :: 0 <= i < |r| ==> r[i].unit == Str(UNITS[dt]) && r[i].value == data[i].quantity
  {
    PreparedOptionsSpec(props, dt);
    var u := Get(PreparedOptions(props, dt), "unit");
    SamplesFromSpec(parse, u, [], data);
    var r := SampleResult(parse, dt, u, data).value.samples;
    forall i | 0 <= i < |r|
      ensures r[i].unit == Str(UNITS[dt]) && r[i].value == data[i].quantity
    {
      assert r[0 + i] == ToSampleOut(parse, u, data[i]).value;
    }
  }

  /** The sample loop of `query` (health.js:132-143). */
  method ReadSamples(optsUnit: JsValue, data: seq<QuantitySample>) returns (r: Result<seq<SampleOut>, string>)
    ensures r == SamplesFrom(ConvertDate, optsUnit, [], data)
  {
    var result: seq<SampleOut> := [];
    var i := 0;
    while i < |data|
      invariant 0 <= i <= |data|
      invariant SamplesFrom(ConvertDate, optsUnit, result, data[i..]) == SamplesFrom(ConvertDate, optsUnit, [], data)
    {
      assert data[i..][1..] == data[i + 1..];
      var start := ConvertDate(data[i].startDate);
      if start.None? {
        return Failure(BAD_DATE);
      }
      var end := ConvertDate(data[i].endDate);
      if end.None? {
        return Failure(BAD_DATE);
      }
      result := result + [SampleOut(start.value, end.value, data[i].quantity, UnitOf(optsUnit, data[i].unit), data[i].sourceName)];
      i := i + 1;
    }
    assert data[i..] == [];
    return Success(result);
  }

  /** The answer to a sample query (health.js:104-144): the profile fall-back for an empty weight
      or height result, otherwise the sample loop. */
  method CollectSamples(dt: string, optsUnit: JsValue, data: seq<QuantitySample>) returns (r: Result<SampleOutcome, string>)
    ensures r == SampleResult(ConvertDate, dt, optsUnit, data)
  {
    if dt == "weight" && |data| == 0 {
      return Success(FallbackRead(dt, "kg"));
    }
    if dt == "height" && |data| == 0 {
      return Success(FallbackRead(dt, "m"));
    }
    var samples := ReadSamples(optsUnit, data);
    match samples
    case Failure(e) => r := Failure(e);
    case Success(list) => r := Success(Samples(list));
  }

  // ---- store ----

  /** Where `store` ends: a refusal through `onError`, a thrown error, or the HealthKit save it
      hands the (updated) data object to. */
  datatype StoreOutcome = Refused(message: string) | Thrown(error: string) | SaveWorkout | SaveQuantitySample

  const UNDEFINED_TO_HK: string := "ReferenceError: toHKActivity is not defined"

  /** `toHKActivity(data.value)`: the `switch` compares with `===`, so a non-string value gets the
      default. */
  function ToHKValue(v: JsValue): string {
    if v.Str? then ToHK(v.s) else OTHER_ID
  }

  /** The outcome and the data object after `store` with the intended activity lookup. */
  function Stored(props: map<string, JsValue>): (StoreOutcome, map<string, JsValue>) {
    match DataTypeName(props)
    case Some(dt) =>
      if dt == "gender" then (Refused("Gender is not writeable"), props)
      else if dt == "date_of_birth" then (Refused("Date of birth is not writeable"), props)
      else if dt == "activity" then (SaveWorkout, props["activityType" := Str(ToHKValue(Get(props, "value")))])
      else if dt in DATA_TYPES then
        var p := props["sampleType" := Str(DATA_TYPES[dt])]["amount" := Get(props, "value")];
        (SaveQuantitySample, if dt in UNITS then p["unit" := Str(UNITS[dt])] else p)
      else (Thrown(UNDEFINED_DTS), props)
    case None => (Thrown(UNDEFINED_DTS), props)
  }

  /** `store` as written: the bare name `toHKActivity` is not in scope, so an activity throws
      before anything is written or saved. */
  function StoredAsWritten(props: map<string, JsValue>): (StoreOutcome, map<string, JsValue>) {
    if DataTypeName(props) == Some("activity") then (Thrown(UNDEFINED_TO_HK), props) else Stored(props)
  }

  /** Gender and date of birth are refused, and the data object is left as it was. */
  lemma StoredRefuses(props: map<string, JsValue>)
    ensures DataTypeName(props) == Some("gender") ==> Stored(props) == (Refused("Gender is not writeable"), props)
    ensures DataTypeName(props) == Some("date_of_birth") ==> Stored(props) == (Refused("Date of birth is not writeable"), props)
  {
  }

  /** An activity is saved as a workout whose `activityType` is the HealthKit type of its `value`;
      no other property changes. */
  lemma StoredWorkout(props: map<string, JsValue>)
    requires DataTypeName(props) == Some("activity")
    ensures Stored(props).0 == SaveWorkout
    ensures Get(Stored(props).1, "activityType") == Str(ToHKValue(Get(props, "value")))
    ensures forall k :: k != "activityType" ==> Get(Stored(props).1, k) == Get(props, k)
  {
  }

  /** A quantity is saved with `amount` equal to `value`, the table's HealthKit type and the
      table's unit; no other property changes. */
  lemma StoredQuantity(props: map<string, JsValue>, dt: string)
    requires DataTypeName(props) == Some(dt) && dt in DATA_TYPES
    ensures Stored(props).0 == SaveQuantitySample
    ensures Get(Stored(props).1, "amount") == Get(props, "value")
    ensures Get(Stored(props).1, "sampleType") == Str(DATA_TYPES[dt])
    ensures Get(Stored(props).1, "unit") == Str(UNITS[dt])
    ensures forall k :: k != "amount" && k != "sampleType" && k != "unit" ==> Get(Stored(props).1, k) == Get(props, k)
  {
    UnitsCoverDataTypes();
  }

  /** Any other data type throws, and nothing is saved. */
  lemma StoredThrows(props: map<string, JsValue>)
    ensures Stored(props).0.Thrown? <==>
              DataTypeName(props).None? ||
              (DataTypeName(props).value !in DATA_TYPES && DataTypeName(props).value !in ["gender", "date_of_birth", "activity"])
  {
    if DataTypeName(props).Some? {
      var dt := DataTypeName(props).value;
      assert dt in DATA_TYPES <==> dt in DATA_TYPES.Keys;
    }
  }

  /** As written, every activity store throws, where the intended code saves a workout; every other
      store is the same. */
  lemma StoreAsWrittenDiffers(props: map<string, JsValue>)
    ensures DataTypeName(props) == Some("activity") ==>
              StoredAsWritten(props) == (Thrown(UNDEFINED_TO_HK), props) && Stored(props).0 == SaveWorkout
    ensures DataTypeName(props) != Some("activity") ==> StoredAsWritten(props) == Stored(props)
  {
  }

  /** `store(data, onSuccess, onError)` (health.js:151-172) on the data object, with the intended
      activity lookup. */
  method Store(data: JsObject) returns (outcome: StoreOutcome)
    modifies data
    ensures (outcome, data.props) == Stored(old(data.props))
  {
    var dt := DataTypeName(data.props);
    if dt == Some("gender") {
      return Refused("Gender is not writeable");
    } else if dt == Some("date_of_birth") {
      return Refused("Date of birth is not writeable");
    } else if dt == Some("activity") {
      data.props := data.props["activityType" := Str(ToHKValue(Get(data.props, "value")))];
      return SaveWorkout;
    } else if dt.Some? && dt.value in DATA_TYPES {
      data.props := data.props["sampleType" := Str(DATA_TYPES[dt.value])];
      data.props := data.props["amount" := Get(data.props, "value")];
      if dt.value in UNITS {
        data.props := data.props["unit" := Str(UNITS[dt.value])];
      }
      return SaveQuantitySample;
    }
    return Thrown(UNDEFINED_DTS);
  }
}
