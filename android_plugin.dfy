/** The Android plugin's entry points as seen from JavaScript: `queryAggregated`, `query`, `store`
    and the scope part of `requestAuthorization` (src/android/HealthPlugin.java). Google Fit's
    connection is a boolean, its reads and inserts are function parameters. */
module AndroidPlugin {
  import opened Wrappers
  import opened Int32
  import opened Calendar
  import opened Text
  import opened Buckets
  import opened Fitness
  import opened Accumulate
  import opened Basal
  import opened Registry

  // ---- queryAggregated ----

  /** The keys of the options object `queryAggregated` reads. */
  datatype AggregatedArgs = AggregatedArgs(
    startDate: Option<int>, endDate: Option<int>, dataType: Option<string>, bucket: Option<string>)

  /** A validated request: the data type name, the (quantised) window, the end time as given, and
      the bucket kind. */
  datatype Plan = Plan(dataType: string, start: int, end: int, originalEnd: int, bucket: Option<BucketKind>)

  /** The checks and the quantisation before Google Fit is contacted (HealthPlugin.java:527-594). */
  function CheckAggregatedArgs(args: AggregatedArgs): Result<Plan, string> {
    if args.startDate.None? then Failure("Missing argument startDate")
    else if args.endDate.None? then Failure("Missing argument endDate")
    else if args.dataType.None? then Failure("Missing argument dataType")
    else
      var st, et, dt := args.startDate.value, args.endDate.value, args.dataType.value;
      match args.bucket
      case None => Success(Plan(dt, st, et, et, None))
      case Some(b) =>
        match ParseBucket(b)
        case None => Failure("Bucket type " + b + " not recognised")
        case Some(k) => Success(Plan(dt, NormalizedStart(k, st), NormalizedEnd(k, et), et, Some(k)))
  }

  /** The read's bucket length: one hour, one day (also for week, month and year), or the whole
      window narrowed to an `int` (`(int) (et - st)`). */
  function BucketMs(p: Plan): int {
    match p.bucket
    case None => Wrap(p.end - p.start)
    case Some(k) => if k == Hour then HOUR_MS else DAY_MS
  }

  /** What Google Fit has delivered once every check has passed: the plan, the aggregate, the basal
      average (0 unless the type is "calories.basal") and the native buckets of the read. */
  datatype Fetched = Fetched(plan: Plan, agg: Aggregate, avg: real, buckets: seq<NativeBucket>)

  /** Everything before the buckets are assembled: the argument errors, "Cannot connect to Google
      Fit", the basal average's read error, "Datatype X not supported" and the read's status message,
      in that order. */
  function Fetch(args: AggregatedArgs, canConnect: bool, provider: Provider): Result<Fetched, string> {
    match CheckAggregatedArgs(args)
    case Failure(e) => Failure(e)
    case Success(p) =>
      if !canConnect then Failure("Cannot connect to Google Fit")
      else
        var basal := if EqualsIgnoreCase(p.dataType, BasalRate.Name()) then BasalAverage(provider, p.originalEnd)
                     else Success(0.0);
        match basal
        case Failure(e) => Failure(e)
        case Success(avg) =>
          match ParseAggregate(p.dataType)
          case None => Failure(UnsupportedMessage(p.dataType))
          case Some(agg) =>
            match provider(AggregateRequest(agg, p.start, p.end, BucketMs(p)))
            case Failure(e) => Failure(e)
            case Success(ns) => Success(Fetched(p, agg, avg, ns))
  }

  /** The whole of `queryAggregated`: the fetch's error, or the buckets assembled from it. */
  function QueryAggregatedResult(args: AggregatedArgs, canConnect: bool, provider: Provider)
    : Result<Response, string>
  {
    match Fetch(args, canConnect, provider)
    case Failure(e) => Failure(e)
    case Success(f) => Assemble(f.agg, f.plan.bucket, f.avg, f.plan.start, f.plan.end, f.buckets)
  }

  /** The arguments are accepted exactly when all three keys are present and the bucket, if any, is
      one of the five kinds; without a bucket the window is kept, with one it is quantised. */
  lemma CheckAggregatedArgsOk(args: AggregatedArgs)
    ensures CheckAggregatedArgs(args).Success? <==>
      args.startDate.Some? && args.endDate.Some? && args.dataType.Some? &&
      (args.bucket.Some? ==> ParseBucket(args.bucket.value).Some?)
    ensures CheckAggregatedArgs(args).Success? && args.bucket.None? ==>
      var p := CheckAggregatedArgs(args).value;
      p.start == args.startDate.value && p.end == args.endDate.value && p.bucket.None?
    ensures CheckAggregatedArgs(args).Success? && args.bucket.Some? ==>
      var p := CheckAggregatedArgs(args).value;
      var k := ParseBucket(args.bucket.value).value;
      p.bucket == Some(k) && p.start == NormalizedStart(k, args.startDate.value) &&
      p.end == NormalizedEnd(k, args.endDate.value) && p.originalEnd == args.endDate.value
  {
  }

  /** A request that fails validation, cannot connect, or names an unsupported type fails the same
      way whatever Google Fit would return: nothing is read before those checks pass. */
  lemma NoReadBeforeChecks(args: AggregatedArgs, canConnect: bool, p1: Provider, p2: Provider)
    requires CheckAggregatedArgs(args).Failure? || !canConnect ||
             ParseAggregate(CheckAggregatedArgs(args).value.dataType).None?
    ensures QueryAggregatedResult(args, canConnect, p1) == QueryAggregatedResult(args, canConnect, p2)
  {
    if CheckAggregatedArgs(args).Success? && canConnect {
      var dt := CheckAggregatedArgs(args).value.dataType;
      ParseAggregateIff(dt, BasalRate);
    }
  }

  /** A quantised window is never empty, so once the read has succeeded a bucketed query over an
      ordered window always answers: the shell loop never meets an empty shell list. */
  lemma BucketedQueryAnswers(args: AggregatedArgs, canConnect: bool, provider: Provider)
    requires args.startDate.Some? && args.endDate.Some? && args.startDate.value <= args.endDate.value
    requires args.bucket.Some?
    requires Fetch(args, canConnect, provider).Success?
    ensures QueryAggregatedResult(args, canConnect, provider).Success?
  {
    var f := Fetch(args, canConnect, provider).value;
    NormalizedWindowNonEmpty(f.plan.bucket.value, args.startDate.value, args.endDate.value);
    AssembleFailsIff(f.agg, f.plan.bucket, f.avg, f.plan.start, f.plan.end, f.buckets);
  }

  // ---- query ----

  /** The value of a Google Fit data point: the field its data type carries. */
  datatype FieldValue =
    | NoField
    | IntField(n: int32)
    | FloatField(x: real)
    | TextField(s: string)
    | DobField(day: int32, month: int32, year: int32)

  /** The original data source of a point: its name and its app package. */
  datatype Source = Source(name: string, bundleId: string)

  datatype RawPoint = RawPoint(start: int, end: int, source: Option<Source>, field: FieldValue)

  datatype RawRequest = RawRequest(dataType: FitType, start: int, end: int)

  /** A raw read: the points of all returned data sets in order, or the status message. */
  type RawProvider = RawRequest -> Result<seq<RawPoint>, string>

  /** An element of the `query` result. */
  datatype Sample = Sample(start: int, end: int, source: Option<Source>, value: FieldValue, unit: Option<string>)

  datatype RawArgs = RawArgs(startDate: Option<int>, endDate: Option<int>, dataType: Option<string>)

  /** The unit each data type is reported in; the custom types have none. */
  function SampleUnit(dt: FitType): Option<string> {
    match dt
    case StepCountDelta => Some("count")
    case DistanceDelta => Some("m")
    case CaloriesExpended => Some("kcal")
    case BasalMetabolicRate => Some("kcal")
    case Height => Some("m")
    case Weight => Some("kg")
    case HeartRateBpm => Some("bpm")
    case BodyFatPercentage => Some("percent")
    case ActivitySegment => Some("activityType")
    case CustomGender => None
    case CustomDateOfBirth => None
  }

  function ToSample(dt: FitType, p: RawPoint): Sample {
    Sample(p.start, p.end, p.source, p.field, SampleUnit(dt))
  }

  /** The whole of `query`: argument errors, "Datatype X not supported", "Cannot connect to Google
      Fit", the read's status message, or one sample per point. */
  function QueryResult(custom: map<string, FitType>, args: RawArgs, canConnect: bool, provider: RawProvider)
    : Result<seq<Sample>, string>
  {
    if args.startDate.None? then Failure("Missing argument startDate")
    else if args.endDate.None? then Failure("Missing argument endDate")
    else if args.dataType.None? then Failure("Missing argument dataType")
    else
      match Lookup(custom, args.dataType.value)
      case None => Failure(UnsupportedMessage(args.dataType.value))
      case Some(dt) =>
        if !canConnect then Failure("Cannot connect to Google Fit")
        else
          match provider(RawRequest(dt, args.startDate.value, args.endDate.value))
          case Failure(e) => Failure(e)
          case Success(pts) => Success(seq(|pts|, i requires 0 <= i < |pts| => ToSample(dt, pts[i])))
  }

  /** A successful query returns every point in order, with its window, source and value, and the
      unit of the requested type. */
  lemma QuerySamples(custom: map<string, FitType>, args: RawArgs, canConnect: bool, provider: RawProvider)
    requires QueryResult(custom, args, canConnect, provider).Success?
    ensures var dt := Lookup(custom, args.dataType.value).value;
            var pts := provider(RawRequest(dt, args.startDate.value, args.endDate.value)).value;
            var r := QueryResult(custom, args, canConnect, provider).value;
            |r| == |pts| &&
            forall i :: 0 <= i < |r| ==>
              r[i].start == pts[i].start && r[i].end == pts[i].end && r[i].source == pts[i].source &&
              r[i].value == pts[i].field && r[i].unit == SampleUnit(dt)
  {
  }

  // ---- store ----

  /** The `value` argument: a scalar in its string form, or the date of birth object. */
  datatype ArgValue = Scalar(s: string) | DateParts(year: int32, month: int32, day: int32)

  datatype StoreArgs = StoreArgs(
    startDate: Option<int>, endDate: Option<int>, dataType: Option<string>, value: Option<ArgValue>,
    sourceName: Option<string>, sourceBundleId: Option<string>)

  /** The point `store` inserts: its raw data source, its window and its field. */
  datatype StoredPoint = StoredPoint(source: Source, dataType: FitType, start: int, end: int, field: FieldValue)

  /** Stands for the exception a value that does not parse, or has the wrong shape, throws out of
      `store`. */
  const BAD_VALUE_ERROR: string := "NumberFormatException"

  /** The field `store` writes for each data type; the basal metabolic rate gets no branch and so no
      field. `parseInt` and `parseFloat` stand for `Integer.parseInt` and `Float.parseFloat`. */
  function WriteField(dt: FitType, v: ArgValue, parseInt: string -> Option<int32>, parseFloat: string -> Option<real>)
    : Result<FieldValue, string>
  {
    match (dt, v)
    case (StepCountDelta, Scalar(s)) => if parseInt(s).Some? then Success(IntField(parseInt(s).value)) else Failure(BAD_VALUE_ERROR)
    case (BasalMetabolicRate, _) => Success(NoField)
    case (ActivitySegment, Scalar(s)) => Success(TextField(s))
    case (CustomGender, Scalar(s)) => Success(TextField(s))
    case (CustomDateOfBirth, DateParts(y, m, d)) => Success(DobField(d, m, y))
    case (CustomDateOfBirth, Scalar(_)) => Failure(BAD_VALUE_ERROR)
    case (_, Scalar(s)) => if parseFloat(s).Some? then Success(FloatField(parseFloat(s).value)) else Failure(BAD_VALUE_ERROR)
    case (_, DateParts(_, _, _)) => Failure(BAD_VALUE_ERROR)
  }

  /** Everything `store` does before the insert: the argument checks in order, the default bundle id
      (the app's package name), the type lookup, the connection and the field. */
  function StoreRequest(custom: map<string, FitType>, packageName: string, args: StoreArgs, canConnect: bool,
                        parseInt: string -> Option<int32>, parseFloat: string -> Option<real>)
    : Result<StoredPoint, string>
  {
    if args.startDate.None? then Failure("Missing argument startDate")
    else if args.endDate.None? then Failure("Missing argument endDate")
    else if args.dataType.None? then Failure("Missing argument dataType")
    else if args.value.None? then Failure("Missing argument value")
    else if args.sourceName.None? then Failure("Missing argument sourceName")
    else
      var bundle := args.sourceBundleId.GetOr(packageName);
      match Lookup(custom, args.dataType.value)
      case None => Failure(UnsupportedMessage(args.dataType.value))
      case Some(dt) =>
        if !canConnect then Failure("Cannot connect to Google Fit")
        else
          match WriteField(dt, args.value.value, parseInt, parseFloat)
          case Failure(e) => Failure(e)
          case Success(f) =>
            Success(StoredPoint(Source(args.sourceName.value, bundle), dt, args.startDate.value, args.endDate.value, f))
  }

  /** The whole of `store`: the request's error, the insert's status message, or success. */
  function StoreResult(custom: map<string, FitType>, packageName: string, args: StoreArgs, canConnect: bool,
                       parseInt: string -> Option<int32>, parseFloat: string -> Option<real>,
                       insert: StoredPoint -> Result<(), string>): Result<(), string>
  {
    match StoreRequest(custom, packageName, args, canConnect, parseInt, parseFloat)
    case Failure(e) => Failure(e)
    case Success(p) => insert(p)
  }

  /** The field `store` writes holds the parsed argument: an int for steps, a float for the measured
      types, the string for the activity and the gender, the three parts for the date of birth, and
      nothing for the basal metabolic rate alone. */
  lemma WrittenField(dt: FitType, v: ArgValue, parseInt: string -> Option<int32>, parseFloat: string -> Option<real>)
    requires WriteField(dt, v, parseInt, parseFloat).Success?
    ensures var f := WriteField(dt, v, parseInt, parseFloat).value;
            (dt == BasalMetabolicRate <==> f == NoField) &&
            (dt == StepCountDelta ==> v.Scalar? && f == IntField(parseInt(v.s).value)) &&
            (dt in {DistanceDelta, CaloriesExpended, Height, Weight, HeartRateBpm, BodyFatPercentage} ==>
               v.Scalar? && f == FloatField(parseFloat(v.s).value)) &&
            (dt in {ActivitySegment, CustomGender} ==> v.Scalar? && f == TextField(v.s)) &&
            (dt == CustomDateOfBirth ==> v.DateParts? && f == DobField(v.day, v.month, v.year))
  {
  }

  /** What `store` inserts, `query` reads back: when Google Fit returns the inserted point for the
      same type and window, a query with the store's arguments answers exactly one sample, with the
      stored window, source and field and the unit of the type. */
  lemma StoreThenQuery(custom: map<string, FitType>, packageName: string, args: StoreArgs, canConnect: bool,
                       parseInt: string -> Option<int32>, parseFloat: string -> Option<real>, provider: RawProvider)
    requires StoreRequest(custom, packageName, args, canConnect, parseInt, parseFloat).Success?
    requires var p := StoreRequest(custom, packageName, args, canConnect, parseInt, parseFloat).value;
             provider(RawRequest(p.dataType, p.start, p.end)) == Success([RawPoint(p.start, p.end, Some(p.source), p.field)])
    ensures var p := StoreRequest(custom, packageName, args, canConnect, parseInt, parseFloat).value;
            QueryResult(custom, RawArgs(args.startDate, args.endDate, args.dataType), canConnect, provider) ==
              Success([Sample(p.start, p.end, Some(p.source), p.field, SampleUnit(p.dataType))])
  {
    var p := StoreRequest(custom, packageName, args, canConnect, parseInt, parseFloat).value;
    StoreInsertsChecked(custom, packageName, args, canConnect, parseInt, parseFloat);
    var pts := [RawPoint(p.start, p.end, Some(p.source), p.field)];
    var r := seq(|pts|, i requires 0 <= i < |pts| => ToSample(p.dataType, pts[i]));
    assert r == [ToSample(p.dataType, pts[0])];
  }

  /** The insert happens only once every check has passed, with the bundle id defaulting to the
      package name and the window as given. */
  lemma StoreInsertsChecked(custom: map<string, FitType>, packageName: string, args: StoreArgs, canConnect: bool,
                            parseInt: string -> Option<int32>, parseFloat: string -> Option<real>)
    requires StoreRequest(custom, packageName, args, canConnect, parseInt, parseFloat).Success?
    ensures var p := StoreRequest(custom, packageName, args, canConnect, parseInt, parseFloat).value;
            canConnect && args.value.Some? &&
            Lookup(custom, args.dataType.value) == Some(p.dataType) &&
            p.start == args.startDate.value && p.end == args.endDate.value &&
            p.source.name == args.sourceName.value &&
            p.source.bundleId == (if args.sourceBundleId.Some? then args.sourceBundleId.value else packageName)
  {
  }

  // ---- the plugin object ----

  class HealthPlugin {
    /** The runtime permissions the last authorisation request needs. */
    var dynPerms: seq<string>
    /** The custom data types created so far, by name ("gender", "date_of_birth"). */
    var customDataTypes: map<string, FitType>

    constructor ()
      ensures dynPerms == [] && customDataTypes == map[]
    {
      dynPerms := [];
      customDataTypes := map[];
    }

    /** `customdatatypes.put(name, type)` once Google Fit has created a custom type. */
    method RegisterCustomType(name: string, t: FitType)
      modifies this
      ensures customDataTypes == old(customDataTypes)[name := t]
      ensures dynPerms == old(dynPerms)
    {
      customDataTypes := customDataTypes[name := t];
    }

    /** The scope flags and `dynPerms` of `requestAuthorization` (the client building is not modelled). */
    method RequestAuthorization(types: seq<string>) returns (scopes: Scopes)
      modifies this
      ensures scopes == ScopesFor(types)
      ensures dynPerms == DynamicPermissions(scopes)
      ensures customDataTypes == old(customDataTypes)
    {
      scopes := DeriveScopes(types);
      dynPerms := [];
      if scopes.location {
        dynPerms := dynPerms + [ACCESS_FINE_LOCATION];
      }
      if scopes.body {
        dynPerms := dynPerms + [BODY_SENSORS];
      }
    }

    /** `queryAggregated`, step by step with early returns. */
    method QueryAggregated(args: AggregatedArgs, canConnect: bool, provider: Provider)
      returns (r: Result<Response, string>)
      ensures r == QueryAggregatedResult(args, canConnect, provider)
    {
      if args.startDate.None? {
        return Failure("Missing argument startDate");
      }
      var st := args.startDate.value;
      if args.endDate.None? {
        return Failure("Missing argument endDate");
      }
      var et := args.endDate.value;
      var originalEnd := et;
      if args.dataType.None? {
        return Failure("Missing argument dataType");
      }
      var dtName := args.dataType.value;
      var bucket: Option<BucketKind> := None;
      if args.bucket.Some? {
        var kind := ParseBucket(args.bucket.value);
        if kind.None? {
          return Failure("Bucket type " + args.bucket.value + " not recognised");
        }
        bucket := kind;
        st := NormalizedStart(kind.value, st);
        et := NormalizedEnd(kind.value, et);
      }
      assert CheckAggregatedArgs(args) == Success(Plan(dtName, st, et, originalEnd, bucket));
      if !canConnect {
        return Failure("Cannot connect to Google Fit");
      }
      var avg := 0.0;
      if EqualsIgnoreCase(dtName, BasalRate.Name()) {
        var basal := GetBasalAverage(provider, originalEnd);
        if basal.Failure? {
          return Failure(basal.error);
        }
        avg := basal.value;
      }
      var agg := ParseAggregate(dtName);
      if agg.None? {
        return Failure(UnsupportedMessage(dtName));
      }
      var bucketMs := if bucket.None? then Wrap(et - st) else if bucket.value == Hour then HOUR_MS else DAY_MS;
      var read := provider(AggregateRequest(agg.value, st, et, bucketMs));
      if read.Failure? {
        return Failure(read.error);
      }
      assert Fetch(args, canConnect, provider) == Success(Fetched(CheckAggregatedArgs(args).value, agg.value, avg, read.value));
      r := CollectBuckets(agg.value, bucket, avg, st, et, read.value);
    }

    /** `query`: the checks, the lookup in this plugin's registry, then one sample per point. */
    method Query(args: RawArgs, canConnect: bool, provider: RawProvider) returns (r: Result<seq<Sample>, string>)
      ensures r == QueryResult(customDataTypes, args, canConnect, provider)
    {
      if args.startDate.None? {
        return Failure("Missing argument startDate");
      }
      if args.endDate.None? {
        return Failure("Missing argument endDate");
      }
      if args.dataType.None? {
        return Failure("Missing argument dataType");
      }
      var dt := FindType(customDataTypes, args.dataType.value);
      if dt.None? {
        return Failure(UnsupportedMessage(args.dataType.value));
      }
      if !canConnect {
        return Failure("Cannot connect to Google Fit");
      }
      var read := provider(RawRequest(dt.value, args.startDate.value, args.endDate.value));
      if read.Failure? {
        return Failure(read.error);
      }
      var pts := read.value;
      var resultset: seq<Sample> := [];
      var i := 0;
      while i < |pts|
        invariant 0 <= i <= |pts|
        invariant |resultset| == i
        invariant forall j :: 0 <= j < i ==> resultset[j] == ToSample(dt.value, pts[j])
      {
        resultset := resultset + [ToSample(dt.value, pts[i])];
        i := i + 1;
      }
      assert resultset == seq(|pts|, j requires 0 <= j < |pts| => ToSample(dt.value, pts[j]));
      return Success(resultset);
    }

    /** `store`: the checks, the lookup in this plugin's registry, the field, then the insert. */
    method Store(packageName: string, args: StoreArgs, canConnect: bool, parseInt: string -> Option<int32>,
                 parseFloat: string -> Option<real>, insert: StoredPoint -> Result<(), string>)
      returns (r: Result<(), string>)
      ensures r == StoreResult(customDataTypes, packageName, args, canConnect, parseInt, parseFloat, insert)
    {
      if args.startDate.None? {
        return Failure("Missing argument startDate");
      }
      if args.endDate.None? {
        return Failure("Missing argument endDate");
      }
      if args.dataType.None? {
        return Failure("Missing argument dataType");
      }
      if args.value.None? {
        return Failure("Missing argument value");
      }
      if args.sourceName.None? {
        return Failure("Missing argument sourceName");
      }
      var sourceBundleId := packageName;
      if args.sourceBundleId.Some? {
        sourceBundleId := args.sourceBundleId.value;
      }
      var dt := FindType(customDataTypes, args.dataType.value);
      if dt.None? {
        return Failure(UnsupportedMessage(args.dataType.value));
      }
      if !canConnect {
        return Failure("Cannot connect to Google Fit");
      }
      var field := WriteField(dt.value, args.value.value, parseInt, parseFloat);
      if field.Failure? {
        return Failure(field.error);
      }
      var point := StoredPoint(Source(args.sourceName.value, sourceBundleId), dt.value, args.startDate.value,
                               args.endDate.value, field.value);
      r := insert(point);
    }
  }
}
