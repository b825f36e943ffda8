/** Folding Google Fit's native buckets into the plugin's output buckets: the loop of
    `queryAggregated` over buckets, data sets and data points (src/android/HealthPlugin.java:637-787). */
module Accumulate {
  import opened Wrappers
  import opened Int32
  import opened Calendar
  import opened Buckets
  import opened Fitness

  /** The `value` key of an output bucket: an `int` count, a `double` amount, or the activity
      summary mapping each activity name to its total `duration`. */
  datatype Value = Count(n: int) | Amount(x: real) | Summary(durations: map<string, int>)

  /** An output bucket (a JSON object): `startDate`, `endDate` and the optional `value` and `unit`. */
  datatype OutBucket = OutBucket(start: int, end: int, value: Option<Value>, unit: Option<string>)

  /** The success payload: one bucket when no `bucket` argument was given, the array otherwise. */
  datatype Response = Single(bucket: OutBucket) | Many(buckets: seq<OutBucket>)

  /** Stands for the message of the NullPointerException a custom query with no shell throws, which
      the runner of `queryAggregated` passes to the error callback. */
  const NULL_SHELL_ERROR: string := "NullPointerException"

  /** The initial value: `0`, or an empty JSONObject for activity. */
  function Zero(agg: Aggregate): Value {
    match agg
    case Steps => Count(0)
    case Activity => Summary(map[])
    case _ => Amount(0.0)
  }

  /** The unit put next to the initial value; `calories.basal` gets none. */
  function UnitOf(agg: Aggregate): Option<string> {
    match agg
    case Steps => Some("count")
    case Distance => Some("m")
    case Calories => Some("kcal")
    case BasalRate => None
    case Activity => Some("activitySummary")
  }

  /** The `if (!retBucket.has("value"))` block: a bucket without a value gets the initial value and unit. */
  function Init(agg: Aggregate, b: OutBucket): (r: OutBucket)
    ensures r.start == b.start && r.end == b.end && r.value.Some?
    ensures b.value.None? ==> r.value == Some(Zero(agg)) && r.unit == UnitOf(agg)
    ensures b.value.Some? ==> r == b
  {
    if b.value.Some? then b else b.(value := Some(Zero(agg)), unit := UnitOf(agg))
  }

  /** A bucket with only its window, as a new JSONObject or a fresh shell. */
  function Bare(w: Window): OutBucket {
    OutBucket(w.start, w.end, None, None)
  }

  function BareAll(ws: seq<Window>): (r: seq<OutBucket>)
    ensures |r| == |ws| && forall i :: 0 <= i < |ws| ==> r[i] == Bare(ws[i])
  {
    seq(|ws|, i requires 0 <= i < |ws| => Bare(ws[i]))
  }

  /** Adds `d` to the duration of activity `a`; the first occurrence creates the entry. */
  function AddDuration(m: map<string, int>, a: string, d: int32): map<string, int> {
    if a in m then m[a := Wrap(m[a] + d)] else m[a := d]
  }

  /** Adds one data point to a value: `int` addition for steps and durations, `double` addition for
      distance, calories and basal averages. */
  function AddPoint(agg: Aggregate, v: Value, p: AggPoint): Value {
    match (agg, v)
    case (Steps, Count(n)) => Count(Wrap(n + p.steps))
    case (Distance, Amount(x)) => Amount(x + p.distance)
    case (Calories, Amount(x)) => Amount(x + p.calories)
    case (BasalRate, Amount(x)) => Amount(x + p.average)
    case (Activity, Summary(m)) => Summary(AddDuration(m, p.activity, p.duration))
    case _ => v
  }

  /** The data points added one after the other, in order. */
  function AddPoints(agg: Aggregate, v: Value, ps: seq<AggPoint>): Value
    decreases |ps|
  {
    if ps == [] then v else AddPoints(agg, AddPoint(agg, v, ps[0]), ps[1..])
  }

  // ---- closed forms of the accumulation ----

  function SumSteps(ps: seq<AggPoint>): int {
    if ps == [] then 0 else ps[0].steps + SumSteps(ps[1..])
  }

  /** The `float` field an amount aggregate reads. */
  function Field(agg: Aggregate, p: AggPoint): real {
    match agg
    case Distance => p.distance
    case Calories => p.calories
    case BasalRate => p.average
    case _ => 0.0
  }

  function SumField(agg: Aggregate, ps: seq<AggPoint>): real {
    if ps == [] then 0.0 else Field(agg, ps[0]) + SumField(agg, ps[1..])
  }

  function Labels(ps: seq<AggPoint>): set<string> {
    if ps == [] then {} else {ps[0].activity} + Labels(ps[1..])
  }

  /** The exact sum of the durations of activity `a`. */
  function LabelTotal(ps: seq<AggPoint>, a: string): int {
    if ps == [] then 0 else (if ps[0].activity == a then ps[0].duration else 0) + LabelTotal(ps[1..], a)
  }

  function Get(m: map<string, int>, a: string): int {
    if a in m then m[a] else 0
  }

  /** Summary `m` with the durations of `ps` added: every activity of either, with its wrapped total. */
  function Merged(m: map<string, int>, ps: seq<AggPoint>): map<string, int> {
    map a | a in m.Keys + Labels(ps) :: Wrap(Get(m, a) + LabelTotal(ps, a))
  }

  /** The value a fresh bucket gets from the points `ps`, in closed form. */
  function Total(agg: Aggregate, ps: seq<AggPoint>): Value {
    match agg
    case Steps => Count(Wrap(SumSteps(ps)))
    case Activity => Summary(Merged(map[], ps))
    case _ => Amount(SumField(agg, ps))
  }

  /** The running `int` step total is the 32-bit wrap of the exact sum. */
  lemma {:induction false} AddPointsSteps(n: int32, ps: seq<AggPoint>)
    ensures AddPoints(Steps, Count(n), ps) == Count(Wrap(n + SumSteps(ps)))
    decreases |ps|
  {
    if ps != [] {
      var n1 := Wrap(n + ps[0].steps);
      AddPointsSteps(n1, ps[1..]);
      WrapAddLeft(n + ps[0].steps, SumSteps(ps[1..]));
    }
  }

  /** Distance, calories and basal averages add up exactly. */
  lemma {:induction false} AddPointsAmount(agg: Aggregate, x: real, ps: seq<AggPoint>)
    requires agg.Distance? || agg.Calories? || agg.BasalRate?
    ensures AddPoints(agg, Amount(x), ps) == Amount(x + SumField(agg, ps))
    decreases |ps|
  {
    if ps != [] {
      AddPointsAmount(agg, x + Field(agg, ps[0]), ps[1..]);
    }
  }

  /** Each activity's summary holds the wrapped total of its durations; the keys are the activities
      seen before and the ones in `ps`. */
  lemma {:induction false} AddPointsActivity(m: map<string, int>, ps: seq<AggPoint>)
    requires forall a :: a in m ==> InRange(m[a])
    ensures AddPoints(Activity, Summary(m), ps) == Summary(Merged(m, ps))
    decreases |ps|
  {
    if ps == [] {
      assert Merged(m, ps) == m;
    } else {
      var m1 := AddDuration(m, ps[0].activity, ps[0].duration);
      AddPointsActivity(m1, ps[1..]);
      MergedStep(m, m1, ps);
    }
  }

  /** Adding the first point and then the rest merges like adding them all. */
  lemma MergedStep(m: map<string, int>, m1: map<string, int>, ps: seq<AggPoint>)
    requires forall a :: a in m ==> InRange(m[a])
    requires ps != [] && m1 == AddDuration(m, ps[0].activity, ps[0].duration)
    ensures Merged(m1, ps[1..]) == Merged(m, ps)
  {
    var keys := m.Keys + Labels(ps);
    assert Labels(ps) == {ps[0].activity} + Labels(ps[1..]);
    assert m1.Keys + Labels(ps[1..]) == keys;
    forall a | a in keys
      ensures Wrap(Get(m1, a) + LabelTotal(ps[1..], a)) == Wrap(Get(m, a) + LabelTotal(ps, a))
    {
      AddDurationGet(m, ps[0], a);
      MergedStepAt(Get(m1, a), Get(m, a), ps, a);
    }
  }

  /** One key of the merge: the wrapped running duration plus the rest is the wrapped total. */
  lemma MergedStepAt(x: int, g: int, ps: seq<AggPoint>, a: string)
    requires ps != []
    requires x == Wrap(g + (if a == ps[0].activity then ps[0].duration else 0))
    ensures Wrap(x + LabelTotal(ps[1..], a)) == Wrap(g + LabelTotal(ps, a))
  {
    var delta := if a == ps[0].activity then ps[0].duration else 0;
    assert LabelTotal(ps, a) == delta + LabelTotal(ps[1..], a);
    WrapAccumulate(x, g + delta, LabelTotal(ps[1..], a), g + LabelTotal(ps, a));
  }

  lemma AddDurationGet(m: map<string, int>, p: AggPoint, a: string)
    requires forall a :: a in m ==> InRange(m[a])
    ensures Get(AddDuration(m, p.activity, p.duration), a) == Wrap(Get(m, a) + (if a == p.activity then p.duration else 0))
  {
  }

  /** From the initial value, the points give their closed-form total. */
  lemma FromZero(agg: Aggregate, ps: seq<AggPoint>)
    ensures AddPoints(agg, Zero(agg), ps) == Total(agg, ps)
  {
    match agg
    case Steps => AddPointsSteps(0, ps);
    case Activity => AddPointsActivity(map[], ps);
    case _ => AddPointsAmount(agg, 0.0, ps);
  }

  /** Adding a concatenation is adding its parts one after the other. */
  lemma {:induction false} AddPointsAppend(agg: Aggregate, v: Value, a: seq<AggPoint>, b: seq<AggPoint>)
    ensures AddPoints(agg, v, a + b) == AddPoints(agg, AddPoints(agg, v, a), b)
    decreases |a|
  {
    if a == [] {
      assert a + b == b;
    } else {
      assert (a + b)[1..] == a[1..] + b;
      AddPointsAppend(agg, AddPoint(agg, v, a[0]), a[1..], b);
    }
  }

  /** The data point loop: `atleastone` records whether any point was seen. */
  method AccumulatePoints(agg: Aggregate, v0: Value, ps: seq<AggPoint>) returns (v: Value, atleastone: bool)
    ensures v == AddPoints(agg, v0, ps)
    ensures atleastone <==> |ps| > 0
  {
    v, atleastone := v0, false;
    var i := 0;
    while i < |ps|
      invariant 0 <= i <= |ps|
      invariant AddPoints(agg, v, ps[i..]) == AddPoints(agg, v0, ps)
      invariant atleastone <==> i > 0
    {
      assert ps[i..][1..] == ps[i + 1..];
      v := AddPoint(agg, v, ps[i]);
      atleastone := true;
      i := i + 1;
    }
  }

  // ---- crediting one native bucket ----

  function AddAmount(v: Value, y: real): Value {
    match v
    case Amount(x) => Amount(x + y)
    case _ => v
  }

  /** `(basals / (24 * 60 * 60 * 1000)) * (eet - sst)`: a daily rate spread over `span` milliseconds. */
  function Prorate(v: Value, span: int): Value {
    match v
    case Amount(x) => Amount(x / (DAY_MS as real) * (span as real))
    case _ => v
  }

  /** Credits native bucket `nb` to output bucket `b`: its points are added; for `calories.basal` a
      bucket without points gets the daily average `avg`, and the value is prorated to b's span when
      `prorate` (flat or hour mode). */
  function Credit(agg: Aggregate, prorate: bool, avg: real, b: OutBucket, nb: NativeBucket): (r: OutBucket)
    requires b.value.Some?
    ensures r.start == b.start && r.end == b.end && r.unit == b.unit && r.value.Some?
  {
    var v := AddPoints(agg, b.value.value, nb.points);
    if agg != BasalRate then b.(value := Some(v))
    else
      var filled := if |nb.points| == 0 then AddAmount(v, avg) else v;
      b.(value := Some(if prorate then Prorate(filled, b.end - b.start) else filled))
  }

  /** The loop body after the bucket is chosen: the data set loops, then the basal fix-up. */
  method CreditBucket(agg: Aggregate, prorate: bool, avg: real, b: OutBucket, nb: NativeBucket)
    returns (r: OutBucket)
    requires b.value.Some?
    ensures r == Credit(agg, prorate, avg, b, nb)
  {
    var v, atleastone := AccumulatePoints(agg, b.value.value, nb.points);
    r := b.(value := Some(v));
    if agg == BasalRate {
      var basals := v;
      if !atleastone {
        basals := AddAmount(basals, avg);
        r := r.(value := Some(basals));
      }
      if prorate {
        basals := Prorate(basals, r.end - r.start);
        r := r.(value := Some(basals));
      }
    }
  }

  /** A bucket's basal value before proration: its summed daily averages, or the trailing-week
      average when it has no data point. */
  function Filled(avg: real, nb: NativeBucket): real {
    if |nb.points| == 0 then avg else SumField(BasalRate, nb.points)
  }

  /** The value an output bucket with window `w` gets from native bucket `nb` alone, in closed form. */
  function BucketValue(agg: Aggregate, prorate: bool, avg: real, w: Window, nb: NativeBucket): Value {
    if agg == BasalRate then
      var daily := Amount(Filled(avg, nb));
      if prorate then Prorate(daily, w.end - w.start) else daily
    else Total(agg, nb.points)
  }

  /** A bucket without a value, credited once, holds the closed-form value and the type's unit. */
  lemma CreditFresh(agg: Aggregate, prorate: bool, avg: real, w: Window, nb: NativeBucket)
    ensures Credit(agg, prorate, avg, Init(agg, Bare(w)), nb)
         == OutBucket(w.start, w.end, Some(BucketValue(agg, prorate, avg, w, nb)), UnitOf(agg))
  {
    FromZero(agg, nb.points);
    if agg == BasalRate {
      AddPointsAmount(agg, 0.0, nb.points);
      if |nb.points| == 0 {
        assert AddPoints(agg, Amount(0.0), nb.points) == Amount(0.0);
      } else {
        assert AddPoints(agg, Amount(0.0), nb.points) == Amount(Filled(avg, nb));
      }
    }
  }

  // ---- the three bucketing modes ----

  /** No `bucket` argument: every native bucket is credited to the one output bucket, prorated. */
  function FoldFlat(agg: Aggregate, avg: real, b: OutBucket, ns: seq<NativeBucket>): (r: OutBucket)
    requires b.value.Some?
    ensures r.start == b.start && r.end == b.end && r.unit == b.unit && r.value.Some?
    decreases |ns|
  {
    if ns == [] then b else FoldFlat(agg, avg, Credit(agg, true, avg, b, ns[0]), ns[1..])
  }

  /** Hour and day buckets: one new output bucket per native bucket, in order. */
  function FoldNative(agg: Aggregate, prorate: bool, avg: real, ns: seq<NativeBucket>): (r: seq<OutBucket>)
    ensures |r| == |ns|
  {
    if ns == [] then []
    else [Credit(agg, prorate, avg, Init(agg, Bare(Window(ns[0].start, ns[0].end))), ns[0])]
         + FoldNative(agg, prorate, avg, ns[1..])
  }

  /** Week, month and year buckets: each native bucket is credited to its shell; with no shell the
      first native bucket dereferences null. */
  function FoldCustom(agg: Aggregate, avg: real, wins: seq<Window>, acc: seq<OutBucket>, ns: seq<NativeBucket>)
    : (r: Option<seq<OutBucket>>)
    requires |acc| == |wins|
    decreases |ns|
  {
    if ns == [] then Some(acc)
    else if |wins| == 0 then None
    else
      var j := ShellFor(wins, ns[0].start, ns[0].end);
      FoldCustom(agg, avg, wins, acc[j := Credit(agg, false, avg, Init(agg, acc[j]), ns[0])], ns[1..])
  }

  /** The whole post-fetch computation for a `bucket` argument (or none) over the window [st, et). */
  function Assemble(agg: Aggregate, bucket: Option<BucketKind>, avg: real, st: int, et: int, ns: seq<NativeBucket>)
    : Result<Response, string>
  {
    match bucket
    case None => Success(Single(FoldFlat(agg, avg, Init(agg, Bare(Window(st, et))), ns)))
    case Some(k) =>
      if !k.IsCustom() then Success(Many(FoldNative(agg, k == Hour, avg, ns)))
      else
        var wins := Shells(k, st, et);
        match FoldCustom(agg, avg, wins, BareAll(wins), ns)
        case None => Failure(NULL_SHELL_ERROR)
        case Some(out) => Success(Many(out))
  }

  // ---- what each mode yields ----

  /** Hour and day mode: output bucket i has native bucket i's window, the type's unit and the
      closed-form value of that bucket's points (basal: filled, and prorated in hour mode). */
  lemma {:induction false} FoldNativeBuckets(agg: Aggregate, prorate: bool, avg: real, ns: seq<NativeBucket>)
    ensures forall i :: 0 <= i < |ns| ==>
      FoldNative(agg, prorate, avg, ns)[i]
        == OutBucket(ns[i].start, ns[i].end,
                     Some(BucketValue(agg, prorate, avg, Window(ns[i].start, ns[i].end), ns[i])), UnitOf(agg))
    decreases |ns|
  {
    if ns != [] {
      FoldNativeBuckets(agg, prorate, avg, ns[1..]);
      CreditFresh(agg, prorate, avg, Window(ns[0].start, ns[0].end), ns[0]);
      var r := FoldNative(agg, prorate, avg, ns);
      forall i | 1 <= i < |ns|
        ensures r[i] == FoldNative(agg, prorate, avg, ns[1..])[i - 1]
      {
      }
    }
  }

  /** Every data point of a list of native buckets, in order. */
  function AllPoints(list: seq<NativeBucket>): seq<AggPoint> {
    if list == [] then [] else list[0].points + AllPoints(list[1..])
  }

  /** The filled basal values of a list of native buckets, summed. */
  function SumFilled(avg: real, list: seq<NativeBucket>): real {
    if list == [] then 0.0 else Filled(avg, list[0]) + SumFilled(avg, list[1..])
  }

  /** The value a shell gets from the native buckets credited to it, in closed form; basal values of
      custom buckets are not prorated. */
  function ShellValue(agg: Aggregate, avg: real, list: seq<NativeBucket>): Value {
    if agg == BasalRate then Amount(SumFilled(avg, list)) else Total(agg, AllPoints(list))
  }

  /** The native buckets the scan assigns to shell i, in order. */
  function Credited(wins: seq<Window>, ns: seq<NativeBucket>, i: nat): seq<NativeBucket>
    requires |wins| > 0
  {
    if ns == [] then []
    else (if ShellFor(wins, ns[0].start, ns[0].end) == i then [ns[0]] else []) + Credited(wins, ns[1..], i)
  }

  /** Output bucket `b` credited with each bucket of `list` in turn (custom mode, no proration). */
  function CreditAll(agg: Aggregate, avg: real, b: OutBucket, list: seq<NativeBucket>): OutBucket
    decreases |list|
  {
    if list == [] then b else CreditAll(agg, avg, Credit(agg, false, avg, Init(agg, b), list[0]), list[1..])
  }

  /** With at least one shell the custom fold succeeds, and each shell ends up credited with exactly
      the native buckets the scan assigns to it, in order. */
  lemma {:induction false} FoldCustomCredits(agg: Aggregate, avg: real, wins: seq<Window>, acc: seq<OutBucket>,
                                             ns: seq<NativeBucket>)
    requires |acc| == |wins| > 0
    ensures FoldCustom(agg, avg, wins, acc, ns).Some?
    ensures |FoldCustom(agg, avg, wins, acc, ns).value| == |wins|
    ensures forall i :: 0 <= i < |wins| ==>
      FoldCustom(agg, avg, wins, acc, ns).value[i] == CreditAll(agg, avg, acc[i], Credited(wins, ns, i))
    decreases |ns|
  {
    if ns != [] {
      var j := ShellFor(wins, ns[0].start, ns[0].end);
      var acc1 := acc[j := Credit(agg, false, avg, Init(agg, acc[j]), ns[0])];
      FoldCustomCredits(agg, avg, wins, acc1, ns[1..]);
      forall i | 0 <= i < |wins|
        ensures CreditAll(agg, avg, acc1[i], Credited(wins, ns[1..], i)) == CreditAll(agg, avg, acc[i], Credited(wins, ns, i))
      {
        var rest := Credited(wins, ns[1..], i);
        if i == j {
          assert Credited(wins, ns, i) == [ns[0]] + rest;
          assert ([ns[0]] + rest)[1..] == rest;
        } else {
          assert Credited(wins, ns, i) == rest;
        }
      }
    }
  }

  /** Crediting a list keeps the window and unit; the value grows by the list's points (basal: by
      its filled values). */
  lemma {:induction false} CreditAllFrom(agg: Aggregate, avg: real, b: OutBucket, list: seq<NativeBucket>)
    requires b.value.Some?
    ensures CreditAll(agg, avg, b, list).start == b.start && CreditAll(agg, avg, b, list).end == b.end
    ensures CreditAll(agg, avg, b, list).unit == b.unit
    ensures agg != BasalRate ==>
      CreditAll(agg, avg, b, list).value == Some(AddPoints(agg, b.value.value, AllPoints(list)))
    ensures agg == BasalRate && b.value.value.Amount? ==>
      CreditAll(agg, avg, b, list).value == Some(Amount(b.value.value.x + SumFilled(avg, list)))
    decreases |list|
  {
    if list != [] {
      var nb := list[0];
      var b1 := Credit(agg, false, avg, b, nb);
      assert Init(agg, b) == b;
      CreditAllFrom(agg, avg, b1, list[1..]);
      if agg != BasalRate {
        AddPointsAppend(agg, b.value.value, nb.points, AllPoints(list[1..]));
      } else if b.value.value.Amount? {
        var x := b.value.value.x;
        AddPointsAmount(agg, x, nb.points);
        if |nb.points| == 0 {
          assert AddPoints(agg, Amount(x), nb.points) == Amount(x);
        }
        assert b1.value == Some(Amount(x + Filled(avg, nb)));
      }
    }
  }

  /** A shell credited with no native bucket keeps no value and no unit; otherwise it holds the
      closed-form value of the buckets credited to it and the type's unit. */
  lemma ShellOutcome(agg: Aggregate, avg: real, w: Window, list: seq<NativeBucket>)
    ensures list == [] ==> CreditAll(agg, avg, Bare(w), list) == Bare(w)
    ensures list != [] ==>
      CreditAll(agg, avg, Bare(w), list) == OutBucket(w.start, w.end, Some(ShellValue(agg, avg, list)), UnitOf(agg))
  {
    if list != [] {
      var nb := list[0];
      var b1 := Credit(agg, false, avg, Init(agg, Bare(w)), nb);
      CreditFresh(agg, false, avg, w, nb);
      CreditAllFrom(agg, avg, b1, list[1..]);
      if agg != BasalRate {
        FromZero(agg, nb.points);
        AddPointsAppend(agg, Zero(agg), nb.points, AllPoints(list[1..]));
        FromZero(agg, AllPoints(list));
      }
    }
  }

  /** Week, month and year mode over a non-empty window: one output bucket per shell, holding the
      closed-form value of the day buckets the scan credits to it, or nothing if none is. */
  lemma CustomBuckets(agg: Aggregate, k: BucketKind, avg: real, st: int, et: int, ns: seq<NativeBucket>)
    requires k.IsCustom() && st < et
    ensures Assemble(agg, Some(k), avg, st, et, ns).Success?
    ensures var wins := Shells(k, st, et);
            var out := Assemble(agg, Some(k), avg, st, et, ns).value.buckets;
            |out| == |wins| &&
            forall i :: 0 <= i < |wins| ==>
              out[i] == if Credited(wins, ns, i) == [] then Bare(wins[i])
                        else OutBucket(wins[i].start, wins[i].end,
                                       Some(ShellValue(agg, avg, Credited(wins, ns, i))), UnitOf(agg))
  {
    var wins := Shells(k, st, et);
    FoldCustomCredits(agg, avg, wins, BareAll(wins), ns);
    forall i | 0 <= i < |wins| {
      ShellOutcome(agg, avg, wins[i], Credited(wins, ns, i));
    }
  }

  /** Flat mode keeps adding to one bucket: its value grows by all the points (not basal). */
  lemma {:induction false} FoldFlatFrom(agg: Aggregate, avg: real, b: OutBucket, ns: seq<NativeBucket>)
    requires agg != BasalRate && b.value.Some?
    ensures FoldFlat(agg, avg, b, ns).value == Some(AddPoints(agg, b.value.value, AllPoints(ns)))
    decreases |ns|
  {
    if ns != [] {
      var b1 := Credit(agg, true, avg, b, ns[0]);
      FoldFlatFrom(agg, avg, b1, ns[1..]);
      AddPointsAppend(agg, b.value.value, ns[0].points, AllPoints(ns[1..]));
    }
  }

  /** Without a bucket argument the single bucket spans [st, et), carries the unit, and holds the
      closed-form total of every data point returned. */
  lemma FlatTotal(agg: Aggregate, avg: real, st: int, et: int, ns: seq<NativeBucket>)
    requires agg != BasalRate
    ensures Assemble(agg, None, avg, st, et, ns)
         == Success(Single(OutBucket(st, et, Some(Total(agg, AllPoints(ns))), UnitOf(agg))))
  {
    FoldFlatFrom(agg, avg, Init(agg, Bare(Window(st, et))), ns);
    FromZero(agg, AllPoints(ns));
  }

  /** Flat basal over the one bucket Google Fit returns for the whole span: the filled daily value
      prorated to [st, et). */
  lemma FlatBasal(avg: real, st: int, et: int, nb: NativeBucket)
    ensures Assemble(BasalRate, None, avg, st, et, [nb])
         == Success(Single(OutBucket(st, et, Some(BucketValue(BasalRate, true, avg, Window(st, et), nb)), None)))
  {
    var b := Init(BasalRate, Bare(Window(st, et)));
    CreditFresh(BasalRate, true, avg, Window(st, et), nb);
    assert [nb][1..] == [];
    assert FoldFlat(BasalRate, avg, b, [nb]) == Credit(BasalRate, true, avg, b, nb);
  }

  /** The bucket loop fails only in custom mode with an empty window and at least one native bucket
      (the scan leaves `retBucket` null). */
  lemma AssembleFailsIff(agg: Aggregate, bucket: Option<BucketKind>, avg: real, st: int, et: int,
                         ns: seq<NativeBucket>)
    ensures Assemble(agg, bucket, avg, st, et, ns).Failure?
        <==> bucket.Some? && bucket.value.IsCustom() && et <= st && ns != []
  {
    if bucket.Some? && bucket.value.IsCustom() {
      var wins := Shells(bucket.value, st, et);
      if st < et {
        FoldCustomCredits(agg, avg, wins, BareAll(wins), ns);
      }
    }
  }

  /** The bucket loop without a `bucket` argument: every native bucket credited to `retBucket`. */
  method FlatLoop(agg: Aggregate, avg: real, b: OutBucket, ns: seq<NativeBucket>) returns (r: OutBucket)
    requires b.value.Some?
    ensures r == FoldFlat(agg, avg, b, ns)
  {
    r := b;
    var i := 0;
    while i < |ns|
      invariant 0 <= i <= |ns|
      invariant r.value.Some?
      invariant FoldFlat(agg, avg, r, ns[i..]) == FoldFlat(agg, avg, b, ns)
    {
      assert ns[i..][1..] == ns[i + 1..];
      r := CreditBucket(agg, true, avg, r, ns[i]);
      i := i + 1;
    }
  }

  /** The bucket loop for hour and day buckets: a new bucket per native bucket, appended to the array. */
  method NativeLoop(agg: Aggregate, prorate: bool, avg: real, ns: seq<NativeBucket>) returns (arr: seq<OutBucket>)
    ensures arr == FoldNative(agg, prorate, avg, ns)
  {
    arr := [];
    var i := 0;
    while i < |ns|
      invariant 0 <= i <= |ns|
      invariant arr + FoldNative(agg, prorate, avg, ns[i..]) == FoldNative(agg, prorate, avg, ns)
    {
      var nb := ns[i];
      assert ns[i..][1..] == ns[i + 1..];
      var cur := CreditBucket(agg, prorate, avg, Init(agg, Bare(Window(nb.start, nb.end))), nb);
      assert (arr + [cur]) + FoldNative(agg, prorate, avg, ns[i + 1..])
          == arr + FoldNative(agg, prorate, avg, ns[i..]);
      arr := arr + [cur];
      i := i + 1;
    }
    assert arr + [] == arr;
  }

  /** The bucket loop for week, month and year buckets: the scan picks the shell, which is updated in
      place in the array. */
  method CustomLoop(agg: Aggregate, avg: real, shells: seq<Window>, start: seq<OutBucket>, ns: seq<NativeBucket>)
    returns (r: Option<seq<OutBucket>>)
    requires |start| == |shells|
    ensures r == FoldCustom(agg, avg, shells, start, ns)
  {
    var arr := start;
    var i := 0;
    while i < |ns|
      invariant 0 <= i <= |ns|
      invariant |arr| == |shells|
      invariant FoldCustom(agg, avg, shells, arr, ns[i..]) == FoldCustom(agg, avg, shells, start, ns)
    {
      var nb := ns[i];
      assert ns[i..][1..] == ns[i + 1..];
      if |arr| == 0 {
        return None;
      }
      var j := FindShell(shells, nb.start, nb.end);
      var cur := CreditBucket(agg, false, avg, Init(agg, arr[j]), nb);
      arr := arr[j := cur];
      i := i + 1;
    }
    return Some(arr);
  }

  /** The post-fetch part of `queryAggregated`: the flat bucket or the shells are set up, then the
      bucket loop runs in the mode the `bucket` argument selects. */
  method CollectBuckets(agg: Aggregate, bucket: Option<BucketKind>, avg: real, st: int, et: int,
                        ns: seq<NativeBucket>) returns (r: Result<Response, string>)
    ensures r == Assemble(agg, bucket, avg, st, et, ns)
  {
    if bucket.None? {
      var flat := FlatLoop(agg, avg, Init(agg, Bare(Window(st, et))), ns);
      r := Success(Single(flat));
    } else if !bucket.value.IsCustom() {
      var arr := NativeLoop(agg, bucket.value == Hour, avg, ns);
      r := Success(Many(arr));
    } else {
      var shells := BuildShells(bucket.value, st, et);
      var out := CustomLoop(agg, avg, shells, BareAll(shells), ns);
      if out.None? {
        r := Failure(NULL_SHELL_ERROR);
      } else {
        r := Success(Many(out.value));
      }
    }
  }
}
