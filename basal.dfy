/** The trailing-week basal metabolic rate average of `getBasalAVG`
    (src/android/HealthPlugin.java:793-826). */
module Basal {
  import opened Wrappers
  import opened Calendar
  import opened Fitness
  import opened Accumulate

  /** The read `getBasalAVG` issues: basal summaries over the week before the original end time,
      bucketed by day. */
  function BasalRequest(et: int): (r: AggregateRequest)
    ensures r.aggregate == BasalRate && r.bucketMs == DAY_MS
    ensures r.end == et && r.end - r.start == WEEK_MS
  {
    AggregateRequest(BasalRate, et - WEEK_MS, et, DAY_MS)
  }

  /** x added k times. */
  function Repeat(x: real, k: nat): real {
    if k == 0 then 0.0 else x + Repeat(x, k - 1)
  }

  /** Adding x k times is multiplying it by k. */
  lemma {:induction false} RepeatIsProduct(x: real, k: nat)
    ensures Repeat(x, k) == x * (k as real)
  {
    if k > 0 {
      RepeatIsProduct(x, k - 1);
      assert x * (k as real) == x * ((k - 1) as real) + x;
    }
  }

  /** A larger summand gives a larger k-fold sum. */
  lemma {:induction false} RepeatMonotone(x: real, y: real, k: nat)
    requires x < y && k > 0
    ensures Repeat(x, k) < Repeat(y, k)
  {
    if k > 1 {
      RepeatMonotone(x, y, k - 1);
    }
  }

  /** The unweighted mean of all the per-day averages, or 0 when there is none: the mean added once
      per average is their sum. */
  function Mean(ns: seq<NativeBucket>): (r: real)
    ensures |AllPoints(ns)| == 0 ==> r == 0.0
    ensures |AllPoints(ns)| > 0 ==> Repeat(r, |AllPoints(ns)|) == SumField(BasalRate, AllPoints(ns))
  {
    var pts := AllPoints(ns);
    if |pts| == 0 then 0.0
    else
      var m := SumField(BasalRate, pts) / (|pts| as real);
      MeanRepeat(SumField(BasalRate, pts), |pts|);
      m
  }

  lemma MeanRepeat(s: real, k: nat)
    requires k > 0
    ensures Repeat(s / (k as real), k) == s
  {
    RepeatIsProduct(s / (k as real), k);
  }

  lemma {:induction false} SumFieldAppend(agg: Aggregate, a: seq<AggPoint>, b: seq<AggPoint>)
    ensures SumField(agg, a + b) == SumField(agg, a) + SumField(agg, b)
    decreases |a|
  {
    if a == [] {
      assert a + b == b;
    } else {
      assert (a + b)[1..] == a[1..] + b;
      SumFieldAppend(agg, a[1..], b);
    }
  }

  /** The points of the buckets from index i on are bucket i's points, then the rest. */
  lemma AllPointsFrom(ns: seq<NativeBucket>, i: nat)
    requires i < |ns|
    ensures AllPoints(ns[i..]) == ns[i].points + AllPoints(ns[i + 1..])
  {
    assert ns[i..][1..] == ns[i + 1..];
  }

  /** The two nested loops: `basalAVG += avg; avgsN++` for every data point, then the division. */
  method AverageOfAverages(ns: seq<NativeBucket>) returns (avg: real)
    ensures avg == Mean(ns)
  {
    var total, count := 0.0, 0;
    var i := 0;
    while i < |ns|
      invariant 0 <= i <= |ns|
      invariant total + SumField(BasalRate, AllPoints(ns[i..])) == SumField(BasalRate, AllPoints(ns))
      invariant count + |AllPoints(ns[i..])| == |AllPoints(ns)|
    {
      var pts := ns[i].points;
      AllPointsFrom(ns, i);
      SumFieldAppend(BasalRate, pts, AllPoints(ns[i + 1..]));
      var j := 0;
      while j < |pts|
        invariant 0 <= j <= |pts|
        invariant total + SumField(BasalRate, pts[j..]) + SumField(BasalRate, AllPoints(ns[i + 1..]))
               == SumField(BasalRate, AllPoints(ns))
        invariant count + |pts[j..]| + |AllPoints(ns[i + 1..])| == |AllPoints(ns)|
      {
        assert pts[j..][1..] == pts[j + 1..];
        total := total + pts[j].average;
        count := count + 1;
        j := j + 1;
      }
      i := i + 1;
    }
    assert ns[i..] == [];
    avg := total;
    if count != 0 {
      avg := total / (count as real);
    }
  }

  /** `getBasalAVG`: the mean over the trailing week, or the read's status message. */
  function BasalAverage(provider: Provider, et: int): Result<real, string> {
    match provider(BasalRequest(et))
    case Failure(msg) => Failure(msg)
    case Success(ns) => Success(Mean(ns))
  }

  method GetBasalAverage(provider: Provider, et: int) returns (r: Result<real, string>)
    ensures r == BasalAverage(provider, et)
  {
    var read := provider(BasalRequest(et));
    if read.Failure? {
      return Failure(read.error);
    }
    var avg := AverageOfAverages(read.value);
    return Success(avg);
  }

  /** The mean lies between the smallest and the largest daily average. */
  lemma MeanBounds(ns: seq<NativeBucket>, lo: real, hi: real)
    requires |AllPoints(ns)| > 0
    requires forall p :: p in AllPoints(ns) ==> lo <= p.average <= hi
    ensures lo <= Mean(ns) <= hi
  {
    var pts := AllPoints(ns);
    SumBounds(pts, lo, hi);
    if Mean(ns) < lo {
      RepeatMonotone(Mean(ns), lo, |pts|);
    }
    if hi < Mean(ns) {
      RepeatMonotone(hi, Mean(ns), |pts|);
    }
  }

  lemma {:induction false} SumBounds(pts: seq<AggPoint>, lo: real, hi: real)
    requires forall p :: p in pts ==> lo <= p.average <= hi
    ensures Repeat(lo, |pts|) <= SumField(BasalRate, pts) <= Repeat(hi, |pts|)
    decreases |pts|
  {
    if pts != [] {
      SumBounds(pts[1..], lo, hi);
      assert pts[0] in pts;
    }
  }
}
