/** Bucket kinds, the quantisation of the query window and the custom (week, month, year)
    "shell" buckets of `queryAggregated` (src/android/HealthPlugin.java). */
module Buckets {
  import opened Wrappers
  import opened Calendar
  import opened Text

  datatype BucketKind = Hour | Day | Week | Month | Year {
    /** Week, month and year buckets are built by the plugin; hour and day come from Google Fit. */
    predicate IsCustom() { Week? || Month? || Year? }

    function Name(): string {
      match this
      case Hour => "hour"
      case Day => "day"
      case Week => "week"
      case Month => "month"
      case Year => "year"
    }
  }

  /** The `bucket` argument, compared ignoring case; None is "Bucket type X not recognised". */
  function ParseBucket(s: string): Option<BucketKind> {
    if EqualsIgnoreCase(s, Hour.Name()) then Some(Hour)
    else if EqualsIgnoreCase(s, Day.Name()) then Some(Day)
    else if EqualsIgnoreCase(s, Week.Name()) then Some(Week)
    else if EqualsIgnoreCase(s, Month.Name()) then Some(Month)
    else if EqualsIgnoreCase(s, Year.Name()) then Some(Year)
    else None
  }

  /** A bucket argument is recognised exactly when it is one of the five names up to case, and then
      it denotes that kind. */
  lemma ParseBucketIff(s: string, k: BucketKind)
    ensures ParseBucket(s) == Some(k) <==> EqualsIgnoreCase(s, k.Name())
  {
    if EqualsIgnoreCase(s, k.Name()) {
      forall k2 | k2 != k
        ensures !EqualsIgnoreCase(s, k2.Name())
      {
        NamesApart(s, k.Name(), k2.Name());
      }
    }
  }

  /** The start of the window once quantised for kind k (HealthPlugin.java:558-574). */
  function NormalizedStart(k: BucketKind, st: int): (r: int)
    ensures r <= st
    ensures k == Hour ==> st - r < HOUR_MS && r % HOUR_MS == 0
    ensures k != Hour ==> r % DAY_MS == 0
    ensures k == Day ==> st - r < DAY_MS
    ensures k == Week ==> st - r < WEEK_MS && Weekday(DayOf(r)) == 0
  {
    match k
    case Hour => FloorHour(st)
    case Day => Midnight(st)
    case Week => WeekStart(st)
    case Month => MonthStart(st)
    case Year => YearStart(st)
  }

  /** The end of the window once quantised for kind k (HealthPlugin.java:576-594): the top of the
      hour plus one hour (even when et is already on the hour), or midnight plus one day, seven days,
      one month or one year. */
  function NormalizedEnd(k: BucketKind, et: int): (r: int)
    ensures r > et
    ensures k == Hour ==> r == FloorHour(et) + HOUR_MS
    ensures k == Hour && et % HOUR_MS == 0 ==> r == et + HOUR_MS
    ensures k != Hour ==> r % DAY_MS == 0
    ensures k == Day ==> r == Midnight(et) + DAY_MS
    ensures k == Week ==> r == Midnight(et) + WEEK_MS
    ensures k == Month ==> r == AddMonth(Midnight(et))
    ensures k == Year ==> r == AddYear(Midnight(et))
  {
    match k
    case Hour => FloorHour(et) + HOUR_MS
    case Day =>
      SplitInstant(DayOf(et) + 1, 0);
      Midnight(et) + DAY_MS
    case Week =>
      SplitInstant(DayOf(et) + 7, 0);
      Midnight(et) + WEEK_MS
    case Month => AddMonth(Midnight(et))
    case Year => AddYear(Midnight(et))
  }

  /** A non-empty raw window stays non-empty once quantised. */
  lemma NormalizedWindowNonEmpty(k: BucketKind, st: int, et: int)
    requires st <= et
    ensures NormalizedStart(k, st) < NormalizedEnd(k, et)
  {
  }

  /** A time window [start, end) in epoch milliseconds. */
  datatype Window = Window(start: int, end: int)

  /** One custom bucket further: `cal.add(DAY_OF_YEAR, 7)`, `add(MONTH, 1)` or `add(YEAR, 1)`. */
  function Advance(k: BucketKind, t: int): (r: int)
    requires k.IsCustom()
    ensures r >= t + DAY_MS
    ensures r % DAY_MS == t % DAY_MS
  {
    match k
    case Week => t + WEEK_MS
    case Month => AddMonth(t)
    case Year => AddYear(t)
  }

  /** A calendar step: at least one day later, at the same time of day. The shell properties hold
      for any such step, so they are proved once over a step function. */
  ghost predicate IsStep(step: int -> int) {
    forall t :: step(t) >= t + DAY_MS && step(t) % DAY_MS == t % DAY_MS
  }

  /** The step of bucket kind k. */
  function StepOf(k: BucketKind): (step: int -> int)
    requires k.IsCustom()
    ensures IsStep(step)
  {
    t => Advance(k, t)
  }

  /** Shells start at `from`, each ends where the next starts, and each spans one step. */
  ghost predicate Contiguous(step: int -> int, r: seq<Window>, from: int) {
    && (|r| > 0 ==> r[0].start == from)
    && (forall i :: 0 <= i < |r| ==> r[i].end == step(r[i].start))
    && (forall i :: 0 <= i < |r| - 1 ==> r[i].end == r[i + 1].start)
  }

  /** One shell per step while the step's start is before `to`. */
  function ShellsBy(step: int -> int, from: int, to: int): (r: seq<Window>)
    requires IsStep(step)
    ensures |r| > 0 <==> from < to
    decreases if from < to then to - from else 0
  {
    if from < to then [Window(from, step(from))] + ShellsBy(step, step(from), to) else []
  }

  /** The custom shells over [from, to) (HealthPlugin.java:658-672). */
  function Shells(k: BucketKind, from: int, to: int): (r: seq<Window>)
    requires k.IsCustom()
    ensures |r| > 0 <==> from < to
  {
    ShellsBy(StepOf(k), from, to)
  }

  /** The shells start at `from`, are ascending and contiguous, each starts before `to`, and the last
      one ends at or after `to`. */
  lemma {:induction false} ShellsByShape(step: int -> int, from: int, to: int)
    requires IsStep(step)
    ensures Contiguous(step, ShellsBy(step, from, to), from)
    ensures forall i :: 0 <= i < |ShellsBy(step, from, to)| ==>
              ShellsBy(step, from, to)[i].start < ShellsBy(step, from, to)[i].end && ShellsBy(step, from, to)[i].start < to
    ensures |ShellsBy(step, from, to)| > 0 ==> ShellsBy(step, from, to)[|ShellsBy(step, from, to)| - 1].end >= to
    decreases if from < to then to - from else 0
  {
    if from < to {
      var a := step(from);
      ShellsByShape(step, a, to);
      var rest := ShellsBy(step, a, to);
      var r := ShellsBy(step, from, to);
      assert r == [Window(from, a)] + rest;
      forall i | 1 <= i < |r|
        ensures r[i] == rest[i - 1]
      {
      }
    }
  }

  lemma ShellsShape(k: BucketKind, from: int, to: int)
    requires k.IsCustom()
    ensures Contiguous(StepOf(k), Shells(k, from, to), from)
    ensures forall i :: 0 <= i < |Shells(k, from, to)| ==>
              Shells(k, from, to)[i].start < Shells(k, from, to)[i].end && Shells(k, from, to)[i].start < to
    ensures |Shells(k, from, to)| > 0 ==> Shells(k, from, to)[|Shells(k, from, to)| - 1].end >= to
  {
    ShellsByShape(StepOf(k), from, to);
  }

  /** The `while (cal.getTimeInMillis() < et)` loop that appends one shell per step. */
  method BuildShells(k: BucketKind, st: int, et: int) returns (shells: seq<Window>)
    requires k.IsCustom()
    ensures shells == Shells(k, st, et)
  {
    var step := StepOf(k);
    shells := [];
    var cal := st;
    while cal < et
      invariant shells + ShellsBy(step, cal, et) == ShellsBy(step, st, et)
      decreases et - cal
    {
      var next := step(cal);
      ShellsStep(step, shells, cal, et, ShellsBy(step, st, et));
      shells := shells + [Window(cal, next)];
      cal := next;
    }
    assert shells + [] == shells;
  }

  /** One turn of the loop above keeps its invariant. */
  lemma ShellsStep(step: int -> int, shells: seq<Window>, cal: int, et: int, all: seq<Window>)
    requires IsStep(step) && cal < et
    requires shells + ShellsBy(step, cal, et) == all
    ensures (shells + [Window(cal, step(cal))]) + ShellsBy(step, step(cal), et) == all
  {
    var w := Window(cal, step(cal));
    var rest := ShellsBy(step, step(cal), et);
    assert ShellsBy(step, cal, et) == [w] + rest;
    assert (shells + [w]) + rest == shells + ([w] + rest);
  }

  /** Native bucket [s, e) lies wholly inside window w. */
  predicate Fits(w: Window, s: int, e: int) {
    w.start <= s && e <= w.end
  }

  /** The shell a native day bucket is credited to: the scan from index i stops at the first shell
      that contains it, and otherwise at the last shell (HealthPlugin.java:696-704). */
  function ShellFrom(wins: seq<Window>, s: int, e: int, i: nat): (r: nat)
    requires i < |wins|
    ensures i <= r < |wins|
    ensures forall j :: i <= j < r ==> !Fits(wins[j], s, e)
    ensures Fits(wins[r], s, e) || r == |wins| - 1
    decreases |wins| - i
  {
    if Fits(wins[i], s, e) || i == |wins| - 1 then i else ShellFrom(wins, s, e, i + 1)
  }

  function ShellFor(wins: seq<Window>, s: int, e: int): (r: nat)
    requires |wins| > 0
    ensures r < |wins|
    ensures forall j :: 0 <= j < r ==> !Fits(wins[j], s, e)
    ensures Fits(wins[r], s, e) || r == |wins| - 1
  {
    ShellFrom(wins, s, e, 0)
  }

  /** The first shell that contains the native bucket, if any; if none does, the last shell. */
  lemma ShellForFirstFitOrLast(wins: seq<Window>, s: int, e: int)
    requires |wins| > 0
    ensures (exists j :: 0 <= j < |wins| && Fits(wins[j], s, e)) ==>
              Fits(wins[ShellFor(wins, s, e)], s, e)
    ensures (forall j :: 0 <= j < |wins| ==> !Fits(wins[j], s, e)) ==>
              ShellFor(wins, s, e) == |wins| - 1
  {
  }

  /** The Java scan: `for (i = 0; i < n; i++) { retBucket = arr[i]; if (fits) break; }`. */
  method FindShell(wins: seq<Window>, s: int, e: int) returns (found: nat)
    requires |wins| > 0
    ensures found == ShellFor(wins, s, e)
  {
    found := 0;
    var i := 0;
    while i < |wins|
      invariant 0 <= i <= |wins|
      invariant forall j :: 0 <= j < i ==> !Fits(wins[j], s, e)
      invariant found == if i == 0 then 0 else i - 1
    {
      found := i;
      if Fits(wins[i], s, e) {
        break;
      }
      i := i + 1;
    }
  }

  /** With midnight-aligned windows, every whole day of [from, to) fits in some shell, so the
      fall-back to the last shell never fires for day buckets on this calendar. */
  lemma {:induction false} DayFitsSomeShellBy(step: int -> int, from: int, to: int, s: int)
    requires IsStep(step)
    requires from % DAY_MS == 0 && s % DAY_MS == 0
    requires from <= s && s + DAY_MS <= to
    ensures (exists j :: 0 <= j < |ShellsBy(step, from, to)| && Fits(ShellsBy(step, from, to)[j], s, s + DAY_MS))
    decreases s - from
  {
    var a := step(from);
    var r := ShellsBy(step, from, to);
    assert r == [Window(from, a)] + ShellsBy(step, a, to);
    if s < a {
      MidnightsApart(s, a);
      assert Fits(r[0], s, s + DAY_MS);
    } else {
      DayFitsSomeShellBy(step, a, to, s);
      var j :| 0 <= j < |ShellsBy(step, a, to)| && Fits(ShellsBy(step, a, to)[j], s, s + DAY_MS);
      assert r[j + 1] == ShellsBy(step, a, to)[j];
    }
  }

  lemma DayFitsSomeShell(k: BucketKind, from: int, to: int, s: int)
    requires k.IsCustom()
    requires from % DAY_MS == 0 && s % DAY_MS == 0
    requires from <= s && s + DAY_MS <= to
    ensures (exists j :: 0 <= j < |Shells(k, from, to)| && Fits(Shells(k, from, to)[j], s, s + DAY_MS))
  {
    var r := ShellsBy(StepOf(k), from, to);
    DayFitsSomeShellBy(StepOf(k), from, to, s);
    var j :| 0 <= j < |r| && Fits(r[j], s, s + DAY_MS);
    assert Shells(k, from, to) == r;
    assert Fits(Shells(k, from, to)[j], s, s + DAY_MS);
  }
}
