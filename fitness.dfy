/** What the aggregated query asks Google Fit for and what it gets back; the fetch itself
    (`Fitness.HistoryApi.readData(...).await()`) is a parameter of the model. */
module Fitness {
  import opened Wrappers
  import opened Int32
  import opened Text

  /** The aggregate data types `queryAggregated` accepts (HealthPlugin.java:621-634). */
  datatype Aggregate = Steps | Distance | Calories | BasalRate | Activity {
    function Name(): string {
      match this
      case Steps => "steps"
      case Distance => "distance"
      case Calories => "calories"
      case BasalRate => "calories.basal"
      case Activity => "activity"
    }
  }

  /** The `dataType` argument compared ignoring case, in the source's order. */
  function ParseAggregate(s: string): Option<Aggregate> {
    if EqualsIgnoreCase(s, Steps.Name()) then Some(Steps)
    else if EqualsIgnoreCase(s, Distance.Name()) then Some(Distance)
    else if EqualsIgnoreCase(s, Calories.Name()) then Some(Calories)
    else if EqualsIgnoreCase(s, BasalRate.Name()) then Some(BasalRate)
    else if EqualsIgnoreCase(s, Activity.Name()) then Some(Activity)
    else None
  }

  /** A data type is supported exactly when it is one of the five names up to case. */
  lemma ParseAggregateIff(s: string, a: Aggregate)
    ensures ParseAggregate(s) == Some(a) <==> EqualsIgnoreCase(s, a.Name())
  {
    if EqualsIgnoreCase(s, a.Name()) {
      forall b | b != a
        ensures !EqualsIgnoreCase(s, b.Name())
      {
        NamesApart(s, a.Name(), b.Name());
      }
    }
  }

  /** A data point of an aggregated bucket, reduced to the fields the plugin reads:
      FIELD_STEPS, FIELD_DISTANCE, FIELD_CALORIES, FIELD_AVERAGE, FIELD_ACTIVITY, FIELD_DURATION. */
  datatype AggPoint = AggPoint(
    steps: int32, distance: real, calories: real, average: real, activity: string, duration: int32)

  /** A bucket as Google Fit returns it: its window and the points of all its data sets, in order. */
  datatype NativeBucket = NativeBucket(start: int, end: int, points: seq<AggPoint>)

  /** A read request: aggregate `aggregate` over [start, end), bucketed by `bucketMs` milliseconds
      (`bucketByTime(1, HOURS)`, `bucketByTime(1, DAYS)` or `bucketByTime(allms, MILLISECONDS)`). */
  datatype AggregateRequest = AggregateRequest(aggregate: Aggregate, start: int, end: int, bucketMs: int)

  /** The fetch: the buckets, or the status message of a failed read. */
  type Provider = AggregateRequest -> Result<seq<NativeBucket>, string>
}
