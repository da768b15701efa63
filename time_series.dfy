/**
  `TimeSeriesProcessor`, shared by the energy, temperature and water-heater
  cards: fixed-step time buckets over a window, and the aggregation of
  recorder statistics into one value per bucket (a sum of changes or a
  mean of means), plus the average of a series with gaps.
 */
module TimeSeries {
  import opened Common
  import opened Stats

  // ============================================================= buckets

  datatype Resolution = FiveMinute | Hour | DayResolution | MonthResolution | YearResolution

  /** The view modes whose buckets have a fixed length. */
  datatype FixedStepMode = TwelveHours | Day | Month

  const HourMs: real := 3600000.0
  const DayMs: real := 86400000.0

  /** The bucket length asked for by the resolution: 5 minutes, an hour or a day, one hour otherwise. */
  function Step(res: Option<Resolution>): (step: real)
    ensures step > 0.0
    ensures res == Some(FiveMinute) ==> step == 300000.0
    ensures res == Some(DayResolution) ==> step == DayMs
    ensures res != Some(FiveMinute) && res != Some(DayResolution) ==> step == HourMs
  {
    if res == Some(FiveMinute) then 300000.0
    else if res == Some(Hour) then HourMs
    else if res == Some(DayResolution) then DayMs
    else HourMs
  }

  /** '12h' and 'day' use the resolution's step; 'month' always has daily buckets. */
  function BucketStep(mode: FixedStepMode, res: Option<Resolution>): (step: real)
    ensures step > 0.0
  {
    if mode == Month then DayMs else Step(res)
  }

  /** A bucket covers `[start, end)` in ms; its display label is not modelled. */
  datatype Bucket = Bucket(start: real, end: real)

  /** `Math.ceil`: the least integer not below `x`. */
  lemma CeilBounds(x: real)
    ensures (Ceil(x) - 1) as real < x <= Ceil(x) as real
  {
  }

  /** `Math.ceil((endTime - startTime) / step)`. */
  function Iterations(start: real, end: real, step: real): int
    requires step > 0.0
  {
    Ceil((end - start) / step)
  }

  /** The start of bucket `i`. */
  function BucketStart(start: real, step: real, i: nat): real
  {
    start + (i as real) * step
  }

  /** Scaling by a positive factor keeps the order. */
  lemma ScaleMonotone(a: real, b: real, c: real)
    requires a <= b && c > 0.0
    ensures a * c <= b * c
    ensures a < b ==> a * c < b * c
  {
  }

  /** Every bucket the loop reaches starts before the end of the window, so its `break` never fires. */
  lemma BucketStartsBeforeEnd(start: real, end: real, step: real, i: nat)
    requires step > 0.0 && i < Iterations(start, end, step)
    ensures BucketStart(start, step, i) < end
  {
    var x := (end - start) / step;
    CeilBounds(x);
    ScaleMonotone(i as real, x, step);
  }

  /** The buckets of a window cut into steps: `ceil((end - start) / step)` of them, none for an empty window. */
  function FixedBuckets(start: real, end: real, step: real): (r: seq<Bucket>)
    requires step > 0.0
    ensures var n := Iterations(start, end, step);
            |r| == (if n > 0 then n else 0)
    ensures forall i :: 0 <= i < |r| ==>
              r[i] == Bucket(BucketStart(start, step, i), BucketStart(start, step, i) + step)
  {
    var n := Iterations(start, end, step);
    seq(if n > 0 then n else 0, (i: int) requires 0 <= i => Bucket(BucketStart(start, step, i), BucketStart(start, step, i) + step))
  }

  /** `generateBuckets` for the fixed-step modes: consecutive buckets of one step from the start of the window. */
  method GenerateBuckets(start: real, end: real, mode: FixedStepMode, res: Option<Resolution>) returns (buckets: seq<Bucket>)
    ensures buckets == FixedBuckets(start, end, BucketStep(mode, res))
  {
    var step := BucketStep(mode, res);
    var iterations := Ceil((end - start) / step);
    buckets := [];
    var i := 0;
    while i < iterations
      invariant 0 <= i && (iterations > 0 ==> i <= iterations) && (iterations <= 0 ==> i == 0)
      invariant |buckets| == i
      invariant forall j :: 0 <= j < i ==> buckets[j] == Bucket(BucketStart(start, step, j), BucketStart(start, step, j) + step)
    {
      var t := start + (i as real) * step;
      BucketStartsBeforeEnd(start, end, step, i);
      if t > end {
        break;
      }
      buckets := buckets + [Bucket(t, t + step)];
      i := i + 1;
    }
  }

  /** Each bucket ends where the next one starts. */
  lemma BucketsContiguous(start: real, step: real, i: nat)
    ensures BucketStart(start, step, i) + step == BucketStart(start, step, i + 1)
  {
    assert ((i + 1) as real) * step == (i as real) * step + step;
  }

  /** With half-open buckets a point in time falls into at most one of them. */
  lemma BucketsDisjoint(start: real, step: real, i: nat, j: nat, t: real)
    requires step > 0.0
    requires BucketStart(start, step, i) <= t < BucketStart(start, step, i) + step
    requires BucketStart(start, step, j) <= t < BucketStart(start, step, j) + step
    ensures i == j
  {
    var si, sj := BucketStart(start, step, i), BucketStart(start, step, j);
    var d := (i as real) - (j as real);
    assert d * step == si - sj < step;
    BelowOneStep(d, step);
    assert (-d) * step == sj - si < step;
    BelowOneStep(-d, step);
  }

  /** A multiple of a positive step that stays below the step is a multiple by less than one. */
  lemma BelowOneStep(a: real, step: real)
    requires step > 0.0 && a * step < step
    ensures a < 1.0
  {
    assert (a - 1.0) * step < 0.0;
  }

  /** A day at hourly resolution has 24 buckets, and a 12-hour window 12, wherever the window starts. */
  lemma HourlyBucketCounts(start: real)
    ensures Iterations(start, start + DayMs, Step(Some(Hour))) == 24
    ensures Iterations(start, start + 12.0 * HourMs, Step(Some(Hour))) == 12
    ensures BucketStart(start, Step(Some(Hour)), 0) == start
  {
    assert (start + DayMs - start) / HourMs == 24.0;
    assert (start + 12.0 * HourMs - start) / HourMs == 12.0;
  }

  // ========================================================= aggregation

  /** A recorder statistic with its start in ms and its optional change and mean. */
  datatype Stat = Stat(start: real, change: Option<real>, mean: Option<real>)

  /** Recorder statistics by statistic id. */
  type StatsById = map<string, seq<Stat>>

  /** `stats[id]`: an id the recorder did not answer for has no statistics. */
  function StatsOf(stats: StatsById, id: string): seq<Stat>
  {
    if id in stats then stats[id] else []
  }

  datatype AggregateType = MeanType | SumType | ChangeType

  /** The statistics of a bucket: `start <= t < end`. */
  function InBucket(stats: seq<Stat>, b: Bucket): (r: seq<Stat>)
    ensures forall s :: s in r <==> s in stats && b.start <= s.start < b.end
  {
    Keep(stats, (s: Stat) => b.start <= s.start < b.end)
  }

  /** `curr.change || 0`. */
  function ChangeOr0(s: Stat): real
  {
    if s.change.Some? then s.change.value else 0.0
  }

  function Changes(ss: seq<Stat>): (r: seq<real>)
    ensures |r| == |ss| && forall i :: 0 <= i < |ss| ==> r[i] == ChangeOr0(ss[i])
  {
    seq(|ss|, i requires 0 <= i < |ss| => ChangeOr0(ss[i]))
  }

  /** The means that are present, in order. */
  function Means(ss: seq<Stat>): (r: seq<real>)
    ensures forall x :: x in r <==> exists s :: s in ss && s.mean == Some(x)
  {
    if |ss| == 0 then []
    else
      var rest := Means(ss[..|ss| - 1]);
      var last := ss[|ss| - 1];
      assert forall s :: s in ss <==> s in ss[..|ss| - 1] || s == last;
      if last.mean.Some? then rest + [last.mean.value] else rest
  }

  /** The value of one bucket: the sum of the changes (0 when empty), or the mean of the present means. */
  function BucketValue(stats: seq<Stat>, b: Bucket, kind: AggregateType): (r: Option<real>)
    ensures !kind.MeanType? ==> r.Some?
    ensures !kind.MeanType? && |InBucket(stats, b)| == 0 ==> r == Some(0.0)
    ensures kind.MeanType? ==> (r.None? <==> |Means(InBucket(stats, b))| == 0)
  {
    var inBucket := InBucket(stats, b);
    if kind == ChangeType || kind == SumType then
      if |inBucket| == 0 then Some(0.0) else Some(Sum(Changes(inBucket)))
    else if |inBucket| == 0 then None
    else
      var valid := Means(inBucket);
      if |valid| == 0 then None else Some(Mean(valid))
  }

  /** `aggregate`: one value per bucket, all null without statistics. */
  function Aggregate(stats: seq<Stat>, buckets: seq<Bucket>, kind: AggregateType): (r: seq<Option<real>>)
    ensures |r| == |buckets|
    ensures |stats| == 0 ==> forall i :: 0 <= i < |r| ==> r[i].None?
    ensures |stats| > 0 ==> forall i :: 0 <= i < |r| ==> r[i] == BucketValue(stats, buckets[i], kind)
  {
    if |stats| == 0 then seq(|buckets|, i => None)
    else seq(|buckets|, i requires 0 <= i < |buckets| => BucketValue(stats, buckets[i], kind))
  }

  /**
    With statistics present, a sum or change aggregate has a value for
    every bucket, 0 for a bucket with no statistic in it.
   */
  lemma SumNeverNull(stats: seq<Stat>, buckets: seq<Bucket>, kind: AggregateType, i: nat)
    requires |stats| > 0 && kind != MeanType && i < |buckets|
    ensures Aggregate(stats, buckets, kind)[i].Some?
    ensures (forall s :: s in stats ==> !(buckets[i].start <= s.start < buckets[i].end)) ==>
              Aggregate(stats, buckets, kind)[i] == Some(0.0)
  {
    var inBucket := InBucket(stats, buckets[i]);
    assert |inBucket| > 0 ==> inBucket[0] in inBucket;
  }

  /** A mean aggregate is null exactly when no statistic of the bucket has a mean. */
  lemma MeanNullIffNoMean(stats: seq<Stat>, buckets: seq<Bucket>, i: nat)
    requires |stats| > 0 && i < |buckets|
    ensures Aggregate(stats, buckets, MeanType)[i].None? <==>
              forall s :: s in stats && buckets[i].start <= s.start < buckets[i].end ==> s.mean.None?
  {
    var inBucket := InBucket(stats, buckets[i]);
    var valid := Means(inBucket);
    if |valid| > 0 {
      assert valid[0] in valid;
    }
    if exists s :: s in stats && buckets[i].start <= s.start < buckets[i].end && s.mean.Some? {
      var s :| s in stats && buckets[i].start <= s.start < buckets[i].end && s.mean.Some?;
      assert s.mean.value in valid;
    }
  }

  /** A mean aggregate lies between any bounds of the means recorded in its bucket. */
  lemma MeanWithinBounds(stats: seq<Stat>, buckets: seq<Bucket>, i: nat, lo: real, hi: real)
    requires |stats| > 0 && i < |buckets|
    requires forall s :: s in stats && buckets[i].start <= s.start < buckets[i].end && s.mean.Some? ==>
               lo <= s.mean.value <= hi
    ensures Aggregate(stats, buckets, MeanType)[i].Some? ==> lo <= Aggregate(stats, buckets, MeanType)[i].value <= hi
  {
    var valid := Means(InBucket(stats, buckets[i]));
    if |valid| > 0 {
      forall j | 0 <= j < |valid|
        ensures lo <= valid[j] <= hi
      {
        assert valid[j] in valid;
      }
      MeanBounds(valid, lo, hi);
    }
  }

  /** The values that are present, in order. */
  function Present(values: seq<Option<real>>): (r: seq<real>)
    ensures forall x :: x in r <==> Some(x) in values
  {
    if |values| == 0 then []
    else
      var rest := Present(values[..|values| - 1]);
      var last := values[|values| - 1];
      assert forall v :: v in values <==> v in values[..|values| - 1] || v == last;
      if last.Some? then rest + [last.value] else rest
  }

  /** `calculateAverage`: the mean of the values that are present, null when there are none. */
  function CalculateAverage(values: seq<Option<real>>): (r: Option<real>)
    ensures r.None? <==> forall i :: 0 <= i < |values| ==> values[i].None?
  {
    var valid := Present(values);
    if |valid| > 0 then
      assert valid[0] in valid;
      Some(Mean(valid))
    else
      assert forall i :: 0 <= i < |values| ==> values[i].Some? ==> values[i].value in valid;
      None
  }

  /** The average lies between any bounds of the present values. */
  lemma AverageWithinBounds(values: seq<Option<real>>, lo: real, hi: real)
    requires forall i :: 0 <= i < |values| && values[i].Some? ==> lo <= values[i].value <= hi
    ensures CalculateAverage(values).Some? ==> lo <= CalculateAverage(values).value <= hi
  {
    var valid := Present(values);
    if |valid| > 0 {
      forall j | 0 <= j < |valid|
        ensures lo <= valid[j] <= hi
      {
        assert valid[j] in valid;
        var k :| 0 <= k < |values| && values[k] == Some(valid[j]);
      }
      MeanBounds(valid, lo, hi);
    }
  }
}
