/**
  The energy card: per-bucket energy and heat sums for the heating and
  hot-water circuits, the coefficient of performance per bucket (capped
  at 10, absent below 0.1 kWh), the period totals, and the visibility
  toggles of its chart series.
 */
module EnergyCard {
  import opened Common
  import opened Stats
  import opened TimeSeries

  datatype EnergyEntities = EnergyEntities(
    energyHeating: Option<string>,
    energyWater: Option<string>,
    heatHeating: Option<string>,
    heatWater: Option<string>)

  /** `getSeries`: the bucket sums of a configured sensor, a zero per bucket for one that is not configured. */
  function GetSeries(stats: StatsById, id: Option<string>, buckets: seq<Bucket>): (r: seq<Option<real>>)
    ensures |r| == |buckets|
    ensures !Truthy(id) ==> forall i :: 0 <= i < |r| ==> r[i] == Some(0.0)
    ensures Truthy(id) ==> r == Aggregate(StatsOf(stats, id.value), buckets, SumType)
  {
    if Truthy(id) then Aggregate(StatsOf(stats, id.value), buckets, SumType)
    else seq(|buckets|, i => Some(0.0))
  }

  /** `v || 0`: a missing bucket counts as zero. */
  function OrZero(v: Option<real>): real
  {
    if v.Some? then v.value else 0.0
  }

  /**
    The COP of one bucket: nothing when at most 0.1 kWh of energy was used,
    otherwise heat over energy, never above 10.
   */
  function CopOf(energy: real, heat: real): (r: Option<real>)
    ensures r.None? <==> energy <= 0.1
    ensures r.Some? ==> r.value <= 10.0
    ensures r.Some? && r.value < 10.0 ==> r.value * energy == heat
    ensures r.Some? && r.value == 10.0 ==> heat >= 10.0 * energy
  {
    if energy > 0.1 then
      var val := heat / energy;
      assert val * energy == heat;
      ScaleMonotone(10.0, if val > 10.0 then val else 10.0, energy);
      if val > 10.0 then Some(10.0) else Some(val)
    else None
  }

  /** `sum`: the total of a series, missing buckets counting as zero. */
  function SeriesTotal(s: seq<Option<real>>): real
  {
    Sum(seq(|s|, i requires 0 <= i < |s| => OrZero(s[i])))
  }

  /** `_data` after `_processData`. */
  datatype EnergyData = EnergyData(
    energyHeating: seq<Option<real>>,
    energyWater: seq<Option<real>>,
    heatHeating: seq<Option<real>>,
    heatWater: seq<Option<real>>,
    cop: seq<Option<real>>,
    totalEnergy: real,
    totalHeat: real)

  /** The energy used in bucket `i`, heating plus hot water. */
  function BucketEnergy(d: EnergyData, i: nat): real
    requires i < |d.energyHeating| && i < |d.energyWater|
  {
    OrZero(d.energyHeating[i]) + OrZero(d.energyWater[i])
  }

  /** The heat produced in bucket `i`, heating plus hot water. */
  function BucketHeat(d: EnergyData, i: nat): real
    requires i < |d.heatHeating| && i < |d.heatWater|
  {
    OrZero(d.heatHeating[i]) + OrZero(d.heatWater[i])
  }

  predicate SeriesFit(d: EnergyData, n: nat)
  {
    |d.energyHeating| == n && |d.energyWater| == n && |d.heatHeating| == n && |d.heatWater| == n && |d.cop| == n
  }

  /** The COP series: one entry per bucket, from that bucket's total energy and heat. */
  function CopSeries(eh: seq<Option<real>>, ew: seq<Option<real>>, hh: seq<Option<real>>, hw: seq<Option<real>>): (r: seq<Option<real>>)
    requires |ew| == |eh| && |hh| == |eh| && |hw| == |eh|
    ensures |r| == |eh|
    ensures forall i :: 0 <= i < |r| ==>
              r[i] == CopOf(OrZero(eh[i]) + OrZero(ew[i]), OrZero(hh[i]) + OrZero(hw[i]))
  {
    seq(|eh|, i requires 0 <= i < |eh| => CopOf(OrZero(eh[i]) + OrZero(ew[i]), OrZero(hh[i]) + OrZero(hw[i])))
  }

  /** The chart data of `_processData` over the given buckets. */
  function ChartData(stats: StatsById, e: EnergyEntities, buckets: seq<Bucket>): (d: EnergyData)
    ensures SeriesFit(d, |buckets|)
    ensures d.energyHeating == GetSeries(stats, e.energyHeating, buckets)
    ensures d.energyWater == GetSeries(stats, e.energyWater, buckets)
    ensures d.heatHeating == GetSeries(stats, e.heatHeating, buckets)
    ensures d.heatWater == GetSeries(stats, e.heatWater, buckets)
    ensures d.cop == CopSeries(d.energyHeating, d.energyWater, d.heatHeating, d.heatWater)
    ensures d.totalEnergy == SeriesTotal(d.energyHeating) + SeriesTotal(d.energyWater)
    ensures d.totalHeat == SeriesTotal(d.heatHeating) + SeriesTotal(d.heatWater)
  {
    var eh := GetSeries(stats, e.energyHeating, buckets);
    var ew := GetSeries(stats, e.energyWater, buckets);
    var hh := GetSeries(stats, e.heatHeating, buckets);
    var hw := GetSeries(stats, e.heatWater, buckets);
    EnergyData(eh, ew, hh, hw, CopSeries(eh, ew, hh, hw),
               SeriesTotal(eh) + SeriesTotal(ew), SeriesTotal(hh) + SeriesTotal(hw))
  }

  /** Every COP of the chart is computed from its bucket's energy and heat, and so is never above 10. */
  lemma CopPerBucket(stats: StatsById, e: EnergyEntities, buckets: seq<Bucket>, i: nat)
    requires i < |buckets|
    ensures var d := ChartData(stats, e, buckets);
            && d.cop[i] == CopOf(BucketEnergy(d, i), BucketHeat(d, i))
            && (d.cop[i].Some? ==> d.cop[i].value <= 10.0)
            && (d.cop[i].None? <==> BucketEnergy(d, i) <= 0.1)
  {
    CopEntry(ChartData(stats, e, buckets), i);
  }

  /** An entry of a COP series built from the data's own series. */
  lemma CopEntry(d: EnergyData, i: nat)
    requires SeriesFit(d, |d.cop|) && i < |d.cop|
    requires d.cop == CopSeries(d.energyHeating, d.energyWater, d.heatHeating, d.heatWater)
    ensures d.cop[i] == CopOf(BucketEnergy(d, i), BucketHeat(d, i))
  {
  }

  /** Adding two series bucket by bucket and then summing is summing each and adding. */
  lemma {:induction false} SumPointwise(a: seq<real>, b: seq<real>)
    requires |a| == |b|
    ensures Sum(seq(|a|, i requires 0 <= i < |a| => a[i] + b[i])) == Sum(a) + Sum(b)
  {
    var s := seq(|a|, i requires 0 <= i < |a| => a[i] + b[i]);
    if |a| > 0 {
      var n := |a| - 1;
      assert s[..n] == seq(n, i requires 0 <= i < n => a[..n][i] + b[..n][i]);
      SumPointwise(a[..n], b[..n]);
    }
  }

  /** The total of two series added bucket by bucket. */
  lemma TotalOfPair(a: seq<Option<real>>, b: seq<Option<real>>)
    requires |a| == |b|
    ensures SeriesTotal(a) + SeriesTotal(b) == Sum(seq(|a|, i requires 0 <= i < |a| => OrZero(a[i]) + OrZero(b[i])))
  {
    var n := |a|;
    var x := seq(n, i requires 0 <= i < n => OrZero(a[i]));
    var y := seq(n, i requires 0 <= i < n => OrZero(b[i]));
    SumPointwise(x, y);
    assert seq(n, i requires 0 <= i < n => x[i] + y[i]) == seq(n, i requires 0 <= i < n => OrZero(a[i]) + OrZero(b[i]));
  }

  /** Totals kept as in `_processData` are the sums over the buckets of energy and heat. */
  lemma DataTotals(d: EnergyData, n: nat)
    requires SeriesFit(d, n)
    requires d.totalEnergy == SeriesTotal(d.energyHeating) + SeriesTotal(d.energyWater)
    requires d.totalHeat == SeriesTotal(d.heatHeating) + SeriesTotal(d.heatWater)
    ensures d.totalEnergy == Sum(seq(n, i requires 0 <= i < n => BucketEnergy(d, i)))
    ensures d.totalHeat == Sum(seq(n, i requires 0 <= i < n => BucketHeat(d, i)))
  {
    TotalOfPair(d.energyHeating, d.energyWater);
    assert seq(n, i requires 0 <= i < n => OrZero(d.energyHeating[i]) + OrZero(d.energyWater[i]))
        == seq(n, i requires 0 <= i < n => BucketEnergy(d, i));
    TotalOfPair(d.heatHeating, d.heatWater);
    assert seq(n, i requires 0 <= i < n => OrZero(d.heatHeating[i]) + OrZero(d.heatWater[i]))
        == seq(n, i requires 0 <= i < n => BucketHeat(d, i));
  }

  /** The period totals are the sums over the buckets of the energy and heat the COP is computed from. */
  lemma TotalsAreBucketSums(stats: StatsById, e: EnergyEntities, buckets: seq<Bucket>)
    ensures var d := ChartData(stats, e, buckets);
            && d.totalEnergy == Sum(seq(|buckets|, i requires 0 <= i < |buckets| => BucketEnergy(d, i)))
            && d.totalHeat == Sum(seq(|buckets|, i requires 0 <= i < |buckets| => BucketHeat(d, i)))
  {
    DataTotals(ChartData(stats, e, buckets), |buckets|);
  }

  /** Without an energy sensor no bucket has a COP and nothing was used. */
  lemma NoEnergySensorNoCop(stats: StatsById, e: EnergyEntities, buckets: seq<Bucket>)
    requires !Truthy(e.energyHeating) && !Truthy(e.energyWater)
    ensures var d := ChartData(stats, e, buckets);
            && (forall i :: 0 <= i < |buckets| ==> d.cop[i].None?)
            && d.totalEnergy == 0.0
  {
    var d := ChartData(stats, e, buckets);
    var n := |buckets|;
    SumBounds(seq(n, i requires 0 <= i < n => OrZero(d.energyHeating[i])), 0.0, 0.0);
    SumBounds(seq(n, i requires 0 <= i < n => OrZero(d.energyWater[i])), 0.0, 0.0);
  }

  /** `'hour'` for the 12-hour and day views; the month view's step is a day whatever is asked. */
  function EnergyResolution(mode: FixedStepMode): Option<Resolution>
  {
    if mode == TwelveHours || mode == Day then Some(Hour) else None
  }

  function AnyEnergyEntity(e: EnergyEntities): bool
  {
    Truthy(e.energyHeating) || Truthy(e.energyWater) || Truthy(e.heatHeating) || Truthy(e.heatWater)
  }

  datatype SeriesKey = EnergyKey | HeatKey | CopKey

  datatype Visibility = Visibility(energy: bool, heat: bool, cop: bool)

  function Visible(v: Visibility, key: SeriesKey): bool
  {
    match key
    case EnergyKey => v.energy
    case HeatKey => v.heat
    case CopKey => v.cop
  }

  /** `{ ...visibility, [key]: !visibility[key] }`. */
  function Flip(v: Visibility, key: SeriesKey): (r: Visibility)
    ensures Visible(r, key) == !Visible(v, key)
    ensures forall k :: k != key ==> Visible(r, k) == Visible(v, k)
  {
    match key
    case EnergyKey => v.(energy := !v.energy)
    case HeatKey => v.(heat := !v.heat)
    case CopKey => v.(cop := !v.cop)
  }

  /** Toggling the same series twice restores the visibility. */
  lemma FlipTwice(v: Visibility, key: SeriesKey)
    ensures Flip(Flip(v, key), key) == v
  {
  }

  class EnergyCardState {
    var data: Option<EnergyData>
    var visibility: Visibility

    /** No data yet; energy and heat shown, COP hidden. */
    constructor ()
      ensures data == None && visibility == Visibility(true, true, false)
    {
      data := None;
      visibility := Visibility(true, true, false);
    }

    /**
      `_fetchData` and `_processData` for a fixed-step view: no data without
      any configured sensor, otherwise the chart data over the view's buckets.
     */
    method Refresh(stats: StatsById, e: EnergyEntities, start: real, end: real, mode: FixedStepMode)
      modifies this
      ensures !AnyEnergyEntity(e) ==> data == None
      ensures AnyEnergyEntity(e) ==>
                data == Some(ChartData(stats, e, FixedBuckets(start, end, BucketStep(mode, EnergyResolution(mode)))))
      ensures visibility == old(visibility)
    {
      if !AnyEnergyEntity(e) {
        data := None;
        return;
      }
      var buckets := GenerateBuckets(start, end, mode, EnergyResolution(mode));
      data := Some(ChartData(stats, e, buckets));
    }

    /** `_toggleSeries`: flips the one flag and keeps the others and the data. */
    method ToggleSeries(key: SeriesKey)
      modifies this
      ensures visibility == Flip(old(visibility), key)
      ensures data == old(data)
    {
      visibility := Flip(visibility, key);
    }
  }
}
