/**
  The temperature card: per-bucket mean temperatures of the flow, return
  and circuit sensors, the flow-return spread per bucket, the averages
  of the series, and the current spread shown from the live states.
 */
module TemperatureCard {
  import opened Common
  import opened Stats
  import opened TimeSeries

  datatype TempEntities = TempEntities(
    flow: Option<string>,
    ret: Option<string>,
    flowCircuit: Option<string>,
    flowCircuit2: Option<string>)

  /** The bucket means of a configured sensor, a gap per bucket for one that is not configured. */
  function MeanSeries(stats: StatsById, id: Option<string>, buckets: seq<Bucket>): (r: seq<Option<real>>)
    ensures |r| == |buckets|
    ensures !Truthy(id) ==> forall i :: 0 <= i < |r| ==> r[i].None?
    ensures Truthy(id) ==> r == Aggregate(StatsOf(stats, id.value), buckets, MeanType)
  {
    if Truthy(id) then Aggregate(StatsOf(stats, id.value), buckets, MeanType)
    else seq(|buckets|, i => None)
  }

  /** The spread series: flow minus return where both have a value, a gap elsewhere. */
  function Spread(flow: seq<Option<real>>, ret: seq<Option<real>>): (r: seq<Option<real>>)
    requires |flow| == |ret|
    ensures |r| == |flow|
    ensures forall i :: 0 <= i < |r| ==> (r[i].Some? <==> flow[i].Some? && ret[i].Some?)
    ensures forall i :: 0 <= i < |r| && r[i].Some? ==> ret[i].value + r[i].value == flow[i].value
  {
    seq(|flow|, i requires 0 <= i < |flow| =>
      if flow[i].Some? && ret[i].Some? then Some(flow[i].value - ret[i].value) else None)
  }

  /** `_data` after `_processData`; the averages before their one-decimal formatting. */
  datatype TempData = TempData(
    flow: seq<Option<real>>,
    ret: seq<Option<real>>,
    flowCircuit: seq<Option<real>>,
    flowCircuit2: seq<Option<real>>,
    spread: seq<Option<real>>,
    avgFlow: Option<real>,
    avgReturn: Option<real>,
    avgFlowCircuit: Option<real>,
    avgFlowCircuit2: Option<real>,
    avgSpread: Option<real>)

  /** The chart data of `_processData` over the given buckets. */
  function ChartData(stats: StatsById, e: TempEntities, buckets: seq<Bucket>): (d: TempData)
    ensures |d.flow| == |buckets| && |d.ret| == |buckets| && |d.spread| == |buckets|
    ensures |d.flowCircuit| == |buckets| && |d.flowCircuit2| == |buckets|
    ensures d.flow == MeanSeries(stats, e.flow, buckets) && d.ret == MeanSeries(stats, e.ret, buckets)
    ensures d.flowCircuit == MeanSeries(stats, e.flowCircuit, buckets)
    ensures d.flowCircuit2 == MeanSeries(stats, e.flowCircuit2, buckets)
    ensures d.spread == Spread(d.flow, d.ret)
    ensures d.avgFlow == CalculateAverage(d.flow) && d.avgReturn == CalculateAverage(d.ret)
    ensures d.avgFlowCircuit == CalculateAverage(d.flowCircuit)
    ensures d.avgFlowCircuit2 == CalculateAverage(d.flowCircuit2)
    ensures d.avgSpread == CalculateAverage(d.spread)
  {
    var flow := MeanSeries(stats, e.flow, buckets);
    var ret := MeanSeries(stats, e.ret, buckets);
    var hk := MeanSeries(stats, e.flowCircuit, buckets);
    var hk2 := MeanSeries(stats, e.flowCircuit2, buckets);
    var spread := Spread(flow, ret);
    TempData(flow, ret, hk, hk2, spread,
             CalculateAverage(flow), CalculateAverage(ret), CalculateAverage(hk), CalculateAverage(hk2),
             CalculateAverage(spread))
  }

  /** Without both a flow and a return sensor there is no spread in any bucket and no average spread. */
  lemma NoSpreadWithoutBothSensors(stats: StatsById, e: TempEntities, buckets: seq<Bucket>)
    requires !Truthy(e.flow) || !Truthy(e.ret)
    ensures var d := ChartData(stats, e, buckets);
            && (forall i :: 0 <= i < |buckets| ==> d.spread[i].None?)
            && d.avgSpread.None?
  {
  }

  /**
    When every flow mean lies in `[flowLo, flowHi]` and every return mean in
    `[retLo, retHi]`, each bucket's spread and the average spread lie in
    `[flowLo - retHi, flowHi - retLo]`.
   */
  lemma SpreadWithinBounds(flow: seq<Option<real>>, ret: seq<Option<real>>,
                           flowLo: real, flowHi: real, retLo: real, retHi: real)
    requires |flow| == |ret|
    requires forall i :: 0 <= i < |flow| && flow[i].Some? ==> flowLo <= flow[i].value <= flowHi
    requires forall i :: 0 <= i < |ret| && ret[i].Some? ==> retLo <= ret[i].value <= retHi
    ensures forall i :: 0 <= i < |flow| && Spread(flow, ret)[i].Some? ==>
              flowLo - retHi <= Spread(flow, ret)[i].value <= flowHi - retLo
    ensures CalculateAverage(Spread(flow, ret)).Some? ==>
              flowLo - retHi <= CalculateAverage(Spread(flow, ret)).value <= flowHi - retLo
  {
    AverageWithinBounds(Spread(flow, ret), flowLo - retHi, flowHi - retLo);
  }

  /** `hass.states[id]?.state || "-"` for a configured id, `"-"` otherwise. */
  function CurrentState(states: map<string, string>, id: Option<string>): (r: string)
    ensures r != "-" ==> Truthy(id) && id.value in states && r == states[id.value]
  {
    if Truthy(id) && id.value in states && states[id.value] != "" then states[id.value] else "-"
  }

  /**
    The current spread in the header: shown only with both a flow and a
    return sensor whose states are present; `parseFloat` is a parameter and
    the one-decimal formatting is not modelled.
   */
  function CurrentSpread(states: map<string, string>, e: TempEntities, parse: string -> real): (r: Option<real>)
    ensures r.Some? <==> Truthy(e.flow) && Truthy(e.ret)
                         && CurrentState(states, e.flow) != "-" && CurrentState(states, e.ret) != "-"
    ensures r.Some? ==> e.flow.value in states && e.ret.value in states
    ensures r.Some? ==> r.value == parse(states[e.flow.value]) - parse(states[e.ret.value])
  {
    var curV := CurrentState(states, e.flow);
    var curR := CurrentState(states, e.ret);
    if Truthy(e.flow) && Truthy(e.ret) && curV != "-" && curR != "-" then Some(parse(curV) - parse(curR))
    else None
  }

  /** `'5minute'` buckets for the 12-hour and day views; the month view's step is a day whatever is asked. */
  function TempResolution(mode: FixedStepMode): Option<Resolution>
  {
    if mode == TwelveHours || mode == Day then Some(FiveMinute) else None
  }

  function AnyTempEntity(e: TempEntities): bool
  {
    Truthy(e.flow) || Truthy(e.ret) || Truthy(e.flowCircuit) || Truthy(e.flowCircuit2)
  }

  class TemperatureCardState {
    var data: Option<TempData>

    constructor ()
      ensures data == None
    {
      data := None;
    }

    /**
      `_fetchData` and `_processData` for a fixed-step view: no data without
      any configured sensor, otherwise the chart data over the view's buckets.
     */
    method Refresh(stats: StatsById, e: TempEntities, start: real, end: real, mode: FixedStepMode)
      modifies this
      ensures !AnyTempEntity(e) ==> data == None
      ensures AnyTempEntity(e) ==>
                data == Some(ChartData(stats, e, FixedBuckets(start, end, BucketStep(mode, TempResolution(mode)))))
    {
      if !AnyTempEntity(e) {
        data := None;
        return;
      }
      var buckets := GenerateBuckets(start, end, mode, TempResolution(mode));
      data := Some(ChartData(stats, e, buckets));
    }
  }
}
