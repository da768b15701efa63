/**
  The heating-curve card: the flow temperature the controller aims for at
  each outdoor temperature (standard and Viessmann formulas, clamped to the
  configured limits), the 51-point curve it draws, the live trend arrows,
  the merge of recorded outdoor/flow statistics and pump state changes into
  a playback history, and the playback state of the card.
 */
module HeatingCurve {
  import opened Common
  import opened Stats

  // ============================================================ formulas

  datatype Formula = Standard | Viessmann

  /** The Viessmann damping term, as a function of DAR = outdoor − room. */
  function Damping(dar: real): real
  {
    1.4347 + 0.021 * dar + 0.0002479 * dar * dar
  }

  /** The damping term is positive whatever the outdoor temperature: its discriminant is negative. */
  lemma DampingPositive(dar: real)
    ensures Damping(dar) > 0.0
  {
    var s := 0.0004958 * dar + 0.021;
    assert 0.0009916 * Damping(dar) == s * s + 0.0009916 * 1.4347 - 0.021 * 0.021;
    assert s * s >= 0.0;
  }

  /** `_calculateTemp`: the target flow temperature for an outdoor temperature. */
  function CalculateTemp(formula: Formula, outdoor: real, slope: real, shift: real, room: real): (r: real)
    ensures slope == 0.0 ==> r == room + shift
  {
    match formula
    case Viessmann =>
      var dar := outdoor - room;
      room + shift - slope * dar * Damping(dar)
    case Standard =>
      room + shift + slope * (room - outdoor)
  }

  /** Both formulas give room setpoint plus shift when it is as warm outside as the room should be. */
  lemma CurveAtRoomTemperature(formula: Formula, slope: real, shift: real, room: real)
    ensures CalculateTemp(formula, room, slope, shift, room) == room + shift
  {
  }

  /**
    With a positive slope both formulas ask for more than room setpoint plus
    shift exactly when it is colder outside than the room setpoint.
   */
  lemma CurveAboveBaseIffColder(formula: Formula, outdoor: real, slope: real, shift: real, room: real)
    requires slope > 0.0
    ensures CalculateTemp(formula, outdoor, slope, shift, room) > room + shift <==> outdoor < room
  {
    var dar := outdoor - room;
    DampingPositive(dar);
    var d := Damping(dar);
    if formula == Viessmann {
      assert CalculateTemp(formula, outdoor, slope, shift, room) == room + shift - slope * (dar * d);
      if dar < 0.0 {
        assert dar * d < 0.0;
        assert slope * (dar * d) < 0.0;
      } else {
        assert dar * d >= 0.0;
        assert slope * (dar * d) >= 0.0;
      }
    } else {
      assert CalculateTemp(formula, outdoor, slope, shift, room) == room + shift + slope * (room - outdoor);
      if dar < 0.0 {
        assert slope * (room - outdoor) > 0.0;
      } else {
        assert slope * (room - outdoor) <= 0.0;
      }
    }
  }

  /** With a non-negative slope the standard curve never rises as it gets warmer outside. */
  lemma StandardCurveFalls(o1: real, o2: real, slope: real, shift: real, room: real)
    requires o1 <= o2 && slope >= 0.0
    ensures CalculateTemp(Standard, o1, slope, shift, room) >= CalculateTemp(Standard, o2, slope, shift, room)
  {
    assert slope * (room - o1) - slope * (room - o2) == slope * (o2 - o1);
    assert slope * (o2 - o1) >= 0.0;
  }

  /** `_clampToLimits`: the maximum is checked first, then the minimum; an absent limit does not apply. */
  function ClampToLimits(temp: real, min: Option<real>, max: Option<real>): (r: real)
    ensures r == temp || (max.Some? && r == max.value) || (min.Some? && r == min.value)
    ensures max.Some? && temp > max.value ==> r == max.value
  {
    if max.Some? && temp > max.value then max.value
    else if min.Some? && temp < min.value then min.value
    else temp
  }

  /** Limits that are consistent bound the result, and values inside them pass through. */
  lemma ClampWithinLimits(temp: real, min: Option<real>, max: Option<real>)
    requires min.Some? && max.Some? ==> min.value <= max.value
    ensures var r := ClampToLimits(temp, min, max);
            && (min.Some? ==> r >= min.value)
            && (max.Some? ==> r <= max.value)
            && ((min.None? || temp >= min.value) && (max.None? || temp <= max.value) ==> r == temp)
  {
  }

  /** With consistent limits clamping keeps the order of two temperatures. */
  lemma ClampMonotone(t1: real, t2: real, min: Option<real>, max: Option<real>)
    requires t1 <= t2
    requires min.Some? && max.Some? ==> min.value <= max.value
    ensures ClampToLimits(t1, min, max) <= ClampToLimits(t2, min, max)
  {
  }

  /** When the minimum lies above the maximum, a temperature above the maximum still gets the maximum. */
  lemma ClampMaxFirst(temp: real, min: real, max: real)
    requires max < min && temp > max
    ensures ClampToLimits(temp, Some(min), Some(max)) == max < min
  {
  }

  // =============================================================== curve

  /** The outdoor range the curve is drawn over: −30 °C to 20 °C in steps of one degree. */
  const CurveStart: int := -30
  const CurveEnd: int := 20

  /** The clamped curve value at outdoor temperature `t`. */
  function CurvePoint(formula: Formula, t: real, slope: real, shift: real, room: real, min: Option<real>, max: Option<real>): real
  {
    ClampToLimits(CalculateTemp(formula, t, slope, shift, room), min, max)
  }

  /** The curve loop of `_fetchData`: one outdoor and one flow temperature per degree. */
  method GenerateCurve(formula: Formula, slope: real, shift: real, room: real, min: Option<real>, max: Option<real>)
    returns (outdoorTemps: seq<real>, flowTemps: seq<real>)
    ensures |outdoorTemps| == |flowTemps| == CurveEnd - CurveStart + 1 == 51
    ensures forall i :: 0 <= i < |outdoorTemps| ==> outdoorTemps[i] == (CurveStart + i) as real
    ensures forall i :: 0 <= i < |flowTemps| ==>
              flowTemps[i] == CurvePoint(formula, outdoorTemps[i], slope, shift, room, min, max)
  {
    outdoorTemps := [];
    flowTemps := [];
    var temp := CurveStart;
    while temp <= CurveEnd
      invariant CurveStart <= temp <= CurveEnd + 1
      invariant |outdoorTemps| == |flowTemps| == temp - CurveStart
      invariant forall i :: 0 <= i < |outdoorTemps| ==> outdoorTemps[i] == (CurveStart + i) as real
      invariant forall i :: 0 <= i < |flowTemps| ==>
                  flowTemps[i] == CurvePoint(formula, outdoorTemps[i], slope, shift, room, min, max)
    {
      outdoorTemps := outdoorTemps + [temp as real];
      var calculated := CalculateTemp(formula, temp as real, slope, shift, room);
      var clamped := ClampToLimits(calculated, min, max);
      flowTemps := flowTemps + [clamped];
      temp := temp + 1;
    }
  }

  /** With a non-negative slope and consistent limits the drawn standard curve never rises from left to right. */
  lemma StandardCurveSeqFalls(outdoorTemps: seq<real>, flowTemps: seq<real>, slope: real, shift: real, room: real,
                              min: Option<real>, max: Option<real>)
    requires |outdoorTemps| == |flowTemps|
    requires forall i, j :: 0 <= i < j < |outdoorTemps| ==> outdoorTemps[i] <= outdoorTemps[j]
    requires forall i :: 0 <= i < |flowTemps| ==>
               flowTemps[i] == CurvePoint(Standard, outdoorTemps[i], slope, shift, room, min, max)
    requires slope >= 0.0 && (min.Some? && max.Some? ==> min.value <= max.value)
    ensures forall i, j :: 0 <= i < j < |flowTemps| ==> flowTemps[i] >= flowTemps[j]
  {
    forall i, j | 0 <= i < j < |flowTemps|
      ensures flowTemps[i] >= flowTemps[j]
    {
      StandardCurveFalls(outdoorTemps[i], outdoorTemps[j], slope, shift, room);
      ClampMonotone(CalculateTemp(Standard, outdoorTemps[j], slope, shift, room),
                    CalculateTemp(Standard, outdoorTemps[i], slope, shift, room), min, max);
    }
  }

  /** The readings `_fetchData` takes from entity states; `None` is an unreadable or missing state. */
  datatype Readings = Readings(slope: Option<real>, shift: Option<real>, roomSetpoint: Option<real>,
                               outdoor: Option<real>, currentFlow: Option<real>,
                               minLimit: Option<real>, maxLimit: Option<real>)

  datatype CurveData = CurveData(outdoorTemps: seq<real>, flowTemps: seq<real>,
                                 currentOutdoor: Option<real>, currentFlow: Option<real>,
                                 minLimit: Option<real>, maxLimit: Option<real>,
                                 slope: real, shift: real, roomSetpoint: real)

  /** The room setpoint used when its entity cannot be read. */
  const DefaultRoomSetpoint: real := 20.0

  /**
    `_fetchData`: no curve without a readable slope and shift; otherwise the
    51-point curve around the room setpoint (20 °C by default).
   */
  method FetchCurve(formula: Formula, rd: Readings) returns (data: Option<CurveData>)
    ensures data.None? <==> rd.slope.None? || rd.shift.None?
    ensures data.Some? ==>
              var d := data.value;
              && d.slope == rd.slope.value && d.shift == rd.shift.value
              && d.roomSetpoint == (if rd.roomSetpoint.Some? then rd.roomSetpoint.value else DefaultRoomSetpoint)
              && d.currentOutdoor == rd.outdoor && d.currentFlow == rd.currentFlow
              && d.minLimit == rd.minLimit && d.maxLimit == rd.maxLimit
              && |d.outdoorTemps| == |d.flowTemps| == 51
              && forall i :: 0 <= i < 51 ==>
                   && d.outdoorTemps[i] == (CurveStart + i) as real
                   && d.flowTemps[i] == CurvePoint(formula, d.outdoorTemps[i], d.slope, d.shift, d.roomSetpoint, d.minLimit, d.maxLimit)
  {
    var room := if rd.roomSetpoint.Some? then rd.roomSetpoint.value else DefaultRoomSetpoint;
    if rd.slope.None? || rd.shift.None? {
      return None;
    }
    var outdoorTemps, flowTemps := GenerateCurve(formula, rd.slope.value, rd.shift.value, room, rd.minLimit, rd.maxLimit);
    data := Some(CurveData(outdoorTemps, flowTemps, rd.outdoor, rd.currentFlow, rd.minLimit, rd.maxLimit,
                           rd.slope.value, rd.shift.value, room));
  }

  // =============================================================== trend

  datatype Trend = Up | Down | Flat

  /** Differences below this size count as no change. */
  const TrendTolerance: real := 0.01

  /** `_getTrend`: the direction of change between two readings. */
  function GetTrend(current: Option<real>, prev: Option<real>): (r: Option<Trend>)
    ensures r.None? <==> current.None? || prev.None?
    ensures r == Some(Flat) <==> current.Some? && prev.Some? && Abs(current.value - prev.value) < TrendTolerance
    ensures r == Some(Up) <==> current.Some? && prev.Some? && current.value - prev.value >= TrendTolerance
    ensures r == Some(Down) <==> current.Some? && prev.Some? && current.value - prev.value <= -TrendTolerance
  {
    if current.None? || prev.None? then None
    else
      var diff := current.value - prev.value;
      if Abs(diff) < TrendTolerance then Some(Flat)
      else if diff > 0.0 then Some(Up) else Some(Down)
  }

  function Abs(x: real): real
  {
    if x < 0.0 then -x else x
  }

  /** Swapping the two readings turns a rise into a fall and keeps a flat trend flat. */
  lemma TrendAntisymmetric(a: real, b: real)
    ensures GetTrend(Some(a), Some(b)) == Some(Up) <==> GetTrend(Some(b), Some(a)) == Some(Down)
    ensures GetTrend(Some(a), Some(b)) == Some(Flat) <==> GetTrend(Some(b), Some(a)) == Some(Flat)
  {
  }

  // ================================================== history: time grid

  datatype HistoryPeriod = Last24h | Last7d

  /** Statistics are aligned to 5 minutes for the last 24 hours and to one hour for the last 7 days (in ms). */
  function Grain(p: HistoryPeriod): (g: real)
    ensures g > 0.0
  {
    if p == Last24h then 300000.0 else 3600000.0
  }

  /** The live trend always aligns to 5 minutes. */
  const TrendGrain: real := 300000.0

  /** The n-th multiple of the grain: a time on the grid that all series are aligned to. */
  function GridPoint(n: int, grain: real): real
  {
    (n as real) * grain
  }

  /** `Math.round(t / grain) * grain`, with JavaScript's rounding of halves upwards. */
  function RoundToGrain(t: real, grain: real): (r: real)
    requires grain > 0.0
    ensures t - grain / 2.0 < r
    ensures r <= t + grain / 2.0
    ensures exists n: int :: r == GridPoint(n, grain)
  {
    var x := t / grain + 0.5;
    var n := x.Floor;
    var below := x - n as real;
    assert 0.0 <= below < 1.0;
    assert x * grain == t + grain / 2.0;
    assert below * grain >= 0.0 && (1.0 - below) * grain > 0.0;
    assert (n as real) * grain == x * grain - below * grain;
    assert (1.0 - below) * grain == grain - below * grain;
    assert below * grain < grain;
    assert x * grain - below * grain > t + grain / 2.0 - grain;
    assert (n as real) * grain == GridPoint(n, grain);
    (n as real) * grain
  }

  // ================================================ history: pump cursor

  /** A recorded change of the heating-circuit pump: its time in ms and its new state. */
  datatype PumpChange = PumpChange(time: real, state: string)

  /** The `while` loop of `getPumpStateAt`: steps past every following change that is not after `t`. */
  function Advance(points: seq<PumpChange>, idx: nat, t: real): (r: nat)
    requires idx < |points|
    ensures idx <= r < |points|
    ensures forall j :: idx < j <= r ==> points[j].time <= t
    ensures r == |points| - 1 || points[r + 1].time > t
    decreases |points| - idx
  {
    if idx < |points| - 1 && points[idx + 1].time <= t then Advance(points, idx + 1, t) else idx
  }

  datatype PumpAnswer = PumpAnswer(idx: nat, state: Option<bool>)

  /**
    `getPumpStateAt`: the cursor position after the query and the pump
    state there, or no state when there is no history or the change under
    the cursor is later than `t`.
   */
  function PumpStateAt(points: seq<PumpChange>, idx: nat, t: real): (r: PumpAnswer)
    requires |points| == 0 || idx < |points|
    ensures |points| == 0 ==> r == PumpAnswer(idx, None)
    ensures |points| > 0 ==> idx <= r.idx < |points|
    ensures r.state.Some? ==> points[r.idx].time <= t && r.state.value == (points[r.idx].state == "on")
    ensures |points| > 0 && r.state.None? ==> r.idx == idx && points[idx].time > t
  {
    if |points| == 0 then PumpAnswer(idx, None)
    else
      var k := Advance(points, idx, t);
      if points[k].time > t then PumpAnswer(k, None) else PumpAnswer(k, Some(points[k].state == "on"))
  }

  /** The pump history arrives in time order. */
  predicate ChangesSorted(points: seq<PumpChange>)
  {
    forall i, j :: 0 <= i < j < |points| ==> points[i].time <= points[j].time
  }

  /** On a time-ordered history the cursor stops at the latest change not after `t`. */
  lemma PumpStateIsLatest(points: seq<PumpChange>, idx: nat, t: real)
    requires idx < |points| && ChangesSorted(points)
    ensures var r := PumpStateAt(points, idx, t);
            forall j :: r.idx < j < |points| ==> points[j].time > t
  {
    var k := Advance(points, idx, t);
    forall j | k < j < |points|
      ensures points[j].time > t
    {
      assert points[k + 1].time <= points[j].time;
    }
  }

  /** The cursor shared by every lookup of one history merge; it only moves forwards. */
  class PumpCursor {
    const points: seq<PumpChange>
    var idx: nat

    predicate Valid()
      reads this
    {
      |points| == 0 || idx < |points|
    }

    constructor(points: seq<PumpChange>)
      ensures this.points == points && idx == 0 && Valid()
    {
      this.points := points;
      idx := 0;
    }

    /** `getPumpStateAt(t)`. */
    method StateAt(t: real) returns (state: Option<bool>)
      requires Valid()
      modifies this
      ensures Valid() && old(idx) <= idx
      ensures PumpAnswer(idx, state) == PumpStateAt(points, old(idx), t)
    {
      if |points| == 0 {
        return None;
      }
      while idx < |points| - 1
        invariant old(idx) <= idx < |points|
        invariant Advance(points, old(idx), t) == Advance(points, idx, t)
        decreases |points| - idx
      {
        var nextPt := points[idx + 1];
        if nextPt.time <= t {
          idx := idx + 1;
        } else {
          break;
        }
      }
      var pt := points[idx];
      if pt.time > t {
        return None;
      }
      return Some(pt.state == "on");
    }
  }

  // ==================================================== history: time map

  /** A recorder statistic: its start in ms and its mean, absent when not recorded. */
  datatype StatPoint = StatPoint(start: real, mean: Option<real>)

  datatype Entry = Entry(outdoor: Option<real>, flow: Option<real>, pump: Option<bool>)

  /** `timeMap`: entries by aligned time, with the keys in insertion order. */
  datatype TimeMap = TimeMap(keys: seq<real>, entries: map<real, Entry>)

  datatype Channel = Outdoor | Flow

  /** The time map together with the pump cursor position. */
  datatype MergeState = MergeState(m: TimeMap, pumpIdx: nat)

  predicate WellFormed(m: TimeMap)
  {
    && Distinct(m.keys)
    && (forall i :: 0 <= i < |m.keys| ==> m.keys[i] in m.entries)
    && (forall k :: k in m.entries ==> k in m.keys)
  }

  function SetChannel(e: Entry, ch: Channel, v: real): (r: Entry)
    ensures ChannelOf(r, ch) == Some(v) && ChannelOf(r, Other(ch)) == ChannelOf(e, Other(ch)) && r.pump == e.pump
  {
    if ch == Outdoor then e.(outdoor := Some(v)) else e.(flow := Some(v))
  }

  function ChannelOf(e: Entry, ch: Channel): Option<real>
  {
    if ch == Outdoor then e.outdoor else e.flow
  }

  /**
    One step of `addToMap`: a sample with a mean sets its channel in the
    entry of its aligned time (created when new); with a pump configured an
    entry that has no pump state yet asks the cursor for one.
   */
  function AddStat(st: MergeState, s: StatPoint, ch: Channel, grain: real, hasPump: bool, points: seq<PumpChange>): (r: MergeState)
    requires grain > 0.0 && (|points| == 0 || st.pumpIdx < |points|)
    ensures (|points| == 0 || r.pumpIdx < |points|) && st.pumpIdx <= r.pumpIdx
  {
    if s.mean.None? then st
    else
      var t := RoundToGrain(s.start, grain);
      var keys := if t in st.m.entries then st.m.keys else st.m.keys + [t];
      var entry := SetChannel(if t in st.m.entries then st.m.entries[t] else Entry(None, None, None), ch, s.mean.value);
      if hasPump && entry.pump.None? then
        var a := PumpStateAt(points, st.pumpIdx, t);
        MergeState(TimeMap(keys, st.m.entries[t := if a.state.Some? then entry.(pump := a.state) else entry]), a.idx)
      else
        MergeState(TimeMap(keys, st.m.entries[t := entry]), st.pumpIdx)
  }

  /** `arr.forEach` of `addToMap` over a whole series. */
  function AddStats(st: MergeState, samples: seq<StatPoint>, ch: Channel, grain: real, hasPump: bool, points: seq<PumpChange>): (r: MergeState)
    requires grain > 0.0 && (|points| == 0 || st.pumpIdx < |points|)
    ensures (|points| == 0 || r.pumpIdx < |points|) && st.pumpIdx <= r.pumpIdx
  {
    if |samples| == 0 then st
    else AddStat(AddStats(st, samples[..|samples| - 1], ch, grain, hasPump, points), samples[|samples| - 1], ch, grain, hasPump, points)
  }

  /** The time map after the outdoor series and then the flow series have been added. */
  function MergedMap(outdoor: seq<StatPoint>, flow: seq<StatPoint>, grain: real, hasPump: bool, points: seq<PumpChange>): TimeMap
    requires grain > 0.0
  {
    var afterOutdoor := AddStats(MergeState(TimeMap([], map[]), 0), outdoor, Outdoor, grain, hasPump, points);
    AddStats(afterOutdoor, flow, Flow, grain, hasPump, points).m
  }

  /** The mean of the last sample of `samples` that has one and is aligned to `k`. */
  function LastMeanAt(samples: seq<StatPoint>, k: real, grain: real): Option<real>
    requires grain > 0.0
  {
    if |samples| == 0 then None
    else
      var s := samples[|samples| - 1];
      if s.mean.Some? && RoundToGrain(s.start, grain) == k then s.mean
      else LastMeanAt(samples[..|samples| - 1], k, grain)
  }

  /** Some sample of `samples` with a mean is aligned to `k`. */
  predicate Recorded(samples: seq<StatPoint>, k: real, grain: real)
    requires grain > 0.0
  {
    exists i :: 0 <= i < |samples| && samples[i].mean.Some? && RoundToGrain(samples[i].start, grain) == k
  }

  /** Every pump state in the map is the state of a change recorded at or before the entry's time. */
  predicate PumpSound(m: TimeMap, points: seq<PumpChange>)
  {
    forall k :: k in m.entries && m.entries[k].pump.Some? ==>
      exists j :: 0 <= j < |points| && points[j].time <= k && m.entries[k].pump.value == (points[j].state == "on")
  }

  function Other(ch: Channel): Channel
  {
    if ch == Outdoor then Flow else Outdoor
  }

  /** One sample keeps the map well formed and pump-sound, and touches only its own aligned time and channel. */
  lemma AddStatFacts(st: MergeState, s: StatPoint, ch: Channel, grain: real, hasPump: bool, points: seq<PumpChange>)
    requires grain > 0.0 && (|points| == 0 || st.pumpIdx < |points|)
    requires WellFormed(st.m) && PumpSound(st.m, points)
    ensures var r := AddStat(st, s, ch, grain, hasPump, points).m;
            && WellFormed(r) && PumpSound(r, points)
            && (forall k :: k in r.entries <==> k in st.m.entries || (s.mean.Some? && RoundToGrain(s.start, grain) == k))
            && (forall k :: k in r.entries ==>
                  && ChannelOf(r.entries[k], ch) ==
                       (if s.mean.Some? && RoundToGrain(s.start, grain) == k then s.mean
                        else ChannelOf(st.m.entries[k], ch))
                  && ChannelOf(r.entries[k], Other(ch)) ==
                       (if k in st.m.entries then ChannelOf(st.m.entries[k], Other(ch)) else None))
  {
    AddStatWellFormed(st, s, ch, grain, hasPump, points);
    AddStatPumpSound(st, s, ch, grain, hasPump, points);
    AddStatChannels(st, s, ch, grain, hasPump, points);
  }

  /** A new aligned time is appended to the keys once; a known one leaves them alone. */
  lemma AddStatWellFormed(st: MergeState, s: StatPoint, ch: Channel, grain: real, hasPump: bool, points: seq<PumpChange>)
    requires grain > 0.0 && (|points| == 0 || st.pumpIdx < |points|)
    requires WellFormed(st.m)
    ensures WellFormed(AddStat(st, s, ch, grain, hasPump, points).m)
  {
    if s.mean.Some? {
      var t := RoundToGrain(s.start, grain);
      var r := AddStat(st, s, ch, grain, hasPump, points).m;
      if t !in st.m.entries {
        assert t !in st.m.keys;
        assert r.keys == st.m.keys + [t];
        forall i, j | 0 <= i < j < |r.keys|
          ensures r.keys[i] != r.keys[j]
        {
          if j == |st.m.keys| {
            assert r.keys[i] in st.m.keys;
          }
        }
      }
    }
  }

  /** A pump state the sample's entry receives comes from a change at or before its time. */
  lemma AddStatPumpSound(st: MergeState, s: StatPoint, ch: Channel, grain: real, hasPump: bool, points: seq<PumpChange>)
    requires grain > 0.0 && (|points| == 0 || st.pumpIdx < |points|)
    requires PumpSound(st.m, points)
    ensures PumpSound(AddStat(st, s, ch, grain, hasPump, points).m, points)
  {
    if s.mean.Some? {
      var t := RoundToGrain(s.start, grain);
      var r := AddStat(st, s, ch, grain, hasPump, points).m;
      var entry := SetChannel(if t in st.m.entries then st.m.entries[t] else Entry(None, None, None), ch, s.mean.value);
      if hasPump && entry.pump.None? {
        var a := PumpStateAt(points, st.pumpIdx, t);
        if a.state.Some? {
          assert points[a.idx].time <= t && r.entries[t].pump.value == (points[a.idx].state == "on");
        }
      }
    }
  }

  /** The sample sets its own channel at its aligned time; every other value stays. */
  lemma AddStatChannels(st: MergeState, s: StatPoint, ch: Channel, grain: real, hasPump: bool, points: seq<PumpChange>)
    requires grain > 0.0 && (|points| == 0 || st.pumpIdx < |points|)
    ensures var r := AddStat(st, s, ch, grain, hasPump, points).m;
            && (forall k :: k in r.entries <==> k in st.m.entries || (s.mean.Some? && RoundToGrain(s.start, grain) == k))
            && (forall k :: k in r.entries ==>
                  && ChannelOf(r.entries[k], ch) ==
                       (if s.mean.Some? && RoundToGrain(s.start, grain) == k then s.mean
                        else ChannelOf(st.m.entries[k], ch))
                  && ChannelOf(r.entries[k], Other(ch)) ==
                       (if k in st.m.entries then ChannelOf(st.m.entries[k], Other(ch)) else None))
  {
    if s.mean.Some? {
      var t := RoundToGrain(s.start, grain);
      var entry := SetChannel(if t in st.m.entries then st.m.entries[t] else Entry(None, None, None), ch, s.mean.value);
      var r := AddStat(st, s, ch, grain, hasPump, points).m;
      assert r.entries == st.m.entries[t := r.entries[t]];
      assert ChannelOf(r.entries[t], ch) == ChannelOf(entry, ch);
      assert ChannelOf(r.entries[t], Other(ch)) == ChannelOf(entry, Other(ch));
    }
  }

  /** `AddStats` in terms of the samples: which times exist and which value each channel holds. */
  lemma {:induction false} AddStatsFacts(st: MergeState, samples: seq<StatPoint>, ch: Channel, grain: real, hasPump: bool, points: seq<PumpChange>)
    requires grain > 0.0 && (|points| == 0 || st.pumpIdx < |points|)
    requires WellFormed(st.m) && PumpSound(st.m, points)
    ensures var r := AddStats(st, samples, ch, grain, hasPump, points).m;
            && WellFormed(r) && PumpSound(r, points)
            && (forall k :: k in r.entries <==> k in st.m.entries || Recorded(samples, k, grain))
            && (forall k :: k in r.entries ==>
                  && ChannelOf(r.entries[k], ch) ==
                       (if LastMeanAt(samples, k, grain).Some? then LastMeanAt(samples, k, grain)
                        else if k in st.m.entries then ChannelOf(st.m.entries[k], ch) else None)
                  && ChannelOf(r.entries[k], Other(ch)) ==
                       (if k in st.m.entries then ChannelOf(st.m.entries[k], Other(ch)) else None))
  {
    if |samples| > 0 {
      var init := samples[..|samples| - 1];
      var last := samples[|samples| - 1];
      AddStatsFacts(st, init, ch, grain, hasPump, points);
      var mid := AddStats(st, init, ch, grain, hasPump, points);
      AddStatFacts(mid, last, ch, grain, hasPump, points);
      forall k
        ensures Recorded(samples, k, grain) <==> Recorded(init, k, grain) || (last.mean.Some? && RoundToGrain(last.start, grain) == k)
      {
        if Recorded(init, k, grain) {
          var i :| 0 <= i < |init| && init[i].mean.Some? && RoundToGrain(init[i].start, grain) == k;
          assert samples[i] == init[i];
        }
        if Recorded(samples, k, grain) && !(last.mean.Some? && RoundToGrain(last.start, grain) == k) {
          var i :| 0 <= i < |samples| && samples[i].mean.Some? && RoundToGrain(samples[i].start, grain) == k;
          assert i < |init| && init[i] == samples[i];
        }
      }
    }
  }

  /**
    The map `_fetchHistory` builds: one well-formed entry per aligned time
    that has an outdoor or a flow mean, holding the last mean of each series
    at that time, and pump states taken from changes at or before it.
   */
  lemma MergedMapFacts(outdoor: seq<StatPoint>, flow: seq<StatPoint>, grain: real, hasPump: bool, points: seq<PumpChange>)
    requires grain > 0.0
    ensures var m := MergedMap(outdoor, flow, grain, hasPump, points);
            && WellFormed(m) && PumpSound(m, points)
            && (forall k :: k in m.entries <==> Recorded(outdoor, k, grain) || Recorded(flow, k, grain))
            && (forall k :: k in m.entries ==>
                  m.entries[k].outdoor == LastMeanAt(outdoor, k, grain) && m.entries[k].flow == LastMeanAt(flow, k, grain))
  {
    var st0 := MergeState(TimeMap([], map[]), 0);
    AddStatsFacts(st0, outdoor, Outdoor, grain, hasPump, points);
    var afterOutdoor := AddStats(st0, outdoor, Outdoor, grain, hasPump, points);
    AddStatsFacts(afterOutdoor, flow, Flow, grain, hasPump, points);
    LastMeanRecorded(outdoor, grain);
    LastMeanRecorded(flow, grain);
  }

  /** A last mean exists at `k` exactly when some sample with a mean is aligned to `k`. */
  lemma {:induction false} LastMeanRecorded(samples: seq<StatPoint>, grain: real)
    requires grain > 0.0
    ensures forall k :: LastMeanAt(samples, k, grain).Some? <==> Recorded(samples, k, grain)
  {
    if |samples| > 0 {
      var init := samples[..|samples| - 1];
      LastMeanRecorded(init, grain);
      forall k
        ensures LastMeanAt(samples, k, grain).Some? <==> Recorded(samples, k, grain)
      {
        if Recorded(init, k, grain) {
          var i :| 0 <= i < |init| && init[i].mean.Some? && RoundToGrain(init[i].start, grain) == k;
          assert samples[i] == init[i];
        }
      }
    }
  }

  /** `addToMap(arr, key)` with the shared pump cursor. */
  method AddToMap(m0: TimeMap, cursor: PumpCursor, samples: seq<StatPoint>, ch: Channel, grain: real, hasPump: bool)
    returns (m: TimeMap)
    requires grain > 0.0 && cursor.Valid()
    modifies cursor
    ensures cursor.Valid()
    ensures MergeState(m, cursor.idx) == AddStats(MergeState(m0, old(cursor.idx)), samples, ch, grain, hasPump, cursor.points)
  {
    m := m0;
    var i := 0;
    while i < |samples|
      invariant 0 <= i <= |samples| && cursor.Valid()
      invariant MergeState(m, cursor.idx) == AddStats(MergeState(m0, old(cursor.idx)), samples[..i], ch, grain, hasPump, cursor.points)
    {
      m := AddOne(m, cursor, samples[i], ch, grain, hasPump);
      assert samples[..i + 1][..i] == samples[..i];
      i := i + 1;
    }
    assert samples[..|samples|] == samples;
  }

  /** One iteration of the `addToMap` loop: a recorded mean enters the map at its aligned time. */
  method AddOne(m0: TimeMap, cursor: PumpCursor, pt: StatPoint, ch: Channel, grain: real, hasPump: bool)
    returns (m: TimeMap)
    requires grain > 0.0 && cursor.Valid()
    modifies cursor
    ensures cursor.Valid()
    ensures MergeState(m, cursor.idx) == AddStat(MergeState(m0, old(cursor.idx)), pt, ch, grain, hasPump, cursor.points)
  {
    m := m0;
    if pt.mean.Some? {
      var t := RoundToGrain(pt.start, grain);
      if t !in m.entries {
        m := TimeMap(m.keys + [t], m.entries[t := Entry(None, None, None)]);
      }
      var entry := SetChannel(m.entries[t], ch, pt.mean.value);
      if hasPump && entry.pump.None? {
        var pState := cursor.StateAt(t);
        if pState.Some? {
          entry := entry.(pump := pState);
        }
      }
      m := TimeMap(m.keys, m.entries[t := entry]);
    }
  }

  /** The two `addToMap` calls of `_fetchHistory`. */
  method BuildTimeMap(outdoor: seq<StatPoint>, flow: seq<StatPoint>, grain: real, hasPump: bool, points: seq<PumpChange>)
    returns (m: TimeMap)
    requires grain > 0.0
    ensures m == MergedMap(outdoor, flow, grain, hasPump, points)
  {
    var cursor := new PumpCursor(points);
    m := AddToMap(TimeMap([], map[]), cursor, outdoor, Outdoor, grain, hasPump);
    m := AddToMap(m, cursor, flow, Flow, grain, hasPump);
  }

  // ================================================ history: forward fill

  datatype HistoryPoint = HistoryPoint(timestamp: real, outdoor: real, flow: real, pump: Option<bool>)

  /** The last known outdoor, flow and pump values. */
  datatype Carried = Carried(outdoor: Option<real>, flow: Option<real>, pump: Option<bool>)

  predicate AllIn(times: seq<real>, entries: map<real, Entry>)
  {
    forall i :: 0 <= i < |times| ==> times[i] in entries
  }

  /** The last value of each kind seen in the entries of `times`, in that order. */
  function CarriedAfter(times: seq<real>, entries: map<real, Entry>): (c: Carried)
    requires AllIn(times, entries)
  {
    if |times| == 0 then Carried(None, None, None)
    else
      var prev := CarriedAfter(times[..|times| - 1], entries);
      var e := entries[times[|times| - 1]];
      Carried(if e.outdoor.Some? then e.outdoor else prev.outdoor,
              if e.flow.Some? then e.flow else prev.flow,
              if e.pump.Some? then e.pump else prev.pump)
  }

  /** Both a temperature outside and a flow temperature are known. */
  predicate Complete(c: Carried)
  {
    c.outdoor.Some? && c.flow.Some?
  }

  /** The history: a point per time once both temperatures are known, with the values carried so far. */
  function ForwardFill(times: seq<real>, entries: map<real, Entry>): (r: seq<HistoryPoint>)
    requires AllIn(times, entries)
  {
    if |times| == 0 then []
    else
      var c := CarriedAfter(times, entries);
      ForwardFill(times[..|times| - 1], entries)
        + (if Complete(c) then [HistoryPoint(times[|times| - 1], c.outdoor.value, c.flow.value, c.pump)] else [])
  }

  /** The values carried after the first `n` times. */
  function CarriedAt(times: seq<real>, entries: map<real, Entry>, n: nat): Carried
    requires AllIn(times, entries) && n <= |times|
  {
    assert AllIn(times[..n], entries);
    CarriedAfter(times[..n], entries)
  }

  /** The history point at time `t` for complete carried values. */
  function PointFrom(t: real, c: Carried): HistoryPoint
    requires Complete(c)
  {
    HistoryPoint(t, c.outdoor.value, c.flow.value, c.pump)
  }

  /** Once both temperatures are known they stay known: later entries can only replace them. */
  lemma {:induction false} CarriedPersists(times: seq<real>, entries: map<real, Entry>, n: nat)
    requires AllIn(times, entries) && n <= |times|
    ensures Complete(CarriedAt(times, entries, n)) ==> Complete(CarriedAt(times, entries, |times|))
    decreases |times| - n
  {
    if n < |times| {
      assert Complete(CarriedAt(times, entries, n)) ==> Complete(CarriedAt(times, entries, n + 1)) by {
        assert times[..n + 1][..n] == times[..n];
      }
      CarriedPersists(times, entries, n + 1);
    }
  }

  /** Both temperatures are first known after the first `k + 1` times, and from then on. */
  predicate FirstCompleteAt(times: seq<real>, entries: map<real, Entry>, k: nat)
    requires AllIn(times, entries)
  {
    && k <= |times|
    && (forall n :: 1 <= n <= k ==> !Complete(CarriedAt(times, entries, n)))
    && (forall n :: k < n <= |times| ==> Complete(CarriedAt(times, entries, n)))
  }

  /** Where both temperatures are first known, once one more time is walked. */
  lemma FirstCompleteStep(times: seq<real>, entries: map<real, Entry>, k0: nat) returns (k: nat)
    requires AllIn(times, entries) && |times| > 0
    requires AllIn(times[..|times| - 1], entries) && FirstCompleteAt(times[..|times| - 1], entries, k0)
    ensures FirstCompleteAt(times, entries, k)
    ensures k == if k0 < |times| - 1 then k0
                 else if Complete(CarriedAt(times, entries, |times|)) then |times| - 1
                 else |times|
  {
    var n := |times| - 1;
    if k0 < n {
      CarriedAtPrefix(times, entries, k0 + 1);
      CarriedPersists(times, entries, k0 + 1);
      k := k0;
    } else if Complete(CarriedAt(times, entries, |times|)) {
      k := n;
    } else {
      k := n + 1;
    }
    forall m | 1 <= m <= k && m <= n
      ensures !Complete(CarriedAt(times, entries, m))
    {
      CarriedAtPrefix(times, entries, m);
    }
    forall m | k < m <= n
      ensures Complete(CarriedAt(times, entries, m))
    {
      CarriedAtPrefix(times, entries, m);
    }
  }

  /**
    The shape of the history: nothing before the first time `k` at which
    both temperatures are known, and from there one point for every time,
    with the values last seen up to and including that time.
   */
  lemma {:induction false} ForwardFillShape(times: seq<real>, entries: map<real, Entry>) returns (k: nat)
    requires AllIn(times, entries)
    ensures k <= |times| && |ForwardFill(times, entries)| == |times| - k
    ensures forall n :: 1 <= n <= k ==> !Complete(CarriedAt(times, entries, n))
    ensures forall n :: k < n <= |times| ==> Complete(CarriedAt(times, entries, n))
    ensures forall i :: 0 <= i < |times| - k ==>
              ForwardFill(times, entries)[i] == PointFrom(times[k + i], CarriedAt(times, entries, k + i + 1))
  {
    if |times| == 0 {
      k := 0;
    } else {
      var n := |times| - 1;
      var init := times[..n];
      assert AllIn(init, entries);
      var k0 := ForwardFillShape(init, entries);
      var h0 := ForwardFill(init, entries);
      ForwardFillSnoc(times, entries);
      k := FirstCompleteStep(times, entries, k0);
      forall i | 0 <= i < |times| - k
        ensures ForwardFill(times, entries)[i] == PointFrom(times[k + i], CarriedAt(times, entries, k + i + 1))
      {
        if k + i < n {
          assert ForwardFill(times, entries)[i] == h0[i];
          CarriedAtPrefix(times, entries, k + i + 1);
        }
      }
    }
  }

  /** The history over one more time: what it was, plus a point for the new time once both temperatures are known. */
  lemma ForwardFillSnoc(times: seq<real>, entries: map<real, Entry>)
    requires AllIn(times, entries) && |times| > 0
    ensures AllIn(times[..|times| - 1], entries)
    ensures var c := CarriedAt(times, entries, |times|);
            ForwardFill(times, entries)
              == ForwardFill(times[..|times| - 1], entries) + (if Complete(c) then [PointFrom(times[|times| - 1], c)] else [])
  {
    assert times[..|times|] == times;
  }

  /** The values carried after `j` times do not depend on the times after them. */
  lemma CarriedAtPrefix(times: seq<real>, entries: map<real, Entry>, j: nat)
    requires AllIn(times, entries) && j < |times|
    ensures AllIn(times[..|times| - 1], entries)
    ensures CarriedAt(times[..|times| - 1], entries, j) == CarriedAt(times, entries, j)
  {
    assert times[..|times| - 1][..j] == times[..j];
  }

  /** Over strictly increasing times the history is strictly increasing in time. */
  lemma HistoryIncreasing(times: seq<real>, entries: map<real, Entry>)
    requires AllIn(times, entries)
    requires forall i, j :: 0 <= i < j < |times| ==> times[i] < times[j]
    ensures var h := ForwardFill(times, entries);
            forall i, j :: 0 <= i < j < |h| ==> h[i].timestamp < h[j].timestamp
  {
    var k := ForwardFillShape(times, entries);
  }

  /** Sorting the times keeps exactly the same times. */
  lemma SortedMembers(keys: seq<real>)
    ensures forall t :: t in SortReals(keys) <==> t in keys
  {
    var sorted := SortReals(keys);
    forall t
      ensures t in sorted <==> t in keys
    {
      assert t in sorted <==> t in multiset(sorted);
      assert t in keys <==> t in multiset(keys);
    }
  }

  /** The times of a well-formed map in ascending order: `Array.from(timeMap.keys()).sort((a, b) => a - b)`. */
  lemma SortedTimesFacts(m: TimeMap)
    requires WellFormed(m)
    ensures var sorted := SortReals(m.keys);
            && AllIn(sorted, m.entries)
            && (forall t :: t in sorted <==> t in m.entries)
            && forall i, j :: 0 <= i < j < |sorted| ==> sorted[i] < sorted[j]
  {
    var sorted := SortReals(m.keys);
    DistinctPermutation(m.keys, sorted);
    SortedMembers(m.keys);
    forall i | 0 <= i < |sorted|
      ensures sorted[i] in m.entries
    {
      assert sorted[i] in m.keys;
    }
    forall i, j | 0 <= i < j < |sorted|
      ensures sorted[i] < sorted[j]
    {
      assert sorted[i] <= sorted[j] && sorted[i] != sorted[j];
    }
  }

  /** One more time in the walk: the carried values and the history it adds. */
  lemma FillStep(times: seq<real>, i: nat, entries: map<real, Entry>)
    requires AllIn(times, entries) && i < |times|
    ensures AllIn(times[..i], entries) && AllIn(times[..i + 1], entries)
    ensures var prev := CarriedAfter(times[..i], entries);
            var e := entries[times[i]];
            var c := Carried(if e.outdoor.Some? then e.outdoor else prev.outdoor,
                             if e.flow.Some? then e.flow else prev.flow,
                             if e.pump.Some? then e.pump else prev.pump);
            && CarriedAfter(times[..i + 1], entries) == c
            && ForwardFill(times[..i + 1], entries) == ForwardFill(times[..i], entries)
                 + (if Complete(c) then [HistoryPoint(times[i], c.outdoor.value, c.flow.value, c.pump)] else [])
  {
    assert times[..i + 1][..i] == times[..i];
  }

  /** The history `_fetchHistory` produces from the recorded series and pump changes. */
  function HistoryOf(outdoor: seq<StatPoint>, flow: seq<StatPoint>, grain: real, hasPump: bool, points: seq<PumpChange>): seq<HistoryPoint>
    requires grain > 0.0
  {
    var m := MergedMap(outdoor, flow, grain, hasPump, points);
    MergedMapFacts(outdoor, flow, grain, hasPump, points);
    SortedTimesFacts(m);
    ForwardFill(SortReals(m.keys), m.entries)
  }

  /**
    The merge of `_fetchHistory` (and, without a pump, of `_fetchTrendData`):
    builds the time map, sorts its times and walks them carrying the last
    outdoor, flow and pump values forward.
   */
  method MergeHistory(outdoor: seq<StatPoint>, flow: seq<StatPoint>, grain: real, hasPump: bool, points: seq<PumpChange>)
    returns (history: seq<HistoryPoint>)
    requires grain > 0.0
    ensures history == HistoryOf(outdoor, flow, grain, hasPump, points)
  {
    var m := BuildTimeMap(outdoor, flow, grain, hasPump, points);
    MergedMapFacts(outdoor, flow, grain, hasPump, points);
    SortedTimesFacts(m);
    var sortedTimes := SortReals(m.keys);
    var lastOutdoor: Option<real> := None;
    var lastFlow: Option<real> := None;
    var lastPump: Option<bool> := None;
    history := [];
    var i := 0;
    while i < |sortedTimes|
      invariant 0 <= i <= |sortedTimes|
      invariant AllIn(sortedTimes[..i], m.entries)
      invariant Carried(lastOutdoor, lastFlow, lastPump) == CarriedAfter(sortedTimes[..i], m.entries)
      invariant history == ForwardFill(sortedTimes[..i], m.entries)
    {
      FillStep(sortedTimes, i, m.entries);
      var t := sortedTimes[i];
      var entry := m.entries[t];
      if entry.outdoor.Some? {
        lastOutdoor := entry.outdoor;
      }
      if entry.flow.Some? {
        lastFlow := entry.flow;
      }
      if entry.pump.Some? {
        lastPump := entry.pump;
      }
      if lastOutdoor.Some? && lastFlow.Some? {
        history := history + [HistoryPoint(t, lastOutdoor.value, lastFlow.value, lastPump)];
      }
      i := i + 1;
    }
    assert sortedTimes[..|sortedTimes|] == sortedTimes;
  }

  /**
    The merged history in time order: strictly increasing timestamps, each
    an aligned time at which an outdoor or a flow mean was recorded, and
    with every pump state taken from a change at or before that time.
   */
  lemma HistoryOrdered(outdoor: seq<StatPoint>, flow: seq<StatPoint>, grain: real, hasPump: bool, points: seq<PumpChange>)
    requires grain > 0.0
    ensures var h := HistoryOf(outdoor, flow, grain, hasPump, points);
            && (forall i, j :: 0 <= i < j < |h| ==> h[i].timestamp < h[j].timestamp)
            && (forall i :: 0 <= i < |h| ==> Recorded(outdoor, h[i].timestamp, grain) || Recorded(flow, h[i].timestamp, grain))
  {
    var m := MergedMap(outdoor, flow, grain, hasPump, points);
    MergedMapFacts(outdoor, flow, grain, hasPump, points);
    SortedTimesFacts(m);
    var sorted := SortReals(m.keys);
    HistoryIncreasing(sorted, m.entries);
    var k := ForwardFillShape(sorted, m.entries);
  }

  /** Without a pump entity every history point has an unknown pump state, as in the live trend. */
  lemma NoPumpNoState(outdoor: seq<StatPoint>, flow: seq<StatPoint>, grain: real, points: seq<PumpChange>)
    requires grain > 0.0
    ensures forall p :: p in HistoryOf(outdoor, flow, grain, false, points) ==> p.pump.None?
  {
    var m := MergedMap(outdoor, flow, grain, false, points);
    NoPumpMap(outdoor, flow, grain, points);
    MergedMapFacts(outdoor, flow, grain, false, points);
    SortedTimesFacts(m);
    NoPumpFill(SortReals(m.keys), m.entries);
  }

  /** Without a pump entity the merged map holds no pump state. */
  lemma NoPumpMap(outdoor: seq<StatPoint>, flow: seq<StatPoint>, grain: real, points: seq<PumpChange>)
    requires grain > 0.0
    ensures forall k :: k in MergedMap(outdoor, flow, grain, false, points).entries ==>
                          MergedMap(outdoor, flow, grain, false, points).entries[k].pump.None?
  {
    var st0 := MergeState(TimeMap([], map[]), 0);
    NoPumpEntries(st0, outdoor, Outdoor, grain, points);
    var afterOutdoor := AddStats(st0, outdoor, Outdoor, grain, false, points);
    NoPumpEntries(afterOutdoor, flow, Flow, grain, points);
  }

  /** Entries without pump states give a history without pump states. */
  lemma NoPumpFill(times: seq<real>, entries: map<real, Entry>)
    requires AllIn(times, entries)
    requires forall k :: k in entries ==> entries[k].pump.None?
    ensures forall p :: p in ForwardFill(times, entries) ==> p.pump.None?
  {
    var h := ForwardFill(times, entries);
    var k := ForwardFillShape(times, entries);
    forall i | 0 <= i < |h|
      ensures h[i].pump.None?
    {
      NoPumpCarried(times, entries, k + i + 1);
    }
  }

  /** Without a pump entity no entry of the time map gets a pump state. */
  lemma {:induction false} NoPumpEntries(st: MergeState, samples: seq<StatPoint>, ch: Channel, grain: real, points: seq<PumpChange>)
    requires grain > 0.0 && (|points| == 0 || st.pumpIdx < |points|)
    requires forall k :: k in st.m.entries ==> st.m.entries[k].pump.None?
    ensures forall k :: k in AddStats(st, samples, ch, grain, false, points).m.entries ==>
                          AddStats(st, samples, ch, grain, false, points).m.entries[k].pump.None?
  {
    if |samples| > 0 {
      var init := samples[..|samples| - 1];
      NoPumpEntries(st, init, ch, grain, points);
      var mid := AddStats(st, init, ch, grain, false, points);
      var s := samples[|samples| - 1];
      var r := AddStat(mid, s, ch, grain, false, points).m;
      assert AddStats(st, samples, ch, grain, false, points).m == r;
      if s.mean.Some? {
        var t := RoundToGrain(s.start, grain);
        forall k | k in r.entries
          ensures r.entries[k].pump.None?
        {
          if k == t && t in mid.m.entries {
            assert mid.m.entries[t].pump.None?;
          } else if k != t {
            assert r.entries[k] == mid.m.entries[k];
          }
        }
      }
    }
  }

  /** Without pump states in the entries no pump state is ever carried. */
  lemma {:induction false} NoPumpCarried(times: seq<real>, entries: map<real, Entry>, n: nat)
    requires AllIn(times, entries) && n <= |times|
    requires forall k :: k in entries ==> entries[k].pump.None?
    ensures CarriedAt(times, entries, n).pump.None?
  {
    if n > 0 {
      NoPumpCarried(times, entries, n - 1);
      assert times[..n][..n - 1] == times[..n - 1];
    }
  }

  /** The live trend of `_fetchTrendData`: the same merge on a 5-minute grid without pump states. */
  method MergeTrend(outdoor: seq<StatPoint>, flow: seq<StatPoint>) returns (trend: seq<HistoryPoint>)
    ensures trend == HistoryOf(outdoor, flow, TrendGrain, false, [])
    ensures forall p :: p in trend ==> p.pump.None?
  {
    trend := MergeHistory(outdoor, flow, TrendGrain, false, []);
    NoPumpNoState(outdoor, flow, TrendGrain, []);
  }

  // ============================================================ playback

  /** The playback fields of the card and the handlers that change them. */
  class Playback {
    var historyData: seq<HistoryPoint>
    var playbackIndex: int
    var isPlaying: bool
    var isHistoryMode: bool
    var historyPeriod: HistoryPeriod

    /** The index never drops below −1, and a running playback is in history mode at an index before the end. */
    predicate Valid()
      reads this
    {
      -1 <= playbackIndex && (isPlaying ==> isHistoryMode && playbackIndex < |historyData|)
    }

    constructor()
      ensures Valid() && historyData == [] && playbackIndex == 0 && !isPlaying && !isHistoryMode && historyPeriod == Last24h
    {
      historyData := [];
      playbackIndex := 0;
      isPlaying := false;
      isHistoryMode := false;
      historyPeriod := Last24h;
    }

    /** `_togglePlay`: nothing without history; otherwise play or pause in history mode, restarting from the beginning when at the end. */
    method TogglePlay()
      requires Valid()
      modifies this
      ensures Valid()
      ensures historyData == old(historyData) && historyPeriod == old(historyPeriod)
      ensures |historyData| == 0 ==>
                playbackIndex == old(playbackIndex) && isPlaying == old(isPlaying) && isHistoryMode == old(isHistoryMode)
      ensures |historyData| > 0 ==>
                && isPlaying == !old(isPlaying) && isHistoryMode
                && playbackIndex == (if isPlaying && old(playbackIndex) >= |historyData| - 1 then 0 else old(playbackIndex))
    {
      if |historyData| == 0 {
        return;
      }
      isPlaying := !isPlaying;
      isHistoryMode := true;
      if isPlaying {
        if playbackIndex >= |historyData| - 1 {
          playbackIndex := 0;
        }
      }
    }

    /** `_exitHistoryMode`: back to live values, with the slider at the last history point. */
    method ExitHistoryMode()
      modifies this
      ensures Valid()
      ensures historyData == old(historyData) && historyPeriod == old(historyPeriod)
      ensures !isPlaying && !isHistoryMode && playbackIndex == |historyData| - 1
    {
      isPlaying := false;
      isHistoryMode := false;
      playbackIndex := |historyData| - 1;
    }

    /** One tick of the `_startAnimation` interval, which runs only while playing: the next point, or live mode after the last one. */
    method Tick()
      requires Valid() && isPlaying
      modifies this
      ensures Valid()
      ensures historyData == old(historyData) && historyPeriod == old(historyPeriod)
      ensures old(playbackIndex) + 1 < |historyData| ==>
                playbackIndex == old(playbackIndex) + 1 && isPlaying && isHistoryMode
      ensures old(playbackIndex) + 1 >= |historyData| ==>
                playbackIndex == |historyData| - 1 && !isPlaying && !isHistoryMode
    {
      playbackIndex := playbackIndex + 1;
      if playbackIndex >= |historyData| {
        ExitHistoryMode();
      }
    }

    /** `_onSliderChange`: jump to a slider position (never below 0) and pause in history mode. */
    method Scrub(val: int)
      requires Valid() && 0 <= val
      modifies this
      ensures Valid()
      ensures historyData == old(historyData) && historyPeriod == old(historyPeriod)
      ensures playbackIndex == val && isHistoryMode && !isPlaying
    {
      playbackIndex := val;
      if !isHistoryMode {
        isHistoryMode := true;
      }
      isPlaying := false;
    }

    /** The end of `_fetchHistory`: with curve data present, the new history replaces the old and the index is pulled back inside it. */
    method SetHistory(hasData: bool, history: seq<HistoryPoint>)
      requires Valid()
      modifies this
      ensures Valid()
      ensures isPlaying == old(isPlaying) && isHistoryMode == old(isHistoryMode) && historyPeriod == old(historyPeriod)
      ensures !hasData ==> historyData == old(historyData) && playbackIndex == old(playbackIndex)
      ensures hasData ==>
                && historyData == history
                && playbackIndex == (if old(playbackIndex) >= |history| then |history| - 1 else old(playbackIndex))
    {
      if hasData {
        historyData := history;
        if playbackIndex >= |history| {
          playbackIndex := |history| - 1;
        }
      }
    }

    /**
      `_setHistoryPeriod`: a new period stops playback, loads the history
      fetched for it (none when the fetch failed) and puts the slider at its end.
     */
    method SetHistoryPeriod(period: HistoryPeriod, hasData: bool, fetched: Option<seq<HistoryPoint>>)
      requires Valid()
      modifies this
      ensures Valid()
      ensures period == old(historyPeriod) ==>
                && historyData == old(historyData) && playbackIndex == old(playbackIndex)
                && isPlaying == old(isPlaying) && isHistoryMode == old(isHistoryMode) && historyPeriod == old(historyPeriod)
      ensures period != old(historyPeriod) ==>
                && historyPeriod == period && !isPlaying && isHistoryMode == old(isHistoryMode)
                && historyData == (if hasData && fetched.Some? then fetched.value else old(historyData))
                && playbackIndex == |historyData| - 1
    {
      if historyPeriod == period {
        return;
      }
      historyPeriod := period;
      isPlaying := false;
      if fetched.Some? {
        SetHistory(hasData, fetched.value);
      }
      playbackIndex := |historyData| - 1;
    }
  }
}
