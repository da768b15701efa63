/**
  The Insight card's data pipeline: per-day energy and temperature maps
  built from recorder statistics, heating-degree-day scatter points, the
  separation of yesterday's point, the through-origin fit and model R² of
  split mode, and the orchestration that chooses between split and
  fallback mode.

  Calendar-day keys (`toDateString()`) are opaque strings carried by each
  sample; "today", "yesterday" and the timestamp of a day key are inputs.
 */
module InsightProcessor {
  import opened Common
  import opened Stats
  import opened LeastSquares
  import opened InsightMath

  // ============================================================ day maps

  /** A recorder sample: its day key, `change` (None when not a finite number) and `mean` (None when not a number). */
  datatype Sample = Sample(day: string, change: Option<real>, mean: Option<real>)

  /** A JS `Map<string, number>`: the keys in insertion order and the value of each. */
  datatype DayMap = DayMap(keys: seq<string>, vals: map<string, real>)

  /** The keys are listed once each, and exactly the keys with a value are listed. */
  predicate Valid(m: DayMap)
  {
    && Distinct(m.keys)
    && (forall k :: k in m.keys ==> k in m.vals)
    && (forall k :: k in m.vals ==> k in m.keys)
  }

  const EmptyMap: DayMap := DayMap([], map[])

  /** `map.get(k)`. */
  function Get(m: DayMap, k: string): Option<real>
  {
    if k in m.vals then Some(m.vals[k]) else None
  }

  /** `map.get(k) || 0`. */
  function ValueOr0(m: DayMap, k: string): real
  {
    if k in m.vals then m.vals[k] else 0.0
  }

  /** `map.set(k, v)`: a new key goes to the end, an existing key keeps its place. */
  function Put(m: DayMap, k: string, v: real): (r: DayMap)
    ensures r.vals == m.vals[k := v]
    ensures Valid(m) ==> Valid(r)
  {
    if k in m.vals then DayMap(m.keys, m.vals[k := v]) else DayMap(m.keys + [k], m.vals[k := v])
  }

  /** `map.delete(k)`: the key and its value go, the other keys keep their order. */
  function Remove(m: DayMap, k: string): (r: DayMap)
    ensures r.vals == m.vals - {k}
    ensures Valid(m) ==> Valid(r)
  {
    var keys := Keep(m.keys, j => j != k);
    assert Valid(m) ==> Distinct(keys) by {
      if Valid(m) {
        KeepDistinct(m.keys, j => j != k);
      }
    }
    DayMap(keys, m.vals - {k})
  }

  /** Deletes each of `ks` in turn. */
  function RemoveAll(m: DayMap, ks: seq<string>): (r: DayMap)
    ensures r.vals.Keys == m.vals.Keys - set k | k in ks
    ensures forall k :: k in r.vals ==> r.vals[k] == m.vals[k]
    ensures Valid(m) ==> Valid(r)
  {
    if |ks| == 0 then m else Remove(RemoveAll(m, ks[..|ks| - 1]), ks[|ks| - 1])
  }

  /** `Array.from(map.values())`: the values in key order. */
  function Values(m: DayMap): (r: seq<real>)
    ensures |r| == |m.keys| && forall i :: 0 <= i < |r| ==> r[i] == ValueOr0(m, m.keys[i])
  {
    seq(|m.keys|, i requires 0 <= i < |m.keys| => ValueOr0(m, m.keys[i]))
  }

  /** `filter` keeps a repeat-free sequence repeat-free. */
  lemma {:induction false} KeepDistinct<T(!new)>(s: seq<T>, p: T -> bool)
    requires Distinct(s)
    ensures Distinct(Keep(s, p))
  {
    if |s| > 0 {
      var init := s[..|s| - 1];
      KeepDistinct(init, p);
      assert s[|s| - 1] !in init;
    }
  }

  /** The keys of a map are the repeat-free list of its first insertions. */
  lemma DedupOfDistinct<T(!new)>(s: seq<T>)
    requires Distinct(s)
    ensures Dedup(s) == s
  {
    if |s| > 0 {
      DedupOfDistinct(s[..|s| - 1]);
      DedupSnoc(s[..|s| - 1], s[|s| - 1]);
      assert s[..|s| - 1] + [s[|s| - 1]] == s;
    }
  }

  // ========================================================= energy maps

  /** `Number.isFinite(raw) ? Math.max(0, raw) : 0`: counter resets and junk count as nothing. */
  function ClampedChange(s: Sample): (r: real)
    ensures r >= 0.0
    ensures s.change.Some? && s.change.value >= 0.0 ==> r == s.change.value
    ensures s.change.None? || s.change.value < 0.0 ==> r == 0.0
  {
    if s.change.Some? && s.change.value > 0.0 then s.change.value else 0.0
  }

  /** One step of buildEnergyMaps' forEach: `map.set(key, (map.get(key) || 0) + val)`. */
  function AddSample(m: DayMap, s: Sample): DayMap
  {
    Put(m, s.day, ValueOr0(m, s.day) + ClampedChange(s))
  }

  /** The map the forEach leaves after adding `samples`, in order. */
  function AddSamples(m: DayMap, samples: seq<Sample>): (r: DayMap)
  {
    if |samples| == 0 then m
    else AddSample(AddSamples(m, samples[..|samples| - 1]), samples[|samples| - 1])
  }

  lemma AddSamplesStep(m: DayMap, samples: seq<Sample>, i: nat)
    requires i < |samples|
    ensures AddSamples(m, samples[..i + 1]) == AddSample(AddSamples(m, samples[..i]), samples[i])
  {
    assert samples[..i + 1][..i] == samples[..i];
  }

  /** Reference definition: the clamped changes of the samples of `day`, summed. */
  function DayTotal(samples: seq<Sample>, day: string): real
  {
    if |samples| == 0 then 0.0
    else
      DayTotal(samples[..|samples| - 1], day)
      + (if samples[|samples| - 1].day == day then ClampedChange(samples[|samples| - 1]) else 0.0)
  }

  /** The day keys of the samples, in order. */
  function Days(samples: seq<Sample>): (r: seq<string>)
    ensures |r| == |samples| && forall i :: 0 <= i < |r| ==> r[i] == samples[i].day
  {
    seq(|samples|, i requires 0 <= i < |samples| => samples[i].day)
  }

  /** Each day's entry grows by exactly the clamped changes of that day's samples. */
  lemma {:induction false} AddSamplesValue(m: DayMap, samples: seq<Sample>, day: string)
    ensures ValueOr0(AddSamples(m, samples), day) == ValueOr0(m, day) + DayTotal(samples, day)
  {
    if |samples| > 0 {
      AddSamplesValue(m, samples[..|samples| - 1], day);
    }
  }

  lemma {:induction false} AddSamplesValid(m: DayMap, samples: seq<Sample>)
    requires Valid(m)
    ensures Valid(AddSamples(m, samples))
  {
    if |samples| > 0 {
      AddSamplesValid(m, samples[..|samples| - 1]);
    }
  }

  /** New days are appended in order of their first sample: the keys follow `Map` insertion order. */
  lemma {:induction false} AddSamplesKeys(m: DayMap, samples: seq<Sample>)
    requires Valid(m)
    ensures AddSamples(m, samples).keys == Dedup(m.keys + Days(samples))
  {
    if |samples| == 0 {
      assert m.keys + Days(samples) == m.keys;
      DedupOfDistinct(m.keys);
    } else {
      var init := samples[..|samples| - 1];
      var x := samples[|samples| - 1].day;
      var a := m.keys + Days(init);
      AddSamplesKeys(m, init);
      AddSamplesValid(m, init);
      var prev := AddSamples(m, init);
      assert x in prev.vals <==> x in a;
      assert m.keys + Days(samples) == a + [x];
      DedupSnoc(a, x);
    }
  }

  lemma {:induction false} DayTotalNonNegative(samples: seq<Sample>, day: string)
    ensures DayTotal(samples, day) >= 0.0
  {
    if |samples| > 0 {
      DayTotalNonNegative(samples[..|samples| - 1], day);
    }
  }

  /** A sensor id names a series when it is set, non-empty and present in the statistics. */
  predicate HasSeries(stats: map<string, seq<Sample>>, id: Option<string>)
  {
    id.Some? && id.value != "" && id.value in stats
  }

  /** The samples of a sensor, none when it has no series. */
  function Series(stats: map<string, seq<Sample>>, id: Option<string>): seq<Sample>
  {
    if HasSeries(stats, id) then stats[id.value] else []
  }

  datatype EnergyMaps = EnergyMaps(heating: DayMap, total: DayMap, ww: DayMap)

  /** The three maps buildEnergyMaps returns: heating only, heating plus hot water, hot water only. */
  function EnergyMapsOf(stats: map<string, seq<Sample>>, heatingId: Option<string>, hotwaterId: Option<string>): EnergyMaps
  {
    var h := Series(stats, heatingId);
    var w := Series(stats, hotwaterId);
    EnergyMaps(AddSamples(EmptyMap, h), AddSamples(AddSamples(EmptyMap, h), w), AddSamples(EmptyMap, w))
  }

  /**
    One forEach of buildEnergyMaps: every sample's clamped change is added
    to its day in both maps it feeds.
   */
  method AddToBoth(first: DayMap, second: DayMap, samples: seq<Sample>) returns (first': DayMap, second': DayMap)
    ensures first' == AddSamples(first, samples)
    ensures second' == AddSamples(second, samples)
  {
    first', second' := first, second;
    for i := 0 to |samples|
      invariant first' == AddSamples(first, samples[..i])
      invariant second' == AddSamples(second, samples[..i])
    {
      AddSamplesStep(first, samples, i);
      AddSamplesStep(second, samples, i);
      first' := AddSample(first', samples[i]);
      second' := AddSample(second', samples[i]);
    }
    assert samples[..|samples|] == samples;
  }

  /** buildEnergyMaps: the heating series feeds heating and total, the hot-water series hot water and total. */
  method BuildEnergyMaps(stats: map<string, seq<Sample>>, heatingId: Option<string>, hotwaterId: Option<string>)
    returns (maps: EnergyMaps)
    ensures maps == EnergyMapsOf(stats, heatingId, hotwaterId)
    ensures !HasSeries(stats, heatingId) ==> maps.heating == EmptyMap
    ensures !HasSeries(stats, hotwaterId) ==> maps.ww == EmptyMap
  {
    var heating := EmptyMap;
    var total := EmptyMap;
    var ww := EmptyMap;
    if HasSeries(stats, heatingId) {
      heating, total := AddToBoth(heating, total, stats[heatingId.value]);
    }
    if HasSeries(stats, hotwaterId) {
      ww, total := AddToBoth(ww, total, stats[hotwaterId.value]);
    }
    maps := EnergyMaps(heating, total, ww);
  }

  /** For every day the total is heating plus hot water, and each is the sum of that day's clamped changes. */
  lemma TotalIsHeatingPlusWater(stats: map<string, seq<Sample>>, heatingId: Option<string>, hotwaterId: Option<string>, day: string)
    ensures var maps := EnergyMapsOf(stats, heatingId, hotwaterId);
            && ValueOr0(maps.total, day) == ValueOr0(maps.heating, day) + ValueOr0(maps.ww, day)
            && ValueOr0(maps.heating, day) == DayTotal(Series(stats, heatingId), day)
            && ValueOr0(maps.ww, day) == DayTotal(Series(stats, hotwaterId), day)
            && ValueOr0(maps.heating, day) >= 0.0 && ValueOr0(maps.ww, day) >= 0.0
  {
    var h := Series(stats, heatingId);
    var w := Series(stats, hotwaterId);
    AddSamplesValue(EmptyMap, h, day);
    AddSamplesValue(EmptyMap, w, day);
    AddSamplesValue(AddSamples(EmptyMap, h), w, day);
    DayTotalNonNegative(h, day);
    DayTotalNonNegative(w, day);
  }

  // ===================================================== temperature map

  /** The map the `if (typeof t.mean === 'number') set(day, mean)` loop leaves after `samples`. */
  function SetMeans(m: DayMap, samples: seq<Sample>): (r: DayMap)
  {
    if |samples| == 0 then m
    else
      var prev := SetMeans(m, samples[..|samples| - 1]);
      var s := samples[|samples| - 1];
      if s.mean.Some? then Put(prev, s.day, s.mean.value) else prev
  }

  /** Reference definition: the mean of the last sample of `day` that has one. */
  function LastMean(samples: seq<Sample>, day: string): Option<real>
  {
    if |samples| == 0 then None
    else if samples[|samples| - 1].day == day && samples[|samples| - 1].mean.Some? then samples[|samples| - 1].mean
    else LastMean(samples[..|samples| - 1], day)
  }

  /** The last numeric mean of a day wins; days without one keep their earlier entry. */
  lemma {:induction false} SetMeansValue(m: DayMap, samples: seq<Sample>, day: string)
    ensures Get(SetMeans(m, samples), day) == if LastMean(samples, day).Some? then LastMean(samples, day) else Get(m, day)
  {
    if |samples| > 0 {
      SetMeansValue(m, samples[..|samples| - 1], day);
    }
  }

  /** The temperature map of buildTempMap. */
  function TempMapOf(stats: map<string, seq<Sample>>, tempId: string): DayMap
  {
    SetMeans(EmptyMap, if tempId in stats then stats[tempId] else [])
  }

  /** buildTempMap, as the source's forEach loop. */
  method BuildTempMap(stats: map<string, seq<Sample>>, tempId: string) returns (temp: DayMap)
    ensures temp == TempMapOf(stats, tempId)
    ensures tempId !in stats ==> temp == EmptyMap
  {
    temp := EmptyMap;
    if tempId in stats {
      var samples := stats[tempId];
      for i := 0 to |samples|
        invariant temp == SetMeans(EmptyMap, samples[..i])
      {
        assert samples[..i + 1][..i] == samples[..i];
        if samples[i].mean.Some? {
          temp := Put(temp, samples[i].day, samples[i].mean.value);
        }
      }
      assert samples[..|samples|] == samples;
    }
  }

  // ========================================================== raw points

  /**
    The inputs of buildRawPoints besides the two maps. `today` and
    `yesterday` are the day keys of the wall clock, `startTime` is the
    filter start's timestamp (0 without one) and `dayTime` gives the
    timestamp of a day key, as `new Date(dateStr).getTime()` does.
   */
  datatype PointRules = PointRules(
    today: string, yesterday: string, heatingLimit: real, startTime: real,
    identifyYesterday: bool, excludeZeroHddDays: bool, dayTime: string -> real)

  /** Heating degree-days of a day: `Math.max(0, heatingLimit - temp)`. */
  function Hdd(heatingLimit: real, temp: real): (r: real)
    ensures r >= 0.0 && r >= heatingLimit - temp
    ensures r == heatingLimit - temp || r == 0.0
  {
    if heatingLimit - temp > 0.0 then heatingLimit - temp else 0.0
  }

  /** The point one day of the regression source contributes, if any. */
  function DayPoint(dateStr: string, energy: real, temp: DayMap, rules: PointRules): (r: Option<RawPoint>)
    ensures r.Some? <==>
              && dateStr != rules.today
              && dateStr in temp.vals
              && !(rules.excludeZeroHddDays && Hdd(rules.heatingLimit, temp.vals[dateStr]) <= 0.0)
              && ((rules.identifyYesterday && dateStr == rules.yesterday) || rules.dayTime(dateStr) >= rules.startTime)
    ensures r.Some? ==>
              && r.value.dateStr == dateStr && r.value.y == energy
              && r.value.x == Hdd(rules.heatingLimit, temp.vals[dateStr])
              && (rules.excludeZeroHddDays ==> r.value.x > 0.0)
              && (r.value.isYesterday <==> rules.identifyYesterday && dateStr == rules.yesterday)
              && (!r.value.isYesterday ==> rules.dayTime(dateStr) >= rules.startTime)
  {
    if dateStr == rules.today then None
    else match Get(temp, dateStr)
      case None => None
      case Some(t) =>
        var hdd := Hdd(rules.heatingLimit, t);
        if rules.excludeZeroHddDays && hdd <= 0.0 then None
        else
          var isYday := rules.identifyYesterday && dateStr == rules.yesterday;
          if isYday || rules.dayTime(dateStr) >= rules.startTime then Some(RawPoint(hdd, energy, dateStr, isYday))
          else None
  }

  /** The points of the days `keys`, visited in order, with energies from `source`. */
  function RawPointsOf(keys: seq<string>, source: DayMap, temp: DayMap, rules: PointRules): (r: seq<RawPoint>)
    ensures |r| <= |keys|
    ensures forall i :: 0 <= i < |r| ==>
              r[i].dateStr in keys && DayPoint(r[i].dateStr, ValueOr0(source, r[i].dateStr), temp, rules) == Some(r[i])
    ensures forall k :: k in keys && DayPoint(k, ValueOr0(source, k), temp, rules).Some? ==> k in Dates(r)
    ensures Distinct(keys) ==> Distinct(Dates(r))
  {
    if |keys| == 0 then []
    else
      var init := keys[..|keys| - 1];
      var k := keys[|keys| - 1];
      var prev := RawPointsOf(init, source, temp, rules);
      assert forall j :: j in keys <==> j in init || j == k;
      match DayPoint(k, ValueOr0(source, k), temp, rules)
      case None => prev
      case Some(p) =>
        assert Dates(prev + [p]) == Dates(prev) + [k];
        assert Distinct(keys) ==> k !in init;
        prev + [p]
  }

  /** buildRawPoints, as the source's forEach over the regression source. */
  method BuildRawPoints(source: DayMap, temp: DayMap, rules: PointRules) returns (points: seq<RawPoint>)
    ensures points == RawPointsOf(source.keys, source, temp, rules)
  {
    points := [];
    for i := 0 to |source.keys|
      invariant points == RawPointsOf(source.keys[..i], source, temp, rules)
    {
      assert source.keys[..i + 1][..i] == source.keys[..i];
      var dateStr := source.keys[i];
      var energy := ValueOr0(source, dateStr);
      if dateStr == rules.today {
        continue;
      }
      var t := Get(temp, dateStr);
      if t.Some? {
        var hdd := Hdd(rules.heatingLimit, t.value);
        if rules.excludeZeroHddDays && hdd <= 0.0 {
          continue;
        }
        var isYday := rules.identifyYesterday && dateStr == rules.yesterday;
        if isYday || rules.dayTime(dateStr) >= rules.startTime {
          points := points + [RawPoint(hdd, energy, dateStr, isYday)];
        }
      }
    }
    assert source.keys[..|source.keys|] == source.keys;
  }

  // ===================================================== yesterday split

  datatype YesterdayMeta = YesterdayMeta(date: string, energy: real, hdd: real, efficiency: real)
  datatype Extracted = Extracted(points: seq<Point>, yesterdayPoint: Option<Point>, yesterdayMeta: Option<YesterdayMeta>)

  /** Yesterday's summary: the day's energy per degree-day, 0 on a day without heating demand. */
  function MetaOf(p: RawPoint): (r: YesterdayMeta)
    ensures r.date == p.dateStr && r.energy == p.y && r.hdd == p.x
    ensures p.x > 0.0 ==> r.efficiency * p.x == p.y
    ensures p.x <= 0.0 ==> r.efficiency == 0.0
  {
    YesterdayMeta(p.dateStr, p.y, p.x, if p.x > 0.0 then p.y / p.x else 0.0)
  }

  function PlainPoint(p: RawPoint): Point { Point(p.x, p.y) }

  /** The points not flagged as yesterday, in order, without their dates. */
  function NonYesterday(ps: seq<RawPoint>): (r: seq<Point>)
    ensures |r| <= |ps|
    ensures forall q :: q in r <==> exists i :: 0 <= i < |ps| && !ps[i].isYesterday && q == PlainPoint(ps[i])
  {
    if |ps| == 0 then []
    else
      var prev := NonYesterday(ps[..|ps| - 1]);
      var p := ps[|ps| - 1];
      assert forall i :: 0 <= i < |ps| - 1 ==> ps[..|ps| - 1][i] == ps[i];
      if p.isYesterday then prev else prev + [PlainPoint(p)]
  }

  /** The last point flagged as yesterday: each flagged point overwrites the one before. */
  function LastYesterday(ps: seq<RawPoint>): (r: Option<RawPoint>)
    ensures r.Some? <==> exists i :: 0 <= i < |ps| && ps[i].isYesterday
    ensures r.Some? ==> exists i :: 0 <= i < |ps| && ps[i] == r.value && r.value.isYesterday
                                    && forall j :: i < j < |ps| ==> !ps[j].isYesterday
  {
    if |ps| == 0 then None
    else if ps[|ps| - 1].isYesterday then Some(ps[|ps| - 1])
    else
      var prev := LastYesterday(ps[..|ps| - 1]);
      assert forall i :: 0 <= i < |ps| - 1 ==> ps[..|ps| - 1][i] == ps[i];
      prev
  }

  function ExtractOf(ps: seq<RawPoint>): Extracted
  {
    var y := LastYesterday(ps);
    Extracted(NonYesterday(ps),
              if y.Some? then Some(PlainPoint(y.value)) else None,
              if y.Some? then Some(MetaOf(y.value)) else None)
  }

  /** extractYesterday, as the source's loop that reassigns the yesterday slots. */
  method ExtractYesterday(cleanPoints: seq<RawPoint>) returns (e: Extracted)
    ensures e == ExtractOf(cleanPoints)
  {
    var yesterdayPoint: Option<Point> := None;
    var yesterdayMeta: Option<YesterdayMeta> := None;
    var points: seq<Point> := [];
    for i := 0 to |cleanPoints|
      invariant points == NonYesterday(cleanPoints[..i])
      invariant yesterdayPoint == if LastYesterday(cleanPoints[..i]).Some? then Some(PlainPoint(LastYesterday(cleanPoints[..i]).value)) else None
      invariant yesterdayMeta == if LastYesterday(cleanPoints[..i]).Some? then Some(MetaOf(LastYesterday(cleanPoints[..i]).value)) else None
    {
      assert cleanPoints[..i + 1][..i] == cleanPoints[..i];
      var p := cleanPoints[i];
      if p.isYesterday {
        yesterdayPoint := Some(Point(p.x, p.y));
        yesterdayMeta := Some(MetaOf(p));
      } else {
        points := points + [Point(p.x, p.y)];
      }
    }
    assert cleanPoints[..|cleanPoints|] == cleanPoints;
    e := Extracted(points, yesterdayPoint, yesterdayMeta);
  }

  function IsYesterday(p: RawPoint): bool { p.isYesterday }

  /** Every input point lands in exactly one place: the plain points, or the yesterday slot's candidates. */
  lemma {:induction false} ExtractPartition(ps: seq<RawPoint>)
    ensures |NonYesterday(ps)| + |Keep(ps, IsYesterday)| == |ps|
  {
    if |ps| > 0 {
      ExtractPartition(ps[..|ps| - 1]);
    }
  }

  /** With a single flagged point, that point is yesterday's. */
  lemma SingleYesterday(ps: seq<RawPoint>, k: nat)
    requires k < |ps| && ps[k].isYesterday
    requires forall j :: 0 <= j < |ps| && j != k ==> !ps[j].isYesterday
    ensures ExtractOf(ps).yesterdayPoint == Some(Point(ps[k].x, ps[k].y))
    ensures ExtractOf(ps).yesterdayMeta == Some(MetaOf(ps[k]))
    ensures |ExtractOf(ps).points| == |ps| - 1
  {
    ExtractPartition(ps);
    assert Keep(ps, IsYesterday) == [ps[k]] by {
      KeepSingle(ps, IsYesterday, k);
    }
  }

  lemma {:induction false} KeepSingle<T(!new)>(s: seq<T>, p: T -> bool, k: nat)
    requires k < |s| && p(s[k])
    requires forall j :: 0 <= j < |s| && j != k ==> !p(s[j])
    ensures Keep(s, p) == [s[k]]
  {
    if k < |s| - 1 {
      KeepSingle(s[..|s| - 1], p, k);
    } else {
      KeepNone(s[..|s| - 1], p);
    }
  }

  lemma {:induction false} KeepNone<T(!new)>(s: seq<T>, p: T -> bool)
    requires forall j :: 0 <= j < |s| ==> !p(s[j])
    ensures Keep(s, p) == []
  {
    if |s| > 0 {
      KeepNone(s[..|s| - 1], p);
    }
  }

  // ================================================= split-mode regression

  /** m fits Σxy = m Σx²: the normal equation of a line through the origin. */
  predicate FitsThroughOrigin(m: real, xy: real, xx: real)
  {
    m * xx == xy
  }

  /** computeRegressionThroughOrigin: Σxy / Σx², or 0 when Σx² is practically zero. */
  function ThroughOriginSlope(ps: seq<Point>): (m: real)
    ensures SXX(ps) > Eps ==> FitsThroughOrigin(m, SXY(ps), SXX(ps))
    ensures SXX(ps) <= Eps ==> m == 0.0
  {
    if SXX(ps) <= Eps then 0.0 else SXY(ps) / SXX(ps)
  }

  lemma OriginQuadratic(s1: real, s2: real, yy: real, xy: real, sy: real, xx: real, sx: real, n: real, m: real, k: real)
    requires xx > 0.0 && FitsThroughOrigin(m, xy, xx)
    requires Expands(s1, yy, xy, sy, xx, sx, n, m, 0.0)
    requires Expands(s2, yy, xy, sy, xx, sx, n, k, 0.0)
    ensures s1 <= s2
  {
    assert s1 == yy - (m * xy + m * xy) + m * m * xx;
    assert s2 == yy - (k * xy + k * xy) + k * k * xx;
    assert m * xy == m * m * xx;
    assert k * xy == k * m * xx;
    assert s2 - s1 == xx * ((k - m) * (k - m));
    SquareNonNegative(k - m);
  }

  /** The slope is the least-squares fit among all lines through the origin. */
  lemma ThroughOriginLeastSquares(ps: seq<Point>, k: real)
    requires SXX(ps) > Eps
    ensures Sse(ps, ThroughOriginSlope(ps), 0.0) <= Sse(ps, k, 0.0)
  {
    var m := ThroughOriginSlope(ps);
    SseExpansion(ps, m, 0.0);
    SseExpansion(ps, k, 0.0);
    OriginQuadratic(Sse(ps, m, 0.0), Sse(ps, k, 0.0), SYY(ps), SXY(ps), SY(ps), SXX(ps), SX(ps), |ps| as real, m, k);
  }

  lemma CancelPositive(m: real, a: real, xx: real, xy: real)
    requires xx > 0.0 && FitsThroughOrigin(m, xy, xx) && xy == a * xx
    ensures m == a
  {
    assert (m - a) * xx == 0.0;
  }

  /** Energy exactly proportional to the degree-days gives back the proportionality factor. */
  lemma ThroughOriginRecoversProportional(ps: seq<Point>, a: real)
    requires forall i :: 0 <= i < |ps| ==> ps[i].y == a * ps[i].x
    requires SXX(ps) > Eps
    ensures ThroughOriginSlope(ps) == a
  {
    LineSums(ps, a, 0.0);
    CancelPositive(ThroughOriginSlope(ps), a, SXX(ps), SXY(ps));
  }

  /** Σ(y − ȳ)²: the squared error of the horizontal line at the mean. */
  function Sst(ps: seq<Point>): real
    requires |ps| > 0
  {
    Sse(ps, 0.0, SY(ps) / (|ps| as real))
  }

  lemma QuotientNonNegative(a: real, c: real)
    requires a >= 0.0 && c > 0.0
    ensures a / c >= 0.0
  {
  }

  /** computeModelR2: 1 − SSE/SST of the given line, 0 for fewer than two points or a flat series. */
  function ModelR2(ps: seq<Point>, m: real, b: real): (r: real)
    ensures r <= 1.0
    ensures |ps| < 2 ==> r == 0.0
    ensures |ps| >= 2 && Sst(ps) <= Eps ==> r == 0.0
  {
    if |ps| < 2 then 0.0
    else
      var sst := Sst(ps);
      if sst <= Eps then 0.0
      else
        var sse := Sse(ps, m, b);
        assert sse / sst >= 0.0 by {
          SseNonNegative(ps, m, b);
          QuotientNonNegative(sse, sst);
        }
        1.0 - sse / sst
  }

  lemma {:induction false} SseOfExactFit(ps: seq<Point>, m: real, b: real)
    requires forall i :: 0 <= i < |ps| ==> ps[i].y == m * ps[i].x + b
    ensures Sse(ps, m, b) == 0.0
  {
    if |ps| > 0 {
      SseOfExactFit(ps[..|ps| - 1], m, b);
    }
  }

  /** A line through every point scores 1. */
  lemma ModelR2OfExactFit(ps: seq<Point>, m: real, b: real)
    requires |ps| >= 2 && Sst(ps) > Eps
    requires forall i :: 0 <= i < |ps| ==> ps[i].y == m * ps[i].x + b
    ensures ModelR2(ps, m, b) == 1.0
  {
    SseOfExactFit(ps, m, b);
  }

  /** The horizontal line at the mean scores 0. */
  lemma ModelR2OfMean(ps: seq<Point>)
    requires |ps| >= 2 && Sst(ps) > Eps
    ensures ModelR2(ps, 0.0, SY(ps) / (|ps| as real)) == 0.0
  {
  }

  // ============================================================ pipeline

  datatype DatedPoint = DatedPoint(x: real, y: real, dateStr: string)

  /** The inputs of processInsightSeries besides the statistics. */
  datatype SeriesParams = SeriesParams(heatingId: Option<string>, hotwaterId: Option<string>, tempId: string, rules: PointRules)

  datatype SeriesResult = SeriesResult(
    points: seq<Point>, datedPoints: seq<DatedPoint>,
    yesterdayPoint: Option<Point>, yesterdayMeta: Option<YesterdayMeta>,
    m: real, b: real, r2: real, linePoints: seq<Point>,
    deviation: real, avgEfficiency: real, avgPowerForHeating: real,
    annualHeatingElecKwh: real, totalElecPeriod: real, totalDaysPeriod: nat, wwBaseLoad: real)

  /** The non-yesterday points with their dates. */
  function Dated(ps: seq<RawPoint>): (r: seq<DatedPoint>)
  {
    if |ps| == 0 then []
    else
      var p := ps[|ps| - 1];
      Dated(ps[..|ps| - 1]) + if p.isYesterday then [] else [DatedPoint(p.x, p.y, p.dateStr)]
  }

  /** Split mode's display points: each clean point with its day's total energy, days without a total skipped. */
  function DisplayPoints(clean: seq<RawPoint>, total: DayMap): (r: seq<RawPoint>)
    ensures |r| <= |clean|
    ensures forall i :: 0 <= i < |r| ==> r[i].dateStr in total.vals && r[i].y == total.vals[r[i].dateStr]
  {
    if |clean| == 0 then []
    else
      var p := clean[|clean| - 1];
      DisplayPoints(clean[..|clean| - 1], total)
      + if p.dateStr in total.vals then [RawPoint(p.x, total.vals[p.dateStr], p.dateStr, p.isYesterday)] else []
  }

  /** `Math.max(...points.map(p => p.x), 20)`. */
  function MaxHdd(ps: seq<Point>): (r: real)
    ensures r >= 20.0 && forall i :: 0 <= i < |ps| ==> ps[i].x <= r
    ensures r == 20.0 || exists i :: 0 <= i < |ps| && r == ps[i].x
  {
    if |ps| == 0 then 20.0
    else
      var prev := MaxHdd(ps[..|ps| - 1]);
      assert forall i :: 0 <= i < |ps| - 1 ==> ps[..|ps| - 1][i] == ps[i];
      if ps[|ps| - 1].x > prev then ps[|ps| - 1].x else prev
  }

  /** Step 7: the derived metrics, from the chosen model and display series. */
  function Finish(points: seq<Point>, datedPoints: seq<DatedPoint>, yesterdayPoint: Option<Point>,
                  yesterdayMeta: Option<YesterdayMeta>, m: real, b: real, r2: real,
                  regressionPoints: seq<Point>, total: DayMap, wwBaseLoad: real): SeriesResult
  {
    var sums := SumMapValues(Values(total));
    SeriesResult(
      points, datedPoints, yesterdayPoint, yesterdayMeta, m, b, r2,
      ClipRegressionLine(m, b, MaxHdd(points)),
      Deviation(yesterdayPoint, m, b),
      AvgEfficiency(regressionPoints), AvgHeatingPower(regressionPoints),
      AnnualHeatingProjection(m), sums.total, sums.dayCount, wwBaseLoad)
  }

  /** The intermediate stages of processInsightSeries, once both guards have passed. */
  datatype Stages = Stages(
    split: bool, raw: seq<RawPoint>, filtered: OutlierFilterResult,
    total: DayMap, ww: DayMap, regression: Extracted)

  function StagesOf(stats: map<string, seq<Sample>>, p: SeriesParams): Stages
  {
    var maps := EnergyMapsOf(stats, p.heatingId, p.hotwaterId);
    var hasHeating := HasSeries(stats, p.heatingId);
    var split := hasHeating && HasSeries(stats, p.hotwaterId);
    var ww0 := Remove(maps.ww, p.rules.today);
    var total0 := Remove(maps.total, p.rules.today);
    var source := if hasHeating then maps.heating else total0;
    var raw := RawPointsOf(source.keys, source, TempMapOf(stats, p.tempId), p.rules);
    var filtered := FilterOutliers(raw, DefaultFence);
    Stages(split, raw, filtered,
           RemoveAll(total0, filtered.removedDates), RemoveAll(ww0, filtered.removedDates),
           ExtractOf(filtered.clean))
  }

  /** processInsightSeries, as a specification on values: None where the source returns null. */
  function InsightSeries(stats: map<string, seq<Sample>>, p: SeriesParams): Option<SeriesResult>
  {
    if p.tempId !in stats then None
    else if !HasSeries(stats, p.heatingId) && !HasSeries(stats, p.hotwaterId) then None
    else
      var st := StagesOf(stats, p);
      var reg := st.regression;
      if |reg.points| < 2 then None
      else
        var wwBaseLoad := WwBaseLoad(Values(st.ww));
        if st.split then
          var display := DisplayPoints(st.filtered.clean, st.total);
          var shown := ExtractOf(display);
          if |shown.points| < 2 then None
          else
            var m := ThroughOriginSlope(reg.points);
            Some(Finish(shown.points, Dated(display), shown.yesterdayPoint, shown.yesterdayMeta,
                        m, wwBaseLoad, ModelR2(shown.points, m, wwBaseLoad), reg.points, st.total, wwBaseLoad))
        else
          var ols := Ols(reg.points);
          Some(Finish(reg.points, Dated(st.filtered.clean), reg.yesterdayPoint, reg.yesterdayMeta,
                      ols.m, ols.b, ols.r2, reg.points, st.total, wwBaseLoad))
  }

  /** The four cases in which processInsightSeries returns null, and no others. */
  lemma InsightSeriesNull(stats: map<string, seq<Sample>>, p: SeriesParams)
    ensures InsightSeries(stats, p).None? <==>
              || p.tempId !in stats
              || (!HasSeries(stats, p.heatingId) && !HasSeries(stats, p.hotwaterId))
              || |StagesOf(stats, p).regression.points| < 2
              || (StagesOf(stats, p).split
                  && |ExtractOf(DisplayPoints(StagesOf(stats, p).filtered.clean, StagesOf(stats, p).total)).points| < 2)
  {
  }

  /** Split mode: slope through the origin, intercept from the hot-water base load, totals on display. */
  lemma SplitModeModel(stats: map<string, seq<Sample>>, p: SeriesParams)
    requires InsightSeries(stats, p).Some? && StagesOf(stats, p).split
    ensures var r := InsightSeries(stats, p).value;
            var st := StagesOf(stats, p);
            && r.m == ThroughOriginSlope(st.regression.points)
            && r.b == r.wwBaseLoad && r.b >= 0.0
            && r.r2 == ModelR2(r.points, r.m, r.b) && r.r2 <= 1.0
            && r.points == NonYesterday(DisplayPoints(st.filtered.clean, st.total))
            && |r.points| >= 2
            && forall q :: q in r.points ==> exists d :: d in st.total.vals && q.y == st.total.vals[d]
  {
    var st := StagesOf(stats, p);
    var display := DisplayPoints(st.filtered.clean, st.total);
    forall q | q in NonYesterday(display)
      ensures exists d :: d in st.total.vals && q.y == st.total.vals[d]
    {
      var i :| 0 <= i < |display| && !display[i].isYesterday && q == PlainPoint(display[i]);
      assert display[i].dateStr in st.total.vals;
    }
  }

  /** Fallback mode: the unconstrained least-squares fit of the clean regression points. */
  lemma FallbackModel(stats: map<string, seq<Sample>>, p: SeriesParams)
    requires InsightSeries(stats, p).Some? && !StagesOf(stats, p).split
    ensures var r := InsightSeries(stats, p).value;
            var st := StagesOf(stats, p);
            && r.points == st.regression.points && |r.points| >= 2
            && Regression(r.m, r.b, r.r2) == Ols(r.points)
            && 0.0 <= r.r2 <= 1.0
            && r.yesterdayMeta == st.regression.yesterdayMeta
  {
  }

  lemma {:induction false} AddSamplesNonNegative(m: DayMap, samples: seq<Sample>, day: string)
    requires ValueOr0(m, day) >= 0.0
    ensures ValueOr0(AddSamples(m, samples), day) >= 0.0
  {
    AddSamplesValue(m, samples, day);
    DayTotalNonNegative(samples, day);
  }

  /**
    Today and the outlier days are gone from the total and hot-water maps
    before the period sums; the period total is a sum of clamped energies.
   */
  lemma PeriodTotals(stats: map<string, seq<Sample>>, p: SeriesParams)
    requires InsightSeries(stats, p).Some?
    ensures var r := InsightSeries(stats, p).value;
            var st := StagesOf(stats, p);
            && r.totalDaysPeriod == |st.total.keys|
            && p.rules.today !in st.total.vals && p.rules.today !in st.ww.vals
            && (forall d :: d in st.filtered.removedDates ==> d !in st.total.vals && d !in st.ww.vals)
            && r.totalElecPeriod >= 0.0
  {
    var st := StagesOf(stats, p);
    var maps := EnergyMapsOf(stats, p.heatingId, p.hotwaterId);
    var vs := Values(st.total);
    forall i | 0 <= i < |vs|
      ensures vs[i] >= 0.0
    {
      var d := st.total.keys[i];
      AddSamplesNonNegative(EmptyMap, Series(stats, p.heatingId), d);
      AddSamplesNonNegative(AddSamples(EmptyMap, Series(stats, p.heatingId)), Series(stats, p.hotwaterId), d);
      assert ValueOr0(maps.total, d) >= 0.0;
    }
    SumNonNegative(vs);
  }

  /** With distinct day keys, clean points and removed days add up to the raw points. */
  lemma InsightPartition(stats: map<string, seq<Sample>>, p: SeriesParams)
    ensures var st := StagesOf(stats, p);
            |st.filtered.clean| + |st.filtered.removedDates| == |st.raw|
  {
    var maps := EnergyMapsOf(stats, p.heatingId, p.hotwaterId);
    AddSamplesValid(EmptyMap, Series(stats, p.heatingId));
    AddSamplesValid(AddSamples(EmptyMap, Series(stats, p.heatingId)), Series(stats, p.hotwaterId));
    var total0 := Remove(maps.total, p.rules.today);
    var source := if HasSeries(stats, p.heatingId) then maps.heating else total0;
    assert Valid(source);
    FilterPartitionCount(StagesOf(stats, p).raw, DefaultFence);
  }

  lemma RemoveAllStep(m: DayMap, ks: seq<string>, i: nat)
    requires i < |ks|
    ensures RemoveAll(m, ks[..i + 1]) == Remove(RemoveAll(m, ks[..i]), ks[i])
  {
    assert ks[..i + 1][..i] == ks[..i];
  }

  lemma DisplayPointsStep(clean: seq<RawPoint>, total: DayMap, i: nat)
    requires i < |clean|
    ensures DisplayPoints(clean[..i + 1], total)
            == DisplayPoints(clean[..i], total)
               + if clean[i].dateStr in total.vals
                 then [RawPoint(clean[i].x, total.vals[clean[i].dateStr], clean[i].dateStr, clean[i].isYesterday)]
                 else []
  {
    assert clean[..i + 1][..i] == clean[..i];
  }

  /** Removes the outlier days from the total and hot-water maps, as the source's for-of loop. */
  method RemoveOutlierDays(total: DayMap, ww: DayMap, removedDates: seq<string>) returns (total': DayMap, ww': DayMap)
    ensures total' == RemoveAll(total, removedDates)
    ensures ww' == RemoveAll(ww, removedDates)
  {
    total', ww' := total, ww;
    for i := 0 to |removedDates|
      invariant total' == RemoveAll(total, removedDates[..i])
      invariant ww' == RemoveAll(ww, removedDates[..i])
    {
      RemoveAllStep(total, removedDates, i);
      RemoveAllStep(ww, removedDates, i);
      total' := Remove(total', removedDates[i]);
      ww' := Remove(ww', removedDates[i]);
    }
    assert removedDates[..|removedDates|] == removedDates;
  }

  /** Split mode's display loop: the clean points re-valued with their day's total energy. */
  method BuildDisplayPoints(clean: seq<RawPoint>, total: DayMap) returns (display: seq<RawPoint>)
    ensures display == DisplayPoints(clean, total)
  {
    display := [];
    for i := 0 to |clean|
      invariant display == DisplayPoints(clean[..i], total)
    {
      DisplayPointsStep(clean, total, i);
      var p := clean[i];
      var totalY := Get(total, p.dateStr);
      if totalY.None? {
        continue;
      }
      display := display + [RawPoint(p.x, totalY.value, p.dateStr, p.isYesterday)];
    }
    assert clean[..|clean|] == clean;
  }

  /** processInsightSeries, step by step as the source runs it. */
  method ProcessInsightSeries(stats: map<string, seq<Sample>>, p: SeriesParams) returns (r: Option<SeriesResult>)
    ensures r == InsightSeries(stats, p)
  {
    if p.tempId !in stats {
      return None;
    }
    if !HasSeries(stats, p.heatingId) && !HasSeries(stats, p.hotwaterId) {
      return None;
    }
    ghost var st := StagesOf(stats, p);
    // 1. three energy maps, today's entry dropped from total and hot water
    var maps := BuildEnergyMaps(stats, p.heatingId, p.hotwaterId);
    var hasHeating := HasSeries(stats, p.heatingId);
    var hasHotwater := HasSeries(stats, p.hotwaterId);
    var splitMode := hasHeating && hasHotwater;
    var wwMap := Remove(maps.ww, p.rules.today);
    var totalMap := Remove(maps.total, p.rules.today);
    // 2.-3. regression source, temperature map and raw points
    var regressionSource := if hasHeating then maps.heating else totalMap;
    var tempMap := BuildTempMap(stats, p.tempId);
    var allRawPoints := BuildRawPoints(regressionSource, tempMap, p.rules);
    assert allRawPoints == st.raw;
    // 4. outlier filter, and the outlier days out of total and hot water
    var filtered := FilterOutliersByResidual(allRawPoints, DefaultFence);
    totalMap, wwMap := RemoveOutlierDays(totalMap, wwMap, filtered.removedDates);
    assert filtered == st.filtered && totalMap == st.total && wwMap == st.ww;
    // 5. yesterday out of the regression points
    var regression := ExtractYesterday(filtered.clean);
    if |regression.points| < 2 {
      return None;
    }
    // 6. the model
    var wwBaseLoad := WwBaseLoad(Values(wwMap));
    var points := regression.points;
    var datedPoints := Dated(filtered.clean);
    var yesterdayPoint := regression.yesterdayPoint;
    var yesterdayMeta: Option<YesterdayMeta> := None;
    var m := 0.0;
    var b := 0.0;
    var r2 := 0.0;
    if splitMode {
      m := ThroughOriginSlope(regression.points);
      b := wwBaseLoad;
      var displayRawPoints := BuildDisplayPoints(filtered.clean, totalMap);
      var extracted := ExtractYesterday(displayRawPoints);
      points := extracted.points;
      datedPoints := Dated(displayRawPoints);
      yesterdayPoint := extracted.yesterdayPoint;
      yesterdayMeta := extracted.yesterdayMeta;
      if |points| < 2 {
        return None;
      }
      r2 := ModelR2(points, m, b);
    } else {
      var fit := Ols(regression.points);
      m := fit.m;
      b := fit.b;
      r2 := fit.r2;
      yesterdayMeta := regression.yesterdayMeta;
    }
    // 7. derived metrics
    r := Some(Finish(points, datedPoints, yesterdayPoint, yesterdayMeta, m, b, r2, regression.points, totalMap, wwBaseLoad));
  }
}
