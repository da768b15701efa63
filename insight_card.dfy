/**
  The Insight card's own logic around the pipeline: the length of the
  chosen period, which energy sensors feed the analysis, the inputs it
  hands to the pipeline, the base load it displays, the day shown in the
  detail panel and the navigation between days.
 */
module InsightCard {
  import opened Common
  import opened Stats
  import opened LeastSquares
  import opened InsightMath
  import opened InsightProcessor

  /** `_periodDays`: '30d' and '365d' by name, every other period 90 days. */
  function PeriodDays(period: string): (r: nat)
    ensures period == "30d" ==> r == 30
    ensures period == "365d" ==> r == 365
    ensures period != "30d" && period != "365d" ==> r == 90
  {
    if period == "30d" then 30 else if period == "365d" then 365 else 90
  }

  datatype EnergyEntities = EnergyEntities(energyHeating: Option<string>, energyHotwater: Option<string>, energyTotal: Option<string>)
  datatype EnergyMode = Split | HeatingOnly | FallbackTotal
  datatype ResolvedEnergy = ResolvedEnergy(heatingId: string, hotwaterId: Option<string>, ids: seq<string>, mode: EnergyMode)

  /**
    `_resolveEnergy`: a heating sensor wins (with the hot-water sensor beside
    it when there is one); otherwise a total sensor stands in for heating.
   */
  function ResolveEnergy(e: EnergyEntities): (r: Option<ResolvedEnergy>)
    ensures Truthy(e.energyHeating) && Truthy(e.energyHotwater) ==>
              r == Some(ResolvedEnergy(e.energyHeating.value, e.energyHotwater,
                                       [e.energyHeating.value, e.energyHotwater.value], Split))
    ensures Truthy(e.energyHeating) && !Truthy(e.energyHotwater) ==>
              r == Some(ResolvedEnergy(e.energyHeating.value, e.energyHotwater, [e.energyHeating.value], HeatingOnly))
    ensures !Truthy(e.energyHeating) && Truthy(e.energyTotal) ==>
              r == Some(ResolvedEnergy(e.energyTotal.value, None, [e.energyTotal.value], FallbackTotal))
    ensures !Truthy(e.energyHeating) && !Truthy(e.energyTotal) ==> r.None?
  {
    if Truthy(e.energyHeating) then
      var ids := if Truthy(e.energyHotwater) then [e.energyHeating.value, e.energyHotwater.value] else [e.energyHeating.value];
      Some(ResolvedEnergy(e.energyHeating.value, e.energyHotwater, ids,
                          if Truthy(e.energyHotwater) then Split else HeatingOnly))
    else if Truthy(e.energyTotal) then
      Some(ResolvedEnergy(e.energyTotal.value, None, [e.energyTotal.value], FallbackTotal))
    else None
  }

  /** The ids to fetch start with the sensor used for heating, and there is a second one exactly in split mode. */
  lemma ResolvedIds(e: EnergyEntities)
    requires ResolveEnergy(e).Some?
    ensures var r := ResolveEnergy(e).value;
            && 1 <= |r.ids| <= 2 && r.ids[0] == r.heatingId && r.heatingId != ""
            && (r.mode == Split <==> |r.ids| == 2)
            && (r.mode == Split <==> Truthy(r.hotwaterId))
  {
  }

  // ================================================== pipeline inputs

  /** `settings.heating_limit || 15`: an unset or zero limit means 15 °C. */
  function HeatingLimit(setting: Option<real>): (r: real)
    ensures setting.Some? && setting.value != 0.0 ==> r == setting.value
    ensures setting.None? || setting.value == 0.0 ==> r == 15.0
  {
    if setting.Some? && setting.value != 0.0 then setting.value else 15.0
  }

  /** An optional id as processInsightSeries receives it: an empty id is no id. */
  function IdOf(s: Option<string>): Option<string>
  {
    if Truthy(s) then s else None
  }

  /** The parameters `_fetchData` passes to processInsightSeries. */
  function FetchParams(energy: ResolvedEnergy, tempId: string, heatingLimitSetting: Option<real>,
                       today: string, yesterday: string, startTime: real, dayTime: string -> real): (p: SeriesParams)
    ensures p.heatingId == Some(energy.heatingId) && p.hotwaterId == IdOf(energy.hotwaterId) && p.tempId == tempId
    ensures p.rules.heatingLimit == HeatingLimit(heatingLimitSetting)
    ensures !p.rules.identifyYesterday
    ensures p.rules.excludeZeroHddDays <==> energy.mode != FallbackTotal
  {
    SeriesParams(Some(energy.heatingId), IdOf(energy.hotwaterId), tempId,
                 PointRules(today, yesterday, HeatingLimit(heatingLimitSetting), startTime,
                            false, energy.mode != FallbackTotal, dayTime))
  }

  /**
    The base load on display: the measured hot-water base load when a
    dedicated hot-water series exists, else the regression intercept
    clipped at 0.
   */
  function BaseLoad(hasDedicatedWw: bool, wwBaseLoad: real, b: real): (r: real)
    ensures hasDedicatedWw ==> r == wwBaseLoad
    ensures !hasDedicatedWw ==> r >= 0.0 && r >= b && (r == b || r == 0.0)
  {
    if hasDedicatedWw then wwBaseLoad else if b > 0.0 then b else 0.0
  }

  /** The displayed base load is never negative, and in split mode it is the model's intercept. */
  lemma BaseLoadOfSeries(stats: map<string, seq<Sample>>, p: SeriesParams)
    requires InsightSeries(stats, p).Some?
    ensures var r := InsightSeries(stats, p).value;
            var shown := BaseLoad(HasSeries(stats, p.hotwaterId), r.wwBaseLoad, r.b);
            && shown >= 0.0
            && (StagesOf(stats, p).split ==> shown == r.b)
  {
    var r := InsightSeries(stats, p).value;
    if StagesOf(stats, p).split {
      SplitModeModel(stats, p);
    }
  }

  // ======================================================= day selection

  datatype InsightDay = InsightDay(date: string, hdd: real, energy: real)

  /** Days in ascending order of their timestamps. */
  predicate SortedByTime(days: seq<InsightDay>, dayTime: string -> real)
  {
    forall i, j :: 0 <= i < j < |days| ==> dayTime(days[i].date) <= dayTime(days[j].date)
  }

  /** `_toSortedDays`: stable sort by the timestamp of each day's date. */
  function ToSortedDays(days: seq<InsightDay>, dayTime: string -> real): (r: seq<InsightDay>)
    ensures |r| == |days| && multiset(r) == multiset(days)
    ensures SortedByTime(r, dayTime)
  {
    var key := (d: InsightDay) => dayTime(d.date);
    var r := SortBy(days, key);
    assert forall i, j :: 0 <= i < j < |r| ==> key(r[i]) <= key(r[j]);
    r
  }

  /** `days.find(d => d.date === date)`. */
  function FirstWithDate(days: seq<InsightDay>, date: string): (r: Option<InsightDay>)
    ensures r.None? <==> forall i :: 0 <= i < |days| ==> days[i].date != date
    ensures r.Some? ==> exists i :: 0 <= i < |days| && days[i] == r.value && r.value.date == date
                                    && forall j :: 0 <= j < i ==> days[j].date != date
  {
    if |days| == 0 then None
    else if days[0].date == date then Some(days[0])
    else
      var rest := FirstWithDate(days[1..], date);
      assert forall i :: 1 <= i < |days| ==> days[1..][i - 1] == days[i];
      rest
  }

  /**
    The choice of `_resolveSelectedDay`: nothing exactly without days; the
    latest day when nothing is requested, the requested day when it is
    there, else the latest day not after it, and the earliest day when
    every day is after it.
   */
  predicate ResolvesTo(days: seq<InsightDay>, requested: Option<string>, dayTime: string -> real, r: Option<InsightDay>)
  {
    var sorted := ToSortedDays(days, dayTime);
    && (r.None? <==> |days| == 0)
    && (|days| > 0 && !Truthy(requested) ==> r == Some(sorted[|sorted| - 1]))
    && (|days| > 0 && Truthy(requested) && FirstWithDate(sorted, requested.value).Some? ==>
          r == FirstWithDate(sorted, requested.value))
    && (|days| > 0 && Truthy(requested) && FirstWithDate(sorted, requested.value).None? ==>
          var ts := dayTime(requested.value);
          && (dayTime(sorted[0].date) <= ts ==> r.Some? && LatestNotAfter(sorted, ts, dayTime, r.value))
          && (dayTime(sorted[0].date) > ts ==> r == Some(sorted[0])))
  }

  /** `_resolveSelectedDay`: picks the day ResolvesTo describes, one of the given days. */
  method ResolveSelectedDay(days: seq<InsightDay>, requested: Option<string>, dayTime: string -> real)
    returns (r: Option<InsightDay>)
    ensures ResolvesTo(days, requested, dayTime, r)
    ensures r.Some? ==> r.value in multiset(days)
  {
    if |days| == 0 {
      return None;
    }
    var sortedDays := ToSortedDays(days, dayTime);
    assert sortedDays[0] in multiset(sortedDays);
    if !Truthy(requested) {
      assert sortedDays[|sortedDays| - 1] in multiset(sortedDays);
      return Some(sortedDays[|sortedDays| - 1]);
    }
    var exact := FirstWithDate(sortedDays, requested.value);
    if exact.Some? {
      assert exact.value in multiset(sortedDays);
      return exact;
    }
    var fallback := FallbackDay(sortedDays, dayTime(requested.value), dayTime);
    r := Some(fallback);
  }

  /**
    The scan of `_resolveSelectedDay` when the requested day is missing:
    walks the sorted days while they are not after `ts` and keeps the last
    one, starting from the earliest day.
   */
  method FallbackDay(sortedDays: seq<InsightDay>, ts: real, dayTime: string -> real) returns (fallback: InsightDay)
    requires |sortedDays| > 0 && SortedByTime(sortedDays, dayTime)
    ensures fallback in multiset(sortedDays)
    ensures dayTime(sortedDays[0].date) <= ts ==> LatestNotAfter(sortedDays, ts, dayTime, fallback)
    ensures dayTime(sortedDays[0].date) > ts ==> fallback == sortedDays[0]
  {
    fallback := sortedDays[0];
    var i := 0;
    while i < |sortedDays| && dayTime(sortedDays[i].date) <= ts
      invariant 0 <= i <= |sortedDays|
      invariant forall j :: 0 <= j < i ==> dayTime(sortedDays[j].date) <= ts
      invariant fallback == if i == 0 then sortedDays[0] else sortedDays[i - 1]
    {
      fallback := sortedDays[i];
      i := i + 1;
    }
    if i > 0 {
      FallbackIsLatest(sortedDays, ts, dayTime, i);
    }
    assert fallback in multiset(sortedDays);
  }

  /** `d` is not after `ts`, and no day of `sorted` that is not after `ts` is later than `d`. */
  predicate LatestNotAfter(sorted: seq<InsightDay>, ts: real, dayTime: string -> real, d: InsightDay)
  {
    && dayTime(d.date) <= ts
    && forall i :: 0 <= i < |sorted| && dayTime(sorted[i].date) <= ts ==> dayTime(sorted[i].date) <= dayTime(d.date)
  }

  /** In a list sorted by time, the last day of the prefix not after `ts` is the latest such day. */
  lemma FallbackIsLatest(sorted: seq<InsightDay>, ts: real, dayTime: string -> real, k: int)
    requires SortedByTime(sorted, dayTime)
    requires 1 <= k <= |sorted|
    requires forall j :: 0 <= j < k ==> dayTime(sorted[j].date) <= ts
    requires k == |sorted| || dayTime(sorted[k].date) > ts
    ensures LatestNotAfter(sorted, ts, dayTime, sorted[k - 1])
  {
  }

  // ========================================================== navigation

  datatype SelectedDay = SelectedDay(date: string, hdd: real, energy: real, expected: real, deviation: real)

  /** The part of `_data` that selection and navigation read and write. */
  datatype CardData = CardData(
    availableDays: seq<InsightDay>, selectedDay: Option<SelectedDay>,
    linePoints: seq<Point>, baseLoad: real, baseLoadFromWw: bool,
    modelIntercept: real, wwBaseLoad: real, slope: real, r2: real, avgEfficiency: real, periodDays: nat)

  /** The expectation of a selected day lies on the model line, and the deviation is the energy above it. */
  predicate Explained(s: SelectedDay, slope: real, intercept: real)
  {
    s.expected == slope * s.hdd + intercept && s.energy == s.expected + s.deviation
  }

  /** A day of the list with the model's expectation for it and how far it lies above. */
  function Selected(d: InsightDay, slope: real, intercept: real): (s: SelectedDay)
    ensures s.date == d.date && s.hdd == d.hdd && s.energy == d.energy
    ensures Explained(s, slope, intercept)
  {
    var expected := slope * d.hdd + intercept;
    SelectedDay(d.date, d.hdd, d.energy, expected, d.energy - expected)
  }

  /** The day a selection shows: its date, HDD and energy. */
  function DayOf(s: Option<SelectedDay>): (r: Option<InsightDay>)
    ensures r.None? <==> s.None?
    ensures forall d: InsightDay, m: real, b: real :: s == Some(Selected(d, m, b)) ==> r == Some(d)
  {
    if s.Some? then Some(InsightDay(s.value.date, s.value.hdd, s.value.energy)) else None
  }

  /** The first index whose day has `date`, or −1. */
  function IndexOfDate(days: seq<InsightDay>, date: string): (r: int)
    ensures -1 <= r < |days|
    ensures r == -1 <==> forall i :: 0 <= i < |days| ==> days[i].date != date
    ensures r >= 0 ==> days[r].date == date && forall j :: 0 <= j < r ==> days[j].date != date
  {
    if |days| == 0 then -1
    else if days[0].date == date then 0
    else
      var rest := IndexOfDate(days[1..], date);
      assert forall i :: 1 <= i < |days| ==> days[1..][i - 1] == days[i];
      if rest == -1 then -1 else rest + 1
  }

  /** The day dates are pairwise different. */
  predicate DistinctDates(days: seq<InsightDay>)
  {
    forall i, j :: 0 <= i < j < |days| ==> days[i].date != days[j].date
  }

  class InsightCardState {
    var data: Option<CardData>
    var selectedDateStr: Option<string>
    var period: string

    constructor()
      ensures data.None? && selectedDateStr.None? && period == "90d"
    {
      data := None;
      selectedDateStr := None;
      period := "90d";
    }

    /**
      `_setPeriod`: a different period is stored and the data is fetched
      again (through ApplySeries); the same period changes nothing.
     */
    method SetPeriod(p: string)
      modifies this
      ensures period == p
      ensures data == old(data) && selectedDateStr == old(selectedDateStr)
    {
      if period == p {
        return;
      }
      period := p;
    }

    /** `_selectedDayIndex`: where the selected day sits in the list, −1 without one. */
    function SelectedDayIndex(): (r: int)
      reads this
      ensures r == -1 || (data.Some? && 0 <= r < |data.value.availableDays|)
      ensures r >= 0 ==> data.value.selectedDay.Some?
                         && data.value.availableDays[r].date == data.value.selectedDay.value.date
    {
      if data.None? || data.value.selectedDay.None? then -1
      else IndexOfDate(data.value.availableDays, data.value.selectedDay.value.date)
    }

    /** `_canGoPrevSelectedDay`. */
    function CanGoPrev(): bool
      reads this
    {
      SelectedDayIndex() > 0
    }

    /** `_canGoNextSelectedDay`. */
    function CanGoNext(): bool
      reads this
    {
      var idx := SelectedDayIndex();
      var total := if data.Some? then |data.value.availableDays| else 0;
      idx >= 0 && idx < total - 1
    }

    /**
      `_navigateSelectedDay`: moves to the neighbouring day when the
      direction's predicate allows it, recomputing the expectation and the
      deviation of the new day; otherwise nothing changes.
     */
    method Navigate(prev: bool)
      modifies this
      ensures period == old(period)
      ensures !(if prev then old(CanGoPrev()) else old(CanGoNext())) ==>
                data == old(data) && selectedDateStr == old(selectedDateStr)
      ensures (if prev then old(CanGoPrev()) else old(CanGoNext())) ==>
                var d := old(data).value;
                var day := d.availableDays[old(SelectedDayIndex()) + (if prev then -1 else 1)];
                && data == Some(d.(selectedDay := Some(Selected(day, d.slope, d.modelIntercept))))
                && selectedDateStr == Some(day.date)
                && (DistinctDates(d.availableDays) ==> SelectedDayIndex() == old(SelectedDayIndex()) + (if prev then -1 else 1))
    {
      if data.None? {
        return;
      }
      var idx := SelectedDayIndex();
      if idx < 0 {
        return;
      }
      var delta := if prev then -1 else 1;
      var nextIdx := idx + delta;
      if nextIdx < 0 || nextIdx >= |data.value.availableDays| {
        return;
      }
      var d := data.value;
      var day := d.availableDays[nextIdx];
      selectedDateStr := Some(day.date);
      data := Some(d.(selectedDay := Some(Selected(day, d.slope, d.modelIntercept))));
      assert DistinctDates(d.availableDays) ==> IndexOfDate(d.availableDays, day.date) == nextIdx;
    }

    /**
      The tail of `_fetchData` once processInsightSeries has answered: no
      data without a result; otherwise the dated points sorted by day, the
      remembered day resolved against them, and the displayed base load.
     */
    method ApplySeries(result: Option<SeriesResult>, hasDedicatedWw: bool, dayTime: string -> real)
      modifies this
      ensures period == old(period)
      ensures result.None? ==> data.None? && selectedDateStr == old(selectedDateStr)
      ensures result.Some? ==>
                var res := result.value;
                && data.Some?
                && var d := data.value;
                && d.availableDays == ToSortedDays(DaysOf(res.datedPoints), dayTime)
                && d.baseLoad == BaseLoad(hasDedicatedWw, res.wwBaseLoad, res.b)
                && d.baseLoadFromWw == hasDedicatedWw
                && d.slope == res.m && d.modelIntercept == res.b && d.wwBaseLoad == res.wwBaseLoad
                && d.r2 == res.r2 && d.avgEfficiency == res.avgEfficiency && d.linePoints == res.linePoints
                && d.periodDays == PeriodDays(period)
                && (d.selectedDay.None? <==> |res.datedPoints| == 0)
                && (d.selectedDay.Some? ==>
                      && Explained(d.selectedDay.value, res.m, res.b)
                      && 0 <= SelectedDayIndex())
                && (selectedDateStr.Some? ==> d.selectedDay.Some? && selectedDateStr.value == d.selectedDay.value.date)
                && selectedDateStr == (if d.selectedDay.Some? && d.selectedDay.value.date != ""
                                       then Some(d.selectedDay.value.date) else None)
      // which day is selected: `_resolveSelectedDay` for the date remembered before the fetch
      ensures result.Some? ==>
                ResolvesTo(data.value.availableDays, old(selectedDateStr), dayTime, DayOf(data.value.selectedDay))
    {
      if result.None? {
        data := None;
        return;
      }
      var res := result.value;
      var baseLoad := BaseLoad(hasDedicatedWw, res.wwBaseLoad, res.b);
      var availableDays := ToSortedDays(DaysOf(res.datedPoints), dayTime);
      var selectedDay := ResolveSelectedDay(availableDays, selectedDateStr, dayTime);
      selectedDateStr := if selectedDay.Some? && selectedDay.value.date != "" then Some(selectedDay.value.date) else None;
      var selected := if selectedDay.Some? then Some(Selected(selectedDay.value, res.m, res.b)) else None;
      data := Some(CardData(availableDays, selected, res.linePoints, baseLoad, hasDedicatedWw,
                            res.b, res.wwBaseLoad, res.m, res.r2, res.avgEfficiency, PeriodDays(period)));
      if selectedDay.Some? {
        assert selectedDay.value in availableDays;
      }
    }
  }

  /** The scatter days of a series result: `{ date: dateStr, hdd: x, energy: y }`. */
  function DaysOf(ps: seq<DatedPoint>): (r: seq<InsightDay>)
    ensures |r| == |ps| && forall i :: 0 <= i < |ps| ==> r[i] == InsightDay(ps[i].dateStr, ps[i].x, ps[i].y)
  {
    seq(|ps|, i requires 0 <= i < |ps| => InsightDay(ps[i].dateStr, ps[i].x, ps[i].y))
  }
}
