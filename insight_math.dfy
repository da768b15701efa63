/**
  The statistics of the Insight card: the Theil–Sen baseline, the robust
  residual outlier filter, ordinary least squares, the clipped display line
  and the derived metrics ("Energieausweis" dimensioning).

  Points carry a heating-degree-day value `x` and a daily energy `y`; all
  arithmetic is over `real`.
 */
module InsightMath {
  import opened Common
  import opened Stats
  import opened LeastSquares

  /** The tolerance the source uses for "practically zero". */
  const Eps: real := 0.000000001
  /** Default fence of the outlier filter, in robust standard deviations. */
  const DefaultFence: real := 3.5
  /** Normal-consistency factor turning a MAD into a standard deviation. */
  const MadScale: real := 1.4826
  /** Below this many points the outlier filter leaves its input alone. */
  const MinFilterPoints: nat := 7
  /** Annual heating degree-days of the German standard climate. */
  const StandardAnnualHdd: real := 2800.0

  datatype RawPoint = RawPoint(x: real, y: real, dateStr: string, isYesterday: bool)
  datatype Line = Line(m: real, b: real)
  /** A point with its outlier score and whether its branch of the filter flags it. */
  datatype Scored = Scored(point: RawPoint, score: real, flagged: bool)
  datatype OutlierFilterResult = OutlierFilterResult(clean: seq<RawPoint>, removedDates: seq<string>)
  datatype Regression = Regression(m: real, b: real, r2: real)

  /** The regression as the library computes it: slope and intercept, and r² absent where it is NaN. */
  datatype WrittenRegression = WrittenRegression(m: real, b: real, r2: Option<real>)

  function Abs(x: real): real { if x < 0.0 then -x else x }

  /** The points lie exactly on y = a x + c. */
  predicate OnLine(ps: seq<RawPoint>, a: real, c: real)
  {
    forall i :: 0 <= i < |ps| ==> ps[i].y == a * ps[i].x + c
  }

  /** The energies of the dated (raw) points, in order: the regression points' energies once the dates and the yesterday flag are dropped. */
  function RawYs(ps: seq<RawPoint>): (r: seq<real>)
    ensures |r| == |ps| && forall i :: 0 <= i < |ps| ==> r[i] == ps[i].y
  {
    PointYs(seq(|ps|, i requires 0 <= i < |ps| => Point(ps[i].x, ps[i].y)))
  }

  function Dates(ps: seq<RawPoint>): (r: seq<string>)
    ensures |r| == |ps| && forall i :: 0 <= i < |ps| ==> r[i] == ps[i].dateStr
  {
    seq(|ps|, i requires 0 <= i < |ps| => ps[i].dateStr)
  }

  // ============================================================ Theil–Sen

  /** Slopes of the pairs (i, k) with i < k < j, skipping pairs whose x differ by less than Eps. */
  function RowSlopes(ps: seq<RawPoint>, i: nat, j: nat): seq<real>
    requires i < |ps| && j <= |ps|
    decreases j
  {
    if j <= i + 1 then []
    else
      var dx := ps[j - 1].x - ps[i].x;
      RowSlopes(ps, i, j - 1) + (if Abs(dx) < Eps then [] else [(ps[j - 1].y - ps[i].y) / dx])
  }

  /** Slopes of all pairs whose first index is below n, in the order of the nested loops. */
  function PairSlopes(ps: seq<RawPoint>, n: nat): seq<real>
    requires n <= |ps|
  {
    if n == 0 then [] else PairSlopes(ps, n - 1) + RowSlopes(ps, n - 1, |ps|)
  }

  function Intercepts(ps: seq<RawPoint>, m: real): (r: seq<real>)
    ensures |r| == |ps| && forall i :: 0 <= i < |ps| ==> r[i] == ps[i].y - m * ps[i].x
  {
    seq(|ps|, i requires 0 <= i < |ps| => ps[i].y - m * ps[i].x)
  }

  /** The Theil–Sen line: median pairwise slope, then median intercept; flat at the median y without usable pairs. */
  function TheilSen(ps: seq<RawPoint>): (r: Line)
    ensures |PairSlopes(ps, |ps|)| == 0 ==> r.m == 0.0 && (|ps| % 2 == 1 ==> r.b in RawYs(ps))
    ensures |PairSlopes(ps, |ps|)| % 2 == 1 ==> r.m in PairSlopes(ps, |ps|)
  {
    var slopes := PairSlopes(ps, |ps|);
    if |slopes| == 0 then Line(0.0, Median(RawYs(ps)))
    else
      var m := Median(slopes);
      Line(m, Median(Intercepts(ps, m)))
  }

  /** buildTheilSenModel: collects the pairwise slopes with two nested loops. */
  method BuildTheilSenModel(points: seq<RawPoint>) returns (line: Line)
    ensures line == TheilSen(points)
  {
    var slopes: seq<real> := [];
    var i := 0;
    while i < |points|
      invariant 0 <= i <= |points|
      invariant slopes == PairSlopes(points, i)
    {
      var j := i + 1;
      while j < |points|
        invariant i + 1 <= j <= |points|
        invariant slopes == PairSlopes(points, i) + RowSlopes(points, i, j)
      {
        var dx := points[j].x - points[i].x;
        if Abs(dx) >= Eps {
          slopes := slopes + [(points[j].y - points[i].y) / dx];
        }
        assert RowSlopes(points, i, j + 1) == RowSlopes(points, i, j) + (if Abs(dx) < Eps then [] else [(points[j].y - points[i].y) / dx]);
        j := j + 1;
      }
      assert PairSlopes(points, i + 1) == PairSlopes(points, i) + RowSlopes(points, i, |points|);
      i := i + 1;
    }
    if |slopes| == 0 {
      line := Line(0.0, Median(RawYs(points)));
    } else {
      var m := Median(slopes);
      line := Line(m, Median(Intercepts(points, m)));
    }
  }

  lemma {:induction false} RowSlopesOnLine(ps: seq<RawPoint>, a: real, c: real, i: nat, j: nat)
    requires i < |ps| && j <= |ps| && OnLine(ps, a, c)
    ensures forall k :: 0 <= k < |RowSlopes(ps, i, j)| ==> RowSlopes(ps, i, j)[k] == a
    decreases j
  {
    if j > i + 1 {
      RowSlopesOnLine(ps, a, c, i, j - 1);
      var dx := ps[j - 1].x - ps[i].x;
      if Abs(dx) >= Eps {
        assert ps[j - 1].y - ps[i].y == a * dx;
        assert (a * dx) / dx == a;
      }
    }
  }

  lemma {:induction false} PairSlopesOnLine(ps: seq<RawPoint>, a: real, c: real, n: nat)
    requires n <= |ps| && OnLine(ps, a, c)
    ensures forall k :: 0 <= k < |PairSlopes(ps, n)| ==> PairSlopes(ps, n)[k] == a
  {
    if n > 0 {
      PairSlopesOnLine(ps, a, c, n - 1);
      RowSlopesOnLine(ps, a, c, n - 1, |ps|);
    }
  }

  lemma {:induction false} RowSlopesNonEmpty(ps: seq<RawPoint>, i: nat, j: nat, k: nat)
    requires i < k < j <= |ps| && Abs(ps[k].x - ps[i].x) >= Eps
    ensures |RowSlopes(ps, i, j)| > 0
    decreases j
  {
    if k < j - 1 {
      RowSlopesNonEmpty(ps, i, j - 1, k);
    }
  }

  lemma {:induction false} PairSlopesNonEmpty(ps: seq<RawPoint>, n: nat, i: nat, k: nat)
    requires i < n <= |ps| && i < k < |ps| && Abs(ps[k].x - ps[i].x) >= Eps
    ensures |PairSlopes(ps, n)| > 0
  {
    if i == n - 1 {
      RowSlopesNonEmpty(ps, i, |ps|, k);
    } else {
      PairSlopesNonEmpty(ps, n - 1, i, k);
    }
  }

  /** Two points whose x differ by at least Eps give the estimator a slope to work with. */
  predicate HasSpread(ps: seq<RawPoint>)
  {
    exists i, k :: 0 <= i < k < |ps| && Abs(ps[k].x - ps[i].x) >= Eps
  }

  /** Theil–Sen recovers a line that fits the points exactly. */
  lemma TheilSenRecoversLine(ps: seq<RawPoint>, a: real, c: real)
    requires OnLine(ps, a, c) && HasSpread(ps)
    ensures TheilSen(ps) == Line(a, c)
  {
    var i, k :| 0 <= i < k < |ps| && Abs(ps[k].x - ps[i].x) >= Eps;
    PairSlopesNonEmpty(ps, |ps|, i, k);
    PairSlopesOnLine(ps, a, c, |ps|);
    var slopes := PairSlopes(ps, |ps|);
    MedianOfConstant(slopes, a);
    MedianOfConstant(Intercepts(ps, a), c);
  }

  // ===================================================== outlier filter

  function Residuals(ps: seq<RawPoint>, line: Line): (r: seq<real>)
    ensures |r| == |ps|
    ensures forall i :: 0 <= i < |ps| ==> r[i] == ps[i].y - (line.m * ps[i].x + line.b)
  {
    seq(|ps|, i requires 0 <= i < |ps| => ps[i].y - (line.m * ps[i].x + line.b))
  }

  function AbsDeviations(values: seq<real>, center: real): (r: seq<real>)
    ensures |r| == |values|
    ensures forall i :: 0 <= i < |values| ==> r[i] == Abs(values[i] - center)
  {
    seq(|values|, i requires 0 <= i < |values| => Abs(values[i] - center))
  }

  /** The robust sigma: 1.4826 times the MAD of the residuals, or 0 when the MAD collapses. */
  function Sigma(res: seq<real>): (r: real)
    ensures r >= 0.0
    ensures r == 0.0 || r > MadScale * Eps
  {
    var mad := Median(AbsDeviations(res, Median(res)));
    if mad > Eps then MadScale * mad else 0.0
  }

  /** Half-width of the interquartile fence used when sigma collapses. */
  function IqrDelta(res: seq<real>, fence: real): (r: real)
    requires |res| > 0
    ensures fence > 0.0 ==> r > 0.0
  {
    FenceWidth(fence, Iqr(SortReals(res)))
  }

  /** `fenceFactor * iqr` when the IQR exceeds 1e-9, else 1e-9. */
  function FenceWidth(fence: real, iqr: real): (r: real)
    ensures fence > 0.0 ==> r > 0.0
  {
    if iqr > Eps then
      ScaledPositive(fence, iqr);
      fence * iqr
    else Eps
  }

  /** `q3 - q1` of a sorted list: never negative. */
  function Iqr(sorted: seq<real>): (r: real)
    requires |sorted| > 0
    requires forall i, j :: 0 <= i < j < |sorted| ==> sorted[i] <= sorted[j]
    ensures r >= 0.0
  {
    QuartilesOrdered(sorted);
    QuantileSorted(sorted, 0.75) - QuantileSorted(sorted, 0.25)
  }

  lemma ScaledPositive(a: real, b: real)
    requires b > 0.0
    ensures a > 0.0 ==> a * b > 0.0
  {
  }

  /**
    Scores every point against `line`: the MAD z-score, flagged above the
    fence, or, when sigma collapses, the absolute residual distance, flagged
    outside median ± delta.
   */
  function ScorePoints(ps: seq<RawPoint>, line: Line, fence: real): (r: seq<Scored>)
    requires |ps| > 0
    ensures |r| == |ps| && forall i :: 0 <= i < |ps| ==> r[i].point == ps[i]
  {
    var res := Residuals(ps, line);
    var rm := Median(res);
    var sigma := Sigma(res);
    if sigma > Eps then ZScores(ps, res, rm, sigma, fence)
    else DistanceScores(ps, res, rm, IqrDelta(res, fence))
  }

  /** Every point with its MAD z-score. */
  function ZScores(ps: seq<RawPoint>, res: seq<real>, rm: real, sigma: real, fence: real): (r: seq<Scored>)
    requires |res| == |ps| && sigma > 0.0
    ensures |r| == |ps| && forall i :: 0 <= i < |ps| ==> r[i] == ZScored(ps[i], res[i], rm, sigma, fence)
  {
    seq(|ps|, i requires 0 <= i < |ps| => ZScored(ps[i], res[i], rm, sigma, fence))
  }

  /** Every point with its distance from the median residual. */
  function DistanceScores(ps: seq<RawPoint>, res: seq<real>, rm: real, delta: real): (r: seq<Scored>)
    requires |res| == |ps|
    ensures |r| == |ps| && forall i :: 0 <= i < |ps| ==> r[i] == DistanceScored(ps[i], res[i], rm, delta)
  {
    seq(|ps|, i requires 0 <= i < |ps| => DistanceScored(ps[i], res[i], rm, delta))
  }

  /** The MAD z-score of one residual, flagged above the fence. */
  function ZScored(p: RawPoint, res: real, rm: real, sigma: real, fence: real): (s: Scored)
    requires sigma > 0.0
    ensures s.point == p && s.score >= 0.0 && (s.flagged <==> s.score > fence)
  {
    var score := Abs((res - rm) / sigma);
    Scored(p, score, score > fence)
  }

  /** The distance of one residual from the median, flagged outside median ± delta. */
  function DistanceScored(p: RawPoint, res: real, rm: real, delta: real): (s: Scored)
    ensures s.point == p && s.score >= 0.0
    ensures s.flagged <==> res < rm - delta || res > rm + delta
  {
    Scored(p, Abs(res - rm), res < rm - delta || res > rm + delta)
  }

  /** A point may be removed only if it is flagged and is not the protected yesterday point. */
  function IsCandidate(s: Scored): bool { !s.point.isYesterday && s.flagged }

  function NegScore(s: Scored): real { -s.score }

  /** Removal candidates, highest score first (stable on ties). */
  function Candidates(ps: seq<RawPoint>, line: Line, fence: real): seq<Scored>
    requires |ps| > 0
  {
    SortBy(Keep(ScorePoints(ps, line, fence), IsCandidate), NegScore)
  }

  /** `Math.max(1, Math.floor(n * 0.2))`; the double 0.2 never makes the floor fall below n / 5. */
  function MaxRemovals(n: nat): nat
  {
    if n / 5 > 1 then n / 5 else 1
  }

  /** `candidates.slice(0, k).map(c => c.point.dateStr)`. */
  function TakeDates(c: seq<Scored>, k: nat): (r: seq<string>)
    ensures |r| == if k < |c| then k else |c|
    ensures forall i :: 0 <= i < |r| ==> r[i] == c[i].point.dateStr
  {
    var take := if k < |c| then c[..k] else c;
    seq(|take|, i requires 0 <= i < |take| => take[i].point.dateStr)
  }

  /** `points.filter(p => !removed.has(p.dateStr))`. */
  function WithoutDates(ps: seq<RawPoint>, removed: set<string>): (r: seq<RawPoint>)
    ensures |r| <= |ps|
    ensures forall p :: p in r <==> p in ps && p.dateStr !in removed
  {
    if |ps| == 0 then []
    else
      var rest := WithoutDates(ps[..|ps| - 1], removed);
      assert forall p :: p in ps <==> p in ps[..|ps| - 1] || p == ps[|ps| - 1];
      if ps[|ps| - 1].dateStr in removed then rest else rest + [ps[|ps| - 1]]
  }

  lemma {:induction false} WithoutNoDates(ps: seq<RawPoint>)
    ensures WithoutDates(ps, {}) == ps
  {
    if |ps| > 0 {
      WithoutNoDates(ps[..|ps| - 1]);
      assert ps == ps[..|ps| - 1] + [ps[|ps| - 1]];
    }
  }

  /** Every candidate is a flagged input point other than the yesterday point. */
  lemma CandidateOrigin(ps: seq<RawPoint>, line: Line, fence: real, k: nat)
    requires |ps| > 0 && k < |Candidates(ps, line, fence)|
    ensures exists i :: 0 <= i < |ps| && Candidates(ps, line, fence)[k].point == ps[i] && !ps[i].isYesterday
  {
    var scored := ScorePoints(ps, line, fence);
    var kept := Keep(scored, IsCandidate);
    var c := Candidates(ps, line, fence);
    assert c[k] in multiset(c);
    assert c[k] in kept;
    var i :| 0 <= i < |scored| && scored[i] == c[k];
  }

  /** Every date taken from the candidates is that of an input point other than the yesterday point. */
  lemma TakenOrigin(ps: seq<RawPoint>, line: Line, fence: real, count: nat)
    requires |ps| > 0
    ensures forall d :: d in TakeDates(Candidates(ps, line, fence), count) ==>
              exists i :: 0 <= i < |ps| && ps[i].dateStr == d && !ps[i].isYesterday
  {
    var taken := TakeDates(Candidates(ps, line, fence), count);
    forall d | d in taken
      ensures exists i :: 0 <= i < |ps| && ps[i].dateStr == d && !ps[i].isYesterday
    {
      var k :| 0 <= k < |taken| && taken[k] == d;
      CandidateOrigin(ps, line, fence, k);
    }
  }

  /** filterOutliersByResidual, as a specification on values. */
  function FilterOutliers(ps: seq<RawPoint>, fence: real): (r: OutlierFilterResult)
    ensures |ps| < MinFilterPoints ==> r == OutlierFilterResult(ps, [])
    ensures |r.removedDates| <= MaxRemovals(|ps|)
    ensures Distinct(r.removedDates)
    ensures r.clean == WithoutDates(ps, set d | d in r.removedDates)
    ensures forall d :: d in r.removedDates ==>
              exists i :: 0 <= i < |ps| && ps[i].dateStr == d && !ps[i].isYesterday
  {
    if |ps| < MinFilterPoints then
      WithoutNoDates(ps);
      assert (set d: string | d in []) == {};
      OutlierFilterResult(ps, [])
    else
      var cands := Candidates(ps, TheilSen(ps), fence);
      var taken := TakeDates(cands, MaxRemovals(|ps|));
      var removedDates := Dedup(taken);
      TakenOrigin(ps, TheilSen(ps), fence, MaxRemovals(|ps|));
      OutlierFilterResult(WithoutDates(ps, set d | d in removedDates), removedDates)
  }


  /** filterOutliersByResidual: builds the set of removed dates in candidate order. */
  method FilterOutliersByResidual(points: seq<RawPoint>, fence: real) returns (result: OutlierFilterResult)
    ensures result == FilterOutliers(points, fence)
  {
    if |points| < MinFilterPoints {
      return OutlierFilterResult(points, []);
    }
    var robust := BuildTheilSenModel(points);
    var candidates := Candidates(points, robust, fence);
    var maxRemovals := MaxRemovals(|points|);
    var removed, removedDates := NewSet(TakeDates(candidates, maxRemovals));
    FilterOutliersTaken(points, fence);
    result := OutlierFilterResult(WithoutDates(points, removed), removedDates);
  }

  /** `new Set(dates)`: the set, and its values in insertion order (`Array.from(removed.values())`). */
  method NewSet(dates: seq<string>) returns (removed: set<string>, order: seq<string>)
    ensures order == Dedup(dates)
    ensures removed == set d | d in order
  {
    removed, order := {}, [];
    for i := 0 to |dates|
      invariant order == Dedup(dates[..i])
      invariant forall d :: d in removed <==> d in order
    {
      var d := dates[i];
      assert dates[..i + 1] == dates[..i] + [d];
      DedupSnoc(dates[..i], d);
      if d !in removed {
        removed := removed + {d};
        order := order + [d];
      }
    }
    assert dates[..|dates|] == dates;
  }

  /** With enough points, the filter removes the distinct dates of the first candidates. */
  lemma FilterOutliersTaken(ps: seq<RawPoint>, fence: real)
    requires |ps| >= MinFilterPoints
    ensures var removedDates := Dedup(TakeDates(Candidates(ps, TheilSen(ps), fence), MaxRemovals(|ps|)));
            FilterOutliers(ps, fence) == OutlierFilterResult(WithoutDates(ps, set d | d in removedDates), removedDates)
  {
  }

  /** The yesterday point is never removed when its date is its own. */
  lemma FilterKeepsYesterday(ps: seq<RawPoint>, fence: real, k: nat)
    requires k < |ps| && ps[k].isYesterday
    requires forall j :: 0 <= j < |ps| && j != k ==> ps[j].dateStr != ps[k].dateStr
    ensures ps[k].dateStr !in FilterOutliers(ps, fence).removedDates
    ensures ps[k] in FilterOutliers(ps, fence).clean
  {
  }

  /** The set of dates of the points. */
  function DateSet(ps: seq<RawPoint>): (r: set<string>)
    ensures forall d :: d in r <==> exists i :: 0 <= i < |ps| && ps[i].dateStr == d
  {
    if |ps| == 0 then {}
    else
      var init := ps[..|ps| - 1];
      var rest := DateSet(init);
      assert forall i :: 0 <= i < |init| ==> init[i] == ps[i];
      rest + {ps[|ps| - 1].dateStr}
  }

  /** With distinct dates, the last point's date does not occur earlier. */
  lemma LastDateFresh(ps: seq<RawPoint>)
    requires |ps| > 0 && Distinct(Dates(ps))
    ensures ps[|ps| - 1].dateStr !in DateSet(ps[..|ps| - 1])
  {
    assert Dates(ps[..|ps| - 1]) == Dates(ps)[..|ps| - 1];
  }

  lemma {:induction false} WithoutDatesCount(ps: seq<RawPoint>, removed: set<string>)
    requires Distinct(Dates(ps))
    ensures |WithoutDates(ps, removed)| + |removed * DateSet(ps)| == |ps|
  {
    if |ps| > 0 {
      var init := ps[..|ps| - 1];
      assert Dates(init) == Dates(ps)[..|ps| - 1];
      WithoutDatesCount(init, removed);
      LastDateFresh(ps);
      assert DateSet(ps) == DateSet(init) + {ps[|ps| - 1].dateStr};
      CountFreshDate(removed, DateSet(init), ps[|ps| - 1].dateStr);
    }
  }

  /** Adding a fresh date adds one removed date exactly when it is removed. */
  lemma CountFreshDate(removed: set<string>, dates: set<string>, d: string)
    requires d !in dates
    ensures |removed * (dates + {d})| == |removed * dates| + (if d in removed then 1 else 0)
  {
    if d in removed {
      assert removed * (dates + {d}) == removed * dates + {d};
    } else {
      assert removed * (dates + {d}) == removed * dates;
    }
  }

  /** With distinct dates, clean and removed partition the input: their sizes add up. */
  /** Removing a repeat-free list of dates that all occur drops exactly that many points. */
  lemma PartitionCount(ps: seq<RawPoint>, removedDates: seq<string>)
    requires Distinct(Dates(ps)) && Distinct(removedDates)
    requires forall d :: d in removedDates ==> d in DateSet(ps)
    ensures |WithoutDates(ps, set d | d in removedDates)| + |removedDates| == |ps|
  {
    var removed := set d | d in removedDates;
    WithoutDatesCount(ps, removed);
    assert removed * DateSet(ps) == removed;
    DistinctCard(removedDates);
  }

  lemma FilterPartitionCount(ps: seq<RawPoint>, fence: real)
    requires Distinct(Dates(ps))
    ensures |FilterOutliers(ps, fence).clean| + |FilterOutliers(ps, fence).removedDates| == |ps|
  {
    var r := FilterOutliers(ps, fence);
    forall d | d in r.removedDates
      ensures d in DateSet(ps)
    {
      var i :| 0 <= i < |ps| && ps[i].dateStr == d && !ps[i].isYesterday;
    }
    PartitionCount(ps, r.removedDates);
  }

  /** On seven or more points that lie exactly on a line, the filter removes nothing. */
  lemma FilterKeepsExactLine(ps: seq<RawPoint>, a: real, c: real, fence: real)
    requires |ps| >= MinFilterPoints && OnLine(ps, a, c) && HasSpread(ps)
    ensures FilterOutliers(ps, fence) == OutlierFilterResult(ps, [])
  {
    TheilSenRecoversLine(ps, a, c);
    ZeroResidualsUnflagged(ps, Line(a, c), fence);
    NoCandidates(ps, Line(a, c), fence);
    var taken := TakeDates(Candidates(ps, TheilSen(ps), fence), MaxRemovals(|ps|));
    assert taken == [];
    assert Dedup(taken) == [];
    WithoutNoDates(ps);
    assert (set d: string | d in Dedup(taken)) == {};
  }

  /** When every residual is zero, sigma collapses, the fence is ±Eps and no point is flagged. */
  lemma ZeroResidualsUnflagged(ps: seq<RawPoint>, line: Line, fence: real)
    requires |ps| > 0 && OnLine(ps, line.m, line.b)
    ensures forall i :: 0 <= i < |ps| ==> !ScorePoints(ps, line, fence)[i].flagged
  {
    var res := Residuals(ps, line);
    MedianOfConstant(res, 0.0);
    MedianOfConstant(AbsDeviations(res, 0.0), 0.0);
    assert Sigma(res) == 0.0;
    var sorted := SortReals(res);
    forall i | 0 <= i < |sorted|
      ensures sorted[i] == 0.0
    {
      SortedElementIn(res, i);
    }
    assert IqrDelta(res, fence) == Eps;
  }

  /** With no point flagged there is no removal candidate. */
  lemma NoCandidates(ps: seq<RawPoint>, line: Line, fence: real)
    requires |ps| > 0 && forall i :: 0 <= i < |ps| ==> !ScorePoints(ps, line, fence)[i].flagged
    ensures Candidates(ps, line, fence) == []
  {
    var scored := ScorePoints(ps, line, fence);
    assert forall s :: s in scored ==> !IsCandidate(s);
  }

  /** `linearRegression`'s slope CrossXY / CrossXX and intercept Σy/n − m Σx/n. */
  function Slope(cxy: real, cxx: real): real
    requires cxx != 0.0
  {
    cxy / cxx
  }

  function Intercept(sy: real, sx: real, n: real, m: real): real
    requires n != 0.0
  {
    sy / n - m * sx / n
  }

  /** The squared sample correlation, CrossXY² / (CrossXX · CrossYY). */
  function Correlation2(sxx: real, syy: real, sxy: real): real
    requires sxx != 0.0 && syy != 0.0
  {
    (sxy * sxy) / (sxx * syy)
  }

  /** Cauchy–Schwarz on non-degenerate centred sums puts the squared correlation in [0, 1]. */
  lemma Correlation2Bounds(sxx: real, syy: real, sxy: real)
    requires sxx > 0.0 && syy > 0.0
    requires CauchySchwarz(sxx, syy, sxy)
    ensures 0.0 <= Correlation2(sxx, syy, sxy) <= 1.0
  {
    assert sxx * syy > 0.0;
    SquareNonNegative(sxy);
  }

  /**
    computeRegression, as intended: zero for fewer than two points; least
    squares otherwise, with slope 0 through the mean y (and r² = 0) when
    every x is equal, and r² = 0 when every y is equal.
   */
  function Ols(ps: seq<Point>): (r: Regression)
    ensures |ps| < 2 ==> r == Regression(0.0, 0.0, 0.0)
    ensures 0.0 <= r.r2 <= 1.0
  {
    if |ps| < 2 then Regression(0.0, 0.0, 0.0)
    else if CrossXX(ps) == 0.0 then Regression(0.0, SY(ps) / (|ps| as real), 0.0)
    else
      var m := Slope(CrossXY(ps), CrossXX(ps));
      var b := Intercept(SY(ps), SX(ps), |ps| as real, m);
      if CrossYY(ps) == 0.0 then Regression(m, b, 0.0)
      else
        CrossNonNegative(ps);
        CrossCauchySchwarz(ps);
        Correlation2Bounds(CrossXX(ps), CrossYY(ps), CrossXY(ps));
        Regression(m, b, Correlation2(CrossXX(ps), CrossYY(ps), CrossXY(ps)))
  }

  /**
    computeRegression as written: `linearRegression` divides by CrossXX, so
    an equal-x input makes slope, intercept and r² NaN (None here);
    `sampleCorrelation` divides by the standard deviations, so an equal-y
    input keeps the line but makes r² NaN.
   */
  function OlsAsWritten(ps: seq<Point>): Option<WrittenRegression>
  {
    if |ps| < 2 then Some(WrittenRegression(0.0, 0.0, Some(0.0)))
    else if CrossXX(ps) == 0.0 then None
    else
      var m := Slope(CrossXY(ps), CrossXX(ps));
      var b := Intercept(SY(ps), SX(ps), |ps| as real, m);
      if CrossYY(ps) == 0.0 then Some(WrittenRegression(m, b, None))
      else Some(WrittenRegression(m, b, Some(Correlation2(CrossXX(ps), CrossYY(ps), CrossXY(ps)))))
  }

  /**
    Two days that both lie at or above the heating limit (x = 0) make the
    written regression NaN; two days with equal energy make only its r² NaN.
   */
  lemma OlsAsWrittenNaN()
    ensures OlsAsWritten([Point(0.0, 1.0), Point(0.0, 2.0)]) == None
    ensures Ols([Point(0.0, 1.0), Point(0.0, 2.0)]) == Regression(0.0, 1.5, 0.0)
    ensures OlsAsWritten([Point(0.0, 1.0), Point(1.0, 1.0)]) == Some(WrittenRegression(0.0, 1.0, None))
    ensures Ols([Point(0.0, 1.0), Point(1.0, 1.0)]) == Regression(0.0, 1.0, 0.0)
  {
    FlatHddExample();
    FlatEnergyExample([Point(0.0, 1.0), Point(1.0, 1.0)]);
  }

  /** Equal x: the written regression is NaN, the corrected one flat through the mean y. */
  lemma FlatHddExample()
    ensures OlsAsWritten([Point(0.0, 1.0), Point(0.0, 2.0)]) == None
    ensures Ols([Point(0.0, 1.0), Point(0.0, 2.0)]) == Regression(0.0, 1.5, 0.0)
  {
    var ps := [Point(0.0, 1.0), Point(0.0, 2.0)];
    FlatHddSums(ps);
    assert Ols(ps) == Regression(0.0, SY(ps) / (|ps| as real), 0.0);
    assert SY(ps) / (|ps| as real) == 3.0 / 2.0;
  }

  /** Equal y: the written regression keeps the flat line but its r² is NaN; the corrected r² is 0. */
  lemma FlatEnergyExample(qs: seq<Point>)
    requires qs == [Point(0.0, 1.0), Point(1.0, 1.0)]
    ensures OlsAsWritten(qs) == Some(WrittenRegression(0.0, 1.0, None))
    ensures Ols(qs) == Regression(0.0, 1.0, 0.0)
  {
    FlatEnergySums(qs);
    var m := Slope(CrossXY(qs), CrossXX(qs));
    assert m == 0.0;
    assert Intercept(SY(qs), SX(qs), |qs| as real, m) == 1.0;
  }

  /** The sums of the points (0, 1), (0, 2). */
  lemma FlatHddSums(ps: seq<Point>)
    requires ps == [Point(0.0, 1.0), Point(0.0, 2.0)]
    ensures |ps| == 2 && SY(ps) == 3.0 && CrossXX(ps) == 0.0
  {
    assert ps[..1] == [Point(0.0, 1.0)];
    assert [Point(0.0, 1.0)][..0] == [];
    assert SX(ps) == 0.0 && SXX(ps) == 0.0;
  }

  /** The sums of the points (0, 1), (1, 1). */
  lemma FlatEnergySums(ps: seq<Point>)
    requires ps == [Point(0.0, 1.0), Point(1.0, 1.0)]
    ensures |ps| == 2 && SX(ps) == 1.0 && SY(ps) == 2.0
    ensures CrossXX(ps) == 1.0 && CrossXY(ps) == 0.0 && CrossYY(ps) == 0.0
  {
    assert ps[..1] == [Point(0.0, 1.0)];
    assert [Point(0.0, 1.0)][..0] == [];
    assert SX(ps) == 1.0 && SXX(ps) == 1.0 && SY(ps) == 2.0 && SXY(ps) == 1.0 && SYY(ps) == 2.0;
  }

  /**
    Where the written regression is defined, the corrected one has the same
    line, the same r² where that is a number, and r² = 0 where it is NaN.
   */
  lemma OlsAgreesWhereDefined(ps: seq<Point>)
    requires OlsAsWritten(ps).Some?
    ensures Ols(ps).m == OlsAsWritten(ps).value.m && Ols(ps).b == OlsAsWritten(ps).value.b
    ensures OlsAsWritten(ps).value.r2.Some? ==> Ols(ps).r2 == OlsAsWritten(ps).value.r2.value
    ensures OlsAsWritten(ps).value.r2.None? ==> Ols(ps).r2 == 0.0
  {
  }

  /** The intercept Σy/n − m Σx/n puts the line through the centroid. */
  lemma InterceptThroughCentroid(sy: real, sx: real, n: real, m: real)
    requires n > 0.0
    ensures ThroughCentroid(n, Intercept(sy, sx, n, m), sy, sx, m)
  {
    assert n * (sy / n) == sy;
    assert n * (m * sx / n) == m * sx;
  }

  /**
    With x spread the regression line is the least-squares line: no line
    y = k x + c has a smaller sum of squared errors.
   */
  lemma OlsLeastSquares(ps: seq<Point>, k: real, c: real)
    requires |ps| >= 2 && CrossXX(ps) != 0.0
    ensures Sse(ps, Ols(ps).m, Ols(ps).b) <= Sse(ps, k, c)
  {
    var r := Ols(ps);
    var n := |ps| as real;
    assert r.m == Slope(CrossXY(ps), CrossXX(ps)) && r.b == Intercept(SY(ps), SX(ps), n, r.m);
    assert r.m * CrossXX(ps) == CrossXY(ps);
    CrossNonNegative(ps);
    InterceptThroughCentroid(SY(ps), SX(ps), n, r.m);
    CrossUnfold(ps);
    SseExpansion(ps, r.m, r.b);
    SseExpansion(ps, k, c);
    CentroidLineMinimal(SYY(ps), SXY(ps), SY(ps), SXX(ps), SX(ps), n, r.m, r.b, k, c, CrossXX(ps), CrossXY(ps));
  }

  /** The slope and intercept of a line, recovered from its line-form sums. */
  lemma LineFormSlope(sy: real, sxy: real, syy: real, sxx: real, sx: real, n: real, a: real, c: real,
                      cyy: real, cxy: real, cxx: real)
    requires cxx != 0.0
    requires LineForm(sy, sxy, syy, sxx, sx, n, a, c)
    requires CrossOf(cyy, cxy, cxx, n, syy, sxy, sxx, sy, sx)
    ensures Slope(cxy, cxx) == a
    ensures ScaledCross(cyy, cxy, cxx, a)
  {
    assert cxy == a * cxx;
    assert (a * cxx) / cxx == a;
  }

  lemma LineFormIntercept(sy: real, sxy: real, syy: real, sxx: real, sx: real, n: real, a: real, c: real)
    requires n > 0.0
    requires LineForm(sy, sxy, syy, sxx, sx, n, a, c)
    ensures Intercept(sy, sx, n, a) == c
  {
    assert sy / n - a * sx / n == (sy - a * sx) / n;
  }

  /** The centred sums of points on a line with slope a: CrossXY = a CrossXX and CrossYY = a² CrossXX. */
  predicate ScaledCross(cyy: real, cxy: real, cxx: real, a: real)
  {
    cxy == a * cxx && cyy == a * a * cxx
  }

  lemma LineFormCorrelation(a: real, cyy: real, cxy: real, cxx: real)
    requires cxx != 0.0 && a != 0.0
    requires ScaledCross(cyy, cxy, cxx, a)
    ensures cyy != 0.0 && Correlation2(cxx, cyy, cxy) == 1.0
  {
    assert a * a > 0.0;
    assert cyy != 0.0;
    assert cxy * cxy == (a * cxx) * (a * cxx);
    assert cxx * cyy == cxx * (a * a * cxx);
    assert (a * cxx) * (a * cxx) == cxx * (a * a * cxx);
    assert cxx * cyy != 0.0;
    assert cxy * cxy == cxx * cyy;
    assert (cxy * cxy) / (cxx * cyy) == 1.0;
  }

  /** Least squares recovers a line the points fit exactly, with r² = 1 unless the line is flat. */
  lemma OlsRecoversLine(ps: seq<Point>, a: real, c: real)
    requires |ps| >= 2 && CrossXX(ps) != 0.0
    requires forall i :: 0 <= i < |ps| ==> ps[i].y == a * ps[i].x + c
    ensures Ols(ps).m == a && Ols(ps).b == c
    ensures a != 0.0 ==> Ols(ps).r2 == 1.0
  {
    LineSums(ps, a, c);
    CrossUnfold(ps);
    LineFormSlope(SY(ps), SXY(ps), SYY(ps), SXX(ps), SX(ps), |ps| as real, a, c, CrossYY(ps), CrossXY(ps), CrossXX(ps));
    LineFormIntercept(SY(ps), SXY(ps), SYY(ps), SXX(ps), SX(ps), |ps| as real, a, c);
    if a != 0.0 {
      LineFormCorrelation(a, CrossYY(ps), CrossXY(ps), CrossXX(ps));
    }
  }

  // ======================================================== display line

  /**
    clipRegressionLine: the start is x = 0 when b >= 0, else the x-intercept
    (or 0 for a flat line); its y is clipped at 0; the end is the line at maxHdd.
   */
  function ClipRegressionLine(m: real, b: real, maxHdd: real): (line: seq<Point>)
    ensures |line| == 2
    ensures b >= 0.0 ==> line[0] == Point(0.0, b)
    ensures b < 0.0 && m != 0.0 ==> line[0] == Point(-b / m, 0.0)
    ensures line[0].y >= 0.0
    ensures b >= 0.0 || m != 0.0 ==> line[0].y == m * line[0].x + b
    ensures line[1] == Point(maxHdd, m * maxHdd + b)
  {
    var startX := if b >= 0.0 then 0.0 else if m != 0.0 then -b / m else 0.0;
    assert b < 0.0 && m != 0.0 ==> m * startX + b == 0.0;
    var startY := m * startX + b;
    [Point(startX, if startY > 0.0 then startY else 0.0), Point(maxHdd, m * maxHdd + b)]
  }

  // ============================================================= metrics

  /** Annual heating electricity projected from the slope over the standard 2800 HDD. */
  function AnnualHeatingProjection(m: real): (r: real)
    ensures r == StandardAnnualHdd * m
  {
    m * 2800.0
  }

  function Positive(v: real): bool { v > 0.0 }

  /** computeWwBaseLoad: the mean of the strictly positive daily values, 0 if there are none. */
  function WwBaseLoad(values: seq<real>): (r: real)
    ensures r >= 0.0
    ensures r > 0.0 <==> exists i :: 0 <= i < |values| && values[i] > 0.0
  {
    var positive := Keep(values, Positive);
    if |positive| > 0 then
      assert Mean(positive) > 0.0 by {
        PositiveSum(positive);
      }
      Mean(positive)
    else
      assert forall i :: 0 <= i < |values| ==> values[i] <= 0.0 by {
        forall i | 0 <= i < |values| ensures values[i] <= 0.0 {
          assert values[i] in values;
        }
      }
      0.0
  }

  lemma {:induction false} PositiveSum(s: seq<real>)
    requires |s| > 0 && forall i :: 0 <= i < |s| ==> Positive(s[i])
    ensures Sum(s) > 0.0
  {
    if |s| > 1 {
      PositiveSum(s[..|s| - 1]);
    }
  }

  /** The base load lies between any bounds of the positive values. */
  lemma WwBaseLoadBounds(values: seq<real>, lo: real, hi: real)
    requires exists i :: 0 <= i < |values| && values[i] > 0.0
    requires forall i :: 0 <= i < |values| && values[i] > 0.0 ==> lo <= values[i] <= hi
    ensures lo <= WwBaseLoad(values) <= hi
  {
    var positive := Keep(values, Positive);
    var i :| 0 <= i < |values| && values[i] > 0.0;
    assert values[i] in positive;
    forall k | 0 <= k < |positive| ensures lo <= positive[k] <= hi {
      assert positive[k] in values;
    }
    MeanBounds(positive, lo, hi);
  }

  /** A non-positive day (no data) does not change the base load. */
  lemma WwBaseLoadIgnoresNonPositive(values: seq<real>, v: real)
    requires v <= 0.0
    ensures WwBaseLoad(values + [v]) == WwBaseLoad(values)
  {
    KeepAppend(values, [v], Positive);
    assert Keep([v], Positive) == [] by {
      assert [v][..0] == [];
    }
    assert Keep(values, Positive) + [] == Keep(values, Positive);
  }

  function HeatingDay(p: Point): bool { p.x > 0.0 }

  /** computeAvgEfficiency: Σy / Σx over the points with x > 0, 0 when that Σx is not positive. */
  function AvgEfficiency(ps: seq<Point>): (r: real)
    ensures (forall i :: 0 <= i < |ps| ==> ps[i].x <= 0.0) ==> r == 0.0
  {
    var valid := Keep(ps, HeatingDay);
    var totalHdd := SX(valid);
    if totalHdd > 0.0 then SY(valid) / totalHdd
    else
      0.0
  }

  /** Where heating-day energy is proportional to HDD, the efficiency is the proportionality factor. */
  lemma AvgEfficiencyOfProportional(ps: seq<Point>, a: real)
    requires exists i :: 0 <= i < |ps| && ps[i].x > 0.0
    requires forall i :: 0 <= i < |ps| && ps[i].x > 0.0 ==> ps[i].y == a * ps[i].x
    ensures AvgEfficiency(ps) == a
  {
    var valid := Keep(ps, HeatingDay);
    var i :| 0 <= i < |ps| && ps[i].x > 0.0;
    assert ps[i] in valid;
    forall k | 0 <= k < |valid| ensures ProportionalAt(valid[k], a) {
      assert valid[k] in ps;
    }
    ProportionalSums(valid, a);
    ProportionalQuotient(SY(valid), SX(valid), a);
  }

  /** The point is a heating day whose energy is a times its HDD. */
  predicate ProportionalAt(p: Point, a: real)
  {
    p.x > 0.0 && p.y == a * p.x
  }

  /** sy = a sx with sx > 0. */
  predicate Proportional(sy: real, sx: real, a: real)
  {
    sx > 0.0 && sy == a * sx
  }

  lemma ProportionalStep(sy: real, sx: real, x: real, y: real, a: real)
    requires Proportional(sy, sx, a) || (sx == 0.0 && sy == 0.0)
    requires x > 0.0 && y == a * x
    ensures Proportional(sy + y, sx + x, a)
  {
  }

  lemma ProportionalQuotient(sy: real, sx: real, a: real)
    requires Proportional(sy, sx, a)
    ensures sy / sx == a
  {
  }

  lemma {:induction false} ProportionalSums(ps: seq<Point>, a: real)
    requires |ps| > 0
    requires forall k :: 0 <= k < |ps| ==> ProportionalAt(ps[k], a)
    ensures Proportional(SY(ps), SX(ps), a)
  {
    if |ps| > 1 {
      ProportionalSums(ps[..|ps| - 1], a);
    }
    assert ProportionalAt(ps[|ps| - 1], a);
    ProportionalStep(SY(ps[..|ps| - 1]), SX(ps[..|ps| - 1]), ps[|ps| - 1].x, ps[|ps| - 1].y, a);
  }

  /** A day without heating (x <= 0) does not change the efficiency. */
  lemma AvgEfficiencyIgnoresNonHeating(ps: seq<Point>, p: Point)
    requires p.x <= 0.0
    ensures AvgEfficiency(ps + [p]) == AvgEfficiency(ps)
  {
    KeepAppend(ps, [p], HeatingDay);
    assert Keep([p], HeatingDay) == [] by {
      assert [p][..0] == [];
    }
    assert Keep(ps, HeatingDay) + [] == Keep(ps, HeatingDay);
  }

  /** The energies of the regression points, in order. */
  function PointYs(ps: seq<Point>): (r: seq<real>)
    ensures |r| == |ps| && forall i :: 0 <= i < |ps| ==> r[i] == ps[i].y
  {
    seq(|ps|, i requires 0 <= i < |ps| => ps[i].y)
  }

  /** computeAvgHeatingPower: the mean daily energy of heating days, in kW (divided by 24 h); 0 without heating days. */
  function AvgHeatingPower(ps: seq<Point>): (r: real)
    ensures (forall i :: 0 <= i < |ps| ==> ps[i].x <= 0.0) ==> r == 0.0
  {
    var heating := Keep(ps, HeatingDay);
    if |heating| > 0 then Mean(PointYs(heating)) / 24.0
    else
      0.0
  }

  /** The average power lies between the bounds of the heating days' energies, divided by 24 h. */
  lemma AvgHeatingPowerBounds(ps: seq<Point>, lo: real, hi: real)
    requires exists i :: 0 <= i < |ps| && ps[i].x > 0.0
    requires forall i :: 0 <= i < |ps| && ps[i].x > 0.0 ==> lo <= ps[i].y <= hi
    ensures lo / 24.0 <= AvgHeatingPower(ps) <= hi / 24.0
  {
    var heating := Keep(ps, HeatingDay);
    var i :| 0 <= i < |ps| && ps[i].x > 0.0;
    assert ps[i] in heating;
    var ys := PointYs(heating);
    forall k | 0 <= k < |ys| ensures lo <= ys[k] <= hi {
      assert heating[k] in ps;
    }
    MeanBounds(ys, lo, hi);
  }

  /** computeDeviation: how far yesterday's energy lies above the model; 0 without a yesterday point. */
  function Deviation(yesterday: Option<Point>, m: real, b: real): (r: real)
    ensures yesterday.None? ==> r == 0.0
    ensures yesterday.Some? ==> yesterday.value.y == (m * yesterday.value.x + b) + r
  {
    if yesterday.None? then 0.0
    else
      var expected := m * yesterday.value.x + b;
      yesterday.value.y - expected
  }

  /** sumMapValues: the total of the day values and how many days there are. */
  datatype MapSum = MapSum(total: real, dayCount: nat)

  function SumMapValues(values: seq<real>): (r: MapSum)
    ensures r.dayCount == |values|
    ensures (forall i :: 0 <= i < |values| ==> values[i] >= 0.0) ==> r.total >= 0.0
  {
    assert (forall i :: 0 <= i < |values| ==> values[i] >= 0.0) ==> Sum(values) >= 0.0 by {
      if forall i :: 0 <= i < |values| ==> values[i] >= 0.0 {
        SumNonNegative(values);
      }
    }
    MapSum(Sum(values), |values|)
  }

  // ========================================================= dimensioning

  datatype JazSource = Fixed | Sensor | Missing

  datatype DimensioningInput = DimensioningInput(
    m: real, b: real,
    totalElecPeriod: real, totalDaysPeriod: real,
    annualHeatingElecKwh: real, wwBaseLoad: real, avgPowerForHeating: real,
    jaz: real, jazSource: JazSource, copCold: real, area: real, electricityPrice: real)

  datatype Dimensioning = Dimensioning(
    avgElectricalPower: real, avgThermalLoad: real,
    peakElectricalPower: real, peakThermalLoad: real,
    energyIndex: real, specificHeatLoad: real, costIndex: real,
    jaz: real, jazSource: JazSource, wwBaseLoad: real)

  /** Annual electricity: the measured period scaled to 365.25 days, else the regression projection. */
  function AnnualElectricity(inp: DimensioningInput): (r: real)
    ensures inp.totalDaysPeriod > 0.0 ==> r * inp.totalDaysPeriod == inp.totalElecPeriod * 365.25
    ensures inp.totalDaysPeriod <= 0.0 ==> r == inp.annualHeatingElecKwh
  {
    if inp.totalDaysPeriod > 0.0 then inp.totalElecPeriod * (365.25 / inp.totalDaysPeriod)
    else inp.annualHeatingElecKwh
  }

  /**
    computeDimensioning: peak power is the model's daily energy at 25 HDD
    (15 °C limit, −10 °C design day) spread over 24 h; per-area indices are 0
    when the area is not positive.
   */
  function ComputeDimensioning(inp: DimensioningInput): (d: Dimensioning)
    ensures 24.0 * d.peakElectricalPower == 25.0 * inp.m + inp.b
    ensures d.peakThermalLoad == d.peakElectricalPower * inp.copCold
    ensures d.avgElectricalPower == inp.avgPowerForHeating
    ensures d.avgThermalLoad == inp.avgPowerForHeating * inp.jaz
    ensures inp.area <= 0.0 ==> d.energyIndex == 0.0 && d.specificHeatLoad == 0.0 && d.costIndex == 0.0
    ensures inp.area > 0.0 ==>
              d.energyIndex * inp.area == AnnualElectricity(inp) * inp.jaz
              && d.specificHeatLoad * inp.area == d.peakThermalLoad * 1000.0
              && d.costIndex * inp.area == AnnualElectricity(inp) * inp.electricityPrice
    ensures d.jaz == inp.jaz && d.jazSource == inp.jazSource && d.wwBaseLoad == inp.wwBaseLoad
  {
    var annual := AnnualElectricity(inp);
    var peak := (inp.m * 25.0 + inp.b) / 24.0;
    Dimensioning(
      inp.avgPowerForHeating,
      inp.avgPowerForHeating * inp.jaz,
      peak,
      peak * inp.copCold,
      if inp.area > 0.0 then (annual * inp.jaz) / inp.area else 0.0,
      if inp.area > 0.0 then (peak * inp.copCold * 1000.0) / inp.area else 0.0,
      if inp.area > 0.0 then (annual * inp.electricityPrice) / inp.area else 0.0,
      inp.jaz, inp.jazSource, inp.wwBaseLoad)
  }
}
