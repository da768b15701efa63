/**
  Least-squares algebra over (x, y) points: the raw sums, the squared error
  of a line, and the facts about them that the regression of the Insight
  card rests on (the centred sums are non-negative and satisfy the
  Cauchy–Schwarz inequality, so r² lies in [0, 1]).

  The polynomial identities are proved on plain real variables; the lemmas
  about point sequences only pass the sums to them.
 */
module LeastSquares {

  datatype Point = Point(x: real, y: real)

  /** The raw sums Σx, Σy, Σx², Σxy and Σy² that `linearRegression` and `sampleCorrelation` accumulate. */
  function SX(ps: seq<Point>): real
  {
    if |ps| == 0 then 0.0 else SX(ps[..|ps| - 1]) + ps[|ps| - 1].x
  }

  function SY(ps: seq<Point>): real
  {
    if |ps| == 0 then 0.0 else SY(ps[..|ps| - 1]) + ps[|ps| - 1].y
  }

  function SXX(ps: seq<Point>): real
  {
    if |ps| == 0 then 0.0 else SXX(ps[..|ps| - 1]) + ps[|ps| - 1].x * ps[|ps| - 1].x
  }

  function SXY(ps: seq<Point>): real
  {
    if |ps| == 0 then 0.0 else SXY(ps[..|ps| - 1]) + ps[|ps| - 1].x * ps[|ps| - 1].y
  }

  function SYY(ps: seq<Point>): real
  {
    if |ps| == 0 then 0.0 else SYY(ps[..|ps| - 1]) + ps[|ps| - 1].y * ps[|ps| - 1].y
  }

  /** Sum of squared errors of the points against y = m x + b. */
  function Sse(ps: seq<Point>, m: real, b: real): real
  {
    if |ps| == 0 then 0.0
    else Sse(ps[..|ps| - 1], m, b)
         + (ps[|ps| - 1].y - (m * ps[|ps| - 1].x + b)) * (ps[|ps| - 1].y - (m * ps[|ps| - 1].x + b))
  }

  /** A square is never negative. */
  lemma SquareNonNegative(e: real)
    ensures e * e >= 0.0
  {
    if e < 0.0 {
      assert e * e == (-e) * (-e);
    }
  }

  lemma {:induction false} SseNonNegative(ps: seq<Point>, m: real, b: real)
    ensures Sse(ps, m, b) >= 0.0
  {
    if |ps| > 0 {
      SseNonNegative(ps[..|ps| - 1], m, b);
      SquareNonNegative(ps[|ps| - 1].y - (m * ps[|ps| - 1].x + b));
    }
  }

  /** n Σx² − (Σx)², n² times the variance of x; likewise for y and the covariance. */
  function CrossXX(ps: seq<Point>): real { Cross(|ps| as real, SXX(ps), SX(ps), SX(ps)) }
  function CrossYY(ps: seq<Point>): real { Cross(|ps| as real, SYY(ps), SY(ps), SY(ps)) }
  function CrossXY(ps: seq<Point>): real { Cross(|ps| as real, SXY(ps), SX(ps), SY(ps)) }

  /** n Σuv − Σu Σv from the raw sums. */
  function Cross(n: real, uv: real, su: real, sv: real): real { n * uv - su * sv }

  // ------------------------------------------------ expansion of the error

  /** Σ(y − (m x + b))² written out in the raw sums Σy², Σxy, Σy, Σx², Σx and the count n. */
  function ExpandedSse(yy: real, xy: real, sy: real, xx: real, sx: real, n: real, m: real, b: real): real
  {
    yy - (m * xy + m * xy) - (b * sy + b * sy) + m * m * xx + (m * b * sx + m * b * sx) + n * b * b
  }

  /** sse is the expanded error of the sums for the line y = m x + b. */
  predicate Expands(sse: real, yy: real, xy: real, sy: real, xx: real, sx: real, n: real, m: real, b: real)
  {
    sse == ExpandedSse(yy, xy, sy, xx, sx, n, m, b)
  }

  lemma ExpansionArithmetic(yy: real, xy: real, sy: real, xx: real, sx: real, n: real, sse: real,
                            x: real, y: real, m: real, b: real,
                            yy': real, xy': real, sy': real, xx': real, sx': real, n': real, sse': real)
    requires sse == ExpandedSse(yy, xy, sy, xx, sx, n, m, b)
    requires yy' == yy + y * y && xy' == xy + x * y && sy' == sy + y
    requires xx' == xx + x * x && sx' == sx + x && n' == n + 1.0
    requires sse' == sse + (y - (m * x + b)) * (y - (m * x + b))
    ensures sse' == ExpandedSse(yy', xy', sy', xx', sx', n', m, b)
  {
  }

  /** The sums after adding the point (x, y), and the error after adding its squared error. */
  predicate Grown(yy: real, xy: real, sy: real, xx: real, sx: real, n: real, sse: real,
                  x: real, y: real, m: real, b: real,
                  yy': real, xy': real, sy': real, xx': real, sx': real, n': real, sse': real)
  {
    && yy' == yy + y * y && xy' == xy + x * y && sy' == sy + y
    && xx' == xx + x * x && sx' == sx + x && n' == n + 1.0
    && sse' == sse + (y - (m * x + b)) * (y - (m * x + b))
  }

  /** Adding one point's squared error to the expanded sums gives the expanded sums of one more point. */
  lemma ExpansionStep(yy: real, xy: real, sy: real, xx: real, sx: real, n: real, sse: real,
                      x: real, y: real, m: real, b: real,
                      yy': real, xy': real, sy': real, xx': real, sx': real, n': real, sse': real)
    requires Expands(sse, yy, xy, sy, xx, sx, n, m, b)
    requires Grown(yy, xy, sy, xx, sx, n, sse, x, y, m, b, yy', xy', sy', xx', sx', n', sse')
    ensures Expands(sse', yy', xy', sy', xx', sx', n', m, b)
  {
    ExpansionArithmetic(yy, xy, sy, xx, sx, n, sse, x, y, m, b, yy', xy', sy', xx', sx', n', sse');
  }

  /** One unfolding of every sum and of the error. */
  lemma SumsStep(ps: seq<Point>, m: real, b: real)
    requires |ps| > 0
    ensures Grown(SYY(ps[..|ps| - 1]), SXY(ps[..|ps| - 1]), SY(ps[..|ps| - 1]), SXX(ps[..|ps| - 1]),
                  SX(ps[..|ps| - 1]), |ps[..|ps| - 1]| as real, Sse(ps[..|ps| - 1], m, b),
                  ps[|ps| - 1].x, ps[|ps| - 1].y, m, b,
                  SYY(ps), SXY(ps), SY(ps), SXX(ps), SX(ps), |ps| as real, Sse(ps, m, b))
  {
  }

  lemma SseExpansionStep(ps: seq<Point>, m: real, b: real)
    requires |ps| > 0
    requires Expands(Sse(ps[..|ps| - 1], m, b), SYY(ps[..|ps| - 1]), SXY(ps[..|ps| - 1]), SY(ps[..|ps| - 1]),
                     SXX(ps[..|ps| - 1]), SX(ps[..|ps| - 1]), |ps[..|ps| - 1]| as real, m, b)
    ensures Expands(Sse(ps, m, b), SYY(ps), SXY(ps), SY(ps), SXX(ps), SX(ps), |ps| as real, m, b)
  {
    SumsStep(ps, m, b);
    ExpansionStep(SYY(ps[..|ps| - 1]), SXY(ps[..|ps| - 1]), SY(ps[..|ps| - 1]), SXX(ps[..|ps| - 1]),
                  SX(ps[..|ps| - 1]), |ps[..|ps| - 1]| as real, Sse(ps[..|ps| - 1], m, b),
                  ps[|ps| - 1].x, ps[|ps| - 1].y, m, b,
                  SYY(ps), SXY(ps), SY(ps), SXX(ps), SX(ps), |ps| as real, Sse(ps, m, b));
  }

  /** The squared error of a line, written out in the raw sums. */
  lemma {:induction false} SseExpansion(ps: seq<Point>, m: real, b: real)
    ensures Expands(Sse(ps, m, b), SYY(ps), SXY(ps), SY(ps), SXX(ps), SX(ps), |ps| as real, m, b)
  {
    if |ps| > 0 {
      SseExpansion(ps[..|ps| - 1], m, b);
      SseExpansionStep(ps, m, b);
    }
  }

  // ------------------------------------------------ centred quadratic

  /** n · sse = cyy − 2 m cxy + m² cxx. */
  predicate Centred(n: real, sse: real, cyy: real, cxy: real, cxx: real, m: real)
  {
    n * sse == cyy - (m * cxy + m * cxy) + m * m * cxx
  }

  /** The quadratic syy − 2 k sxy + k² sxx is non-negative at k. */
  predicate QuadNonNegative(sxx: real, syy: real, sxy: real, k: real)
  {
    syy - (k * sxy + k * sxy) + k * k * sxx >= 0.0
  }

  /** n b = Σy − m Σx: the line with slope m and intercept b passes through the centroid. */
  predicate ThroughCentroid(n: real, b: real, sy: real, sx: real, m: real)
  {
    n * b == sy - m * sx
  }

  /** The centred sums computed from the raw ones. */
  predicate CrossOf(cyy: real, cxy: real, cxx: real, n: real, yy: real, xy: real, xx: real, sy: real, sx: real)
  {
    cyy == Cross(n, yy, sy, sy) && cxy == Cross(n, xy, sx, sy) && cxx == Cross(n, xx, sx, sx)
  }

  /** Through the centroid (n b = Σy − m Σx) the expanded error is the centred quadratic divided by n. */
  lemma CentredStep(yy: real, xy: real, sy: real, xx: real, sx: real, n: real, m: real, b: real,
                    sse: real, cyy: real, cxy: real, cxx: real)
    requires ThroughCentroid(n, b, sy, sx, m)
    requires Expands(sse, yy, xy, sy, xx, sx, n, m, b)
    requires CrossOf(cyy, cxy, cxx, n, yy, xy, xx, sy, sx)
    ensures Centred(n, sse, cyy, cxy, cxx, m)
  {
    assert n * (n * b * b) == (n * b) * (n * b);
    assert n * sse
           == n * yy - (m * (n * xy) + m * (n * xy)) - ((n * b) * sy + (n * b) * sy) + m * m * (n * xx)
              + (m * (n * b) * sx + m * (n * b) * sx) + (n * b) * (n * b);
  }

  /** The centred sums written out in the raw sums. */
  lemma CrossUnfold(ps: seq<Point>)
    ensures CrossOf(CrossYY(ps), CrossXY(ps), CrossXX(ps), |ps| as real, SYY(ps), SXY(ps), SXX(ps), SY(ps), SX(ps))
  {
  }

  /**
    n · SSE of the line with slope m through the centroid (the intercept b
    with n b = Σy − m Σx) equals CrossYY − 2 m CrossXY + m² CrossXX.
   */
  lemma CentredSse(ps: seq<Point>, m: real, b: real)
    requires ThroughCentroid(|ps| as real, b, SY(ps), SX(ps), m)
    ensures Centred(|ps| as real, Sse(ps, m, b), CrossYY(ps), CrossXY(ps), CrossXX(ps), m)
  {
    SseExpansion(ps, m, b);
    CrossUnfold(ps);
    CentredStep(SYY(ps), SXY(ps), SY(ps), SXX(ps), SX(ps), |ps| as real, m, b,
                Sse(ps, m, b), CrossYY(ps), CrossXY(ps), CrossXX(ps));
  }

  /** A non-negative error seen through the centred identity makes the quadratic non-negative. */
  lemma CentredNonNegative(n: real, sse: real, cyy: real, cxy: real, cxx: real, m: real)
    requires n >= 0.0 && sse >= 0.0
    requires Centred(n, sse, cyy, cxy, cxx, m)
    ensures QuadNonNegative(cxx, cyy, cxy, m)
  {
    assert n * sse >= 0.0;
  }

  /** The centred quadratic CrossYY − 2 k CrossXY + k² CrossXX is non-negative for every k. */
  lemma CentredQuadratic(ps: seq<Point>, k: real)
    ensures QuadNonNegative(CrossXX(ps), CrossYY(ps), CrossXY(ps), k)
  {
    var b := if |ps| == 0 then 0.0 else (SY(ps) - k * SX(ps)) / (|ps| as real);
    assert ThroughCentroid(|ps| as real, b, SY(ps), SX(ps), k);
    CentredSse(ps, k, b);
    SseNonNegative(ps, k, b);
    CentredNonNegative(|ps| as real, Sse(ps, k, b), CrossYY(ps), CrossXY(ps), CrossXX(ps), k);
  }

  // ------------------------------------------------ non-negativity, Cauchy–Schwarz

  /** The points with y replaced by x, so that facts about y carry over to x. */
  function MirrorX(ps: seq<Point>): (r: seq<Point>)
    ensures |r| == |ps|
    ensures forall i :: 0 <= i < |ps| ==> r[i] == Point(ps[i].x, ps[i].x)
  {
    seq(|ps|, i requires 0 <= i < |ps| => Point(ps[i].x, ps[i].x))
  }

  lemma {:induction false} MirrorSums(ps: seq<Point>)
    ensures SY(MirrorX(ps)) == SX(ps) && SYY(MirrorX(ps)) == SXX(ps)
  {
    if |ps| > 0 {
      MirrorSums(ps[..|ps| - 1]);
      assert MirrorX(ps)[..|ps| - 1] == MirrorX(ps[..|ps| - 1]);
    }
  }

  lemma MirrorCross(ps: seq<Point>)
    ensures CrossYY(MirrorX(ps)) == CrossXX(ps)
  {
    MirrorSums(ps);
    CrossUnfold(ps);
    CrossUnfold(MirrorX(ps));
  }

  /** At k = 0 the quadratic is syy. */
  lemma QuadAtZero(sxx: real, syy: real, sxy: real)
    requires QuadNonNegative(sxx, syy, sxy, 0.0)
    ensures syy >= 0.0
  {
  }

  /** The centred sums of squares are non-negative. */
  lemma CrossNonNegative(ps: seq<Point>)
    ensures CrossXX(ps) >= 0.0 && CrossYY(ps) >= 0.0
  {
    CentredQuadratic(ps, 0.0);
    QuadAtZero(CrossXX(ps), CrossYY(ps), CrossXY(ps));
    CentredQuadratic(MirrorX(ps), 0.0);
    QuadAtZero(CrossXX(MirrorX(ps)), CrossYY(MirrorX(ps)), CrossXY(MirrorX(ps)));
    MirrorCross(ps);
  }

  /** sxy² ≤ sxx · syy. */
  predicate CauchySchwarz(sxx: real, syy: real, sxy: real)
  {
    sxy * sxy <= sxx * syy
  }

  /**
    A quadratic syy − 2 k sxy + k² sxx with sxx ≥ 0 that is non-negative at
    its vertex k = sxy / sxx (when sxx > 0) and at k = (syy + 1) / (2 sxy)
    (when sxx = 0 and sxy ≠ 0) has sxy² ≤ sxx · syy.
   */
  lemma Discriminant(sxx: real, syy: real, sxy: real)
    requires sxx >= 0.0 && syy >= 0.0
    requires sxx > 0.0 ==> QuadNonNegative(sxx, syy, sxy, sxy / sxx)
    requires sxx == 0.0 && sxy != 0.0 ==> QuadNonNegative(sxx, syy, sxy, (syy + 1.0) / (sxy + sxy))
    ensures CauchySchwarz(sxx, syy, sxy)
  {
    if sxx > 0.0 {
      var k := sxy / sxx;
      assert k * sxx == sxy;
      assert syy - k * sxy >= 0.0;
      assert sxx * (syy - k * sxy) >= 0.0;
    } else if sxy != 0.0 {
      assert false;
    }
  }

  /** Cauchy–Schwarz for the centred sums: CrossXY² ≤ CrossXX · CrossYY. */
  lemma CrossCauchySchwarz(ps: seq<Point>)
    ensures CauchySchwarz(CrossXX(ps), CrossYY(ps), CrossXY(ps))
  {
    CrossNonNegative(ps);
    if CrossXX(ps) > 0.0 {
      CentredQuadratic(ps, CrossXY(ps) / CrossXX(ps));
    }
    if CrossXX(ps) == 0.0 && CrossXY(ps) != 0.0 {
      CentredQuadratic(ps, (CrossYY(ps) + 1.0) / (CrossXY(ps) + CrossXY(ps)));
    }
    Discriminant(CrossXX(ps), CrossYY(ps), CrossXY(ps));
  }

  // ------------------------------------------------ points on a line

  /** The sums of points on y = a x + c, in terms of Σx, Σx² and n. */
  predicate LineForm(sy: real, sxy: real, syy: real, sxx: real, sx: real, n: real, a: real, c: real)
  {
    && sy == a * sx + c * n
    && sxy == a * sxx + c * sx
    && syy == a * a * sxx + (a * c * sx + a * c * sx) + c * c * n
  }

  /** The point (x, y) lies on y = a x + c. */
  predicate OnLineAt(x: real, y: real, a: real, c: real)
  {
    y == a * x + c
  }

  /** One more point on y = a x + c keeps the sums in their line form. */
  lemma LineStep(yy: real, xy: real, sy: real, xx: real, sx: real, n: real, sse: real,
                 x: real, y: real, a: real, c: real,
                 yy': real, xy': real, sy': real, xx': real, sx': real, n': real, sse': real)
    requires OnLineAt(x, y, a, c)
    requires LineForm(sy, xy, yy, xx, sx, n, a, c)
    requires Grown(yy, xy, sy, xx, sx, n, sse, x, y, a, c, yy', xy', sy', xx', sx', n', sse')
    ensures LineForm(sy', xy', yy', xx', sx', n', a, c)
  {
  }

  /** The sums of points that lie exactly on y = a x + c. */
  lemma {:induction false} LineSums(ps: seq<Point>, a: real, c: real)
    requires forall i :: 0 <= i < |ps| ==> ps[i].y == a * ps[i].x + c
    ensures LineForm(SY(ps), SXY(ps), SYY(ps), SXX(ps), SX(ps), |ps| as real, a, c)
  {
    if |ps| > 0 {
      LineSums(ps[..|ps| - 1], a, c);
      SumsStep(ps, a, c);
      assert OnLineAt(ps[|ps| - 1].x, ps[|ps| - 1].y, a, c);
      LineStep(SYY(ps[..|ps| - 1]), SXY(ps[..|ps| - 1]), SY(ps[..|ps| - 1]), SXX(ps[..|ps| - 1]),
               SX(ps[..|ps| - 1]), |ps[..|ps| - 1]| as real, Sse(ps[..|ps| - 1], a, c),
               ps[|ps| - 1].x, ps[|ps| - 1].y, a, c,
               SYY(ps), SXY(ps), SY(ps), SXX(ps), SX(ps), |ps| as real, Sse(ps, a, c));
    }
  }

  // ------------------------------------------------ the centroid line is the least-squares line

  /** Half the derivative of the expanded error in the slope, at (m, b). */
  function SlopeGradient(xy: real, xx: real, sx: real, m: real, b: real): real
  {
    (m * xx + m * xx) + (b * sx + b * sx) - (xy + xy)
  }

  /** Half the derivative of the expanded error in the intercept, at (m, b). */
  function InterceptGradient(sy: real, sx: real, n: real, m: real, b: real): real
  {
    (m * sx + m * sx) + (n * b + n * b) - (sy + sy)
  }

  /** The second-order part of the error change when the line moves by (u, v). */
  function GapQuad(xx: real, sx: real, n: real, u: real, v: real): real
  {
    u * u * xx + (u * v * sx + u * v * sx) + n * v * v
  }

  /** Moving the line by (u, v) changes the expanded error by the gradients times (u, v) plus GapQuad. */
  lemma GapSplit(yy: real, xy: real, sy: real, xx: real, sx: real, n: real, m: real, b: real, u: real, v: real)
    ensures ExpandedSse(yy, xy, sy, xx, sx, n, m + u, b + v) - ExpandedSse(yy, xy, sy, xx, sx, n, m, b)
            == u * SlopeGradient(xy, xx, sx, m, b) + v * InterceptGradient(sy, sx, n, m, b) + GapQuad(xx, sx, n, u, v)
  {
    assert (m + u) * (m + u) * xx == m * m * xx + (m * u * xx + m * u * xx) + u * u * xx;
    assert (m + u) * (b + v) * sx == m * b * sx + m * v * sx + u * b * sx + u * v * sx;
    assert n * (b + v) * (b + v) == n * b * b + (n * b * v + n * b * v) + n * v * v;
  }

  /** Through the centroid the error does not change to first order in the intercept. */
  lemma InterceptGradientZero(sy: real, sx: real, n: real, m: real, b: real)
    requires ThroughCentroid(n, b, sy, sx, m)
    ensures InterceptGradient(sy, sx, n, m, b) == 0.0
  {
  }

  /** With m CrossXX = CrossXY as well, it does not change to first order in the slope either. */
  lemma SlopeGradientZero(xy: real, sy: real, xx: real, sx: real, n: real, m: real, b: real, cxx: real, cxy: real)
    requires n > 0.0 && ThroughCentroid(n, b, sy, sx, m)
    requires cxx == Cross(n, xx, sx, sx) && cxy == Cross(n, xy, sx, sy) && m * cxx == cxy
    ensures SlopeGradient(xy, xx, sx, m, b) == 0.0
  {
    var g := SlopeGradient(xy, xx, sx, m, b);
    assert n * (m * xx) == m * (n * xx);
    assert n * (b * sx) == (n * b) * sx == (sy - m * sx) * sx;
    assert m * cxx == m * (n * xx) - m * (sx * sx);
    assert n * g == (m * cxx + m * cxx) - (cxy + cxy);
    assert g == (n * g) / n;
  }

  /** n GapQuad = (n v + u Σx)² + u² CrossXX. */
  lemma GapQuadScaled(xx: real, sx: real, n: real, u: real, v: real)
    ensures n * GapQuad(xx, sx, n, u, v) == (n * v + u * sx) * (n * v + u * sx) + u * u * Cross(n, xx, sx, sx)
  {
    assert (n * v + u * sx) * (n * v + u * sx) == n * n * v * v + (n * v * u * sx + n * v * u * sx) + u * u * sx * sx;
    assert u * u * Cross(n, xx, sx, sx) == n * (u * u * xx) - u * u * sx * sx;
  }

  /** With a non-negative CrossXX the second-order part is never negative. */
  lemma GapQuadNonNegative(xx: real, sx: real, n: real, u: real, v: real)
    requires n > 0.0 && Cross(n, xx, sx, sx) >= 0.0
    ensures GapQuad(xx, sx, n, u, v) >= 0.0
  {
    GapQuadScaled(xx, sx, n, u, v);
    SquareNonNegative(n * v + u * sx);
    SquareNonNegative(u);
    assert u * u * Cross(n, xx, sx, sx) >= 0.0;
    var q := GapQuad(xx, sx, n, u, v);
    assert n * q >= 0.0;
    assert q == (n * q) / n;
  }

  /**
    The line through the centroid with m CrossXX = CrossXY has an expanded
    error no larger than that of any other line y = k x + c.
   */
  lemma CentroidLineMinimal(yy: real, xy: real, sy: real, xx: real, sx: real, n: real, m: real, b: real,
                            k: real, c: real, cxx: real, cxy: real)
    requires n > 0.0 && ThroughCentroid(n, b, sy, sx, m)
    requires cxx == Cross(n, xx, sx, sx) && cxy == Cross(n, xy, sx, sy) && m * cxx == cxy && cxx >= 0.0
    ensures ExpandedSse(yy, xy, sy, xx, sx, n, m, b) <= ExpandedSse(yy, xy, sy, xx, sx, n, k, c)
  {
    var u, v := k - m, c - b;
    GapSplit(yy, xy, sy, xx, sx, n, m, b, u, v);
    InterceptGradientZero(sy, sx, n, m, b);
    SlopeGradientZero(xy, sy, xx, sx, n, m, b, cxx, cxy);
    GapQuadNonNegative(xx, sx, n, u, v);
    assert m + u == k && b + v == c;
  }
}
