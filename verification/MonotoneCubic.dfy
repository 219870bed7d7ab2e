/** Shape-preserving cubic interpolation (scripts/graph_live_evidence.py, lines 1388-1455),
    over exact reals: every anchor and fraction is finite by construction. */
module MonotoneCubic {
  import opened Basics

  datatype CubicError = UnorderedAnchors | IntervalOutside | FractionOutside

  predicate Anchors(x: seq<real>, y: seq<real>) {
    |x| == |y| && |x| >= 2 && forall i :: 0 <= i < |x| - 1 ==> x[i] < x[i + 1]
  }

  function Secant(x: seq<real>, y: seq<real>, i: nat): real
    requires Anchors(x, y) && i < |x| - 1
  {
    (y[i + 1] - y[i]) / (x[i + 1] - x[i])
  }

  function EndSlope(width: real, nextWidth: real, delta: real, nextDelta: real): real
    requires width > 0.0 && nextWidth > 0.0
  {
    var candidate := ((2.0 * width + nextWidth) * delta - width * nextDelta) / (width + nextWidth);
    if candidate * delta <= 0.0 then 0.0
    else if delta * nextDelta < 0.0 && Abs(candidate) > 3.0 * Abs(delta) then 3.0 * delta
    else candidate
  }

  // The weighted harmonic denominator cannot vanish: both secants have the same sign.
  lemma HarmonicDenominator(first: real, second: real, before: real, after: real)
    requires first > 0.0 && second > 0.0 && before * after > 0.0
    ensures before != 0.0 && after != 0.0 && first / before + second / after != 0.0
  {
    if before > 0.0 {
      assert after > 0.0;
      assert first / before > 0.0 && second / after > 0.0;
    } else {
      assert before < 0.0 && after < 0.0;
      assert first / before < 0.0 && second / after < 0.0;
    }
  }

  function InnerSlope(beforeWidth: real, afterWidth: real, before: real, after: real): real
    requires beforeWidth > 0.0 && afterWidth > 0.0
  {
    if before * after <= 0.0 then 0.0
    else
      var first := 2.0 * afterWidth + beforeWidth;
      var second := afterWidth + 2.0 * beforeWidth;
      HarmonicDenominator(first, second, before, after);
      (first + second) / (first / before + second / after)
  }

  function Slope(x: seq<real>, y: seq<real>, i: nat): real
    requires Anchors(x, y) && i < |x|
  {
    var n := |x|;
    if n == 2 then Secant(x, y, 0)
    else if i == 0 then EndSlope(x[1] - x[0], x[2] - x[1], Secant(x, y, 0), Secant(x, y, 1))
    else if i == n - 1 then
      EndSlope(x[n - 1] - x[n - 2], x[n - 2] - x[n - 3], Secant(x, y, n - 2), Secant(x, y, n - 3))
    else InnerSlope(x[i] - x[i - 1], x[i + 1] - x[i], Secant(x, y, i - 1), Secant(x, y, i))
  }

  method MonotoneSlopes(x: seq<real>, y: seq<real>) returns (r: Result<seq<real>, CubicError>)
    ensures r.Ok? <==> Anchors(x, y)
    ensures r.Ok? ==> |r.value| == |x| && forall i :: 0 <= i < |x| ==> r.value[i] == Slope(x, y, i)
  {
    if !Anchors(x, y) {
      return Err(UnorderedAnchors);
    }
    var n := |x|;
    var widths := seq(n - 1, i requires 0 <= i < n - 1 => x[i + 1] - x[i]);
    var deltas := seq(n - 1, i requires 0 <= i < n - 1 => Secant(x, y, i));
    if n == 2 {
      return Ok([deltas[0], deltas[0]]);
    }
    var slopes := seq(n, i => 0.0);
    slopes := slopes[0 := EndSlope(widths[0], widths[1], deltas[0], deltas[1])];
    for index := 1 to n - 1
      invariant |slopes| == n
      invariant forall i :: 0 <= i < index ==> slopes[i] == Slope(x, y, i)
    {
      slopes := slopes[index := InnerSlope(widths[index - 1], widths[index], deltas[index - 1], deltas[index])];
    }
    slopes := slopes[n - 1 := EndSlope(widths[n - 2], widths[n - 3], deltas[n - 2], deltas[n - 3])];
    return Ok(slopes);
  }

  // ---- every slope is zero to three times each adjacent secant ----

  predicate Tame(slope: real, secant: real) {
    && (secant >= 0.0 ==> 0.0 <= slope <= 3.0 * secant)
    && (secant <= 0.0 ==> 3.0 * secant <= slope <= 0.0)
  }

  lemma EndSlopeTame(w: real, v: real, d: real, e: real)
    requires w > 0.0 && v > 0.0
    ensures Tame(EndSlope(w, v, d, e), d)
  {
    var c := ((2.0 * w + v) * d - w * e) / (w + v);
    if c * d > 0.0 && d * e >= 0.0 {
      // The two secants agree in sign, so the candidate cannot pass twice the nearer one.
      if d > 0.0 {
        Cancel(0.0, e, d);
        EndCandidate(w, v, d, e, c);
      } else {
        Cancel(0.0, -e, -d);
        assert -c == ((2.0 * w + v) * -d - w * -e) / (w + v);
        EndCandidate(w, v, -d, -e, -c);
      }
    }
  }

  lemma EndCandidate(w: real, v: real, d: real, e: real, c: real)
    requires w > 0.0 && v > 0.0 && d > 0.0 && e >= 0.0
    requires c == ((2.0 * w + v) * d - w * e) / (w + v)
    ensures c <= 2.0 * d
  {
    assert c * (w + v) == (2.0 * w + v) * d - w * e;
    assert w * e >= 0.0;
    assert v * d > 0.0;
    assert (2.0 * d) * (w + v) == (2.0 * w + v) * d + v * d;
    Cancel(c, 2.0 * d, w + v);
  }

  lemma InnerSlopeTame(bw: real, aw: real, b: real, a: real)
    requires bw > 0.0 && aw > 0.0
    ensures Tame(InnerSlope(bw, aw, b, a), b) && Tame(InnerSlope(bw, aw, b, a), a)
  {
    if b * a > 0.0 {
      var f, g := 2.0 * aw + bw, aw + 2.0 * bw;
      if b > 0.0 {
        Cancel(0.0, a, b);
        HarmonicBelow(f, g, b, a);
        HarmonicBelow(g, f, a, b);
      } else {
        Cancel(0.0, -a, -b);
        HarmonicBelow(f, g, -b, -a);
        HarmonicBelow(g, f, -a, -b);
        HarmonicNegated(f, g, b, a);
      }
    }
  }

  lemma {:induction false} HarmonicNegated(f: real, g: real, b: real, a: real)
    requires f > 0.0 && g > 0.0 && b < 0.0 && a < 0.0
    ensures f / b + g / a != 0.0 && f / -b + g / -a != 0.0
    ensures (f + g) / (f / -b + g / -a) == -((f + g) / (f / b + g / a))
  {
    QuotientOfNegated(f, b);
    QuotientOfNegated(g, a);
    QuotientOfNegated(f + g, f / b + g / a);
  }

  lemma {:induction false} QuotientOfNegated(a: real, b: real)
    requires a > 0.0 && b < 0.0
    ensures a / -b == -(a / b) && a / b < 0.0
  {
    var q := a / b;
    assert q * b == a;
    assert (-q) * (-b) == a;
    if q >= 0.0 {
      ProductOfNonNegatives(q, -b);
    }
    Cancel(a / -b, -q, -b);
    Cancel(-q, a / -b, -b);
  }

  // A weighted harmonic mean is at most (f + g) / f times its first argument.
  lemma HarmonicBelow(f: real, g: real, b: real, a: real)
    requires f > 0.0 && g > 0.0 && b > 0.0 && a > 0.0 && g <= 2.0 * f
    ensures f / b + g / a > 0.0
    ensures 0.0 <= (f + g) / (f / b + g / a) <= 3.0 * b
  {
    var h := f / b + g / a;
    assert f / b > 0.0 && g / a > 0.0;
    assert h * b > f by { assert (f / b) * b == f; Positive(g / a, b); }
    assert (3.0 * b) * h > 3.0 * f;
    var m := (f + g) / h;
    assert m * h == f + g;
    Cancel(m, 3.0 * b, h);
  }

  /** The bound that makes the whole interpolation shape preserving. */
  lemma SlopesTame(x: seq<real>, y: seq<real>, i: nat)
    requires Anchors(x, y) && i < |x| - 1
    ensures Tame(Slope(x, y, i), Secant(x, y, i))
    ensures Tame(Slope(x, y, i + 1), Secant(x, y, i))
  {
    var n := |x|;
    if n > 2 {
      if i == 0 {
        EndSlopeTame(x[1] - x[0], x[2] - x[1], Secant(x, y, 0), Secant(x, y, 1));
      } else {
        InnerSlopeTame(x[i] - x[i - 1], x[i + 1] - x[i], Secant(x, y, i - 1), Secant(x, y, i));
      }
      if i + 1 == n - 1 {
        EndSlopeTame(x[n - 1] - x[n - 2], x[n - 2] - x[n - 3], Secant(x, y, n - 2), Secant(x, y, n - 3));
      } else {
        InnerSlopeTame(x[i + 1] - x[i], x[i + 2] - x[i + 1], Secant(x, y, i), Secant(x, y, i + 1));
      }
    }
  }

  // ---- the cubic on one interval ----

  function Hermite(y0: real, y1: real, width: real, m0: real, m1: real, t: real): real {
    var squared := t * t;
    var cubed := squared * t;
    (2.0 * cubed - 3.0 * squared + 1.0) * y0
    + (cubed - 2.0 * squared + t) * width * m0
    + (-2.0 * cubed + 3.0 * squared) * y1
    + (cubed - squared) * width * m1
  }

  function CubicAt(x: seq<real>, y: seq<real>, i: nat, t: real): real
    requires Anchors(x, y) && i < |x| - 1
  {
    Hermite(y[i], y[i + 1], x[i + 1] - x[i], Slope(x, y, i), Slope(x, y, i + 1), t)
  }

  method IntervalValues(x: seq<real>, y: seq<real>, interval: int, fractions: seq<real>)
    returns (r: Result<seq<real>, CubicError>)
    ensures !Anchors(x, y) ==> r == Err(UnorderedAnchors)
    ensures Anchors(x, y) && !(0 <= interval < |x| - 1) ==> r == Err(IntervalOutside)
    ensures Anchors(x, y) && 0 <= interval < |x| - 1 ==>
      if forall k :: 0 <= k < |fractions| ==> 0.0 <= fractions[k] <= 1.0
      then r.Ok? && |r.value| == |fractions|
        && forall k :: 0 <= k < |fractions| ==> r.value[k] == CubicAt(x, y, interval, fractions[k])
      else r == Err(FractionOutside)
  {
    var computed := MonotoneSlopes(x, y);
    if computed.Err? {
      return Err(UnorderedAnchors);
    }
    var slopes := computed.value;
    if interval < 0 || interval + 1 >= |x| {
      return Err(IntervalOutside);
    }
    if exists k :: 0 <= k < |fractions| && !(0.0 <= fractions[k] <= 1.0) {
      return Err(FractionOutside);
    }
    var width := x[interval + 1] - x[interval];
    var result: seq<real> := [];
    for k := 0 to |fractions|
      invariant |result| == k
      invariant forall j :: 0 <= j < k ==> result[j] == CubicAt(x, y, interval, fractions[j])
    {
      result := result + [Hermite(y[interval], y[interval + 1], width, slopes[interval], slopes[interval + 1],
          fractions[k])];
    }
    return Ok(result);
  }

  // ---- monotonicity ----

  lemma {:induction false} SquareIsNonNegative(a: real)
    ensures a * a >= 0.0
  {
    if a >= 0.0 {
      ProductOfNonNegatives(a, a);
    } else {
      ProductOfNonNegatives(-a, -a);
    }
  }

  lemma CubesOrdered(a: real, b: real)
    requires a <= b
    ensures a * a * a <= b * b * b
  {
    var q := a * a + a * b + b * b;
    assert 2.0 * q == (a + b) * (a + b) + a * a + b * b;
    SquareIsNonNegative(a + b);
    SquareIsNonNegative(a);
    SquareIsNonNegative(b);
    assert q >= 0.0;
    assert (b - a) * q >= 0.0;
    assert (b - a) * q == b * b * b - a * a * a by {
      assert b * q == b * (a * a) + b * (a * b) + b * (b * b);
      assert a * q == a * (a * a) + a * (a * b) + a * (b * b);
      assert b * (a * a) == a * (a * b);
      assert b * (a * b) == a * (b * b);
    }
  }

  // An affine form that is non-negative at the four corners of a box is non-negative on it.
  lemma AffineOnBox(d: real, a: real, b: real, p: real, u: real, v: real)
    requires 0.0 <= a <= 3.0 * d && 0.0 <= b <= 3.0 * d
    requires p >= 0.0 && p + 3.0 * u >= 0.0 && p + 3.0 * v >= 0.0 && p + 3.0 * u + 3.0 * v >= 0.0
    ensures d * p + a * u + b * v >= 0.0
  {
    var low := (if u < 0.0 then 3.0 * u else 0.0) + (if v < 0.0 then 3.0 * v else 0.0);
    assert a * u >= (if u < 0.0 then 3.0 * d * u else 0.0) by {
      if u < 0.0 { assert (3.0 * d - a) * -u >= 0.0; } else { assert a * u >= 0.0; }
    }
    assert b * v >= (if v < 0.0 then 3.0 * d * v else 0.0) by {
      if v < 0.0 { assert (3.0 * d - b) * -v >= 0.0; } else { assert b * v >= 0.0; }
    }
    assert p + low >= 0.0;
    assert d * (p + low) >= 0.0;
  }

  // The three blending weights of an interval: of its rise and of its two end slopes.
  function Ease(t: real): real { 3.0 * (t * t) - 2.0 * (t * t * t) }

  function Lead(t: real): real { t * t * t - 2.0 * (t * t) + t }

  function Lag(t: real): real { t * t * t - t * t }

  lemma EaseRises(s: real, t: real)
    requires 0.0 <= s <= t <= 1.0
    ensures Ease(s) <= Ease(t)
  {
    var q := 3.0 * (t + s) - 2.0 * (t * t + t * s + s * s);
    ProductOfNonNegatives(t, 1.0 - t);
    ProductOfNonNegatives(s, 1.0 - s);
    ProductOfNonNegatives(t - s, t - s);
    assert t * (1.0 - t) == t - t * t && s * (1.0 - s) == s - s * s;
    assert 2.0 * (t * s) <= t * t + s * s;
    assert q >= 0.0;
    ProductOfNonNegatives(t - s, q);
    assert t * q == 3.0 * (t * t) + 3.0 * (t * s) - 2.0 * (t * t * t) - 2.0 * (t * t * s) - 2.0 * (t * s * s);
    assert s * q == 3.0 * (t * s) + 3.0 * (s * s) - 2.0 * (t * t * s) - 2.0 * (t * s * s) - 2.0 * (s * s * s);
    assert (t - s) * q == t * q - s * q;
  }

  // The four corner shapes of the blend, each non-decreasing on [0, 1].
  lemma CornerShapes(s: real, t: real)
    requires 0.0 <= s <= t <= 1.0
    ensures var p, u, v := Ease(t) - Ease(s), Lead(t) - Lead(s), Lag(t) - Lag(s);
      p >= 0.0 && p + 3.0 * u >= 0.0 && p + 3.0 * v >= 0.0 && p + 3.0 * u + 3.0 * v >= 0.0
  {
    EaseRises(s, t);
    CubesOrdered(s, t);
    CubesOrdered(1.0 - t, 1.0 - s);
    CubeOfComplement(s);
    CubeOfComplement(t);
    CubesOrdered(2.0 * s - 1.0, 2.0 * t - 1.0);
    CubeOfDoubled(s);
    CubeOfDoubled(t);
  }

  lemma CubeOfComplement(t: real)
    ensures (1.0 - t) * (1.0 - t) * (1.0 - t) == 1.0 - 3.0 * t + 3.0 * (t * t) - t * t * t
  {
    assert (1.0 - t) * (1.0 - t) == 1.0 - 2.0 * t + t * t;
  }

  lemma CubeOfDoubled(t: real)
    ensures (2.0 * t - 1.0) * (2.0 * t - 1.0) * (2.0 * t - 1.0)
      == 8.0 * (t * t * t) - 12.0 * (t * t) + 6.0 * t - 1.0
  {
    assert (2.0 * t - 1.0) * (2.0 * t - 1.0) == 4.0 * (t * t) - 4.0 * t + 1.0;
  }

  // The three weights of a sample, kept away from what they are.
  datatype Weights = Weights(ease: real, lead: real, lag: real)

  function Blend(y0: real, d: real, a: real, b: real, w: Weights): real {
    y0 + d * w.ease + a * w.lead + b * w.lag
  }

  predicate Rising(v: Weights, w: Weights) {
    var ease, lead, lag := w.ease - v.ease, w.lead - v.lead, w.lag - v.lag;
    ease >= 0.0 && ease + 3.0 * lead >= 0.0 && ease + 3.0 * lag >= 0.0 && ease + 3.0 * lead + 3.0 * lag >= 0.0
  }

  lemma {:induction false} BlendRises(y0: real, d: real, a: real, b: real, v: Weights, w: Weights)
    requires 0.0 <= a <= 3.0 * d && 0.0 <= b <= 3.0 * d && Rising(v, w)
    ensures Blend(y0, d, a, b, v) <= Blend(y0, d, a, b, w)
  {
    AffineOnBox(d, a, b, w.ease - v.ease, w.lead - v.lead, w.lag - v.lag);
    assert d * (w.ease - v.ease) == d * w.ease - d * v.ease;
    assert a * (w.lead - v.lead) == a * w.lead - a * v.lead;
    assert b * (w.lag - v.lag) == b * w.lag - b * v.lag;
  }

  function WeightsOf(t: real): Weights { Weights(Ease(t), Lead(t), Lag(t)) }

  lemma {:induction false} BlendIs(y0: real, d: real, a: real, b: real, w: Weights, e: real, f: real, g: real)
    requires e == w.ease && f == w.lead && g == w.lag
    ensures Blend(y0, d, a, b, w) == y0 + d * e + a * f + b * g
  {
  }

  lemma {:induction false} HermiteBlends(y0: real, y1: real, width: real, m0: real, m1: real, t: real)
    ensures Hermite(y0, y1, width, m0, m1, t) == Blend(y0, y1 - y0, width * m0, width * m1, WeightsOf(t))
  {
    HermiteForm(y0, y1, width, m0, m1, t);
    BlendIs(y0, y1 - y0, width * m0, width * m1, WeightsOf(t), Ease(t), Lead(t), Lag(t));
  }

  lemma {:induction false} WeightsAt(s: real, t: real) returns (v: Weights, w: Weights)
    requires 0.0 <= s <= t <= 1.0
    ensures Rising(v, w)
    ensures forall y0, y1, width, m0, m1 ::
      Hermite(y0, y1, width, m0, m1, s) == Blend(y0, y1 - y0, width * m0, width * m1, v)
    ensures forall y0, y1, width, m0, m1 ::
      Hermite(y0, y1, width, m0, m1, t) == Blend(y0, y1 - y0, width * m0, width * m1, w)
  {
    v, w := WeightsOf(s), WeightsOf(t);
    CornerShapes(s, t);
    forall y0, y1, width, m0, m1
      ensures Hermite(y0, y1, width, m0, m1, s) == Blend(y0, y1 - y0, width * m0, width * m1, v) {
      HermiteBlends(y0, y1, width, m0, m1, s);
    }
    forall y0, y1, width, m0, m1
      ensures Hermite(y0, y1, width, m0, m1, t) == Blend(y0, y1 - y0, width * m0, width * m1, w) {
      HermiteBlends(y0, y1, width, m0, m1, t);
    }
  }

  lemma {:induction false} HermiteRises(y0: real, y1: real, width: real, m0: real, m1: real, s: real, t: real)
    requires width > 0.0 && y0 <= y1 && 0.0 <= s <= t <= 1.0
    requires Tame(m0, (y1 - y0) / width) && Tame(m1, (y1 - y0) / width)
    ensures Hermite(y0, y1, width, m0, m1, s) <= Hermite(y0, y1, width, m0, m1, t)
  {
    var v, w := WeightsAt(s, t);
    ScaledTame(width, y1 - y0, m0);
    ScaledTame(width, y1 - y0, m1);
    BlendRises(y0, y1 - y0, width * m0, width * m1, v, w);
  }

  lemma ScaledTame(width: real, rise: real, m: real)
    requires width > 0.0 && rise >= 0.0 && Tame(m, rise / width)
    ensures 0.0 <= width * m <= 3.0 * rise
  {
    var q := rise / width;
    assert q * width == rise;
    Cancel(0.0, q, width);
    assert width * m >= 0.0;
    assert (3.0 * q - m) * width >= 0.0;
    assert (3.0 * q - m) * width == 3.0 * rise - m * width;
  }

  lemma HermiteForm(y0: real, y1: real, width: real, m0: real, m1: real, t: real)
    ensures Hermite(y0, y1, width, m0, m1, t)
      == y0 + (y1 - y0) * Ease(t) + (width * m0) * Lead(t) + (width * m1) * Lag(t)
  {
    assert (1.0 - Ease(t)) * y0 + Ease(t) * y1 == y0 + (y1 - y0) * Ease(t);
    assert Lead(t) * width * m0 == (width * m0) * Lead(t);
    assert Lag(t) * width * m1 == (width * m1) * Lag(t);
  }

  lemma HermiteNegated(y0: real, y1: real, width: real, m0: real, m1: real, t: real)
    ensures Hermite(-y0, -y1, width, -m0, -m1, t) == -Hermite(y0, y1, width, m0, m1, t)
  {
    HermiteForm(y0, y1, width, m0, m1, t);
    HermiteForm(-y0, -y1, width, -m0, -m1, t);
    assert width * -m0 == -(width * m0) && width * -m1 == -(width * m1);
    NegatedProduct(y1 - y0, Ease(t));
    NegatedProduct(width * m0, Lead(t));
    NegatedProduct(width * m1, Lag(t));
  }

  lemma NegatedProduct(a: real, b: real)
    ensures (-a) * b == -(a * b)
  {
  }

  lemma NegatedQuotient(a: real, b: real)
    requires b > 0.0
    ensures (-a) / b == -(a / b)
  {
    assert (-a) / b * b == -a;
    assert (a / b) * b == a;
    assert -(a / b) * b == -a;
    Cancel((-a) / b, -(a / b), b);
    Cancel(-(a / b), (-a) / b, b);
  }

  /** The cubic meets both knots of every interval. */
  lemma CubicMeetsKnots(x: seq<real>, y: seq<real>, i: nat)
    requires Anchors(x, y) && i < |x| - 1
    ensures CubicAt(x, y, i, 0.0) == y[i] && CubicAt(x, y, i, 1.0) == y[i + 1]
  {
  }

  /** Between two fractions the cubic moves only from its left knot toward its right knot, and
      never leaves the range they span: no overshoot, whatever the anchors. */
  lemma CubicStaysMonotone(x: seq<real>, y: seq<real>, i: nat, s: real, t: real)
    requires Anchors(x, y) && i < |x| - 1 && 0.0 <= s <= t <= 1.0
    ensures y[i] <= y[i + 1] ==> y[i] <= CubicAt(x, y, i, s) <= CubicAt(x, y, i, t) <= y[i + 1]
    ensures y[i] >= y[i + 1] ==> y[i] >= CubicAt(x, y, i, s) >= CubicAt(x, y, i, t) >= y[i + 1]
  {
    SlopesTame(x, y, i);
    CubicMeetsKnots(x, y, i);
    var w := x[i + 1] - x[i];
    var y0, y1, m0, m1 := y[i], y[i + 1], Slope(x, y, i), Slope(x, y, i + 1);
    if y0 <= y1 {
      HermiteRises(y0, y1, w, m0, m1, 0.0, s);
      HermiteRises(y0, y1, w, m0, m1, s, t);
      HermiteRises(y0, y1, w, m0, m1, t, 1.0);
    }
    if y0 >= y1 {
      NegatedQuotient(y1 - y0, w);
      assert -y1 - -y0 == -(y1 - y0);
      HermiteRises(-y0, -y1, w, -m0, -m1, 0.0, s);
      HermiteRises(-y0, -y1, w, -m0, -m1, s, t);
      HermiteRises(-y0, -y1, w, -m0, -m1, t, 1.0);
      HermiteNegated(y0, y1, w, m0, m1, 0.0);
      HermiteNegated(y0, y1, w, m0, m1, s);
      HermiteNegated(y0, y1, w, m0, m1, t);
      HermiteNegated(y0, y1, w, m0, m1, 1.0);
    }
  }

  // ---- what the slopes are ----

  // The secant over the interval after anchor `i`, without a division.
  predicate HasSecant(x: seq<real>, y: seq<real>, i: nat, d: real)
    requires |x| == |y| && i < |x| - 1
  {
    d * (x[i + 1] - x[i]) == y[i + 1] - y[i]
  }

  lemma {:induction false} SecantIs(x: seq<real>, y: seq<real>, i: nat, d: real)
    requires Anchors(x, y) && i < |x| - 1
    ensures HasSecant(x, y, i, d) <==> Secant(x, y, i) == d
  {
    var w, rise := x[i + 1] - x[i], y[i + 1] - y[i];
    assert (rise / w) * w == rise;
    if d * w == rise {
      Cancel(d, rise / w, w);
      Cancel(rise / w, d, w);
    }
  }

  /** An inner slope is zero at a turn or a flat piece; otherwise it lies between the secants `b` and `a` beside
      it and is their harmonic mean, the nearer secant weighing less: 3(w+v)ab over (2v+w)a + (v+2w)b. */
  lemma {:induction false} InnerSlopeIsHarmonic(x: seq<real>, y: seq<real>, i: nat, b: real, a: real)
    requires Anchors(x, y) && 0 < i < |x| - 1 && HasSecant(x, y, i - 1, b) && HasSecant(x, y, i, a)
    ensures
      var (w, v, slope) := (x[i] - x[i - 1], x[i + 1] - x[i], Slope(x, y, i));
      if b * a <= 0.0 then slope == 0.0
      else
        && slope * ((2.0 * v + w) * a + (v + 2.0 * w) * b) == 3.0 * (w + v) * (a * b)
        && (b <= slope <= a || a <= slope <= b)
  {
    SecantIs(x, y, i - 1, b);
    SecantIs(x, y, i, a);
    if b * a > 0.0 {
      HarmonicIs(2.0 * (x[i + 1] - x[i]) + (x[i] - x[i - 1]), x[i + 1] - x[i] + 2.0 * (x[i] - x[i - 1]), b, a);
    }
  }

  // A weighted harmonic mean without its quotients.
  lemma {:induction false} HarmonicIs(f: real, g: real, b: real, a: real)
    requires f > 0.0 && g > 0.0 && b * a > 0.0
    ensures f / b + g / a != 0.0
    ensures
      var m := (f + g) / (f / b + g / a);
      m * (f * a + g * b) == (f + g) * (a * b) && (b <= m <= a || a <= m <= b)
  {
    HarmonicDenominator(f, g, b, a);
    if b > 0.0 {
      Cancel(0.0, a, b);
      HarmonicOfPositives(f, g, b, a);
    } else {
      Cancel(0.0, -a, -b);
      HarmonicOfPositives(f, g, -b, -a);
      HarmonicNegated(f, g, b, a);
      NegatedMean((f + g) / (f / b + g / a), f, g, b, a);
    }
  }

  lemma {:induction false} NegatedMean(m: real, f: real, g: real, b: real, a: real)
    requires (-m) * (f * -a + g * -b) == (f + g) * (-a * -b)
    ensures m * (f * a + g * b) == (f + g) * (a * b)
  {
    assert f * -a + g * -b == -(f * a + g * b);
    assert (-m) * -(f * a + g * b) == m * (f * a + g * b);
    assert -a * -b == a * b;
  }

  lemma {:induction false} HarmonicOfPositives(f: real, g: real, b: real, a: real)
    requires f > 0.0 && g > 0.0 && b > 0.0 && a > 0.0
    ensures f / b + g / a > 0.0
    ensures
      var m := (f + g) / (f / b + g / a);
      m * (f * a + g * b) == (f + g) * (a * b) && (b <= m <= a || a <= m <= b)
  {
    var p, q := f / b, g / a;
    var h := p + q;
    assert p * b == f && q * a == g;
    assert p > 0.0 && q > 0.0;
    var m := (f + g) / h;
    assert m * h == f + g;
    ClearedMean(f, g, b, a, p, q, m);
    if b <= a {
      MeanBetween(p, q, b, a, m);
    } else {
      MeanBetween(q, p, a, b, m);
    }
  }

  lemma {:induction false} ClearedMean(f: real, g: real, b: real, a: real, p: real, q: real, m: real)
    requires p * b == f && q * a == g && m * (p + q) == f + g
    ensures m * (f * a + g * b) == (f + g) * (a * b)
  {
    assert f * a + g * b == (p + q) * (a * b) by {
      assert (p * b) * a == p * (a * b);
      assert (q * a) * b == q * (a * b);
    }
    assert m * ((p + q) * (a * b)) == (m * (p + q)) * (a * b);
  }

  // A mean of two numbers with positive weights lies between them.
  lemma {:induction false} MeanBetween(p: real, q: real, low: real, high: real, m: real)
    requires p > 0.0 && q > 0.0 && low <= high && m * (p + q) == p * low + q * high
    ensures low <= m <= high
  {
    ProductOfNonNegatives(p, high - low);
    ProductOfNonNegatives(q, high - low);
    assert p * (high - low) == p * high - p * low;
    assert q * (high - low) == q * high - q * low;
    assert low * (p + q) == p * low + q * low;
    assert high * (p + q) == p * high + q * high;
    Cancel(low, m, p + q);
    Cancel(m, high, p + q);
  }

  // The parabola c0 + c1 x + c2 x^2 passes the anchor.
  predicate OnParabola(x: seq<real>, y: seq<real>, i: nat, c0: real, c1: real, c2: real)
    requires |x| == |y| && i < |x|
  {
    y[i] == c0 + c1 * x[i] + c2 * (x[i] * x[i])
  }

  // The end slope `p` is limited where it disagrees with the end secant `d`, or overshoots it at a turn.
  predicate LimitedTo(slope: real, p: real, d: real, e: real) {
    if p * d <= 0.0 then slope == 0.0
    else if d * e < 0.0 && (p > 3.0 * d > 0.0 || p < 3.0 * d < 0.0) then slope == 3.0 * d
    else slope == p
  }

  // From anchors at u, u + w and u + w + v, where w and v are both positive or both negative.
  lemma {:induction false} ParabolaEnd(u: real, w: real, v: real, d: real, e: real, c1: real, c2: real)
    requires w + v != 0.0
    requires d == c1 + c2 * (2.0 * u + w) && e == c1 + c2 * (2.0 * u + 2.0 * w + v)
    ensures ((2.0 * w + v) * d - w * e) / (w + v) == c1 + 2.0 * (c2 * u)
  {
    var p := c1 + 2.0 * (c2 * u);
    assert d == p + c2 * w by { assert c2 * (2.0 * u + w) == 2.0 * (c2 * u) + c2 * w; }
    assert e == p + 2.0 * (c2 * w) + c2 * v by {
      assert c2 * (2.0 * u + 2.0 * w + v) == 2.0 * (c2 * u) + 2.0 * (c2 * w) + c2 * v;
    }
    var k := c2 * w;
    assert (2.0 * w + v) * d == (2.0 * w + v) * p + 2.0 * (w * k) + v * k;
    assert w * e == w * p + 2.0 * (w * k) + w * (c2 * v);
    assert w * (c2 * v) == v * k;
    assert (2.0 * w + v) * d - w * e == (w + v) * p;
    assert ((w + v) * p) / (w + v) == p;
  }

  // The secant of a parabola between two points.
  lemma {:induction false} ParabolaSecant(a: real, b: real, ya: real, yb: real, c0: real, c1: real, c2: real, d: real)
    requires a != b && d * (b - a) == yb - ya
    requires ya == c0 + c1 * a + c2 * (a * a) && yb == c0 + c1 * b + c2 * (b * b)
    ensures d == c1 + c2 * (a + b)
  {
    var q := c1 + c2 * (a + b);
    assert c2 * (a + b) * (b - a) == c2 * (b * b) - c2 * (a * a);
    assert q * (b - a) == c1 * (b - a) + c2 * (a + b) * (b - a);
    if a < b {
      Cancel(d, q, b - a);
      Cancel(q, d, b - a);
    } else {
      Cancel(d, q, a - b);
      Cancel(q, d, a - b);
    }
  }

  lemma {:induction false} EndSlopeIsLimited(w: real, v: real, d: real, e: real, p: real)
    requires w > 0.0 && v > 0.0 && p == ((2.0 * w + v) * d - w * e) / (w + v)
    ensures LimitedTo(EndSlope(w, v, d, e), p, d, e)
  {
    if p * d > 0.0 {
      if d > 0.0 {
        Cancel(0.0, p, d);
      } else {
        Cancel(0.0, -p, -d);
      }
    }
  }

  /** An end slope is the derivative `p` there of the parabola through the three outer anchors, limited. */
  lemma {:induction false} FirstSlopeIsParabolic(x: seq<real>, y: seq<real>, c0: real, c1: real, c2: real, d: real,
          e: real, p: real)
    requires Anchors(x, y) && |x| > 2 && HasSecant(x, y, 0, d) && HasSecant(x, y, 1, e)
    requires OnParabola(x, y, 0, c0, c1, c2) && OnParabola(x, y, 1, c0, c1, c2) && OnParabola(x, y, 2, c0, c1, c2)
    requires p == c1 + 2.0 * (c2 * x[0])
    ensures LimitedTo(Slope(x, y, 0), p, d, e)
  {
    SecantIs(x, y, 0, d);
    SecantIs(x, y, 1, e);
    FirstOfThree(x[0], x[1], x[2], y[0], y[1], y[2], c0, c1, c2, d, e, p);
  }

  /** And so is the last one. */
  lemma {:induction false} LastSlopeIsParabolic(x: seq<real>, y: seq<real>, k: nat, c0: real, c1: real, c2: real,
          d: real, e: real, p: real)
    requires Anchors(x, y) && |x| == k + 3 && HasSecant(x, y, k, e) && HasSecant(x, y, k + 1, d)
    requires OnParabola(x, y, k, c0, c1, c2)
    requires OnParabola(x, y, k + 1, c0, c1, c2) && OnParabola(x, y, k + 2, c0, c1, c2)
    requires p == c1 + 2.0 * (c2 * x[k + 2])
    ensures LimitedTo(Slope(x, y, k + 2), p, d, e)
  {
    SecantIs(x, y, k, e);
    SecantIs(x, y, k + 1, d);
    LastOfThree(x[k], x[k + 1], x[k + 2], y[k], y[k + 1], y[k + 2], c0, c1, c2, d, e, p);
  }

  lemma {:induction false} FirstOfThree(a: real, b: real, c: real, ya: real, yb: real, yc: real, c0: real, c1: real,
          c2: real, d: real, e: real, p: real)
    requires a < b < c && d * (b - a) == yb - ya && e * (c - b) == yc - yb
    requires ya == c0 + c1 * a + c2 * (a * a) && yb == c0 + c1 * b + c2 * (b * b) && yc == c0 + c1 * c + c2 * (c * c)
    requires p == c1 + 2.0 * (c2 * a)
    ensures LimitedTo(EndSlope(b - a, c - b, d, e), p, d, e)
  {
    ParabolaSecant(a, b, ya, yb, c0, c1, c2, d);
    ParabolaSecant(b, c, yb, yc, c0, c1, c2, e);
    FirstCandidate(a, b, c, d, e, c1, c2);
    EndSlopeIsLimited(b - a, c - b, d, e, p);
  }

  lemma {:induction false} LastOfThree(a: real, b: real, c: real, ya: real, yb: real, yc: real, c0: real, c1: real,
          c2: real, d: real, e: real, p: real)
    requires a < b < c && d * (c - b) == yc - yb && e * (b - a) == yb - ya
    requires ya == c0 + c1 * a + c2 * (a * a) && yb == c0 + c1 * b + c2 * (b * b) && yc == c0 + c1 * c + c2 * (c * c)
    requires p == c1 + 2.0 * (c2 * c)
    ensures LimitedTo(EndSlope(c - b, b - a, d, e), p, d, e)
  {
    ParabolaSecant(b, c, yb, yc, c0, c1, c2, d);
    ParabolaSecant(a, b, ya, yb, c0, c1, c2, e);
    LastCandidate(a, b, c, d, e, c1, c2);
    EndSlopeIsLimited(c - b, b - a, d, e, p);
  }

  lemma {:induction false} FirstCandidate(a: real, b: real, c: real, d: real, e: real, c1: real, c2: real)
    requires a < b < c && d == c1 + c2 * (a + b) && e == c1 + c2 * (b + c)
    ensures ((2.0 * (b - a) + (c - b)) * d - (b - a) * e) / ((b - a) + (c - b)) == c1 + 2.0 * (c2 * a)
  {
    var w, v := b - a, c - b;
    assert 2.0 * a + w == a + b && 2.0 * a + 2.0 * w + v == b + c;
    ParabolaEnd(a, w, v, d, e, c1, c2);
  }

  lemma {:induction false} LastCandidate(a: real, b: real, c: real, d: real, e: real, c1: real, c2: real)
    requires a < b < c && d == c1 + c2 * (b + c) && e == c1 + c2 * (a + b)
    ensures ((2.0 * (c - b) + (b - a)) * d - (c - b) * e) / ((c - b) + (b - a)) == c1 + 2.0 * (c2 * c)
  {
    var w, v := c - b, b - a;
    assert 2.0 * c + -w == b + c && 2.0 * c + 2.0 * -w + -v == a + b;
    ParabolaEnd(c, -w, -v, d, e, c1, c2);
    MirroredEnd(w, v, d, e);
  }

  lemma {:induction false} MirroredEnd(w: real, v: real, d: real, e: real)
    requires w > 0.0 && v > 0.0
    ensures ((2.0 * -w + -v) * d - -w * e) / (-w + -v) == ((2.0 * w + v) * d - w * e) / (w + v)
  {
    var top := (2.0 * w + v) * d - w * e;
    assert (2.0 * -w + -v) * d - -w * e == -top;
    assert -w + -v == -(w + v);
    assert (top / (w + v)) * (w + v) == top;
    assert (-top) / -(w + v) == top / (w + v);
  }

  // ---- what the cubic is ----

  function Cubic(c0: real, c1: real, c2: real, c3: real, t: real): real {
    c0 + c1 * t + c2 * (t * t) + c3 * (t * t * t)
  }

  /** The value on an interval is that of the one cubic with the knots' values and the slopes at both ends. */
  lemma {:induction false} CubicIsDetermined(x: seq<real>, y: seq<real>, i: nat, width: real, m0: real, m1: real,
          c0: real, c1: real, c2: real, c3: real, t: real)
    requires Anchors(x, y) && i < |x| - 1
    requires width == x[i + 1] - x[i] && m0 == Slope(x, y, i) && m1 == Slope(x, y, i + 1)
    requires c0 == y[i] && c0 + c1 + c2 + c3 == y[i + 1]
    requires c1 == width * m0 && c1 + 2.0 * c2 + 3.0 * c3 == width * m1
    ensures CubicAt(x, y, i, t) == Cubic(c0, c1, c2, c3, t)
  {
    HermiteIsCubic(y[i], y[i + 1], width, m0, m1, c0, c1, c2, c3, t);
  }

  lemma {:induction false} HermiteIsCubic(y0: real, y1: real, width: real, m0: real, m1: real, c0: real, c1: real,
          c2: real, c3: real, t: real)
    requires c0 == y0 && c0 + c1 + c2 + c3 == y1
    requires c1 == width * m0 && c1 + 2.0 * c2 + 3.0 * c3 == width * m1
    ensures Hermite(y0, y1, width, m0, m1, t) == Cubic(c0, c1, c2, c3, t)
  {
    var w := WeightsFor(t);
    BlendOfEquals(y0, y1 - y0, width * m0, width * m1, c0, c1 + c2 + c3, c1, c1 + 2.0 * c2 + 3.0 * c3, w);
  }

  lemma {:induction false} BlendOfEquals(y0: real, d: real, a: real, b: real, c0: real, e: real, f: real, g: real,
          w: Weights)
    requires y0 == c0 && d == e && a == f && b == g
    ensures Blend(y0, d, a, b, w) == Blend(c0, e, f, g, w)
  {
  }

  lemma {:induction false} WeightsFor(t: real) returns (w: Weights)
    ensures forall y0, y1, width, m0, m1 ::
      Hermite(y0, y1, width, m0, m1, t) == Blend(y0, y1 - y0, width * m0, width * m1, w)
    ensures forall c0, c1, c2, c3 ::
      Blend(c0, c1 + c2 + c3, c1, c1 + 2.0 * c2 + 3.0 * c3, w) == Cubic(c0, c1, c2, c3, t)
  {
    w := WeightsOf(t);
    forall y0, y1, width, m0, m1
      ensures Hermite(y0, y1, width, m0, m1, t) == Blend(y0, y1 - y0, width * m0, width * m1, w) {
      HermiteBlends(y0, y1, width, m0, m1, t);
    }
    forall c0, c1, c2, c3
      ensures Blend(c0, c1 + c2 + c3, c1, c1 + 2.0 * c2 + 3.0 * c3, w) == Cubic(c0, c1, c2, c3, t) {
      CollectPowers(c0, c1, c2, c3, t);
    }
  }

  lemma {:induction false} CollectPowers(c0: real, c1: real, c2: real, c3: real, t: real)
    ensures Blend(c0, c1 + c2 + c3, c1, c1 + 2.0 * c2 + 3.0 * c3, WeightsOf(t)) == Cubic(c0, c1, c2, c3, t)
  {
    var q, r := t * t, t * t * t;
    assert (c1 + c2 + c3) * (3.0 * q - 2.0 * r) == 3.0 * (c1 * q) + 3.0 * (c2 * q) + 3.0 * (c3 * q)
      - 2.0 * (c1 * r) - 2.0 * (c2 * r) - 2.0 * (c3 * r);
    assert c1 * (r - 2.0 * q + t) == c1 * r - 2.0 * (c1 * q) + c1 * t;
    assert (c1 + 2.0 * c2 + 3.0 * c3) * (r - q) == c1 * r - c1 * q + 2.0 * (c2 * r) - 2.0 * (c2 * q)
      + 3.0 * (c3 * r) - 3.0 * (c3 * q);
  }

  /** Points on a line are drawn as that line. */
  lemma {:induction false} LineIsDrawn(x: seq<real>, y: seq<real>, i: nat, c: real, d: real, t: real, u: real)
    requires Anchors(x, y) && i < |x| - 1 && forall k :: 0 <= k < |x| ==> y[k] == c + d * x[k]
    requires u == x[i] + t * (x[i + 1] - x[i])
    ensures CubicAt(x, y, i, t) == c + d * u
  {
    LineCubic(x, y, i, c, d, t);
    assert y[i] == c + d * x[i] && y[i + 1] == c + d * x[i + 1];
    LinePoint(x[i], x[i + 1], y[i], y[i + 1], x[i + 1] - x[i], c, d, t, u);
  }

  lemma {:induction false} LineCubic(x: seq<real>, y: seq<real>, i: nat, c: real, d: real, t: real)
    requires Anchors(x, y) && i < |x| - 1 && forall k :: 0 <= k < |x| ==> y[k] == c + d * x[k]
    ensures CubicAt(x, y, i, t) == Hermite(y[i], y[i + 1], x[i + 1] - x[i], d, d, t)
  {
    LineSlope(x, y, i, c, d);
    LineSlope(x, y, i + 1, c, d);
  }

  lemma {:induction false} LinePoint(a: real, b: real, y0: real, y1: real, width: real, c: real, d: real, t: real,
          u: real)
    requires y0 == c + d * a && y1 == c + d * b && width == b - a && u == a + t * width
    ensures Hermite(y0, y1, width, d, d, t) == c + d * u
  {
    assert width * d == d * b - d * a;
    HermiteIsCubic(y0, y1, width, d, d, y0, width * d, 0.0, 0.0, t);
    assert Cubic(y0, width * d, 0.0, 0.0, t) == c + d * u by {
      assert d * (a + t * width) == d * a + (width * d) * t;
    }
  }

  lemma {:induction false} LineSlope(x: seq<real>, y: seq<real>, i: nat, c: real, d: real)
    requires Anchors(x, y) && i < |x| && forall k :: 0 <= k < |x| ==> y[k] == c + d * x[k]
    ensures Slope(x, y, i) == d
  {
    forall k | 0 <= k < |x| - 1 ensures Secant(x, y, k) == d {
      assert d * (x[k + 1] - x[k]) == d * x[k + 1] - d * x[k];
      assert HasSecant(x, y, k, d);
      SecantIs(x, y, k, d);
    }
    if 0 < i < |x| - 1 {
      EqualSecants(x[i] - x[i - 1], x[i + 1] - x[i], d);
    } else if i == 0 {
      EqualEnds(x[1] - x[0], if |x| > 2 then x[2] - x[1] else 1.0, d);
    } else {
      EqualEnds(x[i] - x[i - 1], if |x| > 2 then x[i - 1] - x[i - 2] else 1.0, d);
    }
  }

  lemma {:induction false} EqualSecants(w: real, v: real, d: real)
    requires w > 0.0 && v > 0.0
    ensures InnerSlope(w, v, d, d) == d
  {
    SquareIsNonNegative(d);
    if d * d > 0.0 {
      HarmonicIs(2.0 * v + w, v + 2.0 * w, d, d);
    }
  }

  lemma {:induction false} EqualEnds(w: real, v: real, d: real)
    requires w > 0.0 && v > 0.0
    ensures EndSlope(w, v, d, d) == d
  {
    assert (2.0 * w + v) * d - w * d == (w + v) * d;
    assert ((w + v) * d) / (w + v) == d;
    SquareIsNonNegative(d);
  }
}
