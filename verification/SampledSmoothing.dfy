/** Smoothing of a sampled series through its knots (scripts/graph_live_evidence.py, lines 1458-1506). */
module SampledSmoothing {
  import opened Basics
  import opened MonotoneCubic

  predicate IsKnot(times: seq<int>, values: seq<real>, keptTimes: set<int>, keptIndices: set<int>, k: nat)
    requires |times| == |values| && k < |values|
  {
    || k == 0
    || k == |values| - 1
    || times[k] in keptTimes
    || k in keptIndices
    || (values[k] != values[k - 1] && values[k] != values[k + 1])
  }

  // The knots among the first `n` samples, in order.
  function Knots(times: seq<int>, values: seq<real>, keptTimes: set<int>, keptIndices: set<int>, n: nat): (r: seq<nat>)
    requires |times| == |values| && n <= |values|
    ensures forall j :: 0 <= j < |r| ==> r[j] < n
  {
    if n == 0 then []
    else
      var before := Knots(times, values, keptTimes, keptIndices, n - 1);
      if IsKnot(times, values, keptTimes, keptIndices, n - 1) then before + [n - 1] else before
  }

  function KnotTimes(times: seq<int>, knots: seq<nat>): seq<real>
    requires forall j :: 0 <= j < |knots| ==> knots[j] < |times|
  {
    seq(|knots|, j requires 0 <= j < |knots| => times[knots[j]] as real)
  }

  function KnotValues(values: seq<real>, knots: seq<nat>): seq<real>
    requires forall j :: 0 <= j < |knots| ==> knots[j] < |values|
  {
    seq(|knots|, j requires 0 <= j < |knots| => values[knots[j]])
  }

  function FirstAt(kt: seq<real>, t: real, j: nat): (r: nat)
    requires j <= |kt| && exists i :: j <= i < |kt| && kt[i] == t
    ensures j <= r < |kt| && kt[r] == t
    decreases |kt| - j
  {
    if kt[j] == t then j else FirstAt(kt, t, j + 1)
  }

  function FirstAfter(kt: seq<real>, t: real, j: nat): (r: nat)
    requires j <= |kt|
    ensures j <= r <= |kt| && (r < |kt| ==> kt[r] > t) && forall i :: j <= i < r ==> kt[i] <= t
    decreases |kt| - j
  {
    if j == |kt| || kt[j] > t then j else FirstAfter(kt, t, j + 1)
  }

  function SmoothedAt(kt: seq<real>, kv: seq<real>, t: real): Result<real, CubicError>
    requires |kt| == |kv| && |kt| >= 2
  {
    if t in kt then Ok(kv[FirstAt(kt, t, 0)])
    else
      var right := FirstAfter(kt, t, 0);
      if right == 0 then Ok(kv[0])
      else if right == |kt| then Ok(kv[|kt| - 1])
      else
        var left := right - 1;
        if Anchors(kt, kv) then Ok(CubicAt(kt, kv, left, (t - kt[left]) / (kt[right] - kt[left])))
        else Err(UnorderedAnchors)
  }

  // One value for each of the first `n` samples, or the first failure.
  function SmoothedPrefix(kt: seq<real>, kv: seq<real>, times: seq<int>, n: nat): Result<seq<real>, CubicError>
    requires |kt| == |kv| && |kt| >= 2 && n <= |times|
  {
    if n == 0 then Ok([])
    else
      var before := SmoothedPrefix(kt, kv, times, n - 1);
      if before.Err? then before
      else
        var point := SmoothedAt(kt, kv, times[n - 1] as real);
        if point.Err? then Err(point.error) else Ok(before.value + [point.value])
  }

  ghost function Smoothed(times: seq<int>, values: seq<real>, keptTimes: set<int>,
          keptIndices: set<int>): Result<seq<real>, CubicError> {
    if |times| != |values| || |values| < 3 then Ok(values)
    else
      var knots := Knots(times, values, keptTimes, keptIndices, |values|);
      KnotsSpan(times, values, keptTimes, keptIndices);
      SmoothedPrefix(KnotTimes(times, knots), KnotValues(values, knots), times, |times|)
  }

  method SmoothPoint(kt: seq<real>, kv: seq<real>, t: real) returns (r: Result<real, CubicError>)
    requires |kt| == |kv| && |kt| >= 2
    ensures r == SmoothedAt(kt, kv, t)
  {
    if t in kt {
      return Ok(kv[FirstAt(kt, t, 0)]);
    }
    var right := FirstAfter(kt, t, 0);
    if right == 0 {
      return Ok(kv[0]);
    } else if right >= |kt| {
      return Ok(kv[|kv| - 1]);
    }
    var left := right - 1;
    var fraction := (t - kt[left]) / (kt[right] - kt[left]);
    FractionInUnit(kt[left], kt[right], t);
    var point := IntervalValues(kt, kv, left, [fraction]);
    if point.Err? {
      return Err(point.error);
    }
    return Ok(point.value[0]);
  }

  method CollectKnots(times: seq<int>, values: seq<real>, keptTimes: set<int>, keptIndices: set<int>)
      returns (knots: seq<nat>)
    requires |times| == |values|
    ensures knots == Knots(times, values, keptTimes, keptIndices, |values|)
  {
    knots := [];
    for k := 0 to |values|
      invariant knots == Knots(times, values, keptTimes, keptIndices, k)
    {
      if IsKnot(times, values, keptTimes, keptIndices, k) {
        knots := knots + [k];
      }
    }
  }

  method SmoothPoints(kt: seq<real>, kv: seq<real>, times: seq<int>) returns (r: Result<seq<real>, CubicError>)
    requires |kt| == |kv| && |kt| >= 2
    ensures r == SmoothedPrefix(kt, kv, times, |times|)
  {
    var smoothed: seq<real> := [];
    for k := 0 to |times|
      invariant SmoothedPrefix(kt, kv, times, k) == Ok(smoothed)
    {
      var point := SmoothPoint(kt, kv, times[k] as real);
      if point.Err? {
        SmoothedPrefixFails(kt, kv, times, k + 1, |times|);
        return Err(point.error);
      }
      smoothed := smoothed + [point.value];
    }
    return Ok(smoothed);
  }

  method Smooth(times: seq<int>, values: seq<real>, keptTimes: set<int>, keptIndices: set<int>)
    returns (r: Result<seq<real>, CubicError>)
    ensures r == Smoothed(times, values, keptTimes, keptIndices)
  {
    if |times| != |values| || |values| < 3 {
      return Ok(values);
    }
    var knots := CollectKnots(times, values, keptTimes, keptIndices);
    KnotsSpan(times, values, keptTimes, keptIndices);
    r := SmoothPoints(KnotTimes(times, knots), KnotValues(values, knots), times);
  }

  lemma SmoothedPrefixFails(kt: seq<real>, kv: seq<real>, times: seq<int>, n: nat, m: nat)
    requires |kt| == |kv| && |kt| >= 2 && n <= m <= |times| && SmoothedPrefix(kt, kv, times, n).Err?
    ensures SmoothedPrefix(kt, kv, times, m) == SmoothedPrefix(kt, kv, times, n)
  {
  }

  lemma {:induction false} SmoothedPrefixAt(kt: seq<real>, kv: seq<real>, times: seq<int>, n: nat)
    requires |kt| == |kv| && |kt| >= 2 && n <= |times|
    requires forall k :: 0 <= k < n ==> SmoothedAt(kt, kv, times[k] as real).Ok?
    ensures var r := SmoothedPrefix(kt, kv, times, n);
      r.Ok? && |r.value| == n && forall k :: 0 <= k < n ==> r.value[k] == SmoothedAt(kt, kv, times[k] as real).value
  {
    if n > 0 {
      SmoothedPrefixAt(kt, kv, times, n - 1);
    }
  }

  lemma FractionInUnit(a: real, b: real, t: real)
    requires a <= t <= b && a < b
    ensures 0.0 <= (t - a) / (b - a) <= 1.0
  {
    var f := (t - a) / (b - a);
    assert f * (b - a) == t - a;
    Cancel(0.0, f, b - a);
    Cancel(f, 1.0, b - a);
  }

  lemma FractionsOrdered(a: real, b: real, s: real, t: real)
    requires a <= s <= t <= b && a < b
    ensures (s - a) / (b - a) <= (t - a) / (b - a)
  {
    assert (s - a) / (b - a) * (b - a) == s - a;
    assert (t - a) / (b - a) * (b - a) == t - a;
    Cancel((s - a) / (b - a), (t - a) / (b - a), b - a);
  }

  // ---- which samples become knots ----

  /** A sample gives up its value only inside the series, where nothing preserves it and it equals a neighbour. */
  lemma {:induction false} KnotIff(times: seq<int>, values: seq<real>, keptTimes: set<int>, keptIndices: set<int>,
          k: nat)
    requires |times| == |values| && k < |values|
    ensures !IsKnot(times, values, keptTimes, keptIndices, k) <==>
      && 0 < k < |values| - 1 && times[k] !in keptTimes && k !in keptIndices
      && (values[k - 1] == values[k] || values[k] == values[k + 1])
  {
  }

  lemma KnotsOrdered(times: seq<int>, values: seq<real>, keptTimes: set<int>, keptIndices: set<int>, n: nat)
    requires |times| == |values| && n <= |values|
    ensures var r := Knots(times, values, keptTimes, keptIndices, n);
      && (forall i, j :: 0 <= i < j < |r| ==> r[i] < r[j])
      && (forall k :: 0 <= k < n ==> (k in r <==> IsKnot(times, values, keptTimes, keptIndices, k)))
  {
  }

  lemma {:induction false} KnotsSpan(times: seq<int>, values: seq<real>, keptTimes: set<int>, keptIndices: set<int>)
    requires |times| == |values| >= 3
    ensures var r := Knots(times, values, keptTimes, keptIndices, |values|);
      |r| >= 2 && r[0] == 0 && r[|r| - 1] == |values| - 1
  {
    var r := Knots(times, values, keptTimes, keptIndices, |values|);
    KnotsOrdered(times, values, keptTimes, keptIndices, |values|);
    assert forall i :: 0 < i < |r| ==> r[0] < r[i];
    assert 0 in r && |values| - 1 in r;
    assert r[|r| - 1] == |values| - 1;
  }

  // ---- shape ----

  predicate NonDecreasing(values: seq<real>) { forall i, j :: 0 <= i <= j < |values| ==> values[i] <= values[j] }

  // Knot times and values in the form the ordered-series lemmas below need.
  ghost predicate OrderedKnots(kt: seq<real>, kv: seq<real>) {
    && |kt| == |kv| >= 2
    && (forall i, j :: 0 <= i < j < |kt| ==> kt[i] < kt[j])
    && NonDecreasing(kv)
  }

  lemma {:induction false} NothingOf(width: real)
    requires width > 0.0
    ensures 0.0 / width == 0.0
  {
  }

  // Everything SmoothedAt can do inside the span of ordered knots is one cubic, or the last knot.
  lemma SmoothedIsCubic(kt: seq<real>, kv: seq<real>, t: real)
    requires OrderedKnots(kt, kv) && kt[0] <= t <= kt[|kt| - 1]
    ensures var p := FirstAfter(kt, t, 0);
      && 1 <= p
      && Anchors(kt, kv)
      && (p == |kt| ==> SmoothedAt(kt, kv, t) == Ok(kv[p - 1]))
      && (p < |kt| ==> kt[p - 1] <= t < kt[p])
      && (p < |kt| ==> SmoothedAt(kt, kv, t) == Ok(CubicAt(kt, kv, p - 1, (t - kt[p - 1]) / (kt[p] - kt[p - 1]))))
  {
    var p := FirstAfter(kt, t, 0);
    if t in kt {
      var j := FirstAt(kt, t, 0);
      assert p == j + 1;
      if p < |kt| {
        CubicMeetsKnots(kt, kv, j);
        assert kt[j] == t && kt[j] < kt[p];
        NothingOf(kt[p] - kt[j]);
      }
    }
  }

  lemma SmoothedWithin(kt: seq<real>, kv: seq<real>, t: real)
    requires OrderedKnots(kt, kv) && kt[0] <= t <= kt[|kt| - 1]
    ensures var p := FirstAfter(kt, t, 0);
      1 <= p && SmoothedAt(kt, kv, t).Ok?
      && kv[p - 1] <= SmoothedAt(kt, kv, t).value && (p < |kt| ==> SmoothedAt(kt, kv, t).value <= kv[p])
      && (p == |kt| ==> SmoothedAt(kt, kv, t).value == kv[p - 1])
  {
    SmoothedIsCubic(kt, kv, t);
    var p := FirstAfter(kt, t, 0);
    if p < |kt| {
      FractionInUnit(kt[p - 1], kt[p], t);
      var f := (t - kt[p - 1]) / (kt[p] - kt[p - 1]);
      CubicStaysMonotone(kt, kv, p - 1, f, f);
    }
  }

  lemma SmoothedOrdered(kt: seq<real>, kv: seq<real>, s: real, t: real)
    requires OrderedKnots(kt, kv) && kt[0] <= s <= t <= kt[|kt| - 1]
    ensures SmoothedAt(kt, kv, s).Ok? && SmoothedAt(kt, kv, t).Ok?
    ensures SmoothedAt(kt, kv, s).value <= SmoothedAt(kt, kv, t).value
  {
    SmoothedWithin(kt, kv, s);
    SmoothedWithin(kt, kv, t);
    var p, q := FirstAfter(kt, s, 0), FirstAfter(kt, t, 0);
    assert p <= q;
    if p == q {
      SmoothedIsCubic(kt, kv, s);
      SmoothedIsCubic(kt, kv, t);
      if p < |kt| {
        FractionInUnit(kt[p - 1], kt[p], s);
        FractionInUnit(kt[p - 1], kt[p], t);
        FractionsOrdered(kt[p - 1], kt[p], s, t);
        CubicStaysMonotone(kt, kv, p - 1, (s - kt[p - 1]) / (kt[p] - kt[p - 1]), (t - kt[p - 1]) / (kt[p] - kt[p - 1]));
      }
    } else {
      assert kv[p] <= kv[q - 1];
    }
  }

  /** Smoothing a rising series never fails, keeps the length, keeps every knot (both ends
      included) exactly, and never makes a value smaller than an earlier one, whichever samples
      the caller asks to preserve. */
  lemma {:induction false} SmoothingKeepsShape(times: seq<int>, values: seq<real>, keptTimes: set<int>,
          keptIndices: set<int>)
    requires |times| == |values| && Increasing(times) && NonDecreasing(values)
    ensures var r := Smoothed(times, values, keptTimes, keptIndices);
      && r.Ok? && |r.value| == |values| && NonDecreasing(r.value)
      && forall k :: 0 <= k < |values| && IsKnot(times, values, keptTimes, keptIndices, k) ==> r.value[k] == values[k]
  {
    if |values| >= 3 {
      var knots := Knots(times, values, keptTimes, keptIndices, |values|);
      var kt, kv := KnotTimes(times, knots), KnotValues(values, knots);
      KnotsOrdered(times, values, keptTimes, keptIndices, |values|);
      KnotsSpan(times, values, keptTimes, keptIndices);
      SeriesOrdered(times, values, knots);
      forall i, j | 0 <= i <= j < |values|
        ensures SmoothedAt(kt, kv, times[i] as real).Ok? && SmoothedAt(kt, kv, times[j] as real).Ok?
        ensures SmoothedAt(kt, kv, times[i] as real).value <= SmoothedAt(kt, kv, times[j] as real).value
      {
        SmoothedOrdered(kt, kv, times[i] as real, times[j] as real);
      }
      forall k | 0 <= k < |times|
        ensures SmoothedAt(kt, kv, times[k] as real).Ok?
      {
        SmoothedOrdered(kt, kv, times[k] as real, times[k] as real);
      }
      SmoothedPrefixAt(kt, kv, times, |times|);
      forall k | 0 <= k < |values| && IsKnot(times, values, keptTimes, keptIndices, k)
        ensures SmoothedAt(kt, kv, times[k] as real) == Ok(values[k])
      {
        var p :| 0 <= p < |knots| && knots[p] == k;
        KnotKept(kt, kv, times[k] as real, p);
      }
    }
  }

  // At a knot the smoothed value is the knot's own.
  lemma {:induction false} KnotKept(kt: seq<real>, kv: seq<real>, t: real, p: nat)
    requires OrderedKnots(kt, kv) && p < |kt| && kt[p] == t
    ensures SmoothedAt(kt, kv, t) == Ok(kv[p])
  {
    assert FirstAt(kt, t, 0) == p;
  }

  lemma {:induction false} SeriesOrdered(times: seq<int>, values: seq<real>, knots: seq<nat>)
    requires |times| == |values| && Increasing(times) && NonDecreasing(values) && |knots| >= 2
    requires forall i, j :: 0 <= i < j < |knots| ==> knots[i] < knots[j]
    requires forall j :: 0 <= j < |knots| ==> knots[j] < |values|
    requires knots[0] == 0 && knots[|knots| - 1] == |values| - 1
    ensures OrderedKnots(KnotTimes(times, knots), KnotValues(values, knots))
    ensures forall k :: 0 <= k < |times| ==>
        KnotTimes(times, knots)[0] <= times[k] as real <= KnotTimes(times, knots)[|knots| - 1]
  {
    forall i, j | 0 <= i < j < |knots|
      ensures times[knots[i]] as real < times[knots[j]] as real && values[knots[i]] <= values[knots[j]]
    {
      assert knots[i] < knots[j];
    }
  }

  /** The values of samples that are no knots do not matter: two series with the same knots are smoothed alike. */
  lemma {:induction false} OnlyKnotsMatter(times: seq<int>, values: seq<real>, others: seq<real>, keptTimes: set<int>,
          keptIndices: set<int>)
    requires |times| == |values| == |others| >= 3
    requires forall k :: 0 <= k < |values| ==>
      (IsKnot(times, values, keptTimes, keptIndices, k) <==> IsKnot(times, others, keptTimes, keptIndices, k))
    requires forall k :: 0 <= k < |values| && IsKnot(times, values, keptTimes, keptIndices, k) ==>
      values[k] == others[k]
    ensures Smoothed(times, values, keptTimes, keptIndices) == Smoothed(times, others, keptTimes, keptIndices)
  {
    SameKnots(times, values, others, keptTimes, keptIndices, |values|);
    var knots := Knots(times, values, keptTimes, keptIndices, |values|);
    KnotsOrdered(times, values, keptTimes, keptIndices, |values|);
    assert KnotValues(values, knots) == KnotValues(others, knots);
  }

  lemma {:induction false} SameKnots(times: seq<int>, values: seq<real>, others: seq<real>, keptTimes: set<int>,
          keptIndices: set<int>, n: nat)
    requires |times| == |values| == |others| && n <= |values|
    requires forall k :: 0 <= k < |values| ==>
      (IsKnot(times, values, keptTimes, keptIndices, k) <==> IsKnot(times, others, keptTimes, keptIndices, k))
    ensures Knots(times, values, keptTimes, keptIndices, n) == Knots(times, others, keptTimes, keptIndices, n)
  {
    if n > 0 {
      SameKnots(times, values, others, keptTimes, keptIndices, n - 1);
    }
  }
}
