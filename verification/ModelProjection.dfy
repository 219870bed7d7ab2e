/** From sparse cumulative readings to a displayable monotone series
    (scripts/graph_live_evidence.py, lines 497-624). Each pass of the source is one function on the
    whole list of evidence and one method that updates the list in place. */
module ModelProjection {
  import opened Basics
  import opened GraphRows

  // ---- pass 1: screen the readings against a running baseline ----

  predicate Isolated(rows: seq<Row>, raw: seq<Option<real>>, gaps: seq<Gap>, k: nat)
    requires |raw| == |rows| && k < |rows|
  {
    && 0 < k < |rows| - 1
    && raw[k - 1].Some? && raw[k].Some? && raw[k + 1].Some?
    && !HardBreak(rows[k - 1].timestamp, rows[k].timestamp, gaps)
    && !HardBreak(rows[k].timestamp, rows[k + 1].timestamp, gaps)
    && raw[k - 1].value <= raw[k + 1].value
    && (raw[k].value < raw[k - 1].value || raw[k].value > raw[k + 1].value)
  }

  // The last accepted reading among the first `k` rows.
  function Baseline(rows: seq<Row>, raw: seq<Option<real>>, gaps: seq<Gap>, k: nat): Option<real>
    requires |raw| == |rows| && k <= |rows|
    decreases k, 0
  {
    if k == 0 then None
    else if Accepted(rows, raw, gaps, k - 1) then raw[k - 1]
    else Baseline(rows, raw, gaps, k - 1)
  }

  predicate Accepted(rows: seq<Row>, raw: seq<Option<real>>, gaps: seq<Gap>, k: nat)
    requires |raw| == |rows| && k < |rows|
    decreases k, 1
  {
    var baseline := Baseline(rows, raw, gaps, k);
    && !rows[k].synthetic && raw[k].Some? && !Isolated(rows, raw, gaps, k)
    && !(baseline.Some? && raw[k].value < baseline.value)
  }

  function ScreenedAt(rows: seq<Row>, raw: seq<Option<real>>, gaps: seq<Gap>, k: nat): Evidence
    requires |raw| == |rows| && k < |rows|
  {
    var baseline := Baseline(rows, raw, gaps, k);
    if rows[k].synthetic then Evidence(baseline, false, Held, true)
    else if raw[k].None? then Evidence(None, false, Unknown, false)
    else if !Accepted(rows, raw, gaps, k) then Evidence(baseline, false, Rejected, false)
    else if rows[k].source.Confirmed? then Evidence(raw[k], true, Direct, false)
    else Evidence(raw[k], false, Legacy, false)
  }

  function Screened(rows: seq<Row>, raw: seq<Option<real>>, gaps: seq<Gap>): (r: seq<Evidence>)
    requires |raw| == |rows|
    ensures |r| == |rows|
  {
    seq(|rows|, k requires 0 <= k < |rows| => ScreenedAt(rows, raw, gaps, k))
  }

  method ScreenRows(rows: seq<Row>, raw: seq<Option<real>>, gaps: seq<Gap>) returns (r: seq<Evidence>)
    requires |raw| == |rows|
    ensures r == Screened(rows, raw, gaps)
  {
    var isolated: set<nat> := {};
    var middle := 1;
    while middle < |rows| - 1
      invariant 1 <= middle
      invariant isolated == set j | 0 <= j < middle && j < |rows| && Isolated(rows, raw, gaps, j)
    {
      if Isolated(rows, raw, gaps, middle) {
        isolated := isolated + {middle};
      }
      middle := middle + 1;
    }
    var baseline: Option<real> := None;
    r := [];
    for k := 0 to |rows|
      invariant baseline == Baseline(rows, raw, gaps, k)
      invariant |r| == k && forall j :: 0 <= j < k ==> r[j] == ScreenedAt(rows, raw, gaps, j)
    {
      if rows[k].synthetic {
        r := r + [Evidence(baseline, false, Held, true)];
      } else if raw[k].None? {
        r := r + [Evidence(None, false, Unknown, false)];
      } else if k in isolated || (baseline.Some? && raw[k].value < baseline.value) {
        r := r + [Evidence(baseline, false, Rejected, false)];
      } else {
        baseline := raw[k];
        var direct := rows[k].source.Confirmed?;
        r := r + [Evidence(raw[k], direct, if direct then Direct else Legacy, false)];
      }
    }
  }

  // ---- pass 2: fill holes between consecutive direct points ----

  predicate IsAnchor(e: Evidence) { e.value.Some? && e.origin.Direct? }

  function PreviousAnchor(s: seq<Evidence>, k: nat): (r: int)
    requires k <= |s|
    ensures -1 <= r < k
    ensures r >= 0 ==> IsAnchor(s[r])
    ensures forall j :: r < j < k ==> !IsAnchor(s[j])
  {
    if k == 0 then -1 else if IsAnchor(s[k - 1]) then k - 1 else PreviousAnchor(s, k - 1)
  }

  function NextAnchor(s: seq<Evidence>, k: nat): (r: nat)
    requires k <= |s|
    ensures k <= r <= |s|
    ensures r < |s| ==> IsAnchor(s[r])
    ensures forall j :: k <= j < r ==> !IsAnchor(s[j])
    decreases |s| - k
  {
    if k == |s| || IsAnchor(s[k]) then k else NextAnchor(s, k + 1)
  }

  // The affine estimate `part` of the way through `elapsed` seconds.
  function Affine(a: real, b: real, part: int, elapsed: int): real
    requires elapsed > 0
  {
    a + (b - a) * (part as real / elapsed as real)
  }

  // What the hole at `k` between anchors `left` and `right` becomes.
  function Bridge(rows: seq<Row>, s: seq<Evidence>, left: nat, right: nat, k: nat): Evidence
    requires |s| == |rows| && left < k < right < |s| && IsAnchor(s[left]) && IsAnchor(s[right])
  {
    var a, b := s[left].value.value, s[right].value.value;
    var elapsed := rows[right].timestamp - rows[left].timestamp;
    if s[k].value.Some? || b < a || elapsed <= 0 then s[k]
    else if b == a then Evidence(Some(a), true, BoundedFlat, false)
    else Evidence(Some(Affine(a, b, rows[k].timestamp - rows[left].timestamp, elapsed)), false, Interpolated, false)
  }

  function FilledAt(rows: seq<Row>, s: seq<Evidence>, k: nat): Evidence
    requires |s| == |rows| && k < |s|
  {
    var left, right := PreviousAnchor(s, k), NextAnchor(s, k);
    if left < 0 || right == |s| || right == k then s[k] else Bridge(rows, s, left, right, k)
  }

  function Filled(rows: seq<Row>, s: seq<Evidence>): (r: seq<Evidence>)
    requires |s| == |rows|
    ensures |r| == |s|
  {
    seq(|s|, k requires 0 <= k < |s| => FilledAt(rows, s, k))
  }

  // The pairs of the source: anchors in order, with none left out.
  ghost predicate AnchorList(s: seq<Evidence>, anchors: seq<nat>, n: nat) {
    && n <= |s|
    && (forall i, j :: 0 <= i < j < |anchors| ==> anchors[i] < anchors[j])
    && (forall j :: 0 <= j < |anchors| ==> anchors[j] < n && IsAnchor(s[anchors[j]]))
    && (forall j :: 0 <= j < n && IsAnchor(s[j]) ==> j in anchors)
  }

  lemma {:induction false} NothingBetween(anchors: seq<nat>, p: nat, q: nat)
    requires p + 1 < |anchors| && q < |anchors|
    requires forall i, j :: 0 <= i < j < |anchors| ==> anchors[i] < anchors[j]
    ensures !(anchors[p] < anchors[q] < anchors[p + 1])
  {
  }

  lemma {:induction false} NeighbouringAnchors(s: seq<Evidence>, anchors: seq<nat>, p: nat, k: nat)
    requires AnchorList(s, anchors, |s|) && p + 1 < |anchors| && anchors[p] <= k < anchors[p + 1]
    ensures k > anchors[p] ==> PreviousAnchor(s, k) == anchors[p] && NextAnchor(s, k) == anchors[p + 1]
    ensures k == anchors[p] ==> NextAnchor(s, k) == k
  {
    forall j | anchors[p] < j < anchors[p + 1] ensures !IsAnchor(s[j]) {
      if IsAnchor(s[j]) {
        var q :| 0 <= q < |anchors| && anchors[q] == j;
        NothingBetween(anchors, p, q);
      }
    }
  }

  lemma {:induction false} OutsideAnchors(s: seq<Evidence>, anchors: seq<nat>, k: nat)
    requires AnchorList(s, anchors, |s|) && k < |s|
    requires |anchors| > 0 ==> k < anchors[0] || k >= anchors[|anchors| - 1]
    ensures PreviousAnchor(s, k) < 0 || NextAnchor(s, k) == |s| || NextAnchor(s, k) == k
  {
    var left, right := PreviousAnchor(s, k), NextAnchor(s, k);
    if left >= 0 && right < |s| {
      assert left in anchors && right in anchors;
    }
  }

  method FillBetween(rows: seq<Row>, s: seq<Evidence>, start: seq<Evidence>, left: nat, right: nat)
      returns (r: seq<Evidence>)
    requires |s| == |start| == |rows| && left < right < |s| && IsAnchor(s[left]) && IsAnchor(s[right])
    requires forall k :: left <= k < |s| ==> start[k] == s[k]
    ensures |r| == |s|
    ensures forall k :: 0 <= k < |s| ==> r[k] == if left < k < right then Bridge(rows, s, left, right, k) else start[k]
  {
    r := start;
    var a, b := start[left].value.value, start[right].value.value;
    var elapsed := rows[right].timestamp - rows[left].timestamp;
    if b < a || elapsed <= 0 {
      return;
    }
    for k := left + 1 to right
      invariant |r| == |s|
      invariant forall j :: 0 <= j < |s| ==> r[j] == if left < j < k then Bridge(rows, s, left, right, j) else start[j]
    {
      assert r[k] == s[k] && start[left] == s[left] && start[right] == s[right];
      assert a == s[left].value.value && b == s[right].value.value;
      if r[k].value.None? {
        if b == a {
          r := r[k := Evidence(Some(a), true, BoundedFlat, false)];
        } else {
          var estimate := Affine(a, b, rows[k].timestamp - rows[left].timestamp, elapsed);
          r := r[k := Evidence(Some(estimate), false, Interpolated, false)];
        }
      }
    }
  }

  lemma {:induction false} FilledIsBridged(rows: seq<Row>, s: seq<Evidence>, anchors: seq<nat>, p: nat)
    requires |s| == |rows| && AnchorList(s, anchors, |s|) && p + 1 < |anchors|
    ensures forall k :: anchors[p] <= k < anchors[p + 1] ==>
      FilledAt(rows, s, k) == if anchors[p] < k then Bridge(rows, s, anchors[p], anchors[p + 1], k) else s[k]
  {
    forall k | anchors[p] <= k < anchors[p + 1]
      ensures FilledAt(rows, s, k) == if anchors[p] < k then Bridge(rows, s, anchors[p], anchors[p + 1], k) else s[k]
    {
      NeighbouringAnchors(s, anchors, p, k);
    }
  }

  method FillHoles(rows: seq<Row>, s: seq<Evidence>) returns (r: seq<Evidence>)
    requires |s| == |rows|
    ensures r == Filled(rows, s)
  {
    var anchors: seq<nat> := [];
    for k := 0 to |s|
      invariant AnchorList(s, anchors, k)
    {
      if IsAnchor(s[k]) {
        anchors := anchors + [k];
      }
    }
    if |anchors| == 0 {
      r := s;
    } else {
      r := FillPairs(rows, s, anchors);
    }
    OutsideIsKept(rows, s, anchors);
  }

  // From the first anchor to the last, pair after pair.
  method FillPairs(rows: seq<Row>, s: seq<Evidence>, anchors: seq<nat>) returns (r: seq<Evidence>)
    requires |s| == |rows| && AnchorList(s, anchors, |s|) && |anchors| > 0
    ensures |r| == |s|
    ensures forall k :: 0 <= k < |s| ==>
      r[k] == if anchors[0] <= k < anchors[|anchors| - 1] then FilledAt(rows, s, k) else s[k]
  {
    r := s;
    var p := 0;
    while p < |anchors| - 1
      invariant 0 <= p < |anchors| && |r| == |s|
      invariant forall k :: 0 <= k < |s| ==> r[k] == if anchors[0] <= k < anchors[p] then FilledAt(rows, s, k) else s[k]
    {
      FilledIsBridged(rows, s, anchors, p);
      r := FillBetween(rows, s, r, anchors[p], anchors[p + 1]);
      p := p + 1;
    }
  }

  lemma {:induction false} OutsideIsKept(rows: seq<Row>, s: seq<Evidence>, anchors: seq<nat>)
    requires |s| == |rows| && AnchorList(s, anchors, |s|)
    ensures forall k :: 0 <= k < |s| && (|anchors| > 0 ==> k < anchors[0] || k >= anchors[|anchors| - 1]) ==>
      FilledAt(rows, s, k) == s[k]
  {
    forall k | 0 <= k < |s| && (|anchors| > 0 ==> k < anchors[0] || k >= anchors[|anchors| - 1])
      ensures FilledAt(rows, s, k) == s[k]
    {
      OutsideAnchors(s, anchors, k);
    }
  }

  // ---- passes 3 and 4: hold the tail ----

  predicate IsReliable(e: Evidence) { e.value.Some? && e.reliable }

  predicate IsDisplayed(e: Evidence) { e.value.Some? && (e.origin.Direct? || e.origin.Legacy?) }

  // The last index whose evidence satisfies `p`, or -1.
  function Last(s: seq<Evidence>, p: Evidence -> bool, k: nat): (r: int)
    requires k <= |s|
    ensures -1 <= r < k
    ensures r >= 0 ==> p(s[r])
    ensures forall j :: r < j < k ==> !p(s[j])
  {
    if k == 0 then -1 else if p(s[k - 1]) then k - 1 else Last(s, p, k - 1)
  }

  function TailHeld(rows: seq<Row>, s: seq<Evidence>): (r: seq<Evidence>)
    requires |s| == |rows|
    ensures |r| == |s|
  {
    var last := Last(s, IsReliable, |s|);
    seq(|s|, k requires 0 <= k < |s| =>
      if last >= 0 && last < k && s[k].value.None? then Evidence(s[last].value, false, Held, rows[k].synthetic)
      else s[k])
  }

  function DisplayHeld(rows: seq<Row>, s: seq<Evidence>): (r: seq<Evidence>)
    requires |s| == |rows|
    ensures |r| == |s|
  {
    var last := Last(s, IsDisplayed, |s|);
    seq(|s|, k requires 0 <= k < |s| =>
      if last >= 0 && last < k && (s[k].origin.Unknown? || s[k].origin.Held?)
      then Evidence(s[last].value, false, Held, rows[k].synthetic) else s[k])
  }

  method HoldTail(rows: seq<Row>, s: seq<Evidence>) returns (r: seq<Evidence>)
    requires |s| == |rows|
    ensures r == TailHeld(rows, s)
  {
    var last := Last(s, IsReliable, |s|);
    r := s;
    if last >= 0 {
      for k := last + 1 to |s|
        invariant |r| == |s|
        invariant forall j :: 0 <= j < |s| ==> r[j] == if j < k then TailHeld(rows, s)[j] else s[j]
      {
        if r[k].value.None? {
          r := r[k := Evidence(s[last].value, false, Held, rows[k].synthetic)];
        }
      }
    }
  }

  method HoldDisplay(rows: seq<Row>, s: seq<Evidence>) returns (r: seq<Evidence>)
    requires |s| == |rows|
    ensures r == DisplayHeld(rows, s)
  {
    var last := Last(s, IsDisplayed, |s|);
    r := s;
    if last >= 0 {
      for k := last + 1 to |s|
        invariant |r| == |s|
        invariant forall j :: 0 <= j < |s| ==> r[j] == if j < k then DisplayHeld(rows, s)[j] else s[j]
      {
        if r[k].origin.Unknown? || r[k].origin.Held? {
          r := r[k := Evidence(s[last].value, false, Held, rows[k].synthetic)];
        }
      }
    }
  }

  // ---- pass 5: hold every point at the highest value already shown ----

  function Floor(s: seq<Evidence>, k: nat): Option<real>
    requires k <= |s|
  {
    if k == 0 then None
    else
      var before := Floor(s, k - 1);
      if !Renderable(s[k - 1]) then before
      else if before.None? then s[k - 1].value
      else Some(Max(before.value, s[k - 1].value.value))
  }

  function FlooredAt(s: seq<Evidence>, k: nat): Evidence
    requires k < |s|
  {
    var floor := Floor(s, k);
    if Renderable(s[k]) && floor.Some? && s[k].value.value < floor.value
    then Evidence(floor, false, if s[k].origin.Direct? then Rejected else Held, s[k].synthetic)
    else s[k]
  }

  function Floored(s: seq<Evidence>): (r: seq<Evidence>)
    ensures |r| == |s|
  {
    seq(|s|, k requires 0 <= k < |s| => FlooredAt(s, k))
  }

  method FloorDisplay(s: seq<Evidence>) returns (r: seq<Evidence>)
    ensures r == Floored(s)
  {
    var floor: Option<real> := None;
    r := s;
    for k := 0 to |s|
      invariant |r| == |s|
      invariant floor == Floor(s, k)
      invariant forall j :: 0 <= j < |s| ==> r[j] == if j < k then FlooredAt(s, j) else s[j]
    {
      var point := r[k];
      if point.value.Some? && point.value.value >= 0.0 {
        if floor.Some? && point.value.value < floor.value {
          if !point.origin.Direct? {
            point := Evidence(floor, false, Held, point.synthetic);
          } else {
            point := Evidence(floor, false, Rejected, point.synthetic);
          }
          r := r[k := point];
        }
        floor := if floor.Some? then Some(Max(floor.value, point.value.value)) else point.value;
      }
    }
  }

  // ---- the whole projection ----

  function ProjectionBeforeFloor(rows: seq<Row>, raw: seq<Option<real>>, gaps: seq<Gap>): (r: seq<Evidence>)
    requires |raw| == |rows|
    ensures |r| == |rows|
  {
    DisplayHeld(rows, TailHeld(rows, Filled(rows, Screened(rows, raw, gaps))))
  }

  function Projection(rows: seq<Row>, raw: seq<Option<real>>, gaps: seq<Gap>): (r: seq<Evidence>)
    requires |raw| == |rows|
    ensures |r| == |rows|
  {
    Floored(ProjectionBeforeFloor(rows, raw, gaps))
  }

  method ProjectModel(rows: seq<Row>, model: string, metric: Metric, gaps: seq<Gap>) returns (r: seq<Evidence>)
    ensures r == Projection(rows, RawValues(rows, model, metric), gaps)
  {
    var raw := RawValues(rows, model, metric);
    r := ScreenRows(rows, raw, gaps);
    r := FillHoles(rows, r);
    r := HoldTail(rows, r);
    r := HoldDisplay(rows, r);
    r := FloorDisplay(r);
  }

  /** Published totals are never negative, so neither are the readings, derived dollars included. */
  lemma {:induction false} ReadingsAreNonNegative(rows: seq<Row>, model: string, metric: Metric)
    requires forall k, name :: 0 <= k < |rows| && name in rows[k].models && rows[k].models[name].dollars.Some? ==>
      rows[k].models[name].dollars.value >= 0.0
    ensures NonNegative(RawValues(rows, model, metric))
  {
    forall k | 0 <= k < |rows| && RawValue(rows[k], model, metric).Some?
      ensures RawValue(rows[k], model, metric).value >= 0.0
    {
      assert model in rows[k].models;
    }
  }

  // A published row that lists the model.
  predicate Lists(row: Row, model: string) {
    !row.synthetic && row.source != Reconstructed && row.source != Unavailable && model in row.models
  }

  // Dollars can be derived: the parts of the input do not exceed it.
  predicate Priced(tokens: TokenVector) {
    && tokens.input.Some? && tokens.cached.Some? && tokens.written.Some? && tokens.output.Some?
    && tokens.cached.value + tokens.written.value <= tokens.input.value
  }

  /** What the reading of a model is: its tokens, its published dollars, or for the one repriced model, per million
      tokens, 10 dollars an input token, 9 less if it was cached and 2.5 more if it was written, and 50 an output
      token; a model that is not listed has none. */
  lemma {:induction false} ReadingIs(row: Row, model: string)
    ensures !Lists(row, model) ==> RawValue(row, model, Tokens) == None && RawValue(row, model, Dollars) == None
    ensures Lists(row, model) ==>
      var (tokens, dollars) := (row.models[model].tokens, row.models[model].dollars);
      && RawValue(row, model, Tokens) == Some(tokens.total as real)
      && (dollars.Some? || model != "ASTRA" || !Priced(tokens) ==> RawValue(row, model, Dollars) == dollars)
      && (dollars.None? && model == "ASTRA" && Priced(tokens) ==>
           var reading := RawValue(row, model, Dollars);
           reading.Some? && reading.value * 1000000.0
             == (10 * tokens.input.value - 9 * tokens.cached.value + 50 * tokens.output.value) as real
                + 2.5 * tokens.written.value as real)
  {
  }

  // ---- what the screen accepts ----

  lemma {:induction false} BaselineRises(rows: seq<Row>, raw: seq<Option<real>>, gaps: seq<Gap>, i: nat, j: nat)
    requires |raw| == |rows| && i <= j <= |rows|
    ensures Baseline(rows, raw, gaps, i).Some? ==>
      Baseline(rows, raw, gaps, j).Some? && Baseline(rows, raw, gaps, i).value <= Baseline(rows, raw, gaps, j).value
  {
    if i < j {
      BaselineRises(rows, raw, gaps, i, j - 1);
    }
  }

  lemma {:induction false} BaselineIsAccepted(rows: seq<Row>, raw: seq<Option<real>>, gaps: seq<Gap>, k: nat)
    requires |raw| == |rows| && k <= |rows|
    ensures Baseline(rows, raw, gaps, k).Some? ==>
      exists j :: 0 <= j < k && Accepted(rows, raw, gaps, j) && raw[j] == Baseline(rows, raw, gaps, k)
  {
    if k > 0 && !Accepted(rows, raw, gaps, k - 1) {
      BaselineIsAccepted(rows, raw, gaps, k - 1);
    }
  }

  /** A reading is accepted exactly when it is measured, is not a one-row spike, and is no smaller
      than any reading accepted before it: the running baseline loses nothing. */
  lemma {:induction false} AcceptedIff(rows: seq<Row>, raw: seq<Option<real>>, gaps: seq<Gap>, k: nat)
    requires |raw| == |rows| && k < |rows|
    ensures Accepted(rows, raw, gaps, k) <==>
      && !rows[k].synthetic && raw[k].Some? && !Isolated(rows, raw, gaps, k)
      && forall j :: 0 <= j < k && Accepted(rows, raw, gaps, j) ==> raw[j].value <= raw[k].value
  {
    BaselineIsAccepted(rows, raw, gaps, k);
    forall j | 0 <= j < k && Accepted(rows, raw, gaps, j)
      ensures Baseline(rows, raw, gaps, k).Some? && raw[j].value <= Baseline(rows, raw, gaps, k).value
    {
      BaselineRises(rows, raw, gaps, j + 1, k);
    }
  }

  // ---- what the displayed series promises ----

  predicate Rises(s: seq<Evidence>) {
    forall i, j :: 0 <= i <= j < |s| && s[i].value.Some? && s[j].value.Some? ==> s[i].value.value <= s[j].value.value
  }

  predicate NonNegative(raw: seq<Option<real>>) {
    forall k :: 0 <= k < |raw| && raw[k].Some? ==> raw[k].value >= 0.0
  }

  // What every later pass relies on: direct points are reliable and no value before one exceeds it.
  ghost predicate Settled(s: seq<Evidence>) {
    && (forall k :: 0 <= k < |s| && s[k].value.Some? ==> s[k].value.value >= 0.0)
    && (forall k :: 0 <= k < |s| && s[k].origin.Direct? ==> s[k].value.Some? && s[k].reliable)
    && (forall i, d :: 0 <= i < d < |s| && s[d].origin.Direct? && s[i].value.Some? ==>
         s[i].value.value <= s[d].value.value)
  }

  // What the screen alone adds: only direct points are reliable, and after one only unknown rows are holes.
  ghost predicate FreshlyScreened(s: seq<Evidence>) {
    && Settled(s)
    && (forall k :: 0 <= k < |s| && s[k].reliable ==> s[k].origin.Direct?)
    && (forall d, k :: 0 <= d < k < |s| && s[d].origin.Direct? && s[k].value.None? ==> s[k].origin.Unknown?)
  }

  lemma {:induction false} ScreenedSettled(rows: seq<Row>, raw: seq<Option<real>>, gaps: seq<Gap>)
    requires |raw| == |rows| && NonNegative(raw)
    ensures FreshlyScreened(Screened(rows, raw, gaps))
  {
    var s := Screened(rows, raw, gaps);
    forall k | 0 <= k < |s|
      ensures s[k].value.Some? ==> s[k].value == Baseline(rows, raw, gaps, k + 1) && s[k].value.value >= 0.0
    {
      BaselineIsAccepted(rows, raw, gaps, k + 1);
    }
    forall i, j | 0 <= i <= j < |s| && s[i].value.Some? && s[j].value.Some?
      ensures s[i].value.value <= s[j].value.value
    {
      BaselineRises(rows, raw, gaps, i + 1, j + 1);
    }
    forall d, k | 0 <= d < k < |s| && s[d].origin.Direct? && s[k].value.None?
      ensures s[k].origin.Unknown?
    {
      BaselineRises(rows, raw, gaps, d + 1, k);
    }
  }

  lemma {:induction false} BridgeBetween(rows: seq<Row>, s: seq<Evidence>, left: nat, right: nat, k: nat)
    requires |s| == |rows| && RisingRows(rows) && left < k < right < |s| && IsAnchor(s[left]) && IsAnchor(s[right])
    requires s[left].value.value <= s[right].value.value && s[k].value.None?
    ensures var e := Bridge(rows, s, left, right, k);
      && e.value.Some? && s[left].value.value <= e.value.value <= s[right].value.value
      && (e.origin.BoundedFlat? || e.origin.Interpolated?)
  {
    var part, elapsed := rows[k].timestamp - rows[left].timestamp, rows[right].timestamp - rows[left].timestamp;
    assert 0 < part < elapsed;
    Between(s[left].value.value, s[right].value.value, part as real / elapsed as real);
  }

  lemma {:induction false} Between(a: real, b: real, f: real)
    requires a <= b && 0.0 <= f <= 1.0
    ensures a <= a + (b - a) * f <= b
  {
    ProductOfNonNegatives(b - a, f);
    ProductOfNonNegatives(b - a, 1.0 - f);
    assert (b - a) * (1.0 - f) == (b - a) - (b - a) * f;
  }

  // One row after the holes are filled: unchanged, or a value between the anchors around it.
  lemma {:induction false} FilledShape(rows: seq<Row>, s: seq<Evidence>, k: nat)
    requires |s| == |rows| && RisingRows(rows) && FreshlyScreened(s) && k < |s|
    ensures var e, left, right := FilledAt(rows, s, k), PreviousAnchor(s, k), NextAnchor(s, k);
      if s[k].value.None? && left >= 0 && right < |s|
      then right > k && e.value.Some? && s[left].value.value <= e.value.value <= s[right].value.value
        && (e.origin.BoundedFlat? || e.origin.Interpolated?)
      else e == s[k]
  {
    var left, right := PreviousAnchor(s, k), NextAnchor(s, k);
    if s[k].value.None? && left >= 0 && right < |s| {
      BridgeBetween(rows, s, left, right, k);
    }
  }

  lemma {:induction false} FilledBelowDirect(rows: seq<Row>, s: seq<Evidence>, i: nat, d: nat)
    requires |s| == |rows| && RisingRows(rows) && FreshlyScreened(s) && i < d < |s| && s[d].origin.Direct?
    ensures FilledAt(rows, s, i).value.Some? ==> FilledAt(rows, s, i).value.value <= s[d].value.value
  {
    FilledShape(rows, s, i);
    var e := NextAnchor(s, i);
    assert IsAnchor(s[d]);
    assert e <= d;
  }

  lemma {:induction false} FilledSettled(rows: seq<Row>, s: seq<Evidence>)
    requires |s| == |rows| && RisingRows(rows) && FreshlyScreened(s)
    ensures Settled(Filled(rows, s))
  {
    var r := Filled(rows, s);
    forall k | 0 <= k < |s|
      ensures r[k].origin.Direct? ==> r[k] == s[k]
      ensures r[k].value.Some? ==> r[k].value.value >= 0.0
    {
      FilledShape(rows, s, k);
    }
    forall i, d | 0 <= i < d < |r| && r[d].origin.Direct? && r[i].value.Some?
      ensures r[i].value.value <= r[d].value.value
    {
      FilledBelowDirect(rows, s, i, d);
    }
  }

  lemma {:induction false} LastReliableIsDirect(rows: seq<Row>, s: seq<Evidence>, last: int)
    requires |s| == |rows| && RisingRows(rows) && FreshlyScreened(s)
    requires last == PreviousAnchor(s, |s|) >= 0
    ensures Last(Filled(rows, s), IsReliable, |s|) == last && FilledAt(rows, s, last) == s[last]
  {
    var r := Filled(rows, s);
    forall j | last < j < |s| ensures !IsReliable(r[j]) {
      assert NextAnchor(s, j) == |s|;
      assert r[j] == s[j];
    }
    assert NextAnchor(s, last) == last;
    assert r[last] == s[last] && IsReliable(r[last]);
    var l := Last(r, IsReliable, |s|);
    assert l >= last;
  }

  // Up to the last direct point the tail passes change nothing; after it they leave no hole.
  lemma {:induction false} TailsAfterLastDirect(rows: seq<Row>, s: seq<Evidence>, last: int, k: nat)
    requires |s| == |rows| && RisingRows(rows) && FreshlyScreened(s) && k < |s|
    requires last == PreviousAnchor(s, |s|) >= 0
    ensures var r, t := Filled(rows, s), DisplayHeld(rows, TailHeld(rows, Filled(rows, s)));
      && (k <= last ==> t[k] == r[k])
      && (k > last ==> t[k].value.Some? && !t[k].origin.Direct? && t[k].value.value >= 0.0)
  {
    var r := Filled(rows, s);
    var u := TailHeld(rows, r);
    LastReliableIsDirect(rows, s, last);
    assert IsDisplayed(u[last]);
    var shown := Last(u, IsDisplayed, |u|);
    assert shown >= last;
    FilledSettled(rows, s);
    FilledShape(rows, s, k);
    if k > last {
      assert u[k].value.Some? && !u[k].origin.Direct?;
    }
  }

  // Without any direct point the screen's values survive until the displayed tail.
  lemma {:induction false} TailsWithoutDirect(rows: seq<Row>, s: seq<Evidence>, k: nat)
    requires |s| == |rows| && RisingRows(rows) && FreshlyScreened(s) && k < |s|
    requires PreviousAnchor(s, |s|) < 0
    ensures var t := DisplayHeld(rows, TailHeld(rows, Filled(rows, s)));
      !t[k].origin.Direct? && (t[k].value.Some? ==> t[k].value.value >= 0.0)
  {
    var r := Filled(rows, s);
    forall j | 0 <= j < |s| ensures r[j] == s[j] {
      FilledShape(rows, s, j);
    }
    assert Last(r, IsReliable, |r|) == -1;
  }

  lemma {:induction false} HeldSettled(rows: seq<Row>, s: seq<Evidence>)
    requires |s| == |rows| && RisingRows(rows) && FreshlyScreened(s)
    ensures var t := DisplayHeld(rows, TailHeld(rows, Filled(rows, s)));
      && Settled(t)
      && (forall k :: 0 <= k < |t| && (s[k].origin.Direct? || t[k].origin.Direct?) ==> t[k] == s[k])
      && (forall d, k :: 0 <= d < k < |t| && s[d].origin.Direct? ==> t[k].value.Some?)
  {
    var r, t := Filled(rows, s), DisplayHeld(rows, TailHeld(rows, Filled(rows, s)));
    FilledSettled(rows, s);
    var last := PreviousAnchor(s, |s|);
    forall k | 0 <= k < |t|
      ensures last >= 0 && k <= last ==> t[k] == r[k]
      ensures last >= 0 && k > last ==> t[k].value.Some? && !t[k].origin.Direct? && t[k].value.value >= 0.0
      ensures last < 0 ==> !t[k].origin.Direct? && (t[k].value.Some? ==> t[k].value.value >= 0.0)
      ensures r[k].origin.Direct? || s[k].origin.Direct? ==> r[k] == s[k]
    {
      FilledShape(rows, s, k);
      if last >= 0 {
        TailsAfterLastDirect(rows, s, last, k);
      } else {
        TailsWithoutDirect(rows, s, k);
      }
    }
    forall d, k | 0 <= d < k < |t| && s[d].origin.Direct?
      ensures t[k].value.Some?
    {
      FilledShape(rows, s, k);
    }
  }

  lemma {:induction false} FloorIsHighest(s: seq<Evidence>, k: nat)
    requires k <= |s| && forall i :: 0 <= i < |s| && s[i].value.Some? ==> s[i].value.value >= 0.0
    ensures forall i :: 0 <= i < k && s[i].value.Some? ==> Floor(s, k).Some? && s[i].value.value <= Floor(s, k).value
    ensures Floor(s, k).Some? ==> exists i :: 0 <= i < k && s[i].value.Some? && s[i].value == Floor(s, k)
    ensures k > 0 && s[k - 1].value.Some? ==> FlooredAt(s, k - 1).value == Floor(s, k)
    ensures k > 0 && s[k - 1].value.None? ==> FlooredAt(s, k - 1).value.None?
  {
    if k > 0 {
      FloorIsHighest(s, k - 1);
    }
  }

  /** The series a reader sees never falls; it keeps every direct reading exactly (no pass after the
      screen demotes one); it has no hole after its first direct reading; and between two direct
      readings it stays between their values. */
  lemma {:induction false} ProjectionIsFaithful(rows: seq<Row>, raw: seq<Option<real>>, gaps: seq<Gap>)
    requires |raw| == |rows| && NonNegative(raw) && RisingRows(rows)
    ensures var out := Projection(rows, raw, gaps);
      && Rises(out)
      && (forall k :: 0 <= k < |out| ==>
           (out[k].origin.Direct? <==> Accepted(rows, raw, gaps, k) && rows[k].source.Confirmed?))
      && (forall k :: 0 <= k < |out| && out[k].origin.Direct? ==> out[k] == Evidence(raw[k], true, Direct, false))
      && (forall d, k :: 0 <= d < k < |out| && out[d].origin.Direct? ==> out[k].value.Some?)
      && (forall d, k, e :: 0 <= d < k < e < |out| && out[d].origin.Direct? && out[e].origin.Direct? ==>
           out[k].value.Some? && raw[d].Some? && raw[e].Some? && raw[d].value <= out[k].value.value <= raw[e].value)
  {
    var s, t := Screened(rows, raw, gaps), ProjectionBeforeFloor(rows, raw, gaps);
    ScreenedSettled(rows, raw, gaps);
    HeldSettled(rows, s);
    FloorKeepsDirect(t);
    var out := Projection(rows, raw, gaps);
    assert forall k :: 0 <= k < |out| ==>
        (s[k].origin.Direct? <==> Accepted(rows, raw, gaps, k) && rows[k].source.Confirmed?);
  }

  lemma {:induction false} FloorKeepsDirect(t: seq<Evidence>)
    requires Settled(t)
    ensures var out := Floored(t);
      && Rises(out)
      && (forall k :: 0 <= k < |t| ==> (out[k].value.Some? <==> t[k].value.Some?))
      && (forall k :: 0 <= k < |t| ==> (out[k].origin.Direct? <==> t[k].origin.Direct?))
      && (forall k :: 0 <= k < |t| && t[k].origin.Direct? ==> out[k] == t[k])
  {
    var out := Floored(t);
    forall k | 0 <= k < |t|
      ensures t[k].value.Some? ==> out[k].value == Floor(t, k + 1)
      ensures t[k].value.None? ==> out[k].value.None?
      ensures t[k].origin.Direct? ==> out[k] == t[k]
      ensures out[k].origin.Direct? ==> t[k].origin.Direct?
    {
      FloorIsHighest(t, k + 1);
      FloorIsHighest(t, k);
    }
    FloorsRise(t, out);
  }

  lemma {:induction false} FloorsRise(t: seq<Evidence>, out: seq<Evidence>)
    requires |out| == |t|
    requires forall k :: 0 <= k < |t| && t[k].value.Some? ==> out[k].value == Floor(t, k + 1)
    requires forall k :: 0 <= k < |t| && t[k].value.None? ==> out[k].value.None?
    requires forall i :: 0 <= i < |t| && t[i].value.Some? ==> t[i].value.value >= 0.0
    ensures Rises(out)
  {
    forall i, j | 0 <= i <= j < |out| && out[i].value.Some? && out[j].value.Some?
      ensures out[i].value.value <= out[j].value.value
    {
      FloorIsHighest(t, i + 1);
      FloorIsHighest(t, j + 1);
      var h :| 0 <= h < i + 1 && t[h].value.Some? && t[h].value == Floor(t, i + 1);
      assert t[h].value.value <= Floor(t, j + 1).value;
    }
  }

  // ---- where every shown value comes from ----

  // No gap reaches into the time between these two instants.
  predicate Unbroken(from: int, to: int, gaps: seq<Gap>) {
    forall g :: g in gaps ==> g.endAt <= from || to <= g.startAt
  }

  /** Which readings the screen throws out, by the readings around them: a reading outside the range of its two
      neighbours, where these are in order and no gap lies beside it, and one below an accepted one before it. */
  lemma {:induction false} RejectedIff(rows: seq<Row>, raw: seq<Option<real>>, gaps: seq<Gap>, k: nat)
    requires |raw| == |rows| && k < |rows| && raw[k].Some? && !rows[k].synthetic
    ensures !Accepted(rows, raw, gaps, k) <==>
      || (&& 0 < k < |rows| - 1 && raw[k - 1].Some? && raw[k + 1].Some? && raw[k - 1].value <= raw[k + 1].value
          && Unbroken(rows[k - 1].timestamp, rows[k].timestamp, gaps)
          && Unbroken(rows[k].timestamp, rows[k + 1].timestamp, gaps)
          && !(raw[k - 1].value <= raw[k].value <= raw[k + 1].value))
      || (exists j :: 0 <= j < k && Accepted(rows, raw, gaps, j) && raw[j].value > raw[k].value)
  {
    AcceptedIff(rows, raw, gaps, k);
  }

  // A reading the screen accepts and the row confirms.
  predicate Measured(rows: seq<Row>, raw: seq<Option<real>>, gaps: seq<Gap>, k: nat)
    requires |raw| == |rows| && k < |rows|
  {
    Accepted(rows, raw, gaps, k) && rows[k].source.Confirmed?
  }

  // `d` and `e` are the measured rows next to row `k`.
  ghost predicate Bracketed(rows: seq<Row>, raw: seq<Option<real>>, gaps: seq<Gap>, d: nat, k: nat, e: nat)
    requires |raw| == |rows|
  {
    && d < k < e < |rows| && Measured(rows, raw, gaps, d) && Measured(rows, raw, gaps, e)
    && forall j :: d < j < e ==> !Measured(rows, raw, gaps, j)
  }

  // A row without any reading.
  predicate Hole(rows: seq<Row>, raw: seq<Option<real>>, k: nat)
    requires |raw| == |rows| && k < |rows|
  {
    raw[k].None? && !rows[k].synthetic
  }

  // The value `v` at row `k` is on the straight line between the readings of rows `d` and `e`.
  predicate OnLine(rows: seq<Row>, raw: seq<Option<real>>, d: nat, k: nat, e: nat, v: real)
    requires |raw| == |rows| && d < |rows| && k < |rows| && e < |rows| && raw[d].Some? && raw[e].Some?
  {
    (v - raw[d].value) * (rows[e].timestamp - rows[d].timestamp) as real
      == (raw[e].value - raw[d].value) * (rows[k].timestamp - rows[d].timestamp) as real
  }

  ghost predicate Estimated(rows: seq<Row>, raw: seq<Option<real>>, gaps: seq<Gap>, k: nat, v: real)
    requires |raw| == |rows| && k < |rows|
  {
    Hole(rows, raw, k) && exists d: nat, e: nat :: Bracketed(rows, raw, gaps, d, k, e) && OnLine(rows, raw, d, k, e, v)
  }

  // What row `k` by itself contributes to the series: its accepted reading, or its point on the line.
  ghost predicate Contributes(rows: seq<Row>, raw: seq<Option<real>>, gaps: seq<Gap>, k: nat, v: real)
    requires |raw| == |rows| && k < |rows|
  {
    (Accepted(rows, raw, gaps, k) && raw[k] == Some(v)) || Estimated(rows, raw, gaps, k, v)
  }

  lemma {:induction false} AffineIs(a: real, b: real, part: int, elapsed: int, v: real)
    requires elapsed > 0
    ensures v == Affine(a, b, part, elapsed) <==> (v - a) * elapsed as real == (b - a) * part as real
  {
    var f := part as real / elapsed as real;
    assert f * elapsed as real == part as real;
    assert (b - a) * (f * elapsed as real) == ((b - a) * f) * elapsed as real;
    if (v - a) * elapsed as real == (b - a) * part as real {
      Cancel(v - a, (b - a) * f, elapsed as real);
      Cancel((b - a) * f, v - a, elapsed as real);
    }
  }

  // The anchors of the second pass are the measured rows.
  lemma {:induction false} AnchorsAreMeasured(rows: seq<Row>, raw: seq<Option<real>>, gaps: seq<Gap>, k: nat)
    requires |raw| == |rows| && k < |rows|
    ensures IsAnchor(Screened(rows, raw, gaps)[k]) <==> Measured(rows, raw, gaps, k)
    ensures Measured(rows, raw, gaps, k) ==> Screened(rows, raw, gaps)[k].value == raw[k]
  {
  }

  lemma {:induction false} BracketIsAnchors(rows: seq<Row>, raw: seq<Option<real>>, gaps: seq<Gap>, d: nat, k: nat,
          e: nat)
    requires |raw| == |rows| && k < |rows|
    ensures
      var s := Screened(rows, raw, gaps);
      Bracketed(rows, raw, gaps, d, k, e) && !Measured(rows, raw, gaps, k) <==>
        PreviousAnchor(s, k) == d && NextAnchor(s, k) == e && k < e < |s|
  {
    var s := Screened(rows, raw, gaps);
    forall j | 0 <= j < |s| ensures IsAnchor(s[j]) <==> Measured(rows, raw, gaps, j) {
      AnchorsAreMeasured(rows, raw, gaps, j);
    }
  }

  // After the second pass a hole between measured rows has its point on the line, and every other row is as before.
  lemma {:induction false} FilledIsEstimated(rows: seq<Row>, raw: seq<Option<real>>, gaps: seq<Gap>, k: nat)
    requires |raw| == |rows| && RisingRows(rows) && NonNegative(raw) && k < |rows|
    ensures
      var (s, r) := (Screened(rows, raw, gaps), Filled(rows, Screened(rows, raw, gaps)));
      && (r[k] == s[k] || (Hole(rows, raw, k) && r[k].value.Some? && Estimated(rows, raw, gaps, k, r[k].value.value)))
      && (forall v :: Estimated(rows, raw, gaps, k, v) ==> r[k].value == Some(v))
  {
    var s := Screened(rows, raw, gaps);
    ScreenedSettled(rows, raw, gaps);
    FilledShape(rows, s, k);
    var left, right := PreviousAnchor(s, k), NextAnchor(s, k);
    if Hole(rows, raw, k) && left >= 0 && right < |s| {
      HoleIsOnLine(rows, raw, gaps, left, k, right);
    }
    forall v | Estimated(rows, raw, gaps, k, v) ensures Filled(rows, s)[k].value == Some(v) {
      var d: nat, e: nat :| Bracketed(rows, raw, gaps, d, k, e) && OnLine(rows, raw, d, k, e, v);
      BracketIsAnchors(rows, raw, gaps, d, k, e);
      HoleIsOnLine(rows, raw, gaps, d, k, e);
    }
  }

  lemma {:induction false} HoleIsOnLine(rows: seq<Row>, raw: seq<Option<real>>, gaps: seq<Gap>, d: nat, k: nat, e: nat)
    requires |raw| == |rows| && RisingRows(rows) && NonNegative(raw) && k < |rows| && Hole(rows, raw, k)
    requires PreviousAnchor(Screened(rows, raw, gaps), k) == d && NextAnchor(Screened(rows, raw, gaps), k) == e
    requires k < e < |rows|
    ensures Bracketed(rows, raw, gaps, d, k, e)
    ensures
      var r := FilledAt(rows, Screened(rows, raw, gaps), k);
      r.value.Some? && forall v :: r.value == Some(v) <==> OnLine(rows, raw, d, k, e, v)
  {
    var s := Screened(rows, raw, gaps);
    BracketIsAnchors(rows, raw, gaps, d, k, e);
    AnchorsAreMeasured(rows, raw, gaps, d);
    AnchorsAreMeasured(rows, raw, gaps, e);
    ScreenedSettled(rows, raw, gaps);
    BridgeIsAffine(rows, s, d, e, k);
    OnePointOnLine(rows, raw, d, k, e);
  }

  lemma {:induction false} OnePointOnLine(rows: seq<Row>, raw: seq<Option<real>>, d: nat, k: nat, e: nat)
    requires |raw| == |rows| && RisingRows(rows) && d < k < e < |rows| && raw[d].Some? && raw[e].Some?
    ensures
      var (part, elapsed) := (rows[k].timestamp - rows[d].timestamp, rows[e].timestamp - rows[d].timestamp);
      elapsed > 0
      && forall v :: v == Affine(raw[d].value, raw[e].value, part, elapsed) <==> OnLine(rows, raw, d, k, e, v)
  {
    var part, elapsed := rows[k].timestamp - rows[d].timestamp, rows[e].timestamp - rows[d].timestamp;
    forall v ensures v == Affine(raw[d].value, raw[e].value, part, elapsed) <==> OnLine(rows, raw, d, k, e, v) {
      AffineIs(raw[d].value, raw[e].value, part, elapsed, v);
    }
  }

  lemma {:induction false} BridgeIsAffine(rows: seq<Row>, s: seq<Evidence>, left: nat, right: nat, k: nat)
    requires |s| == |rows| && RisingRows(rows) && left < k < right < |s| && IsAnchor(s[left]) && IsAnchor(s[right])
    requires s[left].value.value <= s[right].value.value && s[k].value.None?
    ensures Bridge(rows, s, left, right, k).value
      == Some(Affine(s[left].value.value, s[right].value.value, rows[k].timestamp - rows[left].timestamp,
                     rows[right].timestamp - rows[left].timestamp))
  {
  }

  // A value that some row up to `k` contributes.
  ghost predicate Contributed(rows: seq<Row>, raw: seq<Option<real>>, gaps: seq<Gap>, k: nat, v: real)
    requires |raw| == |rows| && k < |rows|
  {
    exists i: nat :: i <= k && Contributes(rows, raw, gaps, i, v)
  }

  lemma {:induction false} ContributedLater(rows: seq<Row>, raw: seq<Option<real>>, gaps: seq<Gap>, j: nat, k: nat,
          v: real)
    requires |raw| == |rows| && j <= k < |rows| && Contributed(rows, raw, gaps, j, v)
    ensures Contributed(rows, raw, gaps, k, v)
  {
  }

  // What the screen shows is the last accepted reading, if it shows anything.
  lemma {:induction false} ScreenedIsContributed(rows: seq<Row>, raw: seq<Option<real>>, gaps: seq<Gap>, k: nat)
    requires |raw| == |rows| && k < |rows|
    ensures
      var e := Screened(rows, raw, gaps)[k];
      && (e.value.Some? ==> Contributed(rows, raw, gaps, k, e.value.value))
      && (Accepted(rows, raw, gaps, k) <==> e.origin.Direct? || e.origin.Legacy?)
      && (Accepted(rows, raw, gaps, k) ==> e.value == raw[k] && raw[k].Some?)
  {
    BaselineIsAccepted(rows, raw, gaps, k);
    if Baseline(rows, raw, gaps, k).Some? {
      var j :| 0 <= j < k && Accepted(rows, raw, gaps, j) && raw[j] == Baseline(rows, raw, gaps, k);
      assert Contributes(rows, raw, gaps, j, raw[j].value);
    }
    if Accepted(rows, raw, gaps, k) {
      assert Contributes(rows, raw, gaps, k, raw[k].value);
    }
  }

  lemma {:induction false} FilledIsContributed(rows: seq<Row>, raw: seq<Option<real>>, gaps: seq<Gap>, k: nat)
    requires |raw| == |rows| && RisingRows(rows) && NonNegative(raw) && k < |rows|
    ensures
      var r := Filled(rows, Screened(rows, raw, gaps))[k];
      && (r.value.Some? ==> Contributed(rows, raw, gaps, k, r.value.value))
      && (forall v :: Contributes(rows, raw, gaps, k, v) ==> r.value == Some(v))
      && (Accepted(rows, raw, gaps, k) <==> r.value.Some? && (r.origin.Direct? || r.origin.Legacy?))
      && (r.value.Some? && r.reliable ==> !r.origin.Held? && !r.origin.Unknown?)
  {
    var s := Screened(rows, raw, gaps);
    ScreenedSettled(rows, raw, gaps);
    ScreenedIsContributed(rows, raw, gaps, k);
    FilledIsEstimated(rows, raw, gaps, k);
    FilledShape(rows, s, k);
    var r := Filled(rows, s)[k];
    if r != s[k] {
      assert Contributes(rows, raw, gaps, k, r.value.value);
    }
  }

  // The two tail passes change only rows that contribute nothing, and give them what an earlier row contributed.
  lemma {:induction false} HeldIsContributed(rows: seq<Row>, raw: seq<Option<real>>, gaps: seq<Gap>, k: nat)
    requires |raw| == |rows| && RisingRows(rows) && NonNegative(raw) && k < |rows|
    ensures
      var t := ProjectionBeforeFloor(rows, raw, gaps)[k];
      && (t.value.Some? ==> Contributed(rows, raw, gaps, k, t.value.value))
      && (forall v :: Contributes(rows, raw, gaps, k, v) ==> t.value == Some(v))
  {
    var r := Filled(rows, Screened(rows, raw, gaps));
    var u := TailHeld(rows, r);
    FilledIsContributed(rows, raw, gaps, k);
    TailIsContributed(rows, raw, gaps, k);
    var last := Last(u, IsDisplayed, |u|);
    if 0 <= last < k {
      TailIsContributed(rows, raw, gaps, last);
      ContributedLater(rows, raw, gaps, last, k, u[last].value.value);
    }
    EstimatesStay(rows, raw, gaps, k);
  }

  lemma {:induction false} TailIsContributed(rows: seq<Row>, raw: seq<Option<real>>, gaps: seq<Gap>, k: nat)
    requires |raw| == |rows| && RisingRows(rows) && NonNegative(raw) && k < |rows|
    ensures
      var u := TailHeld(rows, Filled(rows, Screened(rows, raw, gaps)))[k];
      && (u.value.Some? ==> Contributed(rows, raw, gaps, k, u.value.value))
      && (forall v :: Contributes(rows, raw, gaps, k, v) ==> u.value == Some(v))
  {
    var r := Filled(rows, Screened(rows, raw, gaps));
    FilledIsContributed(rows, raw, gaps, k);
    var last := Last(r, IsReliable, |r|);
    if 0 <= last < k {
      FilledIsContributed(rows, raw, gaps, last);
      ContributedLater(rows, raw, gaps, last, k, r[last].value.value);
    }
  }

  // A row that contributes something is neither unknown nor held after the tail of the reliable values.
  lemma {:induction false} EstimatesStay(rows: seq<Row>, raw: seq<Option<real>>, gaps: seq<Gap>, k: nat)
    requires |raw| == |rows| && RisingRows(rows) && NonNegative(raw) && k < |rows|
    ensures
      var u := TailHeld(rows, Filled(rows, Screened(rows, raw, gaps)))[k];
      (exists v :: Contributes(rows, raw, gaps, k, v)) ==> !u.origin.Unknown? && !u.origin.Held?
  {
    var s := Screened(rows, raw, gaps);
    var r := Filled(rows, s);
    FilledIsContributed(rows, raw, gaps, k);
    ScreenedSettled(rows, raw, gaps);
    FilledShape(rows, s, k);
  }

  /** The value shown at a row is the greatest of all that the rows up to it contribute: their accepted readings,
      and for a row without one that lies between measured rows, its point on the straight line between them. */
  lemma {:induction false} ShownIsGreatest(rows: seq<Row>, raw: seq<Option<real>>, gaps: seq<Gap>, k: nat)
    requires |raw| == |rows| && RisingRows(rows) && NonNegative(raw) && k < |rows|
    ensures
      var shown := Projection(rows, raw, gaps)[k].value;
      shown.Some? ==>
        && (exists i: nat :: i <= k && Contributes(rows, raw, gaps, i, shown.value))
        && (forall i: nat, v :: i <= k && Contributes(rows, raw, gaps, i, v) ==> v <= shown.value)
  {
    var s, t := Screened(rows, raw, gaps), ProjectionBeforeFloor(rows, raw, gaps);
    ScreenedSettled(rows, raw, gaps);
    HeldSettled(rows, s);
    FloorIsHighest(t, k + 1);
    FloorIsHighest(t, k);
    var shown := Projection(rows, raw, gaps)[k].value;
    if shown.Some? {
      assert t[k].value.Some? && shown == Floor(t, k + 1);
      var h :| 0 <= h < k + 1 && t[h].value.Some? && t[h].value == Floor(t, k + 1);
      HeldIsContributed(rows, raw, gaps, h);
      ContributedLater(rows, raw, gaps, h, k, shown.value);
      forall i: nat, v | i <= k && Contributes(rows, raw, gaps, i, v) ensures v <= shown.value {
        HeldIsContributed(rows, raw, gaps, i);
      }
    }
  }

  // ---- the values of holes ----

  // Points on a rising line rise, and stay below its end.
  lemma {:induction false} LineRises(rows: seq<Row>, raw: seq<Option<real>>, d: nat, i: nat, k: nat, e: nat, u: real,
          v: real)
    requires |raw| == |rows| && RisingRows(rows) && d < i <= k <= e < |rows| && raw[d].Some? && raw[e].Some?
    requires raw[d].value <= raw[e].value && OnLine(rows, raw, d, i, e, u) && OnLine(rows, raw, d, k, e, v)
    ensures u <= v
  {
    var a, b := raw[d].value, raw[e].value;
    var part, more := rows[i].timestamp - rows[d].timestamp, rows[k].timestamp - rows[d].timestamp;
    var elapsed := rows[e].timestamp - rows[d].timestamp;
    ProductOfNonNegatives(b - a, (more - part) as real);
    assert (b - a) * (more - part) as real == (b - a) * more as real - (b - a) * part as real;
    Cancel(u - a, v - a, elapsed as real);
  }

  // An estimate before row `k` is no greater than that of row `k` or some accepted reading before it.
  lemma {:induction false} EarlierEstimate(rows: seq<Row>, raw: seq<Option<real>>, gaps: seq<Gap>, d: nat, i: nat,
          k: nat, e: nat, u: real, v: real)
    requires |raw| == |rows| && RisingRows(rows) && NonNegative(raw) && i < k < |rows|
    requires Bracketed(rows, raw, gaps, d, k, e) && OnLine(rows, raw, d, k, e, v)
    requires Estimated(rows, raw, gaps, i, u)
    ensures u <= v || exists j :: 0 <= j < k && Accepted(rows, raw, gaps, j) && u <= raw[j].value
  {
    var c: nat, f: nat :| Bracketed(rows, raw, gaps, c, i, f) && OnLine(rows, raw, c, i, f, u);
    AcceptedIff(rows, raw, gaps, f);
    if f < k {
      assert OnLine(rows, raw, c, f, f, raw[f].value);
      LineRises(rows, raw, c, i, f, f, u, raw[f].value);
    } else {
      assert c == d && f == e;
      LineRises(rows, raw, d, i, k, e, u, v);
    }
  }

  /** A row without a reading between two measured rows shows its point on the straight line between them, or the
      greatest accepted reading before it if that is higher. */
  lemma {:induction false} HoleIsOnItsLine(rows: seq<Row>, raw: seq<Option<real>>, gaps: seq<Gap>, d: nat, k: nat,
          e: nat, v: real, j: nat)
    requires |raw| == |rows| && RisingRows(rows) && NonNegative(raw) && k < |rows| && Hole(rows, raw, k)
    requires Bracketed(rows, raw, gaps, d, k, e) && OnLine(rows, raw, d, k, e, v)
    requires GreatestBefore(rows, raw, gaps, k, j)
    ensures Projection(rows, raw, gaps)[k].value == Some(Max(v, raw[j].value))
  {
    var shown := HoleShows(rows, raw, gaps, d, k);
    ShownAtMost(rows, raw, gaps, d, k, e, v, j, shown);
    ShownAtLeast(rows, raw, gaps, k, k, v, shown);
    ShownAtLeast(rows, raw, gaps, j, k, raw[j].value, shown);
    GreaterOf(v, raw[j].value, shown);
  }

  lemma {:induction false} GreaterOf(a: real, b: real, c: real)
    requires a <= c && b <= c && c <= Max(a, b)
    ensures c == Max(a, b)
  {
  }

  // The reading of row `j` is accepted and no accepted one before row `k` is greater.
  ghost predicate GreatestBefore(rows: seq<Row>, raw: seq<Option<real>>, gaps: seq<Gap>, k: nat, j: nat)
    requires |raw| == |rows| && k < |rows|
  {
    && j < k && Accepted(rows, raw, gaps, j)
    && forall i :: 0 <= i < k && Accepted(rows, raw, gaps, i) ==> raw[i].value <= raw[j].value
  }

  lemma {:induction false} HoleShows(rows: seq<Row>, raw: seq<Option<real>>, gaps: seq<Gap>, d: nat, k: nat)
      returns (shown: real)
    requires |raw| == |rows| && RisingRows(rows) && NonNegative(raw) && d < k < |rows| && Measured(rows, raw, gaps, d)
    ensures Projection(rows, raw, gaps)[k].value == Some(shown)
  {
    ShownAfterMeasured(rows, raw, gaps, d, k);
    shown := Projection(rows, raw, gaps)[k].value.value;
  }

  lemma {:induction false} ShownAtMost(rows: seq<Row>, raw: seq<Option<real>>, gaps: seq<Gap>, d: nat, k: nat, e: nat,
          v: real, j: nat, shown: real)
    requires |raw| == |rows| && RisingRows(rows) && NonNegative(raw) && k < |rows| && Hole(rows, raw, k)
    requires Bracketed(rows, raw, gaps, d, k, e) && OnLine(rows, raw, d, k, e, v)
    requires GreatestBefore(rows, raw, gaps, k, j) && Projection(rows, raw, gaps)[k].value == Some(shown)
    ensures shown <= Max(v, raw[j].value)
  {
    var i, u := ShownComesFrom(rows, raw, gaps, k);
    ContributedBelow(rows, raw, gaps, d, k, e, v, j, i, u);
  }

  lemma {:induction false} ShownComesFrom(rows: seq<Row>, raw: seq<Option<real>>, gaps: seq<Gap>, k: nat)
      returns (i: nat, v: real)
    requires |raw| == |rows| && RisingRows(rows) && NonNegative(raw) && k < |rows|
    requires Projection(rows, raw, gaps)[k].value.Some?
    ensures i <= k && Contributes(rows, raw, gaps, i, v) && Projection(rows, raw, gaps)[k].value == Some(v)
  {
    ShownIsGreatest(rows, raw, gaps, k);
    v := Projection(rows, raw, gaps)[k].value.value;
    i :| i <= k && Contributes(rows, raw, gaps, i, v);
  }

  lemma {:induction false} ShownAtLeast(rows: seq<Row>, raw: seq<Option<real>>, gaps: seq<Gap>, i: nat, k: nat, v: real,
          shown: real)
    requires |raw| == |rows| && RisingRows(rows) && NonNegative(raw) && i <= k < |rows|
    requires Projection(rows, raw, gaps)[k].value == Some(shown) && Contributes(rows, raw, gaps, i, v)
    ensures v <= shown
  {
    ShownIsGreatest(rows, raw, gaps, k);
  }

  lemma {:induction false} ContributedBelow(rows: seq<Row>, raw: seq<Option<real>>, gaps: seq<Gap>, d: nat, k: nat,
          e: nat, v: real, j: nat, i: nat, u: real)
    requires |raw| == |rows| && RisingRows(rows) && NonNegative(raw) && k < |rows| && Hole(rows, raw, k)
    requires Bracketed(rows, raw, gaps, d, k, e) && OnLine(rows, raw, d, k, e, v)
    requires GreatestBefore(rows, raw, gaps, k, j)
    requires i <= k && Contributes(rows, raw, gaps, i, u)
    ensures u <= Max(v, raw[j].value)
  {
    if i == k {
      OneEstimate(rows, raw, gaps, d, k, e, v, u);
    } else if Estimated(rows, raw, gaps, i, u) {
      EarlierEstimate(rows, raw, gaps, d, i, k, e, u, v);
    }
  }

  lemma {:induction false} OneEstimate(rows: seq<Row>, raw: seq<Option<real>>, gaps: seq<Gap>, d: nat, k: nat, e: nat,
          v: real, u: real)
    requires |raw| == |rows| && RisingRows(rows) && k < |rows|
    requires Bracketed(rows, raw, gaps, d, k, e) && OnLine(rows, raw, d, k, e, v) && Estimated(rows, raw, gaps, k, u)
    ensures u == v
  {
    OnePointOnLine(rows, raw, d, k, e);
    var c: nat, f: nat :| Bracketed(rows, raw, gaps, c, k, f) && OnLine(rows, raw, c, k, f, u);
    assert c == d && f == e;
  }

  ghost predicate SomeAccepted(rows: seq<Row>, raw: seq<Option<real>>, gaps: seq<Gap>, from: nat, to: nat)
    requires |raw| == |rows| && to <= |rows|
  {
    exists i :: from <= i < to && Accepted(rows, raw, gaps, i)
  }

  ghost predicate SomeMeasured(rows: seq<Row>, raw: seq<Option<real>>, gaps: seq<Gap>, to: nat)
    requires |raw| == |rows| && to <= |rows|
  {
    exists i :: 0 <= i < to && Measured(rows, raw, gaps, i)
  }

  // A row without a reading of its own, with no measured row before it and an accepted one still to come.
  ghost predicate Unheld(rows: seq<Row>, raw: seq<Option<real>>, gaps: seq<Gap>, k: nat)
    requires |raw| == |rows| && k < |rows|
  {
    Hole(rows, raw, k) && !SomeMeasured(rows, raw, gaps, k) && SomeAccepted(rows, raw, gaps, k + 1, |rows|)
  }

  /** Which rows show a value: those with an accepted reading at or before them, unless they are without a reading
      of their own, no measured row is before them and an accepted one is still to come. */
  lemma {:induction false} ShownWhere(rows: seq<Row>, raw: seq<Option<real>>, gaps: seq<Gap>, k: nat)
    requires |raw| == |rows| && RisingRows(rows) && NonNegative(raw) && k < |rows|
    ensures Projection(rows, raw, gaps)[k].value.Some? <==>
      SomeAccepted(rows, raw, gaps, 0, k + 1) && !Unheld(rows, raw, gaps, k)
  {
    var s := Screened(rows, raw, gaps);
    var t := ProjectionBeforeFloor(rows, raw, gaps);
    ScreenedSettled(rows, raw, gaps);
    HeldSettled(rows, s);
    FloorIsHighest(t, k + 1);
    if t[k].value.Some? {
      HeldIsContributed(rows, raw, gaps, k);
      SomethingAccepted(rows, raw, gaps, k, t[k].value.value);
    }
    PresentBeforeFloor(rows, raw, gaps, k);
  }

  lemma {:induction false} SomethingAccepted(rows: seq<Row>, raw: seq<Option<real>>, gaps: seq<Gap>, k: nat, v: real)
    requires |raw| == |rows| && k < |rows| && Contributed(rows, raw, gaps, k, v)
    ensures SomeAccepted(rows, raw, gaps, 0, k + 1)
  {
    var i: nat :| i <= k && Contributes(rows, raw, gaps, i, v);
    if Estimated(rows, raw, gaps, i, v) {
      var d: nat, e: nat :| Bracketed(rows, raw, gaps, d, i, e) && OnLine(rows, raw, d, i, e, v);
      assert Accepted(rows, raw, gaps, d);
    }
  }

  lemma {:induction false} PresentBeforeFloor(rows: seq<Row>, raw: seq<Option<real>>, gaps: seq<Gap>, k: nat)
    requires |raw| == |rows| && RisingRows(rows) && NonNegative(raw) && k < |rows|
    ensures
      var t := ProjectionBeforeFloor(rows, raw, gaps)[k];
      && (Unheld(rows, raw, gaps, k) ==> t.value.None?)
      && (!Unheld(rows, raw, gaps, k) && SomeAccepted(rows, raw, gaps, 0, k + 1) ==> t.value.Some?)
  {
    if Hole(rows, raw, k) {
      HoleBeforeFloor(rows, raw, gaps, k);
    } else if SomeAccepted(rows, raw, gaps, 0, k + 1) {
      var i :| 0 <= i < k + 1 && Accepted(rows, raw, gaps, i);
      BaselineRises(rows, raw, gaps, i + 1, k + 1);
      PresentStays(rows, raw, gaps, k);
    }
  }

  lemma {:induction false} HoleBeforeFloor(rows: seq<Row>, raw: seq<Option<real>>, gaps: seq<Gap>, k: nat)
    requires |raw| == |rows| && RisingRows(rows) && NonNegative(raw) && k < |rows| && Hole(rows, raw, k)
    ensures
      var t := ProjectionBeforeFloor(rows, raw, gaps)[k];
      && (Unheld(rows, raw, gaps, k) ==> t.value.None?)
      && (!Unheld(rows, raw, gaps, k) && SomeAccepted(rows, raw, gaps, 0, k + 1) ==> t.value.Some?)
  {
    if SomeMeasured(rows, raw, gaps, k) {
      var d :| 0 <= d < k && Measured(rows, raw, gaps, d);
      ShownAfterMeasured(rows, raw, gaps, d, k);
    } else {
      HolePresent(rows, raw, gaps, k);
    }
  }

  lemma {:induction false} ShownAfterMeasured(rows: seq<Row>, raw: seq<Option<real>>, gaps: seq<Gap>, d: nat, k: nat)
    requires |raw| == |rows| && RisingRows(rows) && NonNegative(raw) && d < k < |rows| && Measured(rows, raw, gaps, d)
    ensures ProjectionBeforeFloor(rows, raw, gaps)[k].value.Some? && Projection(rows, raw, gaps)[k].value.Some?
  {
    AnchorsAreMeasured(rows, raw, gaps, d);
    ScreenedSettled(rows, raw, gaps);
    HeldSettled(rows, Screened(rows, raw, gaps));
    FloorKeepsDirect(ProjectionBeforeFloor(rows, raw, gaps));
  }

  lemma {:induction false} PresentStays(rows: seq<Row>, raw: seq<Option<real>>, gaps: seq<Gap>, k: nat)
    requires |raw| == |rows| && k < |rows| && Screened(rows, raw, gaps)[k].value.Some?
    ensures ProjectionBeforeFloor(rows, raw, gaps)[k].value.Some?
  {
    var s := Screened(rows, raw, gaps);
    assert Filled(rows, s)[k] == s[k];
  }

  // A row is displayed before the last pass exactly if its reading is accepted.
  lemma {:induction false} DisplayedIsAccepted(rows: seq<Row>, raw: seq<Option<real>>, gaps: seq<Gap>, k: nat)
    requires |raw| == |rows| && RisingRows(rows) && NonNegative(raw) && k < |rows|
    ensures
      var u := TailHeld(rows, Filled(rows, Screened(rows, raw, gaps)))[k];
      IsDisplayed(u) <==> Accepted(rows, raw, gaps, k)
  {
    FilledIsContributed(rows, raw, gaps, k);
  }

  lemma {:induction false} HolePresent(rows: seq<Row>, raw: seq<Option<real>>, gaps: seq<Gap>, k: nat)
    requires |raw| == |rows| && RisingRows(rows) && NonNegative(raw) && k < |rows| && Hole(rows, raw, k)
    requires !SomeMeasured(rows, raw, gaps, k)
    ensures
      ProjectionBeforeFloor(rows, raw, gaps)[k].value.Some? <==>
        SomeAccepted(rows, raw, gaps, 0, k + 1) && !SomeAccepted(rows, raw, gaps, k + 1, |rows|)
  {
    var u := TailHeld(rows, Filled(rows, Screened(rows, raw, gaps)));
    HoleStaysOpen(rows, raw, gaps, k);
    forall j | 0 <= j < |u| ensures IsDisplayed(u[j]) <==> Accepted(rows, raw, gaps, j) {
      DisplayedIsAccepted(rows, raw, gaps, j);
    }
    HeldAfterLast(rows, u, k);
    AcceptedIsDisplayed(rows, raw, gaps, u, 0, k + 1);
    AcceptedIsDisplayed(rows, raw, gaps, u, k + 1, |u|);
  }

  ghost predicate SomeDisplayed(u: seq<Evidence>, from: nat, to: nat)
    requires to <= |u|
  {
    exists i :: from <= i < to && IsDisplayed(u[i])
  }

  lemma {:induction false} AcceptedIsDisplayed(rows: seq<Row>, raw: seq<Option<real>>, gaps: seq<Gap>,
          u: seq<Evidence>, from: nat, to: nat)
    requires |raw| == |rows| == |u| && to <= |u|
    requires forall j :: 0 <= j < |u| ==> (IsDisplayed(u[j]) <==> Accepted(rows, raw, gaps, j))
    ensures SomeDisplayed(u, from, to) <==> SomeAccepted(rows, raw, gaps, from, to)
  {
    if SomeAccepted(rows, raw, gaps, from, to) {
      var i :| from <= i < to && Accepted(rows, raw, gaps, i);
      assert IsDisplayed(u[i]);
    }
  }

  lemma {:induction false} HeldAfterLast(rows: seq<Row>, u: seq<Evidence>, k: nat)
    requires |u| == |rows| && k < |u| && u[k] == Evidence(None, false, Unknown, false)
    ensures DisplayHeld(rows, u)[k].value.Some? <==>
      SomeDisplayed(u, 0, k + 1) && !SomeDisplayed(u, k + 1, |u|)
  {
    var last := Last(u, IsDisplayed, |u|);
    assert last != k;
  }

  lemma {:induction false} HoleStaysOpen(rows: seq<Row>, raw: seq<Option<real>>, gaps: seq<Gap>, k: nat)
    requires |raw| == |rows| && RisingRows(rows) && NonNegative(raw) && k < |rows| && Hole(rows, raw, k)
    requires !SomeMeasured(rows, raw, gaps, k)
    ensures
      var u := TailHeld(rows, Filled(rows, Screened(rows, raw, gaps)));
      u[k] == Evidence(None, false, Unknown, false)
  {
    var s := Screened(rows, raw, gaps);
    var r := Filled(rows, s);
    ScreenedSettled(rows, raw, gaps);
    forall j | 0 <= j < k ensures !IsAnchor(s[j]) && !IsReliable(r[j]) {
      AnchorsAreMeasured(rows, raw, gaps, j);
      ReliableWhenFilled(rows, raw, gaps, j);
    }
    NothingBefore(s, k);
  }

  lemma {:induction false} NothingBefore(s: seq<Evidence>, k: nat)
    requires k <= |s|
    ensures (forall j :: 0 <= j < k ==> !IsAnchor(s[j])) ==> PreviousAnchor(s, k) == -1
  {
  }

  // A row without a reading between two measured rows with equal readings.
  ghost predicate Level(rows: seq<Row>, raw: seq<Option<real>>, gaps: seq<Gap>, k: nat)
    requires |raw| == |rows| && k < |rows|
  {
    && Hole(rows, raw, k)
    && exists d: nat, e: nat :: Bracketed(rows, raw, gaps, d, k, e) && raw[d].value == raw[e].value
  }

  /** A shown value counts as reliable exactly if it is measured, or stands between two equal measured readings. */
  lemma {:induction false} ReliableIff(rows: seq<Row>, raw: seq<Option<real>>, gaps: seq<Gap>, k: nat)
    requires |raw| == |rows| && RisingRows(rows) && NonNegative(raw) && k < |rows|
    ensures Projection(rows, raw, gaps)[k].reliable <==> Measured(rows, raw, gaps, k) || Level(rows, raw, gaps, k)
  {
    ReliableBeforeFloor(rows, raw, gaps, k);
    if ProjectionBeforeFloor(rows, raw, gaps)[k].reliable {
      ReliableIsUnfloored(rows, raw, gaps, k);
    }
  }

  lemma {:induction false} ReliableBeforeFloor(rows: seq<Row>, raw: seq<Option<real>>, gaps: seq<Gap>, k: nat)
    requires |raw| == |rows| && RisingRows(rows) && NonNegative(raw) && k < |rows|
    ensures
      ProjectionBeforeFloor(rows, raw, gaps)[k].reliable <==> Measured(rows, raw, gaps, k) || Level(rows, raw, gaps, k)
  {
    ReliableWhenFilled(rows, raw, gaps, k);
    FilledIsContributed(rows, raw, gaps, k);
  }

  lemma {:induction false} ReliableWhenFilled(rows: seq<Row>, raw: seq<Option<real>>, gaps: seq<Gap>, k: nat)
    requires |raw| == |rows| && RisingRows(rows) && NonNegative(raw) && k < |rows|
    ensures
      var r := Filled(rows, Screened(rows, raw, gaps))[k];
      && (r.reliable <==> Measured(rows, raw, gaps, k) || Level(rows, raw, gaps, k))
      && (r.reliable ==> r.value.Some?)
  {
    var s := Screened(rows, raw, gaps);
    ScreenedSettled(rows, raw, gaps);
    AnchorsAreMeasured(rows, raw, gaps, k);
    var left, right := PreviousAnchor(s, k), NextAnchor(s, k);
    if Hole(rows, raw, k) && left >= 0 && right < |s| {
      BracketIsAnchors(rows, raw, gaps, left, k, right);
      AnchorsAreMeasured(rows, raw, gaps, left);
      AnchorsAreMeasured(rows, raw, gaps, right);
    }
    forall d: nat, e: nat | Hole(rows, raw, k) && Bracketed(rows, raw, gaps, d, k, e) ensures left == d && right == e {
      BracketIsAnchors(rows, raw, gaps, d, k, e);
    }
  }

  lemma {:induction false} ReliableIsUnfloored(rows: seq<Row>, raw: seq<Option<real>>, gaps: seq<Gap>, k: nat)
    requires |raw| == |rows| && RisingRows(rows) && NonNegative(raw) && k < |rows|
    requires ProjectionBeforeFloor(rows, raw, gaps)[k].reliable
    ensures Projection(rows, raw, gaps)[k] == ProjectionBeforeFloor(rows, raw, gaps)[k]
  {
    var s, t := Screened(rows, raw, gaps), ProjectionBeforeFloor(rows, raw, gaps);
    ScreenedSettled(rows, raw, gaps);
    HeldSettled(rows, s);
    ReliableBeforeFloor(rows, raw, gaps, k);
    FloorIsHighest(t, k);
    if !Measured(rows, raw, gaps, k) {
      var d: nat, e: nat :| Bracketed(rows, raw, gaps, d, k, e) && raw[d].value == raw[e].value;
      AnchorsAreMeasured(rows, raw, gaps, e);
      assert OnLine(rows, raw, d, k, e, raw[d].value);
      HeldIsContributed(rows, raw, gaps, k);
      assert Contributes(rows, raw, gaps, k, raw[d].value);
    } else {
      AnchorsAreMeasured(rows, raw, gaps, k);
    }
  }
}
