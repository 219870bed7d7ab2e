/** Line segments of one series, and the holds that local usage cuts into a token series
    (scripts/graph_live_evidence.py, lines 420-443 and 873-1009). */
module TokenSegments {
  import opened Basics
  import opened GraphRows
  import opened LocalUsage

  datatype Style = Dashed | Flat | Idle | Rising

  // The anomaly is a token or a dollar anomaly, as the series is of tokens or of dollars.
  datatype Cause = ConfirmedGap | ModelMissing | SourceUnavailable | Anomaly | TerminalUnobserved

  datatype Segment = Segment(startAt: int, endAt: int, style: Style, causes: set<Cause>)

  datatype Span = Span(startAt: int, endAt: int)

  // ---- the tiling between exact points ----

  predicate Exact(e: Evidence) {
    Renderable(e) && ((e.origin.Direct? && e.reliable) || e.origin.Legacy?)
  }

  predicate InsideIdle(start: int, end: int, idle: seq<Span>) {
    exists k :: 0 <= k < |idle| && start >= idle[k].startAt && end <= idle[k].endAt
  }

  predicate SlotBridges(projection: seq<Evidence>, left: nat, right: nat, slots: set<nat>)
    requires left < right < |projection|
  {
    && right == left + 2 && left + 1 in slots
    && projection[left].origin.Direct? && projection[left].reliable
    && projection[right].origin.Direct? && projection[right].reliable
  }

  function Between(rows: seq<Row>, projection: seq<Evidence>, gaps: seq<Gap>, idle: seq<Span>, slots: set<nat>,
                   previous: nat, index: nat): Segment
    requires |rows| == |projection| && previous < index < |rows|
    requires Exact(projection[previous]) && Exact(projection[index])
  {
    var start, end := rows[previous].timestamp, rows[index].timestamp;
    var a, b := projection[previous].value.value, projection[index].value.value;
    var predicted := if SlotBridges(projection, previous, index, slots) then index else previous + 1;  // up to index
    var causes :=
      (if HardBreak(start, end, gaps) then {ConfirmedGap} else {})
      + (if predicted < index then {ModelMissing} else {})
      + (if exists k :: predicted <= k < index && rows[k].source.Unavailable? then {SourceUnavailable} else {})
      + (if (exists k :: predicted <= k < index && projection[k].origin.Rejected?) || b < a then {Anomaly} else {});
    var style :=
      if causes != {} then Dashed
      else if InsideIdle(start, end, idle) && a == b then Idle
      else if a == b then Flat
      else Rising;
    Segment(start, end, style, causes)
  }

  // The indices of the exact points among the first `n`, in order.
  function ExactPoints(projection: seq<Evidence>, n: nat): (r: seq<nat>)
    requires n <= |projection|
    ensures forall j :: 0 <= j < |r| ==> r[j] < n && Exact(projection[r[j]])
    ensures forall i, j :: 0 <= i < j < |r| ==> r[i] < r[j]
  {
    if n == 0 then []
    else if Exact(projection[n - 1]) then ExactPoints(projection, n - 1) + [n - 1]
    else ExactPoints(projection, n - 1)
  }

  function LastRenderable(projection: seq<Evidence>, after: nat, n: nat): (r: nat)
    requires after < n <= |projection|
    ensures after <= r < n && (r > after ==> Renderable(projection[r]))
    ensures forall k :: r < k < n ==> !Renderable(projection[k])
  {
    if n - 1 == after || Renderable(projection[n - 1]) then n - 1 else LastRenderable(projection, after, n - 1)
  }

  function Tail(rows: seq<Row>, gaps: seq<Gap>, anchor: nat, last: nat): Segment
    requires anchor < last < |rows|
  {
    var start, end := rows[anchor].timestamp, rows[last].timestamp;
    Segment(start, end, Dashed,
            {ModelMissing} + (if HardBreak(start, end, gaps) then {ConfirmedGap} else {})
            + (if rows[last].synthetic then {TerminalUnobserved} else {}))
  }

  function Pairs(rows: seq<Row>, projection: seq<Evidence>, gaps: seq<Gap>, idle: seq<Span>, slots: set<nat>,
          exact: seq<nat>, n: nat): seq<Segment>
    requires |rows| == |projection| && 0 < n <= |exact|
    requires forall j :: 0 <= j < |exact| ==> exact[j] < |rows| && Exact(projection[exact[j]])
    requires forall i, j :: 0 <= i < j < |exact| ==> exact[i] < exact[j]
  {
    if n == 1 then []
    else Pairs(rows, projection, gaps, idle, slots, exact, n - 1)
         + [Between(rows, projection, gaps, idle, slots, exact[n - 2], exact[n - 1])]
  }

  function Base(rows: seq<Row>, projection: seq<Evidence>, gaps: seq<Gap>, idle: seq<Span>,
          slots: set<nat>): seq<Segment>
    requires |rows| == |projection|
  {
    var exact := ExactPoints(projection, |projection|);
    if |exact| == 0 then []
    else
      var pairs := Pairs(rows, projection, gaps, idle, slots, exact, |exact|);
      var anchor := exact[|exact| - 1];
      var last := LastRenderable(projection, anchor, |projection|);
      if last > anchor then pairs + [Tail(rows, gaps, anchor, last)] else pairs
  }

  // ---- holds ----

  predicate HoldAnchor(row: Row, e: Evidence, start: int) {
    row.timestamp <= start && !row.synthetic && (e.origin.Direct? || e.origin.Legacy?) && e.value.Some?
  }

  function LastHoldAnchor(rows: seq<Row>, projection: seq<Evidence>, start: int, n: nat): (r: int)
    requires |rows| == |projection| && n <= |rows|
    ensures -1 <= r < n && (r >= 0 ==> HoldAnchor(rows[r], projection[r], start))
  {
    if n == 0 then -1
    else if HoldAnchor(rows[n - 1], projection[n - 1], start) then n - 1
    else LastHoldAnchor(rows, projection, start, n - 1)
  }

  predicate Contradicts(row: Row, e: Evidence, anchorAt: int, end: int, value: Option<real>) {
    anchorAt < row.timestamp <= end
    && (e.origin.Rejected? || ((e.origin.Direct? || e.origin.Legacy?) && e.value != value))
  }

  // An unused stretch becomes a hold when a value is known before it and nothing contradicts it.
  predicate Holds(rows: seq<Row>, projection: seq<Evidence>, interval: Interval)
    requires |rows| == |projection|
  {
    var anchor := LastHoldAnchor(rows, projection, interval.startAt, |rows|);
    && interval.state.Unused?
    && anchor >= 0
    && forall k :: 0 <= k < |rows| ==>
         !Contradicts(rows[k], projection[k], rows[anchor].timestamp, interval.endAt, projection[anchor].value)
  }

  function HoldSpans(rows: seq<Row>, projection: seq<Evidence>, local: seq<Interval>, n: nat): seq<Span>
    requires |rows| == |projection| && n <= |local|
  {
    if n == 0 then []
    else
      var before := HoldSpans(rows, projection, local, n - 1);
      if Holds(rows, projection, local[n - 1])
      then before + [Span(local[n - 1].startAt, local[n - 1].endAt)] else before
  }

  method LocalTokenHolds(rows: seq<Row>, projection: seq<Evidence>, local: seq<Interval>) returns (r: seq<Span>)
    requires |rows| == |projection|
    ensures r == HoldSpans(rows, projection, local, |local|)
  {
    r := [];
    for k := 0 to |local|
      invariant r == HoldSpans(rows, projection, local, k)
    {
      if Holds(rows, projection, local[k]) {
        r := r + [Span(local[k].startAt, local[k].endAt)];
      }
    }
  }

  // ---- cutting ----

  function Cut(s: Segment, hold: Span): seq<Segment> {
    if s.endAt <= hold.startAt || s.startAt >= hold.endAt then [s]
    else
      (if s.startAt < hold.startAt then [s.(endAt := hold.startAt)] else [])
      + (if s.endAt > hold.endAt then [s.(startAt := hold.endAt)] else [])
  }

  function CutAll(segments: seq<Segment>, hold: Span): seq<Segment> {
    if |segments| == 0 then []
    else CutAll(segments[..|segments| - 1], hold) + Cut(segments[|segments| - 1], hold)
  }

  function Hold(segments: seq<Segment>, hold: Span): seq<Segment> {
    CutAll(segments, hold) + [Segment(hold.startAt, hold.endAt, Idle, {})]
  }

  function HoldEach(segments: seq<Segment>, holds: seq<Span>): seq<Segment> {
    if |holds| == 0 then segments
    else Hold(HoldEach(segments, holds[..|holds| - 1]), holds[|holds| - 1])
  }

  function StyleRank(s: Style): nat {
    match s case Dashed => 0 case Flat => 1 case Idle => 2 case Rising => 3
  }

  // Styles rank by their names.
  lemma {:induction false} StylesRankByName(a: Style, b: Style)
    ensures StyleRank(a) < StyleRank(b) <==>
      a != b && (a.Dashed? || b.Rising? || (a.Flat? && b.Idle?))
  {
  }

  predicate KeyLeq(a: Segment, b: Segment) {
    || a.startAt < b.startAt
    || (a.startAt == b.startAt &&
        (a.endAt < b.endAt || (a.endAt == b.endAt && StyleRank(a.style) <= StyleRank(b.style))))
  }

  predicate SortedByKey(segments: seq<Segment>) {
    forall k :: 0 < k < |segments| ==> KeyLeq(segments[k - 1], segments[k])
  }

  lemma {:induction false} Inserted(left: seq<Segment>, next: Segment, right: seq<Segment>)
    requires SortedByKey(left + right)
    requires |left| > 0 ==> KeyLeq(left[|left| - 1], next)
    requires |right| > 0 ==> KeyLeq(next, right[0])
    ensures SortedByKey(left + [next] + right)
    ensures multiset(left + [next] + right) == multiset(left + right) + multiset{next}
  {
    var r, n := left + [next] + right, |left|;
    forall k | 0 < k < |r| ensures KeyLeq(r[k - 1], r[k]) {
      if k < n {
        assert r[k - 1] == (left + right)[k - 1] && r[k] == (left + right)[k];
      } else if k > n + 1 {
        assert r[k - 1] == (left + right)[k - 2] && r[k] == (left + right)[k - 1];
      }
    }
  }

  method InsertSegment(sorted: seq<Segment>, next: Segment) returns (r: seq<Segment>)
    requires SortedByKey(sorted)
    ensures SortedByKey(r) && multiset(r) == multiset(sorted) + multiset{next}
  {
    var at := |sorted|;
    while at > 0 && !KeyLeq(sorted[at - 1], next)
      invariant 0 <= at <= |sorted|
      invariant at < |sorted| ==> KeyLeq(next, sorted[at])
    {
      at := at - 1;
    }
    assert sorted == sorted[..at] + sorted[at..];
    Inserted(sorted[..at], next, sorted[at..]);
    r := sorted[..at] + [next] + sorted[at..];
  }

  method SortSegments(segments: seq<Segment>) returns (r: seq<Segment>)
    ensures SortedByKey(r) && multiset(r) == multiset(segments)
  {
    r := [];
    for k := 0 to |segments|
      invariant SortedByKey(r) && multiset(r) == multiset(segments[..k])
    {
      assert segments[..k + 1] == segments[..k] + [segments[k]];
      r := InsertSegment(r, segments[k]);
    }
    assert segments[..|segments|] == segments;
  }

  method PairSegments(rows: seq<Row>, projection: seq<Evidence>, gaps: seq<Gap>, idle: seq<Span>, slots: set<nat>,
          exact: seq<nat>)
      returns (segments: seq<Segment>)
    requires |rows| == |projection| && |exact| > 0
    requires forall j :: 0 <= j < |exact| ==> exact[j] < |rows| && Exact(projection[exact[j]])
    requires forall i, j :: 0 <= i < j < |exact| ==> exact[i] < exact[j]
    ensures segments == Pairs(rows, projection, gaps, idle, slots, exact, |exact|)
  {
    segments := [];
    for k := 1 to |exact|
      invariant segments == Pairs(rows, projection, gaps, idle, slots, exact, k)
    {
      segments := segments + [Between(rows, projection, gaps, idle, slots, exact[k - 1], exact[k])];
    }
  }

  method BaseSegments(rows: seq<Row>, projection: seq<Evidence>, gaps: seq<Gap>, idle: seq<Span>, slots: set<nat>)
    returns (segments: seq<Segment>)
    requires |rows| == |projection|
    ensures segments == Base(rows, projection, gaps, idle, slots)
  {
    segments := [];
    var exact: seq<nat> := [];
    for k := 0 to |projection|
      invariant exact == ExactPoints(projection, k)
    {
      if Exact(projection[k]) {
        exact := exact + [k];
      }
    }
    if |exact| > 0 {
      segments := PairSegments(rows, projection, gaps, idle, slots, exact);
      var anchor := exact[|exact| - 1];
      var last := LastRenderable(projection, anchor, |projection|);
      if last > anchor {
        segments := segments + [Tail(rows, gaps, anchor, last)];
      }
    }
  }

  method ApplyHolds(base: seq<Segment>, holds: seq<Span>) returns (segments: seq<Segment>)
    ensures segments == HoldEach(base, holds)
  {
    segments := base;
    for h := 0 to |holds|
      invariant segments == HoldEach(base, holds[..h])
    {
      var hold := holds[h];
      var clipped: seq<Segment> := [];
      for k := 0 to |segments|
        invariant clipped == CutAll(segments[..k], hold)
      {
        assert segments[..k + 1][..k] == segments[..k];
        clipped := clipped + Cut(segments[k], hold);
      }
      assert segments[..|segments|] == segments;
      assert holds[..h + 1][..h] == holds[..h];
      segments := clipped + [Segment(hold.startAt, hold.endAt, Idle, {})];
    }
    assert holds[..|holds|] == holds;
  }

  // Whether every member of the displayed model or family has a saved dollar amount that the slot leaves
  // unchanged; `family` is the display family of a model name.
  predicate DollarsBridge(rows: seq<Row>, model: string, family: string -> Option<string>, k: nat)
    requires 0 < k < |rows| - 1
  {
    var left, right := rows[k - 1].models, rows[k + 1].models;
    && (exists name :: name in left && IsMember(name, model, family))
    && forall name :: name in left && IsMember(name, model, family) ==>
         name in right && left[name].dollars.Some? && left[name].dollars == right[name].dollars
  }

  predicate IsMember(name: string, model: string, family: string -> Option<string>) {
    name == model || family(name) == Some(model)
  }

  // The sampling slots that a series may bridge.
  function BridgingSlots(rows: seq<Row>, model: string, metric: Metric, family: string -> Option<string>,
          slots: set<nat>): set<nat> {
    set k | k in slots && (metric.Tokens? || (0 < k < |rows| - 1 && DollarsBridge(rows, model, family, k)))
  }

  // Local usage holds back token series only.
  function HoldsOf(rows: seq<Row>, metric: Metric, projection: seq<Evidence>, local: seq<Interval>): seq<Span>
    requires |rows| == |projection|
  {
    if metric.Tokens? then HoldSpans(rows, projection, local, |local|) else []
  }

  function BaseOf(rows: seq<Row>, model: string, metric: Metric, family: string -> Option<string>,
          projection: seq<Evidence>, gaps: seq<Gap>, idle: seq<Span>, slots: set<nat>): seq<Segment>
    requires |rows| == |projection|
  {
    Base(rows, projection, gaps, idle, BridgingSlots(rows, model, metric, family, slots))
  }

  method ModelSegments(rows: seq<Row>, model: string, metric: Metric, family: string -> Option<string>,
          projection: seq<Evidence>, gaps: seq<Gap>, idle: seq<Span>, slots: set<nat>, local: seq<Interval>)
    returns (r: seq<Segment>)
    requires |rows| == |projection|
    ensures SortedByKey(r)
    ensures multiset(r) == multiset(HoldEach(BaseOf(rows, model, metric, family, projection, gaps, idle, slots),
                                             HoldsOf(rows, metric, projection, local)))
  {
    var segments := BaseSegments(rows, projection, gaps, idle, BridgingSlots(rows, model, metric, family, slots));
    if metric.Tokens? {
      var holds := LocalTokenHolds(rows, projection, local);
      segments := ApplyHolds(segments, holds);
    }
    r := SortSegments(segments);
  }

  // ---- what is drawn at an instant ----

  predicate At(s: Segment, t: int) { s.startAt <= t < s.endAt }

  ghost predicate Drawn(segments: seq<Segment>, t: int) { exists s :: s in segments && At(s, t) }

  ghost predicate Paints(segments: seq<Segment>, t: int, style: Style, causes: set<Cause>) {
    exists s :: s in segments && At(s, t) && s.style == style && s.causes == causes
  }

  ghost predicate Apart(segments: seq<Segment>) {
    && (forall s :: s in segments ==> s.startAt < s.endAt)
    && (forall i, j :: 0 <= i < j < |segments| ==>
         segments[i].endAt <= segments[j].startAt || segments[j].endAt <= segments[i].startAt)
  }

  // Segments one after another from `from` to `to`.
  ghost predicate Chain(segments: seq<Segment>, from: int, to: int) {
    && (forall k :: 0 <= k < |segments| ==> segments[k].startAt < segments[k].endAt)
    && (forall k :: 0 < k < |segments| ==> segments[k - 1].endAt == segments[k].startAt)
    && (if |segments| == 0 then from == to
        else segments[0].startAt == from && segments[|segments| - 1].endAt == to)
  }

  lemma {:induction false} ChainOrdered(segments: seq<Segment>, from: int, to: int, i: nat, j: nat)
    requires Chain(segments, from, to) && i <= j < |segments|
    ensures segments[i].startAt <= segments[j].startAt && segments[i].endAt <= segments[j].endAt
    ensures i < j ==> segments[i].endAt <= segments[j].startAt
    decreases j - i
  {
    if i < j {
      ChainOrdered(segments, from, to, i, j - 1);
    }
  }

  lemma {:induction false} ChainSpot(segments: seq<Segment>, from: int, to: int, t: int) returns (k: nat)
    requires Chain(segments, from, to) && from <= t < to
    ensures k < |segments| && At(segments[k], t)
  {
    k := 0;
    while segments[k].endAt <= t
      invariant k < |segments| && segments[k].startAt <= t
      decreases |segments| - k
    {
      k := k + 1;
    }
  }

  lemma {:induction false} ChainApart(segments: seq<Segment>, from: int, to: int)
    requires Chain(segments, from, to)
    ensures Apart(segments)
    ensures forall t :: Drawn(segments, t) <==> from <= t < to
  {
    forall i, j | 0 <= i < j < |segments| ensures segments[i].endAt <= segments[j].startAt {
      ChainOrdered(segments, from, to, i, j);
    }
    forall t ensures Drawn(segments, t) <==> from <= t < to {
      if from <= t < to {
        var k := ChainSpot(segments, from, to, t);
        assert segments[k] in segments;
      }
      if Drawn(segments, t) {
        var k :| 0 <= k < |segments| && At(segments[k], t);
        ChainOrdered(segments, from, to, 0, k);
        ChainOrdered(segments, from, to, k, |segments| - 1);
      }
    }
  }

  // ---- one hold ----

  predicate PartOf(p: Segment, s: Segment) {
    s.startAt <= p.startAt && p.endAt <= s.endAt && p.style == s.style && p.causes == s.causes
  }

  predicate Outside(p: Segment, hold: Span) { p.endAt <= hold.startAt || p.startAt >= hold.endAt }

  ghost predicate CutShape(before: seq<Segment>, after: seq<Segment>, hold: Span) {
    && (forall p :: p in after ==> Outside(p, hold) && exists s :: s in before && PartOf(p, s))
    && (forall s, t :: s in before && At(s, t) && !(hold.startAt <= t < hold.endAt) ==>
         exists p :: p in after && At(p, t) && PartOf(p, s))
  }

  lemma {:induction false} ApartParts(left: seq<Segment>, right: seq<Segment>)
    requires Apart(left) && Apart(right)
    requires forall p, q :: p in left && q in right ==> p.endAt <= q.startAt || q.endAt <= p.startAt
    ensures Apart(left + right)
  {
    var all := left + right;
    forall i, j | 0 <= i < j < |all| ensures all[i].endAt <= all[j].startAt || all[j].endAt <= all[i].startAt {
      if i < |left| <= j {
        assert left[i] in left && right[j - |left|] in right;
      }
    }
  }

  lemma {:induction false} CutOne(s: Segment, hold: Span)
    requires s.startAt < s.endAt && hold.startAt < hold.endAt
    ensures Apart(Cut(s, hold)) && CutShape([s], Cut(s, hold), hold)
  {
    var parts := Cut(s, hold);
    assert s in [s];
    forall t | At(s, t) && !(hold.startAt <= t < hold.endAt)
      ensures exists p :: p in parts && At(p, t) && PartOf(p, s)
    {
      if Outside(s, hold) {
        assert s in parts;
      } else if t < hold.startAt {
        assert s.(endAt := hold.startAt) in parts;
      } else {
        assert s.(startAt := hold.endAt) in parts;
      }
    }
  }

  lemma {:induction false} CutShapeJoined(a: seq<Segment>, b: seq<Segment>, x: seq<Segment>, y: seq<Segment>,
          hold: Span)
    requires CutShape(a, x, hold) && CutShape(b, y, hold)
    ensures CutShape(a + b, x + y, hold)
  {
  }

  lemma {:induction false} ApartSplit(segments: seq<Segment>)
    requires Apart(segments) && |segments| > 0
    ensures var rest, last := segments[..|segments| - 1], segments[|segments| - 1];
      && segments == rest + [last] && Apart(rest) && last.startAt < last.endAt
      && forall s :: s in rest ==> s.endAt <= last.startAt || last.endAt <= s.startAt
  {
    var rest, last := segments[..|segments| - 1], segments[|segments| - 1];
    assert last in segments;
    forall s | s in rest ensures s in segments && (s.endAt <= last.startAt || last.endAt <= s.startAt) {
      var i :| 0 <= i < |rest| && rest[i] == s;
      assert segments[i] == s;
    }
  }

  lemma {:induction false} CutKeepsApart(segments: seq<Segment>, hold: Span)
    requires Apart(segments) && hold.startAt < hold.endAt
    ensures Apart(CutAll(segments, hold)) && CutShape(segments, CutAll(segments, hold), hold)
  {
    if |segments| > 0 {
      var rest, last := segments[..|segments| - 1], segments[|segments| - 1];
      ApartSplit(segments);
      CutKeepsApart(rest, hold);
      CutOne(last, hold);
      CutShapeJoined(rest, [last], CutAll(rest, hold), Cut(last, hold), hold);
      PartsStayApart(rest, last, CutAll(rest, hold), Cut(last, hold), hold);
      ApartParts(CutAll(rest, hold), Cut(last, hold));
    }
  }

  lemma {:induction false} PartsStayApart(rest: seq<Segment>, last: Segment, x: seq<Segment>, y: seq<Segment>,
          hold: Span)
    requires CutShape(rest, x, hold) && CutShape([last], y, hold)
    requires forall s :: s in rest ==> s.endAt <= last.startAt || last.endAt <= s.startAt
    ensures forall p, q :: p in x && q in y ==> p.endAt <= q.startAt || q.endAt <= p.startAt
  {
    forall p, q | p in x && q in y ensures p.endAt <= q.startAt || q.endAt <= p.startAt {
      var s :| s in rest && PartOf(p, s);
      var u :| u in [last] && PartOf(q, u);
    }
  }

  // A hold repaints its own span and nothing else.
  ghost predicate Repainted(before: seq<Segment>, after: seq<Segment>, hold: Span) {
    && (forall t :: Drawn(after, t) <==> Drawn(before, t) || hold.startAt <= t < hold.endAt)
    && (forall t, style, causes :: Paints(after, t, style, causes) <==>
         if hold.startAt <= t < hold.endAt then style == Idle && causes == {} else Paints(before, t, style, causes))
  }

  lemma {:induction false} HoldRepaints(segments: seq<Segment>, hold: Span)
    requires Apart(segments) && hold.startAt < hold.endAt
    ensures Apart(Hold(segments, hold)) && Repainted(segments, Hold(segments, hold), hold)
  {
    var cut, own := CutAll(segments, hold), Segment(hold.startAt, hold.endAt, Idle, {});
    var after := cut + [own];
    CutKeepsApart(segments, hold);
    ApartParts(cut, [own]);
    assert own in after && forall p :: p in after <==> p in cut || p == own;
    forall t, style, causes
      ensures Paints(after, t, style, causes) <==>
        if hold.startAt <= t < hold.endAt then style == Idle && causes == {} else Paints(segments, t, style, causes)
    {
      HoldPaints(segments, cut, hold, t, style, causes);
    }
    forall t ensures Drawn(after, t) <==> Drawn(segments, t) || hold.startAt <= t < hold.endAt {
      PaintedIsDrawn(after, t);
      PaintedIsDrawn(segments, t);
      if !(hold.startAt <= t < hold.endAt) {
        if style, causes :| Paints(after, t, style, causes) {
          assert Paints(segments, t, style, causes);
        }
        if style, causes :| Paints(segments, t, style, causes) {
          assert Paints(after, t, style, causes);
        }
      } else {
        assert Paints(after, t, Idle, {});
      }
    }
  }

  lemma {:induction false} PaintedIsDrawn(segments: seq<Segment>, t: int)
    ensures Drawn(segments, t) <==> exists style, causes :: Paints(segments, t, style, causes)
  {
    if Drawn(segments, t) {
      var s :| s in segments && At(s, t);
      assert Paints(segments, t, s.style, s.causes);
    }
  }

  lemma {:induction false} HoldPaints(segments: seq<Segment>, cut: seq<Segment>, hold: Span, t: int, style: Style,
          causes: set<Cause>)
    requires CutShape(segments, cut, hold)
    ensures var after := cut + [Segment(hold.startAt, hold.endAt, Idle, {})];
      Paints(after, t, style, causes) <==>
        if hold.startAt <= t < hold.endAt then style == Idle && causes == {} else Paints(segments, t, style, causes)
  {
    var own := Segment(hold.startAt, hold.endAt, Idle, {});
    var after := cut + [own];
    assert own in after;
    if p :| p in after && At(p, t) && p.style == style && p.causes == causes {
      if p in cut {
        var s :| s in segments && PartOf(p, s);
        assert At(s, t);
      }
    }
    if hold.startAt <= t < hold.endAt {
      assert At(own, t);
    } else if s :| s in segments && At(s, t) && s.style == style && s.causes == causes {
      var p :| p in cut && At(p, t) && PartOf(p, s);
      assert p in after;
    }
  }

  ghost predicate Held(holds: seq<Span>, t: int) {
    exists k :: 0 <= k < |holds| && holds[k].startAt <= t < holds[k].endAt
  }

  lemma {:induction false} HeldSplit(holds: seq<Span>, t: int)
    requires |holds| > 0
    ensures var rest, last := holds[..|holds| - 1], holds[|holds| - 1];
      Held(holds, t) <==> Held(rest, t) || last.startAt <= t < last.endAt
  {
    var rest := holds[..|holds| - 1];
    if k :| 0 <= k < |holds| && holds[k].startAt <= t < holds[k].endAt {
      assert k < |rest| ==> rest[k] == holds[k];
    }
    if k :| 0 <= k < |rest| && rest[k].startAt <= t < rest[k].endAt {
      assert holds[k] == rest[k];
    }
  }

  // After all holds: idle exactly inside them, the tiling's own look everywhere else.
  ghost predicate RepaintedAll(before: seq<Segment>, after: seq<Segment>, holds: seq<Span>) {
    && (forall t :: Drawn(after, t) <==> Drawn(before, t) || Held(holds, t))
    && (forall t, style, causes :: Paints(after, t, style, causes) <==>
         if Held(holds, t) then style == Idle && causes == {} else Paints(before, t, style, causes))
  }

  lemma {:induction false} RepaintedMore(before: seq<Segment>, mid: seq<Segment>, after: seq<Segment>, holds: seq<Span>)
    requires |holds| > 0 && RepaintedAll(before, mid, holds[..|holds| - 1]) && Repainted(mid, after, holds[|holds| - 1])
    ensures RepaintedAll(before, after, holds)
  {
    forall t ensures Drawn(after, t) <==> Drawn(before, t) || Held(holds, t) {
      HeldSplit(holds, t);
    }
    forall t, style, causes
      ensures Paints(after, t, style, causes) <==>
        if Held(holds, t) then style == Idle && causes == {} else Paints(before, t, style, causes)
    {
      HeldSplit(holds, t);
    }
  }

  lemma {:induction false} HoldsRepaint(segments: seq<Segment>, holds: seq<Span>)
    requires Apart(segments) && forall k :: 0 <= k < |holds| ==> holds[k].startAt < holds[k].endAt
    ensures Apart(HoldEach(segments, holds)) && RepaintedAll(segments, HoldEach(segments, holds), holds)
  {
    if |holds| > 0 {
      var rest := holds[..|holds| - 1];
      HoldsRepaint(segments, rest);
      HoldRepaints(HoldEach(segments, rest), holds[|holds| - 1]);
      RepaintedMore(segments, HoldEach(segments, rest), HoldEach(segments, holds), holds);
    }
  }

  // ---- the base tiling ----

  lemma {:induction false} PairsChain(rows: seq<Row>, projection: seq<Evidence>, gaps: seq<Gap>, idle: seq<Span>,
          slots: set<nat>, exact: seq<nat>, n: nat)
    requires |rows| == |projection| && RisingRows(rows) && 0 < n <= |exact|
    requires forall j :: 0 <= j < |exact| ==> exact[j] < |rows| && Exact(projection[exact[j]])
    requires forall i, j :: 0 <= i < j < |exact| ==> exact[i] < exact[j]
    ensures Chain(Pairs(rows, projection, gaps, idle, slots, exact, n), rows[exact[0]].timestamp,
        rows[exact[n - 1]].timestamp)
  {
    if n > 1 {
      PairsChain(rows, projection, gaps, idle, slots, exact, n - 1);
    }
  }

  // From the first exact point to the last point that can be shown, or nothing without one.
  ghost function Extent(rows: seq<Row>, projection: seq<Evidence>): (r: Span)
    requires |rows| == |projection|
  {
    var exact := ExactPoints(projection, |projection|);
    if |exact| == 0 then Span(0, 0)
    else Span(rows[exact[0]].timestamp, rows[LastRenderable(projection, exact[|exact| - 1], |projection|)].timestamp)
  }

  lemma {:induction false} BaseChain(rows: seq<Row>, projection: seq<Evidence>, gaps: seq<Gap>, idle: seq<Span>,
          slots: set<nat>)
    requires |rows| == |projection| && RisingRows(rows)
    ensures var extent := Extent(rows, projection);
      Chain(Base(rows, projection, gaps, idle, slots), extent.startAt, extent.endAt)
  {
    var exact := ExactPoints(projection, |projection|);
    if |exact| > 0 {
      PairsChain(rows, projection, gaps, idle, slots, exact, |exact|);
      var anchor := exact[|exact| - 1];
      var last := LastRenderable(projection, anchor, |projection|);
      if last > anchor {
        ChainExtended(Pairs(rows, projection, gaps, idle, slots, exact, |exact|),
                      rows[exact[0]].timestamp, rows[anchor].timestamp, Tail(rows, gaps, anchor, last));
      }
    }
  }

  lemma {:induction false} ChainExtended(segments: seq<Segment>, from: int, to: int, next: Segment)
    requires Chain(segments, from, to) && next.startAt == to < next.endAt
    ensures Chain(segments + [next], from, next.endAt)
  {
  }

  lemma {:induction false} HoldSpansPositive(rows: seq<Row>, projection: seq<Evidence>, local: seq<Interval>, n: nat)
    requires |rows| == |projection| && n <= |local| && AllPositive(local)
    ensures forall k :: 0 <= k < |HoldSpans(rows, projection, local, n)| ==>
      HoldSpans(rows, projection, local, n)[k].startAt < HoldSpans(rows, projection, local, n)[k].endAt
  {
    if n > 0 {
      HoldSpansPositive(rows, projection, local, n - 1);
    }
  }

  /** The drawn line has positive, pairwise disjoint pieces. It covers exactly the original tiling from
      the first exact point to the last renderable one, together with the holds if it is of tokens. Inside
      a hold it is idle; everywhere else it keeps the style and the causes of the tiling. */
  lemma {:induction false} CuttingPreservesTheLine(rows: seq<Row>, model: string, metric: Metric,
          family: string -> Option<string>, projection: seq<Evidence>, gaps: seq<Gap>, idle: seq<Span>, slots: set<nat>,
          local: seq<Interval>, r: seq<Segment>)
    requires |rows| == |projection| && RisingRows(rows) && AllPositive(local)
    requires SortedByKey(r)
    requires multiset(r) == multiset(HoldEach(BaseOf(rows, model, metric, family, projection, gaps, idle, slots),
                                              HoldsOf(rows, metric, projection, local)))
    ensures forall k :: 0 <= k < |r| ==> r[k].startAt < r[k].endAt
    ensures forall k :: 0 < k < |r| ==> r[k - 1].endAt <= r[k].startAt
    ensures
      var base := BaseOf(rows, model, metric, family, projection, gaps, idle, slots);
      var holds, extent := HoldsOf(rows, metric, projection, local), Extent(rows, projection);
      && (forall t :: Drawn(r, t) <==> extent.startAt <= t < extent.endAt || Held(holds, t))
      && (forall t, style, causes :: Paints(r, t, style, causes) <==>
           if Held(holds, t) then style == Idle && causes == {} else Paints(base, t, style, causes))
  {
    var base := BaseOf(rows, model, metric, family, projection, gaps, idle, slots);
    var holds, extent := HoldsOf(rows, metric, projection, local), Extent(rows, projection);
    var unsorted := HoldEach(base, holds);
    BaseChain(rows, projection, gaps, idle, BridgingSlots(rows, model, metric, family, slots));
    ChainApart(base, extent.startAt, extent.endAt);
    HoldSpansPositive(rows, projection, local, |local|);
    HoldsRepaint(base, holds);
    SameMembers(r, unsorted);
    SortedFollow(r, unsorted);
  }

  lemma {:induction false} SortedFollow(r: seq<Segment>, s: seq<Segment>)
    requires multiset(r) == multiset(s) && Apart(s) && SortedByKey(r)
    ensures forall k :: 0 <= k < |r| ==> r[k].startAt < r[k].endAt
    ensures forall k :: 0 < k < |r| ==> r[k - 1].endAt <= r[k].startAt
  {
    SameMembers(r, s);
    forall k | 0 <= k < |r| ensures r[k].startAt < r[k].endAt {
      assert r[k] in s;
    }
    forall k | 0 < k < |r| ensures r[k - 1].endAt <= r[k].startAt {
      SortedApart(r, s, k);
    }
  }

  lemma {:induction false} SameMembers(r: seq<Segment>, s: seq<Segment>)
    requires multiset(r) == multiset(s)
    ensures forall x :: x in r <==> x in s
    ensures forall t :: Drawn(r, t) <==> Drawn(s, t)
    ensures forall t, style, causes :: Paints(r, t, style, causes) <==> Paints(s, t, style, causes)
  {
    forall x ensures x in r <==> x in s {
      assert x in r <==> x in multiset(r);
      assert x in s <==> x in multiset(s);
    }
  }

  // Two neighbours in a sorted rearrangement of disjoint segments follow one another.
  lemma {:induction false} SortedApart(r: seq<Segment>, s: seq<Segment>, k: nat)
    requires multiset(r) == multiset(s) && Apart(s) && SortedByKey(r) && 0 < k < |r|
    ensures r[k - 1].endAt <= r[k].startAt
  {
    SameMembers(r, s);
    var a, b := r[k - 1], r[k];
    assert a in s && b in s;
    if a == b {
      assert r == r[..k - 1] + [a, b] + r[k + 1..];
      assert multiset(r)[a] >= 2;
      Twice(s, a);
    } else {
      var p :| 0 <= p < |s| && s[p] == a;
      var q :| 0 <= q < |s| && s[q] == b;
      assert a.endAt <= b.startAt || b.endAt <= a.startAt;
    }
  }

  lemma {:induction false} Twice(s: seq<Segment>, a: Segment)
    requires Apart(s)
    ensures multiset(s)[a] <= 1
  {
    if p :| 0 <= p < |s| && s[p] == a {
      assert s == s[..p] + [a] + s[p + 1..];
      assert a !in s[..p];
      assert a !in s[p + 1..];
    }
  }

  // ---- what the tiling shows where ----

  // A point the line goes through: its value can be shown, and it was measured reliably or is a legacy one.
  predicate OnTheLine(e: Evidence) {
    && e.value.Some? && 0.0 <= e.value.value
    && (e.origin == Legacy || (e.origin == Direct && e.reliable))
  }

  lemma {:induction false} ExactIsOnTheLine(projection: seq<Evidence>, n: nat)
    requires n <= |projection|
    ensures forall k :: 0 <= k < n ==> (OnTheLine(projection[k]) <==> k in ExactPoints(projection, n))
  {
    if n > 0 {
      ExactIsOnTheLine(projection, n - 1);
    }
  }

  // The instant lies between a point of the line and a value that can be shown.
  ghost predicate Spans(rows: seq<Row>, projection: seq<Evidence>, t: int)
    requires |rows| == |projection|
  {
    exists p, q ::
      && 0 <= p < |rows| && 0 <= q < |rows| && OnTheLine(projection[p])
      && projection[q].value.Some? && 0.0 <= projection[q].value.value
      && rows[p].timestamp <= t < rows[q].timestamp
  }

  /** The tiling covers an instant exactly if it lies between a point of the line and a value that can be shown. */
  lemma {:induction false} DrawnIff(rows: seq<Row>, projection: seq<Evidence>, gaps: seq<Gap>, idle: seq<Span>,
          slots: set<nat>, t: int)
    requires |rows| == |projection| && RisingRows(rows)
    ensures Drawn(Base(rows, projection, gaps, idle, slots), t) <==> Spans(rows, projection, t)
  {
    var base, extent := Base(rows, projection, gaps, idle, slots), Extent(rows, projection);
    BaseChain(rows, projection, gaps, idle, slots);
    ChainApart(base, extent.startAt, extent.endAt);
    ExtentIff(rows, projection, t);
  }

  lemma {:induction false} ExtentIff(rows: seq<Row>, projection: seq<Evidence>, t: int)
    requires |rows| == |projection| && RisingRows(rows)
    ensures Extent(rows, projection).startAt <= t < Extent(rows, projection).endAt <==> Spans(rows, projection, t)
  {
    if Extent(rows, projection).startAt <= t < Extent(rows, projection).endAt {
      ExtentSpans(rows, projection, t);
    }
    if Spans(rows, projection, t) {
      SpansExtent(rows, projection, t);
    }
  }

  lemma {:induction false} ExtentSpans(rows: seq<Row>, projection: seq<Evidence>, t: int)
    requires |rows| == |projection| && Extent(rows, projection).startAt <= t < Extent(rows, projection).endAt
    ensures Spans(rows, projection, t)
  {
    var exact := ExactPoints(projection, |projection|);
    var p := exact[0];
    var q := LastRenderable(projection, exact[|exact| - 1], |projection|);
    assert Exact(projection[p]) && Renderable(projection[q]);
    assert rows[p].timestamp <= t < rows[q].timestamp;
  }

  lemma {:induction false} SpansExtent(rows: seq<Row>, projection: seq<Evidence>, t: int)
    requires |rows| == |projection| && RisingRows(rows) && Spans(rows, projection, t)
    ensures Extent(rows, projection).startAt <= t < Extent(rows, projection).endAt
  {
    var p, q :|
      && 0 <= p < |rows| && 0 <= q < |rows| && OnTheLine(projection[p])
      && projection[q].value.Some? && 0.0 <= projection[q].value.value
      && rows[p].timestamp <= t < rows[q].timestamp;
    assert p < q;
    ExactIsOnTheLine(projection, |projection|);
    InsideExtent(rows, projection, p, q);
  }

  lemma {:induction false} InsideExtent(rows: seq<Row>, projection: seq<Evidence>, p: nat, q: nat)
    requires |rows| == |projection| && RisingRows(rows) && p < |rows| && q < |rows|
    requires p in ExactPoints(projection, |projection|) && Renderable(projection[q])
    ensures Extent(rows, projection).startAt <= rows[p].timestamp
    ensures p < q ==> rows[q].timestamp <= Extent(rows, projection).endAt
  {
    var exact := ExactPoints(projection, |projection|);
    var i :| 0 <= i < |exact| && exact[i] == p;
    assert exact[0] <= p <= exact[|exact| - 1];
    var last := LastRenderable(projection, exact[|exact| - 1], |projection|);
    assert q <= last;
  }

  // A missing minute that the series bridges.
  predicate Bridged(projection: seq<Evidence>, p: nat, q: nat, slots: set<nat>)
    requires p < q < |projection|
  {
    && q - p == 2 && p + 1 in slots && projection[p].reliable && projection[q].reliable
    && projection[p].origin == Direct && projection[q].origin == Direct
  }

  // Row `k` between the two points tells nothing that the line goes through.
  predicate Missing(projection: seq<Evidence>, p: nat, q: nat, slots: set<nat>, k: int)
    requires p < q < |projection|
  {
    p < k < q && !Bridged(projection, p, q, slots)
  }

  // What is to be seen between two points of the line, told by the rows between them.
  ghost predicate Looks(rows: seq<Row>, projection: seq<Evidence>, gaps: seq<Gap>, idle: seq<Span>, slots: set<nat>,
          p: nat, q: nat, style: Style, causes: set<Cause>)
    requires |rows| == |projection| && p < q < |rows| && OnTheLine(projection[p]) && OnTheLine(projection[q])
  {
    var (from, to) := (rows[p].timestamp, rows[q].timestamp);
    var rise := projection[q].value.value - projection[p].value.value;
    && (ConfirmedGap in causes <==> exists gap :: gap in gaps && gap.startAt < to && from < gap.endAt)
    && (ModelMissing in causes <==> exists k :: Missing(projection, p, q, slots, k))
    && (SourceUnavailable in causes <==>
         exists k :: Missing(projection, p, q, slots, k) && rows[k].source.Unavailable?)
    && (Anomaly in causes <==>
         rise < 0.0 || exists k :: Missing(projection, p, q, slots, k) && projection[k].origin == Rejected)
    && TerminalUnobserved !in causes
    && (style == Dashed <==> causes != {})
    && (style == Rising <==> causes == {} && rise > 0.0)
    && (style == Idle <==>
         && causes == {} && rise == 0.0
         && exists span :: span in idle && span.startAt <= from && to <= span.endAt)
  }

  lemma {:induction false} BetweenLooks(rows: seq<Row>, projection: seq<Evidence>, gaps: seq<Gap>, idle: seq<Span>,
          slots: set<nat>, p: nat, q: nat)
    requires |rows| == |projection| && p < q < |rows| && Exact(projection[p]) && Exact(projection[q])
    ensures
      var s := Between(rows, projection, gaps, idle, slots, p, q);
      && s.startAt == rows[p].timestamp && s.endAt == rows[q].timestamp
      && Looks(rows, projection, gaps, idle, slots, p, q, s.style, s.causes)
  {
    if q > p + 1 && !Bridged(projection, p, q, slots) {
      assert Missing(projection, p, q, slots, p + 1);
    }
    var s := Between(rows, projection, gaps, idle, slots, p, q);
    InsideSomeIdle(s.startAt, s.endAt, idle);
  }

  lemma {:induction false} InsideSomeIdle(start: int, end: int, idle: seq<Span>)
    ensures InsideIdle(start, end, idle) <==>
      exists span :: span in idle && span.startAt <= start && end <= span.endAt
  {
    if span :| span in idle && span.startAt <= start && end <= span.endAt {
      var k :| 0 <= k < |idle| && idle[k] == span;
    }
  }

  // A look is determined by the rows.
  lemma {:induction false} OneLook(rows: seq<Row>, projection: seq<Evidence>, gaps: seq<Gap>, idle: seq<Span>,
          slots: set<nat>, p: nat, q: nat, style: Style, causes: set<Cause>, other: Style, others: set<Cause>)
    requires |rows| == |projection| && p < q < |rows| && OnTheLine(projection[p]) && OnTheLine(projection[q])
    requires Looks(rows, projection, gaps, idle, slots, p, q, style, causes)
    requires Looks(rows, projection, gaps, idle, slots, p, q, other, others)
    ensures style == other && causes == others
  {
    forall c ensures c in causes <==> c in others {
      match c
      case ConfirmedGap =>
      case ModelMissing =>
      case SourceUnavailable =>
      case Anomaly =>
      case TerminalUnobserved =>
    }
    assert causes == others;
  }

  lemma {:induction false} PaintedOnce(segments: seq<Segment>, s: Segment, t: int, style: Style, causes: set<Cause>)
    requires Apart(segments) && s in segments && At(s, t)
    ensures Paints(segments, t, style, causes) <==> style == s.style && causes == s.causes
  {
    if Paints(segments, t, style, causes) {
      var u :| u in segments && At(u, t) && u.style == style && u.causes == causes;
      var i :| 0 <= i < |segments| && segments[i] == s;
      var j :| 0 <= j < |segments| && segments[j] == u;
    }
  }

  lemma {:induction false} PairIsDrawn(rows: seq<Row>, projection: seq<Evidence>, gaps: seq<Gap>, idle: seq<Span>,
          slots: set<nat>, exact: seq<nat>, n: nat, i: nat)
    requires |rows| == |projection| && 0 < n <= |exact| && i + 1 < n
    requires forall j :: 0 <= j < |exact| ==> exact[j] < |rows| && Exact(projection[exact[j]])
    requires forall i, j :: 0 <= i < j < |exact| ==> exact[i] < exact[j]
    ensures Between(rows, projection, gaps, idle, slots, exact[i], exact[i + 1])
      in Pairs(rows, projection, gaps, idle, slots, exact, n)
  {
    if i + 2 < n {
      PairIsDrawn(rows, projection, gaps, idle, slots, exact, n - 1, i);
    }
  }

  // No point of the line is between these two.
  ghost predicate Neighbours(projection: seq<Evidence>, p: nat, q: nat) {
    && p < q < |projection| && OnTheLine(projection[p]) && OnTheLine(projection[q])
    && forall k :: p < k < q ==> !OnTheLine(projection[k])
  }

  lemma {:induction false} NeighboursFollow(projection: seq<Evidence>, p: nat, q: nat) returns (i: nat)
    requires Neighbours(projection, p, q)
    ensures
      var exact := ExactPoints(projection, |projection|);
      i + 1 < |exact| && exact[i] == p && exact[i + 1] == q
  {
    var exact := ExactPoints(projection, |projection|);
    ExactIsOnTheLine(projection, |projection|);
    i :| 0 <= i < |exact| && exact[i] == p;
    var j :| 0 <= j < |exact| && exact[j] == q;
    assert i < j && exact[i + 1] >= q;
  }

  /** Between two neighbouring points of the line the tiling looks exactly as the rows between them tell. */
  lemma {:induction false} LineLooks(rows: seq<Row>, projection: seq<Evidence>, gaps: seq<Gap>, idle: seq<Span>,
          slots: set<nat>, p: nat, q: nat, t: int, style: Style, causes: set<Cause>)
    requires |rows| == |projection| && RisingRows(rows) && Neighbours(projection, p, q)
    requires rows[p].timestamp <= t < rows[q].timestamp
    ensures Paints(Base(rows, projection, gaps, idle, slots), t, style, causes) <==>
      Looks(rows, projection, gaps, idle, slots, p, q, style, causes)
  {
    var exact := ExactPoints(projection, |projection|);
    var i := NeighboursFollow(projection, p, q);
    var base, extent := Base(rows, projection, gaps, idle, slots), Extent(rows, projection);
    var s := Between(rows, projection, gaps, idle, slots, p, q);
    PairIsDrawn(rows, projection, gaps, idle, slots, exact, |exact|, i);
    assert s in base;
    BaseChain(rows, projection, gaps, idle, slots);
    ChainApart(base, extent.startAt, extent.endAt);
    BetweenLooks(rows, projection, gaps, idle, slots, p, q);
    PaintedOnce(base, s, t, style, causes);
    if Looks(rows, projection, gaps, idle, slots, p, q, style, causes) {
      OneLook(rows, projection, gaps, idle, slots, p, q, style, causes, s.style, s.causes);
    }
  }

  /** After the last point of the line, up to the last value that can be shown, the line is dashed: the model is
      missing, there may be a gap, and the end may be unobserved. */
  lemma {:induction false} TailLooks(rows: seq<Row>, projection: seq<Evidence>, gaps: seq<Gap>, idle: seq<Span>,
          slots: set<nat>, p: nat, q: nat, t: int, style: Style, causes: set<Cause>)
    requires |rows| == |projection| && RisingRows(rows) && p < q < |rows|
    requires OnTheLine(projection[p]) && forall k :: p < k < |rows| ==> !OnTheLine(projection[k])
    requires Renderable(projection[q]) && forall k :: q < k < |rows| ==> !Renderable(projection[k])
    requires rows[p].timestamp <= t < rows[q].timestamp
    ensures Paints(Base(rows, projection, gaps, idle, slots), t, style, causes) <==>
      style == Dashed && TailCauses(rows, gaps, p, q, causes)
  {
    var exact := ExactPoints(projection, |projection|);
    LastOnTheLine(projection, p);
    assert LastRenderable(projection, p, |projection|) == q;
    var base, extent := Base(rows, projection, gaps, idle, slots), Extent(rows, projection);
    var s := Tail(rows, gaps, p, q);
    assert s in base;
    BaseChain(rows, projection, gaps, idle, slots);
    ChainApart(base, extent.startAt, extent.endAt);
    PaintedOnce(base, s, t, style, causes);
    TailCausesAre(rows, gaps, p, q, causes);
  }

  ghost predicate TailCauses(rows: seq<Row>, gaps: seq<Gap>, p: nat, q: nat, causes: set<Cause>)
    requires p < q < |rows|
  {
    && ModelMissing in causes && SourceUnavailable !in causes && Anomaly !in causes
    && (TerminalUnobserved in causes <==> rows[q].synthetic)
    && (ConfirmedGap in causes <==>
         exists gap :: gap in gaps && gap.startAt < rows[q].timestamp && rows[p].timestamp < gap.endAt)
  }

  lemma {:induction false} TailCausesAre(rows: seq<Row>, gaps: seq<Gap>, p: nat, q: nat, causes: set<Cause>)
    requires p < q < |rows|
    ensures TailCauses(rows, gaps, p, q, causes) <==> causes == Tail(rows, gaps, p, q).causes
  {
    var tail := Tail(rows, gaps, p, q).causes;
    assert TailCauses(rows, gaps, p, q, tail);
    if TailCauses(rows, gaps, p, q, causes) {
      forall c ensures c in causes <==> c in tail {
        match c
        case ConfirmedGap =>
        case ModelMissing =>
        case SourceUnavailable =>
        case Anomaly =>
        case TerminalUnobserved =>
      }
      assert causes == tail;
    }
  }

  lemma {:induction false} LastOnTheLine(projection: seq<Evidence>, p: nat)
    requires p < |projection| && OnTheLine(projection[p])
    requires forall k :: p < k < |projection| ==> !OnTheLine(projection[k])
    ensures
      var exact := ExactPoints(projection, |projection|);
      |exact| > 0 && exact[|exact| - 1] == p
  {
    var exact := ExactPoints(projection, |projection|);
    ExactIsOnTheLine(projection, |projection|);
    var i :| 0 <= i < |exact| && exact[i] == p;
    assert exact[|exact| - 1] <= p;
  }

  // ---- which unused intervals hold ----

  // A row that tells the model's tokens at or before an instant.
  predicate Tells(row: Row, e: Evidence, at: int) {
    row.timestamp <= at && !row.synthetic && e.value.Some? && (e.origin == Direct || e.origin == Legacy)
  }

  lemma {:induction false} LastAnchorIs(rows: seq<Row>, projection: seq<Evidence>, start: int, n: nat)
    requires |rows| == |projection| && n <= |rows|
    ensures
      var a := LastHoldAnchor(rows, projection, start, n);
      && (a >= 0 ==> Tells(rows[a], projection[a], start))
      && forall k :: a < k < n ==> !Tells(rows[k], projection[k], start)
  {
    if n > 0 {
      LastAnchorIs(rows, projection, start, n - 1);
    }
  }

  // Row `a` is the last that tells the tokens at or before an instant.
  ghost predicate LastToTell(rows: seq<Row>, projection: seq<Evidence>, at: int, a: int)
    requires |rows| == |projection|
  {
    && 0 <= a < |rows| && Tells(rows[a], projection[a], at)
    && forall k :: a < k < |rows| ==> !Tells(rows[k], projection[k], at)
  }

  // After row `a` up to an instant nothing is rejected and nothing tells other tokens.
  ghost predicate Undisputed(rows: seq<Row>, projection: seq<Evidence>, a: int, end: int)
    requires |rows| == |projection| && 0 <= a < |rows|
  {
    forall k :: 0 <= k < |rows| && rows[a].timestamp < rows[k].timestamp <= end ==>
      && projection[k].origin != Rejected
      && (projection[k].origin == Direct || projection[k].origin == Legacy ==>
           projection[k].value == projection[a].value)
  }

  /** An unused interval holds exactly if some row at or before its start tells the tokens, and after the last such
      row up to its end nothing is rejected and nothing tells other tokens. */
  lemma {:induction false} HoldsIff(rows: seq<Row>, projection: seq<Evidence>, interval: Interval)
    requires |rows| == |projection|
    ensures Holds(rows, projection, interval) <==>
      && interval.state == Unused
      && exists a :: LastToTell(rows, projection, interval.startAt, a)
                     && Undisputed(rows, projection, a, interval.endAt)
  {
    LastAnchorIs(rows, projection, interval.startAt, |rows|);
    var anchor := LastHoldAnchor(rows, projection, interval.startAt, |rows|);
    if anchor >= 0 {
      assert LastToTell(rows, projection, interval.startAt, anchor);
      ContradictedIff(rows, projection, anchor, interval.endAt);
    }
  }

  lemma {:induction false} ContradictedIff(rows: seq<Row>, projection: seq<Evidence>, a: nat, end: int)
    requires |rows| == |projection| && a < |rows|
    ensures Undisputed(rows, projection, a, end) <==>
      forall k :: 0 <= k < |rows| ==>
        !Contradicts(rows[k], projection[k], rows[a].timestamp, end, projection[a].value)
  {
  }

  /** What is held back, for tokens only: the instants of the intervals that hold. */
  lemma {:induction false} HeldIff(rows: seq<Row>, metric: Metric, projection: seq<Evidence>, local: seq<Interval>,
          t: int)
    requires |rows| == |projection|
    ensures Held(HoldsOf(rows, metric, projection, local), t) <==>
      && metric == Tokens
      && exists k :: 0 <= k < |local| && Holds(rows, projection, local[k]) && local[k].startAt <= t < local[k].endAt
  {
    HeldAmong(rows, projection, local, |local|, t);
  }

  lemma {:induction false} HeldAmong(rows: seq<Row>, projection: seq<Evidence>, local: seq<Interval>, n: nat, t: int)
    requires |rows| == |projection| && n <= |local|
    ensures Held(HoldSpans(rows, projection, local, n), t) <==>
      exists k :: 0 <= k < n && Holds(rows, projection, local[k]) && local[k].startAt <= t < local[k].endAt
  {
    if n > 0 {
      HeldAmong(rows, projection, local, n - 1, t);
      if Holds(rows, projection, local[n - 1]) {
        var spans := HoldSpans(rows, projection, local, n);
        assert spans[..|spans| - 1] == HoldSpans(rows, projection, local, n - 1);
        HeldSplit(spans, t);
      }
    }
  }

  /** Tokens are bridged over every slot; dollars over those beside which some member of the model or family is
      listed before, and no member's amount is unknown, missing or different after. */
  lemma {:induction false} BridgesIff(rows: seq<Row>, model: string, metric: Metric,
          family: string -> Option<string>, slots: set<nat>, k: nat)
    ensures k in BridgingSlots(rows, model, metric, family, slots) <==>
      && k in slots
      && (metric == Dollars ==>
           && 0 < k < |rows| - 1
           && var (left, right) := (rows[k - 1].models, rows[k + 1].models);
           && (exists name :: name in left && (name == model || family(name) == Some(model)))
           && forall name :: name in left && (name == model || family(name) == Some(model)) ==>
                left[name].dollars != None && name in right && right[name].dollars == left[name].dollars)
  {
  }
}
