/** Sustained idle runs and the one-minute sampling holes they may skip
    (scripts/graph_live_evidence.py, lines 350-418 and 1093-1173). */
module IdleIntervals {
  import opened Basics
  import opened GraphRows
  import L = LocalUsage
  import opened TokenSegments

  const SUSTAINED_SECONDS := 10 * 60

  type TokenModels = map<string, seq<Evidence>>

  function Signature(row: Row): map<string, TokenVector> {
    map name | name in row.models :: row.models[name].tokens
  }

  // ---- sampling slots ----

  predicate Measured(row: Row) {
    !row.synthetic && row.source.Confirmed? && row.modelsComplete && row.remaining.Some? && row.models != map[]
  }

  predicate DirectTotal(models: TokenModels, name: string, k: nat, total: nat) {
    && name in models && k < |models[name]|
    && models[name][k].origin.Direct? && models[name][k].reliable
    && models[name][k].value == Some(total as real)
  }

  // A missing minute between two identical complete measurements.
  predicate SamplingSlot(rows: seq<Row>, gaps: seq<Gap>, models: TokenModels, k: nat)
    requires k < |rows|
  {
    && 0 < k < |rows| - 1
    && var left, middle, right := rows[k - 1], rows[k], rows[k + 1];
    && !middle.synthetic && middle.source.Unavailable? && !middle.modelsComplete
    && middle.timestamp - left.timestamp == 60 && right.timestamp - middle.timestamp == 60
    && middle.resetAt == left.resetAt && right.resetAt == left.resetAt
    && !HardBreak(left.timestamp, right.timestamp, gaps)
    && Measured(left) && Measured(right)
    && left.remaining == right.remaining && Signature(left) == Signature(right)
    && (forall name :: name in left.models ==>
         DirectTotal(models, name, k - 1, left.models[name].tokens.total)
         && DirectTotal(models, name, k + 1, left.models[name].tokens.total))
    && (middle.remaining.Some? ==> middle.remaining == left.remaining)
  }

  function Observed(rows: seq<Row>, gaps: seq<Gap>, models: TokenModels, n: nat): (r: seq<nat>)
    requires n <= |rows|
    ensures forall j :: 0 <= j < |r| ==> r[j] < n
    ensures forall i, j :: 0 <= i < j < |r| ==> r[i] < r[j]
  {
    if n == 0 then []
    else if SamplingSlot(rows, gaps, models, n - 1) then Observed(rows, gaps, models, n - 1)
    else Observed(rows, gaps, models, n - 1) + [n - 1]
  }

  lemma {:induction false} ObservedIff(rows: seq<Row>, gaps: seq<Gap>, models: TokenModels, n: nat, k: nat)
    requires k < n <= |rows|
    ensures k in Observed(rows, gaps, models, n) <==> !SamplingSlot(rows, gaps, models, k)
  {
    if k < n - 1 {
      ObservedIff(rows, gaps, models, n - 1, k);
    }
  }

  // ---- quiet pairs of observed rows ----

  predicate FullVector(t: TokenVector) { t.input.Some? && t.cached.Some? && t.written.Some? && t.output.Some? }

  predicate RawIdleOrigin(row: Row, point: Evidence) {
    if row.synthetic then false
    else if row.source.Confirmed? then
      (row.modelsComplete || forall name :: name in row.models ==> FullVector(row.models[name].tokens))
      && point.origin.Direct? && point.reliable
    else if row.source.LegacyUnknown? then point.origin.Legacy? && point.value.Some?
    else false
  }

  predicate SameTotals(rows: seq<Row>, models: TokenModels, i: nat, j: nat, name: string)
    requires i < |rows| && j < |rows|
  {
    && name in models && i < |models[name]| && j < |models[name]|
    && RawIdleOrigin(rows[i], models[name][i]) && RawIdleOrigin(rows[j], models[name][j])
    && models[name][i].value == models[name][j].value
  }

  predicate QuietPair(rows: seq<Row>, gaps: seq<Gap>, models: TokenModels, i: nat, j: nat)
    requires i < |rows| && j < |rows|
  {
    var left, right := rows[i], rows[j];
    && right.timestamp > left.timestamp
    && !HardBreak(left.timestamp, right.timestamp, gaps)
    && !left.synthetic && !right.synthetic
    && left.models.Keys != {} && left.models.Keys == right.models.Keys
    && (forall name :: name in left.models ==> SameTotals(rows, models, i, j, name))
    && Signature(left) == Signature(right)
  }

  function Times(rows: seq<Row>, observed: seq<nat>): (r: seq<int>)
    requires forall j :: 0 <= j < |observed| ==> observed[j] < |rows|
    ensures |r| == |observed|
  {
    seq(|observed|, p requires 0 <= p < |observed| => rows[observed[p]].timestamp)
  }

  // Whether each observed row forms a quiet pair with the next one.
  function Quiet(rows: seq<Row>, gaps: seq<Gap>, models: TokenModels, observed: seq<nat>): (r: seq<bool>)
    requires forall j :: 0 <= j < |observed| ==> observed[j] < |rows|
    ensures |r| == |observed|
  {
    seq(|observed|, p requires 0 <= p < |observed| =>
      p + 1 < |observed| && QuietPair(rows, gaps, models, observed[p], observed[p + 1]))
  }

  function Extend(merged: seq<Span>, start: int, end: int): seq<Span> {
    if |merged| > 0 && merged[|merged| - 1].endAt == start
    then merged[|merged| - 1 := Span(merged[|merged| - 1].startAt, end)]
    else merged + [Span(start, end)]
  }

  // Quiet pairs among the first `n` observed rows, joined where one ends and the next begins.
  function Joined(times: seq<int>, quiet: seq<bool>, n: nat): seq<Span>
    requires |times| == |quiet| && n <= |times|
  {
    if n <= 1 then []
    else
      var before := Joined(times, quiet, n - 1);
      if quiet[n - 2] then Extend(before, times[n - 2], times[n - 1]) else before
  }

  function Sustained(spans: seq<Span>): seq<Span> {
    if |spans| == 0 then []
    else
      var last := spans[|spans| - 1];
      Sustained(spans[..|spans| - 1]) + if last.endAt - last.startAt >= SUSTAINED_SECONDS then [last] else []
  }

  function UnusedSpans(local: seq<L.Interval>): seq<Span> {
    if |local| == 0 then []
    else
      var last := local[|local| - 1];
      UnusedSpans(local[..|local| - 1])
      + if last.state.Unused? && last.endAt - last.startAt >= SUSTAINED_SECONDS then [Span(last.startAt, last.endAt)]
         else []
  }

  ghost function IdleSpans(rows: seq<Row>, gaps: seq<Gap>, models: TokenModels): seq<Span> {
    var observed := Observed(rows, gaps, models, |rows|);
    Sustained(Joined(Times(rows, observed), Quiet(rows, gaps, models, observed), |observed|))
  }

  method RecoverableSlots(rows: seq<Row>, gaps: seq<Gap>, models: TokenModels) returns (slots: set<nat>)
    ensures forall k: nat :: k in slots <==> k < |rows| && SamplingSlot(rows, gaps, models, k)
  {
    slots := {};
    var k := 1;
    while k < |rows| - 1
      invariant 1 <= k
      invariant forall j: nat :: j in slots <==> j < |rows| && j < k && SamplingSlot(rows, gaps, models, j)
    {
      if SamplingSlot(rows, gaps, models, k) {
        slots := slots + {k};
      }
      k := k + 1;
    }
  }

  method UnusedLongEnough(local: seq<L.Interval>) returns (r: seq<Span>)
    ensures r == UnusedSpans(local)
  {
    r := [];
    for k := 0 to |local|
      invariant r == UnusedSpans(local[..k])
    {
      assert local[..k + 1][..k] == local[..k];
      if local[k].state.Unused? && local[k].endAt - local[k].startAt >= SUSTAINED_SECONDS {
        r := r + [Span(local[k].startAt, local[k].endAt)];
      }
    }
    assert local[..|local|] == local;
  }

  method JoinQuiet(times: seq<int>, quiet: seq<bool>) returns (merged: seq<Span>)
    requires |times| == |quiet|
    ensures merged == Joined(times, quiet, |times|)
  {
    merged := [];
    var n := 1;
    while n < |times|
      invariant 1 <= n && (|times| > 0 ==> n <= |times|)
      invariant merged == if |times| == 0 then [] else Joined(times, quiet, n)
    {
      if quiet[n - 1] {
        merged := Extend(merged, times[n - 1], times[n]);
      }
      n := n + 1;
    }
  }

  method FindIdleIntervals(rows: seq<Row>, gaps: seq<Gap>, models: TokenModels, local: Option<seq<L.Interval>>)
    returns (r: seq<Span>)
    ensures r == if local.Some? then UnusedSpans(local.value) else IdleSpans(rows, gaps, models)
  {
    if local.Some? {
      r := UnusedLongEnough(local.value);
      return;
    }
    var slots := RecoverableSlots(rows, gaps, models);
    var observed: seq<nat> := [];
    for k := 0 to |rows|
      invariant observed == Observed(rows, gaps, models, k)
    {
      if k !in slots {
        observed := observed + [k];
      }
    }
    var merged := JoinQuiet(Times(rows, observed), Quiet(rows, gaps, models, observed));
    r := KeepSustained(merged);
  }

  method KeepSustained(spans: seq<Span>) returns (r: seq<Span>)
    ensures r == Sustained(spans)
  {
    r := [];
    for k := 0 to |spans|
      invariant r == Sustained(spans[..k])
    {
      assert spans[..k + 1][..k] == spans[..k];
      if spans[k].endAt - spans[k].startAt >= SUSTAINED_SECONDS {
        r := r + [spans[k]];
      }
    }
    assert spans[..|spans|] == spans;
  }

  // ---- what the joined spans are: the maximal runs of quiet pairs ----

  datatype Run = Run(first: nat, last: nat)

  predicate QuietRun(quiet: seq<bool>, run: Run) {
    run.first < run.last < |quiet| && forall p :: run.first <= p < run.last ==> quiet[p]
  }

  // The spans are runs of positions, in order and apart from each other.
  ghost predicate RunShape(times: seq<int>, quiet: seq<bool>, n: nat, spans: seq<Span>, runs: seq<Run>) {
    && n <= |times| == |quiet| && |runs| == |spans|
    && forall k :: 0 <= k < |runs| ==>
         && QuietRun(quiet, runs[k]) && runs[k].last < n
         && spans[k].startAt == times[runs[k].first] && spans[k].endAt == times[runs[k].last]
         && (k + 1 < |runs| ==> runs[k].last < runs[k + 1].first)
  }

  predicate InRun(runs: seq<Run>, p: nat) {
    exists k :: 0 <= k < |runs| && runs[k].first <= p < runs[k].last
  }

  // No quiet pair is outside them.
  ghost predicate RunsCover(quiet: seq<bool>, n: nat, runs: seq<Run>) {
    forall p: nat :: p < n - 1 && p < |quiet| && quiet[p] ==> InRun(runs, p)
  }

  ghost predicate RunsOf(times: seq<int>, quiet: seq<bool>, n: nat, spans: seq<Span>, runs: seq<Run>) {
    RunShape(times, quiet, n, spans, runs) && RunsCover(quiet, n, runs)
  }

  // The next quiet pair lengthens the last run when that run ended on its left row; otherwise it
  // opens a run of its own.
  function ExtendRuns(runs: seq<Run>, p: nat): seq<Run> {
    if |runs| > 0 && runs[|runs| - 1].last == p
    then runs[|runs| - 1 := Run(runs[|runs| - 1].first, p + 1)]
    else runs + [Run(p, p + 1)]
  }

  lemma {:induction false} LengthenShape(times: seq<int>, quiet: seq<bool>, p: nat, spans: seq<Span>, runs: seq<Run>)
    requires RunShape(times, quiet, p + 1, spans, runs) && p + 1 < |times| && quiet[p]
    requires |runs| > 0 && runs[|runs| - 1].last == p
    ensures var top := |runs| - 1;
      RunShape(times, quiet, p + 2, spans[top := Span(spans[top].startAt, times[p + 1])],
          runs[top := Run(runs[top].first, p + 1)])
  {
    var top := |runs| - 1;
    var longer := Run(runs[top].first, p + 1);
    assert QuietRun(quiet, longer) by { assert QuietRun(quiet, runs[top]); }
  }

  lemma {:induction false} OpenShape(times: seq<int>, quiet: seq<bool>, p: nat, spans: seq<Span>, runs: seq<Run>)
    requires RunShape(times, quiet, p + 1, spans, runs) && p + 1 < |times| && quiet[p]
    requires |runs| > 0 ==> runs[|runs| - 1].last < p
    ensures RunShape(times, quiet, p + 2, spans + [Span(times[p], times[p + 1])], runs + [Run(p, p + 1)])
  {
    assert QuietRun(quiet, Run(p, p + 1));
  }

  lemma {:induction false} ExtendShape(times: seq<int>, quiet: seq<bool>, p: nat, spans: seq<Span>, runs: seq<Run>)
    requires Increasing(times) && RunShape(times, quiet, p + 1, spans, runs) && p + 1 < |times| && quiet[p]
    ensures RunShape(times, quiet, p + 2, Extend(spans, times[p], times[p + 1]), ExtendRuns(runs, p))
  {
    var top := |runs| - 1;
    if |runs| > 0 {
      LastRunEnds(times, quiet, p, spans, runs);
    }
    if |runs| > 0 && runs[top].last == p {
      LengthenShape(times, quiet, p, spans, runs);
    } else {
      OpenShape(times, quiet, p, spans, runs);
    }
  }

  lemma {:induction false} LastRunEnds(times: seq<int>, quiet: seq<bool>, p: nat, spans: seq<Span>, runs: seq<Run>)
    requires Increasing(times) && RunShape(times, quiet, p + 1, spans, runs) && p < |times| && |runs| > 0
    ensures runs[|runs| - 1].last <= p
    ensures spans[|runs| - 1].endAt == times[p] <==> runs[|runs| - 1].last == p
  {
    var last := runs[|runs| - 1].last;
    assert last < p ==> times[last] < times[p];
  }

  lemma {:induction false} ExtendCovers(quiet: seq<bool>, p: nat, runs: seq<Run>)
    requires RunsCover(quiet, p + 1, runs) && forall k :: 0 <= k < |runs| ==> runs[k].first < runs[k].last
    ensures RunsCover(quiet, p + 2, ExtendRuns(runs, p))
  {
    var next := ExtendRuns(runs, p);
    forall q: nat | q < p + 1 && q < |quiet| && quiet[q] ensures InRun(next, q) {
      if q == p {
        assert next[|next| - 1].first <= q < next[|next| - 1].last;
      } else {
        assert InRun(runs, q);
        var k :| 0 <= k < |runs| && runs[k].first <= q < runs[k].last;
        assert next[k].first <= q < next[k].last;
      }
    }
  }

  ghost function Runs(quiet: seq<bool>, n: nat): seq<Run>
    requires n <= |quiet|
  {
    if n <= 1 then []
    else if quiet[n - 2] then ExtendRuns(Runs(quiet, n - 1), n - 2) else Runs(quiet, n - 1)
  }

  lemma {:induction false} JoinStep(times: seq<int>, quiet: seq<bool>, p: nat, spans: seq<Span>, runs: seq<Run>)
    requires Increasing(times) && RunsOf(times, quiet, p + 1, spans, runs) && p + 1 < |times|
    ensures quiet[p] ==> RunsOf(times, quiet, p + 2, Extend(spans, times[p], times[p + 1]), ExtendRuns(runs, p))
    ensures !quiet[p] ==> RunsOf(times, quiet, p + 2, spans, runs)
  {
    if quiet[p] {
      ExtendShape(times, quiet, p, spans, runs);
      ExtendCovers(quiet, p, runs);
    }
  }

  lemma {:induction false} JoinedAreRuns(times: seq<int>, quiet: seq<bool>, n: nat)
    requires Increasing(times) && |times| == |quiet| && n <= |times|
    ensures RunsOf(times, quiet, n, Joined(times, quiet, n), Runs(quiet, n))
  {
    if n > 1 {
      var p := n - 2;
      var spans, runs := Joined(times, quiet, p + 1), Runs(quiet, p + 1);
      JoinedAreRuns(times, quiet, p + 1);
      JoinStep(times, quiet, p, spans, runs);
      assert Joined(times, quiet, n) == if quiet[p] then Extend(spans, times[p], times[p + 1]) else spans;
      assert Runs(quiet, n) == if quiet[p] then ExtendRuns(runs, p) else runs;
    }
  }

  lemma {:induction false} RunOrder(times: seq<int>, quiet: seq<bool>, n: nat, spans: seq<Span>, runs: seq<Run>,
          a: nat, b: nat)
    requires RunShape(times, quiet, n, spans, runs) && a < b < |runs|
    ensures runs[a].last < runs[b].first
    decreases b
  {
    if a < b - 1 {
      RunOrder(times, quiet, n, spans, runs, a, b - 1);
    }
    assert runs[b - 1].last < runs[b].first;
  }

  // A run of quiet pairs stays inside one joined run.
  lemma {:induction false} RunsAreMaximal(times: seq<int>, quiet: seq<bool>, spans: seq<Span>, runs: seq<Run>, run: Run)
    returns (k: nat)
    requires RunsOf(times, quiet, |times|, spans, runs) && QuietRun(quiet, run)
    ensures k < |runs| && runs[k].first <= run.first && run.last <= runs[k].last
    decreases run.last
  {
    assert InRun(runs, run.last - 1);
    if run.last == run.first + 1 {
      k :| 0 <= k < |runs| && runs[k].first <= run.first < runs[k].last;
    } else {
      k := RunsAreMaximal(times, quiet, spans, runs, Run(run.first, run.last - 1));
      var m :| 0 <= m < |runs| && runs[m].first <= run.last - 1 < runs[m].last;
      if m < k { RunOrder(times, quiet, |times|, spans, runs, m, k); }
      if k < m { RunOrder(times, quiet, |times|, spans, runs, k, m); }
    }
  }

  // Keeping only sustained spans keeps them apart.
  lemma {:induction false} SustainedApart(spans: seq<Span>)
    requires forall i, j :: 0 <= i < j < |spans| ==> spans[i].endAt < spans[j].startAt
    ensures forall i, j :: 0 <= i < j < |Sustained(spans)| ==> Sustained(spans)[i].endAt < Sustained(spans)[j].startAt
  {
    if |spans| > 0 {
      var rest, last := spans[..|spans| - 1], spans[|spans| - 1];
      SustainedApart(rest);
      forall i | 0 <= i < |Sustained(rest)| ensures Sustained(rest)[i].endAt < last.startAt {
        SustainedFrom(rest, Sustained(rest)[i]);
      }
    }
  }

  lemma {:induction false} SustainedFrom(spans: seq<Span>, s: Span)
    requires s in Sustained(spans)
    ensures s in spans && s.endAt - s.startAt >= SUSTAINED_SECONDS
  {
    if s !in Sustained(spans[..|spans| - 1]) {
      assert s == spans[|spans| - 1];
    } else {
      SustainedFrom(spans[..|spans| - 1], s);
    }
  }

  // ---- consequences for one run ----

  lemma {:induction false} RunSameSignature(rows: seq<Row>, gaps: seq<Gap>, models: TokenModels, observed: seq<nat>,
          run: Run, p: nat)
    requires forall j :: 0 <= j < |observed| ==> observed[j] < |rows|
    requires QuietRun(Quiet(rows, gaps, models, observed), run) && run.first <= p <= run.last
    ensures Signature(rows[observed[p]]) == Signature(rows[observed[run.first]])
  {
    if p > run.first {
      RunSameSignature(rows, gaps, models, observed, run, p - 1);
      assert Quiet(rows, gaps, models, observed)[p - 1];
    }
  }

  lemma {:induction false} RunAvoidsGap(rows: seq<Row>, gaps: seq<Gap>, models: TokenModels, observed: seq<nat>,
          run: Run, gap: Gap, p: nat)
    requires forall j :: 0 <= j < |observed| ==> observed[j] < |rows|
    requires QuietRun(Quiet(rows, gaps, models, observed), run) && run.first <= p <= run.last
    requires gap in gaps && gap.startAt < gap.endAt && rows[observed[run.first]].timestamp < gap.endAt
    ensures rows[observed[p]].timestamp <= gap.startAt || p == run.first
  {
    if p > run.first {
      RunAvoidsGap(rows, gaps, models, observed, run, gap, p - 1);
      assert Quiet(rows, gaps, models, observed)[p - 1];
      QuietAvoidsGap(rows, gaps, models, observed[p - 1], observed[p], gap);
    }
  }

  lemma {:induction false} QuietAvoidsGap(rows: seq<Row>, gaps: seq<Gap>, models: TokenModels, i: nat, j: nat, gap: Gap)
    requires i < |rows| && j < |rows| && QuietPair(rows, gaps, models, i, j) && gap in gaps
    ensures rows[i].timestamp >= gap.endAt || rows[j].timestamp <= gap.startAt
  {
  }

  lemma {:induction false} RisingObserved(rows: seq<Row>, observed: seq<nat>, p: nat, q: nat)
    requires RisingRows(rows) && forall j :: 0 <= j < |observed| ==> observed[j] < |rows|
    requires forall i, j :: 0 <= i < j < |observed| ==> observed[i] < observed[j]
    requires p < |observed| && q < |observed|
    ensures rows[observed[p]].timestamp <= rows[observed[q]].timestamp <==> p <= q
  {
  }

  lemma {:induction false} RowInRun(rows: seq<Row>, gaps: seq<Gap>, models: TokenModels, observed: seq<nat>,
          run: Run, i: nat)
    requires RisingRows(rows) && forall j :: 0 <= j < |observed| ==> observed[j] < |rows|
    requires forall i, j :: 0 <= i < j < |observed| ==> observed[i] < observed[j]
    requires QuietRun(Quiet(rows, gaps, models, observed), run) && i in observed
    requires rows[observed[run.first]].timestamp <= rows[i].timestamp <= rows[observed[run.last]].timestamp
    ensures Signature(rows[i]) == Signature(rows[observed[run.first]])
  {
    var p :| 0 <= p < |observed| && observed[p] == i;
    RisingObserved(rows, observed, run.first, p);
    RisingObserved(rows, observed, p, run.last);
    RunSameSignature(rows, gaps, models, observed, run, p);
  }

  ghost function QuietSpans(rows: seq<Row>, gaps: seq<Gap>, models: TokenModels, observed: seq<nat>): seq<Span>
    requires forall j :: 0 <= j < |observed| ==> observed[j] < |rows|
  {
    Joined(Times(rows, observed), Quiet(rows, gaps, models, observed), |observed|)
  }

  lemma {:induction false} QuietSpansAreRuns(rows: seq<Row>, gaps: seq<Gap>, models: TokenModels,
          observed: seq<nat>) returns (runs: seq<Run>)
    requires RisingRows(rows) && forall j :: 0 <= j < |observed| ==> observed[j] < |rows|
    requires forall p, q :: 0 <= p < q < |observed| ==> observed[p] < observed[q]
    ensures RunsOf(Times(rows, observed), Quiet(rows, gaps, models, observed), |observed|,
        QuietSpans(rows, gaps, models, observed), runs)
  {
    var times, quiet := Times(rows, observed), Quiet(rows, gaps, models, observed);
    runs := Runs(quiet, |observed|);
    JoinedAreRuns(times, quiet, |observed|);
  }

  /** Without local usage evidence the idle intervals are in order, strictly apart, at least ten
      minutes long, and clear of every gap of positive length. */
  lemma {:induction false} IdleSpansApart(rows: seq<Row>, gaps: seq<Gap>, models: TokenModels)
    requires RisingRows(rows)
    ensures var r := IdleSpans(rows, gaps, models);
      && (forall i, j :: 0 <= i < j < |r| ==> r[i].endAt < r[j].startAt)
      && (forall s :: s in r ==> s.endAt - s.startAt >= SUSTAINED_SECONDS)
      && (forall s, gap :: s in r && gap in gaps && gap.startAt < gap.endAt ==>
           s.endAt <= gap.startAt || gap.endAt <= s.startAt)
  {
    var observed := Observed(rows, gaps, models, |rows|);
    var times, quiet := Times(rows, observed), Quiet(rows, gaps, models, observed);
    var spans := QuietSpans(rows, gaps, models, observed);
    var runs := QuietSpansAreRuns(rows, gaps, models, observed);
    forall i, j | 0 <= i < j < |spans| ensures spans[i].endAt < spans[j].startAt {
      RunOrder(times, quiet, |observed|, spans, runs, i, j);
    }
    SustainedApart(spans);
    forall s | s in Sustained(spans) ensures s in spans && s.endAt - s.startAt >= SUSTAINED_SECONDS {
      SustainedFrom(spans, s);
    }
    forall s, gap | s in Sustained(spans) && gap in gaps && gap.startAt < gap.endAt
      ensures s.endAt <= gap.startAt || gap.endAt <= s.startAt
    {
      SpanAvoidsGap(rows, gaps, models, spans, runs, s, gap);
    }
  }

  lemma {:induction false} SpanAvoidsGap(rows: seq<Row>, gaps: seq<Gap>, models: TokenModels, spans: seq<Span>,
          runs: seq<Run>, span: Span, gap: Gap)
    requires var observed := Observed(rows, gaps, models, |rows|);
      RunShape(Times(rows, observed), Quiet(rows, gaps, models, observed), |observed|, spans, runs)
    requires span in spans && gap in gaps && gap.startAt < gap.endAt
    ensures span.endAt <= gap.startAt || gap.endAt <= span.startAt
  {
    var observed := Observed(rows, gaps, models, |rows|);
    var m :| 0 <= m < |spans| && spans[m] == span;
    assert QuietRun(Quiet(rows, gaps, models, observed), runs[m]);
    if span.startAt < gap.endAt {
      RunAvoidsGap(rows, gaps, models, observed, runs[m], gap, runs[m].last);
    }
  }

  /** All observed rows inside one idle interval carry the same raw token vector. */
  lemma {:induction false} IdleSpansShareOneVector(rows: seq<Row>, gaps: seq<Gap>, models: TokenModels, span: Span,
          i: nat, j: nat)
    requires RisingRows(rows) && span in IdleSpans(rows, gaps, models)
    requires i in Observed(rows, gaps, models, |rows|) && j in Observed(rows, gaps, models, |rows|)
    requires span.startAt <= rows[i].timestamp <= span.endAt && span.startAt <= rows[j].timestamp <= span.endAt
    ensures Signature(rows[i]) == Signature(rows[j])
  {
    var observed := Observed(rows, gaps, models, |rows|);
    SustainedFrom(QuietSpans(rows, gaps, models, observed), span);
    SpanSharesVector(rows, gaps, models, observed, span, i, j);
  }

  lemma {:induction false} SpanSharesVector(rows: seq<Row>, gaps: seq<Gap>, models: TokenModels, observed: seq<nat>,
          span: Span, i: nat, j: nat)
    requires RisingRows(rows) && forall p :: 0 <= p < |observed| ==> observed[p] < |rows|
    requires forall p, q :: 0 <= p < q < |observed| ==> observed[p] < observed[q]
    requires span in QuietSpans(rows, gaps, models, observed) && i in observed && j in observed
    requires span.startAt <= rows[i].timestamp <= span.endAt && span.startAt <= rows[j].timestamp <= span.endAt
    ensures Signature(rows[i]) == Signature(rows[j])
  {
    var run := RunOfSpan(rows, gaps, models, observed, span);
    RowInRun(rows, gaps, models, observed, run, i);
    RowInRun(rows, gaps, models, observed, run, j);
  }

  lemma {:induction false} RunOfSpan(rows: seq<Row>, gaps: seq<Gap>, models: TokenModels, observed: seq<nat>,
          span: Span) returns (run: Run)
    requires RisingRows(rows) && forall p :: 0 <= p < |observed| ==> observed[p] < |rows|
    requires forall p, q :: 0 <= p < q < |observed| ==> observed[p] < observed[q]
    requires span in QuietSpans(rows, gaps, models, observed)
    ensures QuietRun(Quiet(rows, gaps, models, observed), run)
    ensures span == Span(rows[observed[run.first]].timestamp, rows[observed[run.last]].timestamp)
  {
    var times, quiet := Times(rows, observed), Quiet(rows, gaps, models, observed);
    var spans := QuietSpans(rows, gaps, models, observed);
    var runs := QuietSpansAreRuns(rows, gaps, models, observed);
    run := RunAt(times, quiet, spans, runs, span);
  }

  lemma {:induction false} RunAt(times: seq<int>, quiet: seq<bool>, spans: seq<Span>, runs: seq<Run>,
          span: Span) returns (run: Run)
    requires RunShape(times, quiet, |times|, spans, runs) && span in spans
    ensures QuietRun(quiet, run) && span == Span(times[run.first], times[run.last])
  {
    var m :| 0 <= m < |spans| && spans[m] == span;
    run := runs[m];
  }

  /** No sustained quiet run is left out: every run of quiet pairs that lasts ten minutes lies
      inside one idle interval. */
  lemma {:induction false} QuietRunsAreIdle(rows: seq<Row>, gaps: seq<Gap>, models: TokenModels, run: Run)
    requires RisingRows(rows)
    requires QuietRun(Quiet(rows, gaps, models, Observed(rows, gaps, models, |rows|)), run)
    requires var times := Times(rows, Observed(rows, gaps, models, |rows|));
      times[run.last] - times[run.first] >= SUSTAINED_SECONDS
    ensures var times := Times(rows, Observed(rows, gaps, models, |rows|));
      InsideIdle(times[run.first], times[run.last], IdleSpans(rows, gaps, models))
  {
    var observed := Observed(rows, gaps, models, |rows|);
    var times, quiet := Times(rows, observed), Quiet(rows, gaps, models, observed);
    assert Increasing(times);
    LongRunJoins(times, quiet, run);
  }

  lemma {:induction false} LongRunJoins(times: seq<int>, quiet: seq<bool>, run: Run)
    requires Increasing(times) && |times| == |quiet| && QuietRun(quiet, run)
    requires times[run.last] - times[run.first] >= SUSTAINED_SECONDS
    ensures InsideIdle(times[run.first], times[run.last], Sustained(Joined(times, quiet, |times|)))
  {
    var spans, runs := Joined(times, quiet, |times|), Runs(quiet, |times|);
    JoinedAreRuns(times, quiet, |times|);
    RunInsideSpan(times, quiet, spans, runs, run);
  }

  lemma {:induction false} RunInsideSpan(times: seq<int>, quiet: seq<bool>, spans: seq<Span>, runs: seq<Run>, run: Run)
    requires Increasing(times) && RunsOf(times, quiet, |times|, spans, runs) && QuietRun(quiet, run)
    requires times[run.last] - times[run.first] >= SUSTAINED_SECONDS
    ensures InsideIdle(times[run.first], times[run.last], Sustained(spans))
  {
    var m := RunsAreMaximal(times, quiet, spans, runs, run);
    assert QuietRun(quiet, runs[m]);
    assert times[runs[m].first] <= times[run.first] && times[run.last] <= times[runs[m].last];
    var k := SustainedKeeps(spans, m);
  }

  lemma {:induction false} SustainedKeeps(spans: seq<Span>, m: nat) returns (k: nat)
    requires m < |spans| && spans[m].endAt - spans[m].startAt >= SUSTAINED_SECONDS
    ensures k < |Sustained(spans)| && Sustained(spans)[k] == spans[m]
  {
    if m == |spans| - 1 {
      k := |Sustained(spans)| - 1;
    } else {
      k := SustainedKeeps(spans[..|spans| - 1], m);
    }
  }

  /** A sampling slot never hides a change: the rows on both sides are observed, and carry the same
      vector, quota and projected values. */
  lemma {:induction false} SlotsHideNothing(rows: seq<Row>, gaps: seq<Gap>, models: TokenModels, k: nat)
    requires k < |rows| && SamplingSlot(rows, gaps, models, k)
    ensures 0 < k < |rows| - 1
    ensures !SamplingSlot(rows, gaps, models, k - 1) && !SamplingSlot(rows, gaps, models, k + 1)
    ensures Signature(rows[k - 1]) == Signature(rows[k + 1]) && rows[k - 1].remaining == rows[k + 1].remaining
  {
  }

  // ---- what counts ----

  // The evidence of a model at a row is what the row itself measured.
  predicate RawEvidence(row: Row, point: Evidence) {
    || (row.source.Confirmed? && point.origin.Direct? && point.reliable
        && (row.modelsComplete
            || forall name :: name in row.models ==>
                 var tokens := row.models[name].tokens;
                 tokens.input.Some? && tokens.cached.Some? && tokens.written.Some? && tokens.output.Some?))
    || (row.source.LegacyUnknown? && point.origin.Legacy? && point.value.Some?)
  }

  /** Two rows in turn are quiet exactly when time passes between them without a gap, neither is synthetic, they list
      the same models and at least one, and each has the same tokens and the same own evidence in both. */
  lemma {:induction false} QuietIff(rows: seq<Row>, gaps: seq<Gap>, models: TokenModels, i: nat, j: nat)
    requires i < |rows| && j < |rows|
    ensures QuietPair(rows, gaps, models, i, j) <==>
      var (left, right) := (rows[i], rows[j]);
      && left.timestamp < right.timestamp && !left.synthetic && !right.synthetic
      && (forall gap :: gap in gaps ==> gap.endAt <= left.timestamp || right.timestamp <= gap.startAt)
      && (exists name :: name in left.models) && (forall name :: name in left.models <==> name in right.models)
      && forall name :: name in left.models ==>
           && left.models[name].tokens == right.models[name].tokens
           && name in models && i < |models[name]| && j < |models[name]|
           && RawEvidence(left, models[name][i]) && RawEvidence(right, models[name][j])
           && models[name][i].value == models[name][j].value
  {
    var left, right := rows[i], rows[j];
    assert (forall name :: name in left.models <==> name in right.models) <==> left.models.Keys == right.models.Keys;
    assert (exists name :: name in left.models) <==> left.models.Keys != {};
    if left.models.Keys == right.models.Keys {
      SameSignature(left, right);
    }
  }

  lemma {:induction false} SameSignature(left: Row, right: Row)
    requires left.models.Keys == right.models.Keys
    ensures Signature(left) == Signature(right) <==>
      forall name :: name in left.models ==> left.models[name].tokens == right.models[name].tokens
  {
    if Signature(left) == Signature(right) {
      forall name | name in left.models ensures left.models[name].tokens == right.models[name].tokens {
        assert Signature(left)[name] == Signature(right)[name];
      }
    }
  }

  /** A row is a sampling slot exactly when it is an unavailable minute, a minute after and a minute before two rows
      of the same period and quota that completely measured the same tokens, with no gap in between and no other
      quota of its own, and the projections of these tokens are direct on both sides. */
  lemma {:induction false} SlotIff(rows: seq<Row>, gaps: seq<Gap>, models: TokenModels, k: nat)
    requires 0 < k < |rows| - 1
    ensures SamplingSlot(rows, gaps, models, k) <==>
      var (left, middle, right) := (rows[k - 1], rows[k], rows[k + 1]);
      && middle.source == Unavailable && !middle.synthetic && !middle.modelsComplete
      && left.timestamp + 60 == middle.timestamp && middle.timestamp + 60 == right.timestamp
      && left.resetAt == middle.resetAt == right.resetAt
      && (middle.remaining == None || middle.remaining == left.remaining)
      && left.remaining.Some? && left.remaining == right.remaining
      && (forall gap :: gap in gaps ==> gap.endAt <= left.timestamp || right.timestamp <= gap.startAt)
      && left.source == Confirmed && !left.synthetic && left.modelsComplete && left.models != map[]
      && right.source == Confirmed && !right.synthetic && right.modelsComplete && right.models != map[]
      && Signature(left) == Signature(right)
      && forall name :: name in left.models ==>
           && name in models && k + 1 < |models[name]|
           && models[name][k - 1].origin == Direct && models[name][k - 1].reliable
           && models[name][k + 1].origin == Direct && models[name][k + 1].reliable
           && models[name][k - 1].value == models[name][k + 1].value == Some(left.models[name].tokens.total as real)
  {
  }

  /** With local usage evidence the idle intervals are its unused intervals of ten minutes or more. */
  lemma {:induction false} UnusedSpansAre(local: seq<L.Interval>, span: Span)
    ensures span in UnusedSpans(local) <==>
      exists k :: 0 <= k < |local| && local[k].state.Unused? && local[k].endAt - local[k].startAt >= 600
                  && span == Span(local[k].startAt, local[k].endAt)
  {
    if |local| > 0 {
      var before, last := local[..|local| - 1], local[|local| - 1];
      UnusedSpansAre(before, span);
      if k :| 0 <= k < |local| && local[k].state.Unused? && local[k].endAt - local[k].startAt >= 600
              && span == Span(local[k].startAt, local[k].endAt) {
        assert k < |before| ==> before[k] == local[k];
      }
      if k :| 0 <= k < |before| && before[k].state.Unused? && before[k].endAt - before[k].startAt >= 600
              && span == Span(before[k].startAt, before[k].endAt) {
        assert local[k] == before[k];
      }
    }
  }

  /** Every idle interval is a run of quiet pairs that lasts ten minutes or more. */
  lemma {:induction false} IdleIsQuiet(rows: seq<Row>, gaps: seq<Gap>, models: TokenModels, span: Span)
      returns (observed: seq<nat>, run: Run)
    requires RisingRows(rows) && span in IdleSpans(rows, gaps, models)
    ensures observed == Observed(rows, gaps, models, |rows|) && run.first < run.last < |observed|
    ensures forall p :: run.first <= p < run.last ==> QuietPair(rows, gaps, models, observed[p], observed[p + 1])
    ensures span == Span(rows[observed[run.first]].timestamp, rows[observed[run.last]].timestamp)
    ensures span.endAt - span.startAt >= 600
  {
    observed := Observed(rows, gaps, models, |rows|);
    SustainedFrom(QuietSpans(rows, gaps, models, observed), span);
    run := RunOfSpan(rows, gaps, models, observed, span);
    PairsOfRun(rows, gaps, models, observed, run);
  }

  lemma {:induction false} PairsOfRun(rows: seq<Row>, gaps: seq<Gap>, models: TokenModels, observed: seq<nat>, run: Run)
    requires forall j :: 0 <= j < |observed| ==> observed[j] < |rows|
    requires QuietRun(Quiet(rows, gaps, models, observed), run)
    ensures forall p :: run.first <= p < run.last ==> QuietPair(rows, gaps, models, observed[p], observed[p + 1])
  {
    var quiet := Quiet(rows, gaps, models, observed);
    forall p | run.first <= p < run.last ensures QuietPair(rows, gaps, models, observed[p], observed[p + 1]) {
      assert quiet[p];
    }
  }

  /** And every run of quiet pairs that lasts ten minutes or more lies inside one. */
  lemma {:induction false} QuietPairsAreIdle(rows: seq<Row>, gaps: seq<Gap>, models: TokenModels, observed: seq<nat>,
          first: nat, last: nat)
    requires RisingRows(rows) && observed == Observed(rows, gaps, models, |rows|) && first < last < |observed|
    requires forall p :: first <= p < last ==> QuietPair(rows, gaps, models, observed[p], observed[p + 1])
    requires rows[observed[last]].timestamp - rows[observed[first]].timestamp >= 600
    ensures InsideIdle(rows[observed[first]].timestamp, rows[observed[last]].timestamp, IdleSpans(rows, gaps, models))
  {
    PairsAreRun(rows, gaps, models, observed, first, last);
    QuietRunsAreIdle(rows, gaps, models, Run(first, last));
  }

  lemma {:induction false} PairsAreRun(rows: seq<Row>, gaps: seq<Gap>, models: TokenModels, observed: seq<nat>,
          first: nat, last: nat)
    requires forall j :: 0 <= j < |observed| ==> observed[j] < |rows|
    requires first < last < |observed|
    requires forall p :: first <= p < last ==> QuietPair(rows, gaps, models, observed[p], observed[p + 1])
    ensures QuietRun(Quiet(rows, gaps, models, observed), Run(first, last))
  {
  }
}
