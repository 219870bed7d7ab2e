/** Local usage pages: validation of one page and the sweep that merges overlapping pages
    (scripts/graph_live_evidence.py, lines 173-224). */
module LocalUsage {
  import opened Basics

  datatype State = Used | Unused | Unavailable

  datatype Interval = Interval(startAt: int, endAt: int, state: State)

  datatype Page = Page(startAt: int, endAt: int, intervals: seq<Interval>)

  datatype UsageError = OutsidePeriod | Unbounded | Uncovered | UncoveredTail | ConflictOrGap | NoIntervals

  const MAX_INTERVALS := 31 * 24 * 60

  // ---- one page ----

  // The intervals cover [left, right) one after another, each for a positive time.
  predicate Tiles(intervals: seq<Interval>, left: int, right: int) {
    && (forall k :: 0 <= k < |intervals| ==> intervals[k].startAt < intervals[k].endAt)
    && (forall k :: 0 < k < |intervals| ==> intervals[k - 1].endAt == intervals[k].startAt)
    && (if |intervals| == 0 then left == right
        else intervals[0].startAt == left && intervals[|intervals| - 1].endAt == right)
  }

  predicate ValidPage(page: Page, start: int, end: int) {
    && start <= page.startAt < page.endAt <= end + 1
    && |page.intervals| <= MAX_INTERVALS
    && Tiles(page.intervals, page.startAt, page.endAt)
  }

  predicate Covers(interval: Interval, t: int) { interval.startAt <= t < interval.endAt }

  lemma {:induction false} TilesInside(intervals: seq<Interval>, left: int, right: int, k: nat)
    requires Tiles(intervals, left, right) && k < |intervals|
    ensures intervals[k].endAt <= right
    decreases |intervals| - k
  {
    if k + 1 < |intervals| {
      TilesInside(intervals, left, right, k + 1);
    }
  }

  // A tiling refuses an interval that starts elsewhere, is empty or runs past the scope.
  lemma {:induction false} BrokenTile(intervals: seq<Interval>, left: int, cursor: int, right: int, k: nat)
    requires k < |intervals| && Tiles(intervals[..k], left, cursor)
    requires var next := intervals[k]; next.startAt != cursor || next.endAt <= next.startAt || next.endAt > right
    ensures !Tiles(intervals, left, right)
  {
    if Tiles(intervals, left, right) {
      TilesInside(intervals, left, right, k);
    }
  }

  lemma {:induction false} TilesExtended(intervals: seq<Interval>, left: int, cursor: int, k: nat)
    requires k < |intervals| && Tiles(intervals[..k], left, cursor)
    requires intervals[k].startAt == cursor < intervals[k].endAt
    ensures Tiles(intervals[..k + 1], left, intervals[k].endAt)
  {
    assert intervals[..k + 1] == intervals[..k] + [intervals[k]];
  }

  // The first `k` intervals cut off at the end of the period.
  function Clipped(intervals: seq<Interval>, end: int, k: nat): seq<Interval>
    requires k <= |intervals|
  {
    if k == 0 then []
    else
      var before, last := Clipped(intervals, end, k - 1), intervals[k - 1];
      if last.startAt < end
      then before + [Interval(last.startAt, if last.endAt <= end then last.endAt else end, last.state)]
      else before
  }

  /** A page is accepted exactly when its intervals tile its declared scope inside the period. */
  method ValidateLocalUsage(page: Page, start: int, end: int) returns (r: Result<seq<Interval>, UsageError>)
    ensures r.Ok? <==> ValidPage(page, start, end)
    ensures r.Ok? ==> r.value == Clipped(page.intervals, end, |page.intervals|)
  {
    if page.startAt < start || page.endAt > end + 1 || page.startAt >= page.endAt {
      return Err(OutsidePeriod);
    }
    if |page.intervals| > MAX_INTERVALS {
      return Err(Unbounded);
    }
    var cursor := page.startAt;
    var result: seq<Interval> := [];
    for k := 0 to |page.intervals|
      invariant Tiles(page.intervals[..k], page.startAt, cursor)
      invariant result == Clipped(page.intervals, end, k)
    {
      var interval := page.intervals[k];
      if interval.startAt != cursor || interval.endAt <= interval.startAt || interval.endAt > page.endAt {
        BrokenTile(page.intervals, page.startAt, cursor, page.endAt, k);
        return Err(Uncovered);
      }
      TilesExtended(page.intervals, page.startAt, cursor, k);
      cursor := interval.endAt;
      if interval.startAt < end {
        var endAt := if interval.endAt <= end then interval.endAt else end;
        result := result + [Interval(interval.startAt, endAt, interval.state)];
      }
    }
    assert page.intervals[..|page.intervals|] == page.intervals;
    if cursor != page.endAt {
      return Err(UncoveredTail);
    }
    return Ok(result);
  }

  /** What an accepted page yields tiles the same scope cut off at the end of the period, and says
      at every instant of it what the page says. */
  lemma {:induction false} ClippedTiles(intervals: seq<Interval>, left: int, right: int, end: int, k: nat)
    requires Tiles(intervals, left, right) && left <= end && k <= |intervals|
    ensures var r, cut := Clipped(intervals, end, k), if k == 0 then left else intervals[k - 1].endAt;
      && Tiles(r, left, if cut <= end then cut else end)
      && |r| <= k && (|r| < k ==> cut > end)
      && forall j, t :: 0 <= j < |r| && Covers(r[j], t) ==> Covers(intervals[j], t) && intervals[j].state == r[j].state
  {
    if k > 0 {
      ClippedTiles(intervals, left, right, end, k - 1);
    }
  }

  // ---- the sweep over all pages ----

  function Flatten(pages: seq<Page>): seq<Interval> {
    if |pages| == 0 then [] else Flatten(pages[..|pages| - 1]) + pages[|pages| - 1].intervals
  }

  // How many intervals cover `t` with the given state.
  function Cover(all: seq<Interval>, s: State, t: int): nat {
    if |all| == 0 then 0
    else
      var last := all[|all| - 1];
      Cover(all[..|all| - 1], s, t) + if last.state == s && Covers(last, t) then 1 else 0
  }

  // Starts minus ends of that state at exactly `t`.
  function Delta(all: seq<Interval>, s: State, t: int): int {
    if |all| == 0 then 0
    else
      var last := all[|all| - 1];
      Delta(all[..|all| - 1], s, t)
      + (if last.state == s && last.startAt == t then 1 else 0)
      - (if last.state == s && last.endAt == t then 1 else 0)
  }

  function Count(counts: map<State, int>, s: State): int {
    if s in counts then counts[s] else 0
  }

  predicate Endpoint(all: seq<Interval>, t: int) {
    exists k :: 0 <= k < |all| && (all[k].startAt == t || all[k].endAt == t)
  }

  function AddEvent(events: map<int, map<State, int>>, at: int, s: State, delta: int): map<int, map<State, int>> {
    var states := if at in events then events[at] else map[];
    events[at := states[s := Count(states, s) + delta]]
  }

  ghost predicate EventsOf(events: map<int, map<State, int>>, all: seq<Interval>) {
    && (forall at :: at in events <==> Endpoint(all, at))
    && (forall at, s :: at in events ==> Count(events[at], s) == Delta(all, s, at))
  }

  lemma {:induction false} DeltaOutside(all: seq<Interval>, s: State, t: int)
    requires !Endpoint(all, t)
    ensures Delta(all, s, t) == 0
  {
    if |all| > 0 {
      var rest := all[..|all| - 1];
      forall k | 0 <= k < |rest| ensures rest[k].startAt != t && rest[k].endAt != t {
        assert rest[k] == all[k];
      }
      DeltaOutside(rest, s, t);
    }
  }

  lemma {:induction false} EventsExtended(events: map<int, map<State, int>>, all: seq<Interval>, interval: Interval)
    requires EventsOf(events, all)
    ensures EventsOf(
        AddEvent(AddEvent(events, interval.startAt, interval.state, 1), interval.endAt, interval.state, -1),
        all + [interval])
  {
    var next := AddEvent(AddEvent(events, interval.startAt, interval.state, 1), interval.endAt, interval.state, -1);
    var more := all + [interval];
    assert more[..|all|] == all;
    forall at ensures at in next <==> Endpoint(more, at) {
      if at in events {
        var k :| 0 <= k < |all| && (all[k].startAt == at || all[k].endAt == at);
        assert more[k] == all[k];
      }
      assert more[|all|] == interval;
      if Endpoint(more, at) && at != interval.startAt && at != interval.endAt {
        var k :| 0 <= k < |more| && (more[k].startAt == at || more[k].endAt == at);
        assert all[k] == more[k];
      }
    }
    forall at, s | at in next ensures Count(next[at], s) == Delta(more, s, at) {
      if at !in events {
        DeltaOutside(all, s, at);
      }
    }
  }

  method CollectEvents(pages: seq<Page>) returns (events: map<int, map<State, int>>)
    ensures EventsOf(events, Flatten(pages))
  {
    events := map[];
    for p := 0 to |pages|
      invariant EventsOf(events, Flatten(pages[..p]))
    {
      var intervals := pages[p].intervals;
      ghost var before := Flatten(pages[..p]);
      assert before + intervals[..0] == before;
      for k := 0 to |intervals|
        invariant EventsOf(events, before + intervals[..k])
      {
        EventsExtended(events, before + intervals[..k], intervals[k]);
        assert before + intervals[..k] + [intervals[k]] == before + intervals[..k + 1];
        events := AddEvent(events, intervals[k].startAt, intervals[k].state, 1);
        events := AddEvent(events, intervals[k].endAt, intervals[k].state, -1);
      }
      assert before + intervals[..|intervals|] == before + intervals;
      assert pages[..p + 1][..p] == pages[..p];
    }
    assert pages[..|pages|] == pages;
  }

  method SortedKeys(keys: set<int>) returns (r: seq<int>)
    ensures forall i, j :: 0 <= i < j < |r| ==> r[i] < r[j]
    ensures forall t :: t in r <==> t in keys
  {
    r := [];
    var left := keys;
    while exists t :: t in left
      invariant left <= keys
      invariant forall i, j :: 0 <= i < j < |r| ==> r[i] < r[j]
      invariant forall t :: t in keys <==> t in r || t in left
      invariant forall i, t :: 0 <= i < |r| && t in left ==> r[i] < t
      decreases left
    {
      var least :| least in left;
      var rest := left - {least};
      while exists t :: t in rest
        invariant least in left && rest <= left
        invariant forall t :: t in left && t !in rest ==> least <= t
        decreases rest
      {
        var t :| t in rest;
        if t < least {
          least := t;
        }
        rest := rest - {t};
      }
      r := r + [least];
      left := left - {least};
    }
  }

  ghost predicate AllPositive(all: seq<Interval>) {
    forall k :: 0 <= k < |all| ==> all[k].startAt < all[k].endAt
  }

  lemma {:induction false} EndpointOfPart(all: seq<Interval>, t: int)
    requires |all| > 0 && !Endpoint(all, t)
    ensures !Endpoint(all[..|all| - 1], t) && all[|all| - 1].startAt != t && all[|all| - 1].endAt != t
  {
    var rest := all[..|all| - 1];
    forall k | 0 <= k < |rest| ensures rest[k].startAt != t && rest[k].endAt != t {
      assert rest[k] == all[k];
    }
  }

  // Crossing the next endpoint changes a cover count by exactly that endpoint's delta.
  lemma {:induction false} CoverStep(all: seq<Interval>, s: State, a: int, b: int)
    requires AllPositive(all) && a < b && forall t :: a < t < b ==> !Endpoint(all, t)
    ensures Cover(all, s, b) == Cover(all, s, a) + Delta(all, s, b)
    ensures forall t :: a <= t < b ==> Cover(all, s, t) == Cover(all, s, a)
  {
    if |all| > 0 {
      var rest, last := all[..|all| - 1], all[|all| - 1];
      forall t | a < t < b ensures !Endpoint(rest, t) && last.startAt != t && last.endAt != t {
        EndpointOfPart(all, t);
      }
      assert AllPositive(rest) && last.startAt < last.endAt;
      CoverStep(rest, s, a, b);
      assert all[|all| - 1] == last;
      assert Endpoint(all, last.startAt) && Endpoint(all, last.endAt);
      forall t | a <= t < b ensures Covers(last, t) == Covers(last, a) {
      }
      forall t | a <= t < b ensures Cover(all, s, t) == Cover(all, s, a) {
        assert Cover(rest, s, t) == Cover(rest, s, a);
      }
    }
  }

  lemma {:induction false} CoverPositive(all: seq<Interval>, s: State, t: int)
    ensures Cover(all, s, t) > 0 <==> exists k :: 0 <= k < |all| && all[k].state == s && Covers(all[k], t)
  {
    if |all| > 0 {
      var rest := all[..|all| - 1];
      CoverPositive(rest, s, t);
      if k :| 0 <= k < |rest| && rest[k].state == s && Covers(rest[k], t) {
        assert all[k] == rest[k];
      }
      if k :| 0 <= k < |all| && all[k].state == s && Covers(all[k], t) {
        assert k < |rest| ==> rest[k] == all[k];
      }
    }
  }

  // ---- what a merge means, without the sweep ----

  ghost predicate Sole(all: seq<Interval>, t: int, s: State) {
    && (exists interval :: interval in all && Covers(interval, t))
    && (forall interval :: interval in all && Covers(interval, t) ==> interval.state == s)
  }

  // Between the first start and the last end of the pages.
  ghost predicate Spanned(all: seq<Interval>, t: int) {
    exists a, b :: a in all && b in all && a.startAt <= t < b.endAt
  }

  // The pages leave no gap and never disagree.
  ghost predicate Consistent(all: seq<Interval>) {
    forall t :: Spanned(all, t) ==> exists s :: Sole(all, t, s)
  }

  // The unique shortest list of intervals that says what the pages say at every instant.
  ghost predicate Timeline(all: seq<Interval>, r: seq<Interval>) {
    && |r| > 0 && Tiles(r, r[0].startAt, r[|r| - 1].endAt)
    && (forall k :: 0 < k < |r| ==> r[k - 1].state != r[k].state)
    && (forall t :: Spanned(all, t) <==> r[0].startAt <= t < r[|r| - 1].endAt)
    && (forall k, t :: 0 <= k < |r| && Covers(r[k], t) ==> Sole(all, t, r[k].state))
  }

  ghost predicate Merges(all: seq<Interval>, r: Result<Page, UsageError>) {
    if all == [] then r == Err(NoIntervals)
    else if !Consistent(all) then r == Err(ConflictOrGap)
    else
      && r.Ok? && Timeline(all, r.value.intervals)
      && r.value.startAt == r.value.intervals[0].startAt
      && r.value.endAt == r.value.intervals[|r.value.intervals| - 1].endAt
  }

  // What the sweep has emitted when it stands at `at`.
  ghost predicate Swept(all: seq<Interval>, r: seq<Interval>, first: int, at: int) {
    && Tiles(r, first, at)
    && (forall k :: 0 < k < |r| ==> r[k - 1].state != r[k].state)
    && (forall k, t :: 0 <= k < |r| && Covers(r[k], t) ==> Sole(all, t, r[k].state))
  }

  // One state in the set is the sole state of the pages at `t`; any other number means there is none.
  ghost predicate NamesSole(all: seq<Interval>, t: int, states: set<State>) {
    if |states| == 1 then forall s :: s in states ==> Sole(all, t, s) else forall s :: !Sole(all, t, s)
  }

  lemma {:induction false} OnlyOne(states: set<State>, s: State)
    requires s in states && forall other :: other in states ==> other == s
    ensures |states| == 1
  {
    assert states == {s};
  }

  lemma {:induction false} SoleState(all: seq<Interval>, t: int, states: set<State>)
    requires forall s :: s in states <==> Cover(all, s, t) > 0
    ensures NamesSole(all, t, states)
  {
    forall s ensures s in states <==> exists interval :: interval in all && interval.state == s && Covers(interval, t) {
      CoverPositive(all, s, t);
      if interval :| interval in all && interval.state == s && Covers(interval, t) {
        var k :| 0 <= k < |all| && all[k] == interval;
      }
    }
    if |states| == 1 {
      var only :| only in states;
      assert |states - {only}| == 0;
      assert states - {only} == {};
      assert states == {only};
      forall interval | interval in all && Covers(interval, t) ensures interval.state == only {
        assert interval.state in states;
      }
    } else {
      forall s ensures !Sole(all, t, s) {
        if Sole(all, t, s) {
          assert s in states;
          OnlyOne(states, s);
        }
      }
    }
  }

  function Shift(active: map<State, int>, changes: map<State, int>): (r: map<State, int>)
    ensures forall s :: Count(r, s) == Count(active, s) + Count(changes, s)
  {
    map s | s in active.Keys + changes.Keys :: Count(active, s) + Count(changes, s)
  }

  // Emit one more stretch: extend the last interval when its state goes on, else open a new one.
  function Emit(r: seq<Interval>, from: int, at: int, s: State): seq<Interval> {
    if |r| > 0 && r[|r| - 1].state == s
    then r[|r| - 1 := Interval(r[|r| - 1].startAt, at, s)]
    else r + [Interval(from, at, s)]
  }

  lemma {:induction false} EmitSwept(all: seq<Interval>, r: seq<Interval>, first: int, from: int, at: int, s: State)
    requires Swept(all, r, first, from) && from < at && forall t :: from <= t < at ==> Sole(all, t, s)
    ensures Swept(all, Emit(r, from, at, s), first, at)
  {
    var next := Emit(r, from, at, s);
    forall k, t | 0 <= k < |next| && Covers(next[k], t) ensures Sole(all, t, next[k].state) {
      if t < from {
        assert k < |r| && Covers(r[k], t);
      }
    }
  }

  // Everything between the first and the last event is spanned, and nothing else.
  lemma {:induction false} SpanOfTimes(all: seq<Interval>, times: seq<int>)
    requires AllPositive(all) && |all| > 0
    requires forall i, j :: 0 <= i < j < |times| ==> times[i] < times[j]
    requires forall t :: t in times <==> Endpoint(all, t)
    ensures |times| >= 2
    ensures forall t :: Spanned(all, t) <==> times[0] <= t < times[|times| - 1]
  {
    assert Endpoint(all, all[0].startAt) && Endpoint(all, all[0].endAt);
    assert all[0].startAt in times && all[0].endAt in times;
    var first, last := times[0], times[|times| - 1];
    assert first in times && last in times;
    forall k | 0 <= k < |all| ensures first <= all[k].startAt < all[k].endAt <= last {
      assert Endpoint(all, all[k].startAt) && Endpoint(all, all[k].endAt);
      assert all[k].startAt in times && all[k].endAt in times;
    }
    var a :| 0 <= a < |all| && (all[a].startAt == first || all[a].endAt == first);
    var b :| 0 <= b < |all| && (all[b].startAt == last || all[b].endAt == last);
    assert all[a] in all && all[b] in all;
    forall t | Spanned(all, t) ensures first <= t < last {
      var c, d :| c in all && d in all && c.startAt <= t < d.endAt;
      var i :| 0 <= i < |all| && all[i] == c;
      var j :| 0 <= j < |all| && all[j] == d;
    }
  }

  lemma {:induction false} NoEventBetween(all: seq<Interval>, times: seq<int>, i: nat)
    requires i + 1 < |times|
    requires forall i, j :: 0 <= i < j < |times| ==> times[i] < times[j]
    requires forall t :: t in times <==> Endpoint(all, t)
    ensures forall t :: times[i] < t < times[i + 1] ==> !Endpoint(all, t)
  {
    forall j | 0 <= j < |times| ensures !(times[i] < times[j] < times[i + 1]) {
    }
  }

  // Between two events the positive counts name the sole state, or there is none; the next event's
  // changes bring the counts up to date.
  lemma {:induction false} SweepStep(all: seq<Interval>, times: seq<int>, i: nat, active: map<State, int>,
          states: set<State>)
    requires AllPositive(all) && 0 < i < |times|
    requires forall i, j :: 0 <= i < j < |times| ==> times[i] < times[j]
    requires forall t :: t in times <==> Endpoint(all, t)
    requires forall s :: Count(active, s) == Cover(all, s, times[i - 1])
    requires forall s :: s in states <==> s in active && active[s] > 0
    ensures forall t :: times[i - 1] <= t < times[i] ==> NamesSole(all, t, states)
    ensures forall s :: Cover(all, s, times[i]) == Count(active, s) + Delta(all, s, times[i])
  {
    var previous, at := times[i - 1], times[i];
    NoEventBetween(all, times, i - 1);
    forall t | previous <= t < at
      ensures NamesSole(all, t, states)
    {
      forall s ensures s in states <==> Cover(all, s, t) > 0 {
        CoverStep(all, s, previous, at);
        assert Cover(all, s, t) == Cover(all, s, previous) == Count(active, s);
      }
      SoleState(all, t, states);
    }
    forall s ensures Cover(all, s, at) == Count(active, s) + Delta(all, s, at) {
      CoverStep(all, s, previous, at);
    }
  }

  // The sweep goes on to the next event, unless the states counted as active are not exactly one.
  method SweepTo(ghost all: seq<Interval>, intervals: seq<Interval>, times: seq<int>, i: nat, active: map<State, int>)
      returns (r: Option<seq<Interval>>)
    requires AllPositive(all) && 0 < i < |times| && Swept(all, intervals, times[0], times[i - 1])
    requires forall i, j :: 0 <= i < j < |times| ==> times[i] < times[j]
    requires forall t :: t in times <==> Endpoint(all, t)
    requires forall t :: Spanned(all, t) <==> times[0] <= t < times[|times| - 1]
    requires forall s :: Count(active, s) == Cover(all, s, times[i - 1])
    ensures r.None? ==> !Consistent(all)
    ensures r.Some? ==> Swept(all, r.value, times[0], times[i])
    ensures forall s :: Cover(all, s, times[i]) == Count(active, s) + Delta(all, s, times[i])
  {
    var previous, at := times[i - 1], times[i];
    var states := set s | s in active && active[s] > 0;
    SweepStep(all, times, i, active, states);
    assert NamesSole(all, previous, states);
    if |states| != 1 {
      assert Spanned(all, previous);
      return None;
    }
    var state :| state in states;
    forall t | previous <= t < at ensures Sole(all, t, state) {
      assert NamesSole(all, t, states);
    }
    EmitSwept(all, intervals, times[0], previous, at, state);
    r := Some(Emit(intervals, previous, at, state));
  }

  /** Merging succeeds exactly when the pages leave no gap and never disagree, and then returns the
      one timeline that agrees with every page at every instant. */
  method MergeLocalPages(pages: seq<Page>) returns (r: Result<Page, UsageError>)
    requires AllPositive(Flatten(pages))
    ensures Merges(Flatten(pages), r)
  {
    ghost var all := Flatten(pages);
    var events := CollectEvents(pages);
    var times := SortedKeys(events.Keys);
    var active: map<State, int> := map[];
    var intervals: seq<Interval> := [];
    if |times| > 0 {
      assert Endpoint(all, times[0]);
      SpanOfTimes(all, times);
    }
    for i := 0 to |times|
      invariant i == 0 ==> intervals == [] && active == map[]
      invariant i > 0 ==> Swept(all, intervals, times[0], times[i - 1])
      invariant i > 0 ==> forall s :: Count(active, s) == Cover(all, s, times[i - 1])
    {
      if i > 0 {
        var swept := SweepTo(all, intervals, times, i, active);
        if swept.None? {
          return Err(ConflictOrGap);
        }
        intervals := swept.value;
      } else {
        FirstEvent(all, times);
      }
      active := Shift(active, events[times[i]]);
    }
    if intervals == [] {
      if |all| > 0 { assert Endpoint(all, all[0].startAt); }
      return Err(NoIntervals);
    }
    SweptConsistent(all, intervals, times[0], times[|times| - 1]);
    return Ok(Page(intervals[0].startAt, intervals[|intervals| - 1].endAt, intervals));
  }

  lemma {:induction false} FirstEvent(all: seq<Interval>, times: seq<int>)
    requires AllPositive(all) && |times| > 0
    requires forall i, j :: 0 <= i < j < |times| ==> times[i] < times[j]
    requires forall t :: t in times <==> Endpoint(all, t)
    ensures forall s :: Cover(all, s, times[0]) == Delta(all, s, times[0])
  {
    forall k | 0 <= k < |all| ensures times[0] <= all[k].startAt {
      assert Endpoint(all, all[k].startAt);
      assert all[k].startAt in times;
    }
    forall s ensures Cover(all, s, times[0]) == Delta(all, s, times[0]) {
      NothingBefore(all, s, times[0]);
    }
  }

  lemma {:induction false} NothingBefore(all: seq<Interval>, s: State, first: int)
    requires AllPositive(all) && forall k :: 0 <= k < |all| ==> first <= all[k].startAt
    ensures Cover(all, s, first) == Delta(all, s, first)
  {
    if |all| > 0 {
      NothingBefore(all[..|all| - 1], s, first);
    }
  }

  // Some interval of a tiling covers each instant of its scope.
  lemma {:induction false} TilesCover(r: seq<Interval>, left: int, right: int, t: int) returns (k: nat)
    requires Tiles(r, left, right) && left <= t < right
    ensures k < |r| && Covers(r[k], t)
  {
    k := 0;
    while r[k].endAt <= t
      invariant k < |r| && r[k].startAt <= t
      decreases |r| - k
    {
      k := k + 1;
    }
  }

  lemma {:induction false} SweptConsistent(all: seq<Interval>, r: seq<Interval>, first: int, last: int)
    requires |r| > 0 && Swept(all, r, first, last) && first < last
    requires forall t :: Spanned(all, t) <==> first <= t < last
    ensures Consistent(all) && Timeline(all, r)
  {
    forall t | Spanned(all, t) ensures exists s :: Sole(all, t, s) {
      var k := TilesCover(r, first, last, t);
      assert Sole(all, t, r[k].state);
    }
  }

  // ---- the answer is a function of what the pages say, not of their order ----

  lemma {:induction false} TimelinePrefix(a: seq<Interval>, b: seq<Interval>, all: seq<Interval>, n: nat)
    requires Timeline(all, a) && Timeline(all, b) && n <= |a|
    ensures n <= |b| && a[..n] == b[..n]
    decreases n
  {
    if n > 0 {
      TimelinePrefix(a, b, all, n - 1);
      TimelineScopes(all, a, b);
      var k := n - 1;
      assert forall j :: 0 <= j < k ==> a[j] == b[j] by {
        assert forall j :: 0 <= j < k ==> a[..k][j] == b[..k][j];
      }
      TilesInside(a, a[0].startAt, a[|a| - 1].endAt, k);
      TilesEnd(b, k);
      SameNext(all, a, b, k);
    }
  }

  lemma {:induction false} TilesEnd(b: seq<Interval>, k: nat)
    requires |b| > 0 && Tiles(b, b[0].startAt, b[|b| - 1].endAt) && k <= |b|
    ensures k == |b| && k > 0 ==> b[k - 1].endAt == b[|b| - 1].endAt
  {
  }

  lemma {:induction false} TimelineScopes(all: seq<Interval>, a: seq<Interval>, b: seq<Interval>)
    requires Timeline(all, a) && Timeline(all, b)
    ensures a[0].startAt == b[0].startAt && a[|a| - 1].endAt == b[|b| - 1].endAt
  {
    TilesInside(a, a[0].startAt, a[|a| - 1].endAt, 0);
    TilesInside(b, b[0].startAt, b[|b| - 1].endAt, 0);
    assert Spanned(all, a[0].startAt) && Spanned(all, b[0].startAt);
    assert Spanned(all, a[|a| - 1].endAt - 1) && Spanned(all, b[|b| - 1].endAt - 1);
  }

  lemma {:induction false} SameNext(all: seq<Interval>, a: seq<Interval>, b: seq<Interval>, k: nat)
    requires Timeline(all, a) && Timeline(all, b) && k < |a| && k <= |b|
    requires forall j :: 0 <= j < k ==> a[j] == b[j]
    requires a[0].startAt == b[0].startAt && a[|a| - 1].endAt == b[|b| - 1].endAt
    ensures k < |b| && a[k] == b[k]
  {
    if k == |b| {
      assert b[k - 1].endAt == a[k].startAt;
      TilesInside(a, a[0].startAt, a[|a| - 1].endAt, k);
    } else {
      var t := a[k].startAt;
      assert k > 0 ==> a[k - 1] == b[k - 1] && a[k - 1].endAt == t && b[k - 1].endAt == b[k].startAt;
      SameState(all, a[k], b[k], t);
      if a[k].endAt < b[k].endAt {
        TilesInside(b, b[0].startAt, b[|b| - 1].endAt, k);
        SameState(all, a[k + 1], b[k], a[k].endAt);
      } else if b[k].endAt < a[k].endAt {
        TilesInside(a, a[0].startAt, a[|a| - 1].endAt, k);
        SameState(all, a[k], b[k + 1], b[k].endAt);
      }
    }
  }

  lemma {:induction false} SameState(all: seq<Interval>, x: Interval, y: Interval, t: int)
    requires Sole(all, t, x.state) && Sole(all, t, y.state)
    ensures x.state == y.state
  {
  }

  /** Two page lists that hold the same intervals, in whatever order or grouping, merge to the same
      answer: the same timeline, or the same refusal. */
  lemma {:induction false} MergeIgnoresOrder(all: seq<Interval>, other: seq<Interval>, r: Result<Page, UsageError>,
          q: Result<Page, UsageError>)
    requires forall interval :: interval in all <==> interval in other
    requires Merges(all, r) && Merges(other, q)
    ensures r == q
  {
    assert all == [] <==> other == [] by {
      if |all| > 0 { assert all[0] in other; }
      if |other| > 0 { assert other[0] in all; }
    }
    assert forall t, s :: Sole(all, t, s) <==> Sole(other, t, s);
    assert forall t :: Spanned(all, t) <==> Spanned(other, t);
    if r.Ok? && q.Ok? {
      var a, b := r.value.intervals, q.value.intervals;
      assert Timeline(all, b);
      TimelinePrefix(a, b, all, |a|);
      TimelinePrefix(b, a, all, |b|);
      assert a[..|a|] == a && b[..|b|] == b;
    }
  }

  // Pages that passed validation are what the sweep asks for.
  lemma {:induction false} ValidPagesArePositive(pages: seq<Page>, start: int, end: int)
    requires forall page :: page in pages ==> ValidPage(page, start, end)
    ensures AllPositive(Flatten(pages))
  {
    if |pages| > 0 {
      ValidPagesArePositive(pages[..|pages| - 1], start, end);
      assert pages[|pages| - 1] in pages;
    }
  }
}
