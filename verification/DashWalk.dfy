/** The dash pattern walked along a polyline (scripts/graph_live_evidence.py, lines 1271-1320).
    Edges are given by their lengths; offsets are distances from the start of an edge. */
module DashWalk {
  import opened Basics

  const DASH := 0.45
  const PERIOD := 0.75
  const EPSILON := 0.000000000001

  datatype Dash = Dash(from: real, to: real)

  // The phase stays more than EPSILON below the boundary it is heading for.
  predicate Settled(phase: real) {
    0.0 <= phase && (phase < DASH - EPSILON || DASH <= phase < PERIOD - EPSILON)
  }

  // A phase close to a boundary counts as having reached it.
  function Snap(phase: real): real {
    if phase >= PERIOD - EPSILON then 0.0
    else if Abs(phase - DASH) <= EPSILON then DASH
    else phase
  }

  function Wraps(phase: real): nat { if phase >= PERIOD - EPSILON then 1 else 0 }

  // The length of `n` whole periods, and the drift allowed over `n` edges.
  function Whole(n: nat): real { 0.75 * n as real }

  function Drift(n: nat): real { 0.000000000001 * n as real }

  lemma {:induction false} SnapSettles(phase: real)
    requires 0.0 <= phase <= PERIOD
    ensures Settled(Snap(phase))
    ensures -EPSILON <= phase - (Whole(Wraps(phase)) + Snap(phase)) <= EPSILON
    ensures phase == PERIOD ==> Snap(phase) == 0.0 && Wraps(phase) == 1
    ensures phase == DASH ==> Snap(phase) == DASH && Wraps(phase) == 0
  {
  }

  // ---- the pattern in closed form ----

  // Number of the first dash that starts on an edge entered at `phase`.
  function FirstDash(phase: real): nat { if phase < DASH then 0 else 1 }

  function From(phase: real, k: nat): real { Max(0.0, Whole(k) - phase) }

  function To(phase: real, length: real, k: nat): real { Min(length, Whole(k) + DASH - phase) }

  // The dashes of an edge are exactly the pattern's dashes that start more than EPSILON before its end.
  ghost predicate Pattern(dashes: seq<Dash>, phase: real, length: real) {
    && (forall j :: 0 <= j < |dashes| ==>
         && dashes[j] == Dash(From(phase, FirstDash(phase) + j), To(phase, length, FirstDash(phase) + j))
         && From(phase, FirstDash(phase) + j) < length - EPSILON)
    && From(phase, FirstDash(phase) + |dashes|) >= length - EPSILON
  }

  // `total` is a whole number of periods plus the phase, up to `error`.
  predicate InPhase(total: real, periods: nat, phase: real, error: real) {
    -error <= total - (Whole(periods) + phase) <= error
  }

  // Where the walk stands inside an edge: on a boundary of the pattern, or still where it entered.
  predicate OnPattern(start: real, offset: real, phase: real, periods: nat) {
    && start + offset == Whole(periods) + phase
    && (phase == 0.0 || phase == DASH || (offset == 0.0 && periods == 0 && phase == start))
  }

  function Advance(phase: real, remaining: real): real {
    Min((if phase < DASH then DASH else PERIOD) - phase, remaining)
  }

  // Dashes of the pattern already begun at this phase of this period.
  function Begun(periods: nat, phase: real): nat { periods + FirstDash(phase) }

  lemma {:induction false} Stride(start: real, length: real, offset: real, phase: real, periods: nat)
    requires Settled(start) && Settled(phase) && 0.0 <= offset && length - offset > EPSILON
    requires OnPattern(start, offset, phase, periods)
    ensures var advance := Advance(phase, length - offset);
      var raw := phase + advance;
      var next, more := Snap(raw), periods + Wraps(raw);
      && advance > EPSILON && Settled(next)
      && (phase < DASH ==> offset == From(start, periods) && offset + advance == To(start, length, periods))
      && (offset + advance < length ==> OnPattern(start, offset + advance, next, more))
      && (offset + advance < length ==> Begun(more, next) == periods + 1)
      && (offset + advance == length ==> InPhase(start + length, more, next, EPSILON))
      && (offset + advance == length ==> From(start, periods + 1) >= length - EPSILON)
  {
    SnapSettles(phase + Advance(phase, length - offset));
  }

  lemma {:induction false} LastBit(start: real, length: real, offset: real, phase: real, periods: nat)
    requires Settled(start) && Settled(phase) && 0.0 <= offset < length && length - offset <= EPSILON
    requires OnPattern(start, offset, phase, periods)
    ensures var raw := phase + (length - offset);
      && Settled(Snap(raw)) && InPhase(start + length, periods + Wraps(raw), Snap(raw), EPSILON)
      && From(start, Begun(periods, phase)) >= length - EPSILON
  {
    SnapSettles(phase + (length - offset));
  }

  // The dashes drawn so far are the first ones of the pattern.
  ghost predicate Prefix(dashes: seq<Dash>, start: real, length: real) {
    forall j :: 0 <= j < |dashes| ==>
      dashes[j] == Dash(From(start, FirstDash(start) + j), To(start, length, FirstDash(start) + j))
      && From(start, FirstDash(start) + j) < length - EPSILON
  }

  // The loop head of the walk: under way, or at the end of the edge.
  ghost predicate Walking(dashes: seq<Dash>, start: real, length: real, offset: real, phase: real, periods: nat) {
    && 0.0 <= offset <= length && Settled(phase) && Prefix(dashes, start, length)
    && if offset < length
       then OnPattern(start, offset, phase, periods) && FirstDash(start) + |dashes| == Begun(periods, phase)
       else InPhase(start + length, periods, phase, EPSILON)
            && From(start, FirstDash(start) + |dashes|) >= length - EPSILON
  }

  lemma {:induction false} StrideKeeps(dashes: seq<Dash>, start: real, length: real, offset: real, phase: real,
          periods: nat)
    requires Settled(start) && length - offset > EPSILON
    requires Walking(dashes, start, length, offset, phase, periods)
    ensures OnPattern(start, offset, phase, periods)
    ensures var advance := Advance(phase, length - offset);
      && advance > EPSILON && offset + advance <= length
      && (length - (offset + advance)) * 1000000000000.0 <= (length - offset) * 1000000000000.0 - 1.0
      && Walking(if phase < DASH then dashes + [Dash(offset, offset + advance)] else dashes, start, length,
                 offset + advance, Snap(phase + advance), periods + Wraps(phase + advance))
  {
    Stride(start, length, offset, phase, periods);
    var advance := Advance(phase, length - offset);
    if phase < DASH {
      var more := dashes + [Dash(offset, offset + advance)];
      assert FirstDash(start) + |dashes| == periods;
      assert Prefix(more, start, length);
    }
  }

  lemma {:induction false} LastBitEnds(dashes: seq<Dash>, start: real, length: real, offset: real, phase: real,
          periods: nat)
    requires Settled(start) && offset < length && length - offset <= EPSILON
    requires Walking(dashes, start, length, offset, phase, periods)
    ensures var raw := phase + (length - offset);
      Walking(dashes, start, length, length, Snap(raw), periods + Wraps(raw))
  {
    LastBit(start, length, offset, phase, periods);
  }

  // One turn of the walk. The turn that would make no progress is never taken.
  method Turn(dashes: seq<Dash>, ghost start: real, length: real, offset: real, phase: real, ghost periods: nat)
    returns (drawn: seq<Dash>, reached: real, left: real, ghost passed: nat)
    requires Settled(start) && offset < length && Walking(dashes, start, length, offset, phase, periods)
    ensures Walking(drawn, start, length, reached, left, passed)
    ensures reached <= length
    ensures (reached == length || (length - reached) * 1000000000000.0 <= (length - offset) * 1000000000000.0 - 1.0)
  {
    var remaining := length - offset;
    if remaining <= EPSILON {
      LastBitEnds(dashes, start, length, offset, phase, periods);
      return dashes, length, Snap(phase + remaining), periods + Wraps(phase + remaining);
    }
    StrideKeeps(dashes, start, length, offset, phase, periods);
    var advance := Advance(phase, remaining);
    if advance <= EPSILON {
      assert false;
    }
    drawn := if phase < DASH then dashes + [Dash(offset, offset + advance)] else dashes;
    reached, left, passed := offset + advance, Snap(phase + advance), periods + Wraps(phase + advance);
  }

  /** Walking one edge draws exactly the pattern, leaves the phase settled, and keeps it true to the
      distance walked up to one EPSILON. */
  method WalkEdge(length: real, start: real) returns (dashes: seq<Dash>, phase: real, ghost periods: nat)
    requires length > EPSILON && Settled(start)
    ensures Settled(phase) && Pattern(dashes, start, length)
    ensures InPhase(start + length, periods, phase, EPSILON)
  {
    dashes, phase, periods := [], start, 0;
    var offset := 0.0;
    while offset < length
      invariant offset <= length && Walking(dashes, start, length, offset, phase, periods)
      decreases if offset < length then 1 else 0, (length - offset) * 1000000000000.0
    {
      dashes, offset, phase, periods := Turn(dashes, start, length, offset, phase, periods);
    }
  }

  /** The dashes on one edge are non-empty, inside it, at most 0.45 long, in order, and apart by a
      full 0.30 gap. */
  lemma {:induction false} PatternShape(dashes: seq<Dash>, phase: real, length: real)
    requires Settled(phase) && length > EPSILON && Pattern(dashes, phase, length)
    ensures forall j :: 0 <= j < |dashes| ==>
      0.0 <= dashes[j].from < dashes[j].to <= length && dashes[j].to - dashes[j].from <= DASH
    ensures forall i, j :: 0 <= i < j < |dashes| ==> dashes[i].to + (PERIOD - DASH) <= dashes[j].from
  {
    var first := FirstDash(phase);
    forall i, j | 0 <= i < j < |dashes|
      ensures dashes[i].to + (PERIOD - DASH) <= dashes[j].from
    {
      assert (first + j) as real >= (first + i) as real + 1.0;
      assert dashes[j].from >= Whole(first + j) - phase;
      assert dashes[i].to <= Whole(first + i) + DASH - phase;
    }
  }

  /** The pattern decides the dashes: two walks of the same edge from the same phase draw the same. */
  lemma {:induction false} PatternUnique(a: seq<Dash>, b: seq<Dash>, phase: real, length: real)
    requires Pattern(a, phase, length) && Pattern(b, phase, length)
    ensures a == b
  {
    PatternLength(a, b, phase, length);
    PatternLength(b, a, phase, length);
  }

  lemma {:induction false} PatternLength(a: seq<Dash>, b: seq<Dash>, phase: real, length: real)
    requires Pattern(a, phase, length) && Pattern(b, phase, length)
    ensures |a| >= |b|
  {
    if |a| < |b| {
      PatternStarts(b, phase, length, |a|);
    }
  }

  lemma {:induction false} PatternStarts(b: seq<Dash>, phase: real, length: real, j: nat)
    requires Pattern(b, phase, length) && j < |b|
    ensures From(phase, FirstDash(phase) + j) < length - EPSILON
  {
    assert b[j].from == From(phase, FirstDash(phase) + j);
  }

  function Total(lengths: seq<real>): real {
    if |lengths| == 0 then 0.0 else Total(lengths[..|lengths| - 1]) + lengths[|lengths| - 1]
  }

  lemma {:induction false} DriftAdds(total: real, length: real, n: nat, m: nat, phase: real, next: real, k: nat)
    requires InPhase(total, n, phase, Drift(k)) && InPhase(phase + length, m, next, EPSILON)
    ensures InPhase(total + length, n + m, next, Drift(k + 1))
  {
  }

  // What one edge shows and the phases it was entered and left with.
  datatype EdgeWalk = EdgeWalk(entered: real, dashes: seq<Dash>, left: real)

  // Too short to walk, or the pattern for the phase it was entered with.
  ghost predicate EdgeDrawn(length: real, walk: EdgeWalk) {
    && Settled(walk.entered) && Settled(walk.left)
    && if length <= EPSILON then walk.dashes == [] && walk.left == walk.entered
       else Pattern(walk.dashes, walk.entered, length)
  }

  method WalkEdgeOrSkip(length: real, phase: real) returns (walk: EdgeWalk, ghost periods: nat)
    requires length >= 0.0 && Settled(phase)
    ensures EdgeDrawn(length, walk) && walk.entered == phase
    ensures InPhase(phase + length, periods, walk.left, EPSILON)
  {
    if length <= EPSILON {
      return EdgeWalk(phase, [], phase), 0;
    }
    var dashes, left;
    dashes, left, periods := WalkEdge(length, phase);
    walk := EdgeWalk(phase, dashes, left);
  }

  // The next edge of a polyline, with the account of the whole distance so far.
  method WalkNext(lengths: seq<real>, k: nat, phase: real, ghost periods: nat) returns (walk: EdgeWalk,
          ghost passed: nat)
    requires k < |lengths| && lengths[k] >= 0.0 && Settled(phase)
    requires InPhase(Total(lengths[..k]), periods, phase, Drift(k))
    ensures EdgeDrawn(lengths[k], walk) && walk.entered == phase
    ensures InPhase(Total(lengths[..k + 1]), passed, walk.left, Drift(k + 1))
  {
    ghost var more;
    walk, more := WalkEdgeOrSkip(lengths[k], phase);
    passed := periods + more;
    assert lengths[..k + 1][..k] == lengths[..k];
    DriftAdds(Total(lengths[..k]), lengths[k], periods, more, phase, walk.left, k);
  }

  /** Along a whole polyline the phase carries over: after any number of edges it is true to the
      total distance up to one EPSILON an edge, and each edge shows the pattern for the phase it was
      entered with. Edges no longer than EPSILON draw nothing and move nothing. */
  method WalkPolyline(lengths: seq<real>) returns (walks: seq<EdgeWalk>, phase: real, ghost periods: nat)
    requires forall k :: 0 <= k < |lengths| ==> lengths[k] >= 0.0
    ensures |walks| == |lengths|
    ensures forall k :: 0 <= k < |lengths| ==> EdgeDrawn(lengths[k], walks[k])
    ensures |walks| > 0 ==> walks[0].entered == 0.0
    ensures forall k :: 0 < k < |lengths| ==> walks[k - 1].left == walks[k].entered
    ensures phase == if |walks| == 0 then 0.0 else walks[|walks| - 1].left
    ensures InPhase(Total(lengths), periods, phase, Drift(|lengths|))
    ensures Drift(|lengths|) == 0.000000000001 * |lengths| as real
  {
    walks, phase, periods := [], 0.0, 0;
    for k := 0 to |lengths|
      invariant |walks| == k && Settled(phase)
      invariant forall j :: 0 <= j < k ==> EdgeDrawn(lengths[j], walks[j])
      invariant |walks| > 0 ==> walks[0].entered == 0.0
      invariant forall j :: 0 < j < k ==> walks[j - 1].left == walks[j].entered
      invariant phase == if k == 0 then 0.0 else walks[k - 1].left
      invariant InPhase(Total(lengths[..k]), periods, phase, Drift(k))
    {
      var walk;
      walk, periods := WalkNext(lengths, k, phase, periods);
      phase := walk.left;
      walks := walks + [walk];
    }
    assert lengths[..|lengths|] == lengths;
  }

  // The distance along the whole line lies in its `n`-th dash of 0.45, one every 0.75.
  predicate InDash(distance: real, n: nat) { 0.75 * n as real <= distance < 0.75 * n as real + 0.45 }

  /** On an edge entered at a phase, a point is drawn exactly if its distance along the line lies in a dash; only
      within the last 1e-12 of the edge may a dash that is due be left to the next one. */
  lemma {:induction false} DrawnIff(dashes: seq<Dash>, phase: real, length: real, u: real, distance: real)
    requires Settled(phase) && Pattern(dashes, phase, length) && 0.0 <= u < length - 0.000000000001
    requires distance == phase + u
    ensures (exists j :: 0 <= j < |dashes| && dashes[j].from <= u < dashes[j].to) <==>
      exists n: nat :: InDash(distance, n)
  {
    var first := FirstDash(phase);
    if j :| 0 <= j < |dashes| && dashes[j].from <= u < dashes[j].to {
      assert dashes[j] == Dash(From(phase, first + j), To(phase, length, first + j));
      assert InDash(distance, first + j);
    }
    if n: nat :| InDash(distance, n) {
      assert n >= first;
      LaterFrom(phase, first + |dashes|, n);
      assert dashes[n - first] == Dash(From(phase, n), To(phase, length, n));
    }
  }

  lemma {:induction false} LaterFrom(phase: real, m: nat, n: nat)
    ensures m <= n ==> From(phase, m) <= From(phase, n)
  {
  }
}
