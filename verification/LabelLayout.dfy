/** Spacing of the endpoint labels (scripts/graph_live_evidence.py, lines 1767-1795). Positions are
    label tops in a band of height one; a label is 16/204 high. */
module LabelLayout {
  import opened Basics

  const HEIGHT := 16.0 / 204.0
  const LOWER := 0.0
  const MAX_TOP := 1.0 - HEIGHT

  // The height of `n` labels.
  function Stack(n: int): real { n as real * (16.0 / 204.0) }

  function Clamp(ideal: real): real { Min(MAX_TOP, Max(LOWER, ideal)) }

  // The highest place label `i` of `n` can take while all later ones still fit below the band's end.
  function Cap(n: nat, i: nat): real { MAX_TOP - Stack(n - 1 - i) }

  predicate Fits(n: nat) { Stack(n - 1) <= MAX_TOP }

  // After the forward pass: pushed down by the labels above.
  function Pushed(ideals: seq<real>, i: nat): real
    requires i < |ideals|
  {
    if i == 0 then Clamp(ideals[0]) else Max(Clamp(ideals[i]), Pushed(ideals, i - 1) + HEIGHT)
  }

  /** Where every label ends: pushed down by the ones above, pulled back by the room the ones below
      need; or simply stacked from the top when they cannot all fit. */
  function Arranged(ideals: seq<real>, i: nat): real
    requires i < |ideals|
  {
    if Fits(|ideals|) then Backed(ideals, i) else Stack(i)
  }

  lemma {:induction false} PushedApart(ideals: seq<real>, i: nat, j: nat)
    requires i <= j < |ideals|
    ensures Pushed(ideals, i) + Stack(j - i) <= Pushed(ideals, j)
    ensures LOWER + Stack(i) <= Pushed(ideals, i)
    decreases j
  {
    if i < j {
      PushedApart(ideals, i, j - 1);
    } else if i > 0 {
      PushedApart(ideals, i - 1, i - 1);
    }
  }

  function Backed(ideals: seq<real>, i: nat): real
    requires i < |ideals|
  {
    Min(Pushed(ideals, i), Cap(|ideals|, i))
  }

  // One place of each pass, written the way the pass computes it.
  lemma {:induction false} BackedStep(ideals: seq<real>, i: nat)
    requires i + 1 < |ideals|
    ensures Backed(ideals, i) == Min(Pushed(ideals, i), Backed(ideals, i + 1) - HEIGHT)
  {
    PushedApart(ideals, i, i + 1);
  }

  lemma {:induction false} BackedLast(ideals: seq<real>)
    requires |ideals| > 0
    ensures Pushed(ideals, |ideals| - 1) > MAX_TOP ==> Backed(ideals, |ideals| - 1) == MAX_TOP
    ensures Pushed(ideals, |ideals| - 1) <= MAX_TOP ==> forall i :: 0 <= i < |ideals| ==>
        Backed(ideals, i) == Pushed(ideals, i)
  {
    forall i | 0 <= i < |ideals| && Pushed(ideals, |ideals| - 1) <= MAX_TOP
        ensures Backed(ideals, i) == Pushed(ideals, i) {
      PushedApart(ideals, i, |ideals| - 1);
    }
  }

  lemma {:induction false} ShiftStep(ideals: seq<real>, i: nat)
    requires i < |ideals|
    ensures Backed(ideals, 0) < LOWER ==> Backed(ideals, i) + (LOWER - Backed(ideals, 0)) == Arranged(ideals, i)
    ensures Backed(ideals, 0) >= LOWER ==> Backed(ideals, i) == Arranged(ideals, i)
  {
    PushedApart(ideals, i, i);
    PushedApart(ideals, 0, 0);
  }

  ghost function PushedAll(ideals: seq<real>): seq<real> {
    seq(|ideals|, i requires 0 <= i < |ideals| => Pushed(ideals, i))
  }

  ghost function BackedAll(ideals: seq<real>): seq<real> {
    seq(|ideals|, i requires 0 <= i < |ideals| => Backed(ideals, i))
  }

  // The layout as the list of its closed forms.
  ghost function Layout(ideals: seq<real>): (r: seq<real>)
    ensures |r| == |ideals|
  {
    seq(|ideals|, i requires 0 <= i < |ideals| => Arranged(ideals, i))
  }

  method ForwardPass(ideals: seq<real>) returns (tops: seq<real>)
    ensures tops == PushedAll(ideals)
  {
    ghost var target := PushedAll(ideals);
    tops := seq(|ideals|, i requires 0 <= i < |ideals| => Clamp(ideals[i]));
    var index := 1;
    while index < |tops|
      invariant 1 <= index && |tops| == |ideals|
      invariant forall i :: 0 <= i < |ideals| && i < index ==> tops[i] == target[i]
      invariant forall i :: index <= i < |ideals| ==> tops[i] == Clamp(ideals[i])
    {
      assert target[index] == Max(Clamp(ideals[index]), target[index - 1] + HEIGHT);
      tops := tops[index := Max(tops[index], tops[index - 1] + HEIGHT)];
      index := index + 1;
    }
  }

  method BackwardPass(start: seq<real>, ghost ideals: seq<real>) returns (tops: seq<real>)
    requires |ideals| > 0 && start == PushedAll(ideals)
    ensures tops == BackedAll(ideals)
  {
    ghost var target := BackedAll(ideals);
    tops := start;
    var n := |tops|;
    BackedLast(ideals);
    if tops[n - 1] > MAX_TOP {
      tops := tops[n - 1 := MAX_TOP];
      var index := n - 2;
      while index >= 0
        invariant -1 <= index <= n - 2 && |tops| == n
        invariant forall i :: 0 <= i <= index ==> tops[i] == start[i]
        invariant forall i :: index < i < n ==> tops[i] == target[i]
      {
        BackedStep(ideals, index);
        assert target[index] == Min(start[index], target[index + 1] - HEIGHT);
        tops := tops[index := Min(tops[index], tops[index + 1] - HEIGHT)];
        index := index - 1;
      }
    }
  }

  method ShiftPass(start: seq<real>, ghost ideals: seq<real>) returns (tops: seq<real>)
    requires |ideals| > 0 && start == BackedAll(ideals)
    ensures tops == Layout(ideals)
  {
    tops := start;
    forall i | 0 <= i < |ideals|
      ensures start[0] < LOWER ==> start[i] + (LOWER - start[0]) == Arranged(ideals, i)
      ensures start[0] >= LOWER ==> start[i] == Arranged(ideals, i)
    {
      ShiftStep(ideals, i);
    }
    if start[0] < LOWER {
      var shift := LOWER - start[0];
      tops := seq(|start|, i requires 0 <= i < |start| => start[i] + shift);
    }
  }

  /** The three passes of the source end at the closed form. */
  method ArrangeLabels(ideals: seq<real>) returns (tops: seq<real>)
    ensures tops == Layout(ideals)
  {
    tops := ForwardPass(ideals);
    if |ideals| > 0 {
      tops := BackwardPass(tops, ideals);
      tops := ShiftPass(tops, ideals);
    }
  }

  // ---- what the layout promises ----

  // In bounds and at least one label apart.
  ghost predicate Legal(tops: seq<real>) {
    && (forall i :: 0 <= i < |tops| ==> LOWER <= tops[i] <= MAX_TOP)
    && (forall i :: 0 < i < |tops| ==> tops[i - 1] + HEIGHT <= tops[i])
  }

  /** Labels keep their order and never touch; they stay in bounds exactly when twelve or fewer share
      the band, which is when any legal placement exists at all. */
  lemma {:induction false} LayoutSeparates(ideals: seq<real>)
    ensures forall i :: 0 < i < |ideals| ==> Layout(ideals)[i - 1] + HEIGHT <= Layout(ideals)[i]
    ensures |ideals| > 0 ==> (Legal(Layout(ideals)) <==> Fits(|ideals|))
    ensures Fits(|ideals|) <==> |ideals| <= 12
  {
    var n := |ideals|;
    forall i | 0 < i < n ensures Layout(ideals)[i - 1] + HEIGHT <= Layout(ideals)[i] {
      PushedApart(ideals, i - 1, i);
    }
    forall i | 0 <= i < n ensures LOWER <= Layout(ideals)[i] && (Fits(n) ==> Layout(ideals)[i] <= MAX_TOP) {
      PushedApart(ideals, i, i);
    }
    if n > 0 && !Fits(n) {
      assert Layout(ideals)[n - 1] > MAX_TOP;
    }
  }

  lemma {:induction false} LegalSpan(q: seq<real>, i: nat, j: nat)
    requires Legal(q) && i <= j < |q|
    ensures q[i] + Stack(j - i) <= q[j]
    decreases j
  {
    if i < j {
      LegalSpan(q, i, j - 1);
    }
  }

  lemma {:induction false} NoPlacementWhenFull(q: seq<real>)
    requires Legal(q) && |q| > 0
    ensures Fits(|q|)
  {
    LegalSpan(q, 0, |q| - 1);
  }

  /** A placement that is already legal is left exactly as it is. */
  lemma {:induction false} LegalUnchanged(ideals: seq<real>)
    requires Legal(ideals)
    ensures Layout(ideals) == ideals
  {
    if |ideals| > 0 {
      NoPlacementWhenFull(ideals);
      forall i | 0 <= i < |ideals| ensures Arranged(ideals, i) == ideals[i] {
        LegalPushed(ideals, i);
        LegalSpan(ideals, i, |ideals| - 1);
      }
    }
  }

  lemma {:induction false} LegalPushed(ideals: seq<real>, i: nat)
    requires Legal(ideals) && i < |ideals|
    ensures Pushed(ideals, i) == ideals[i]
  {
    if i > 0 {
      LegalPushed(ideals, i - 1);
    }
  }

  /** No label is pushed further down than it must be: among all legal placements that put no label
      above its ideal, the layout is the topmost, label by label. */
  lemma {:induction false} LayoutIsTopmost(ideals: seq<real>, q: seq<real>, i: nat)
    requires Legal(q) && |q| == |ideals| && i < |q|
    requires forall j :: 0 <= j < |q| ==> q[j] >= Clamp(ideals[j])
    ensures Layout(ideals)[i] <= q[i]
  {
    NoPlacementWhenFull(q);
    PushedBelow(ideals, q, i);
  }

  lemma {:induction false} PushedBelow(ideals: seq<real>, q: seq<real>, i: nat)
    requires Legal(q) && |q| == |ideals| && i < |q|
    requires forall j :: 0 <= j < |q| ==> q[j] >= Clamp(ideals[j])
    ensures Pushed(ideals, i) <= q[i]
  {
    if i > 0 {
      PushedBelow(ideals, q, i - 1);
    }
  }

  /** While the labels fit, a label that is away from its ideal is held there: it rests against a
      neighbour or against the end of the band. */
  lemma {:induction false} LabelsAreHeld(ideals: seq<real>, i: nat)
    requires i < |ideals| && Fits(|ideals|)
    ensures var r := Layout(ideals);
      || r[i] == Clamp(ideals[i])
      || (i > 0 && r[i] == r[i - 1] + HEIGHT)
      || (i + 1 < |ideals| && r[i] == r[i + 1] - HEIGHT)
      || (i + 1 == |ideals| && r[i] == MAX_TOP)
  {
    if i > 0 {
      PushedApart(ideals, i - 1, i);
    }
    if i + 1 < |ideals| {
      PushedApart(ideals, i, i + 1);
    }
  }

  /** A label's ideal place is moved into the band to the nearest place where all of it shows. */
  lemma {:induction false} ClampIsNearest(ideal: real, top: real)
    requires 0.0 <= top <= 188.0 / 204.0
    ensures 0.0 <= Clamp(ideal) <= 188.0 / 204.0
    ensures Abs(Clamp(ideal) - ideal) <= Abs(top - ideal)
  {
  }

  /** More labels than the band has room for are stacked from its top, whatever their ideals. */
  lemma {:induction false} TooManyAreStacked(ideals: seq<real>, i: nat)
    requires |ideals| > 12 && i < |ideals|
    ensures Layout(ideals)[i] == i as real * 16.0 / 204.0
  {
    LayoutSeparates(ideals);
  }
}
