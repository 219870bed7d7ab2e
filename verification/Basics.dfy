/** Types and small facts shared by every component. */
module Basics {
  datatype Option<+T> = None | Some(value: T)

  datatype Result<+T, +E> = Ok(value: T) | Err(error: E)

  function Min(a: real, b: real): real {
    if a <= b then a else b
  }

  function Max(a: real, b: real): real {
    if a <= b then b else a
  }

  function Abs(a: real): real {
    if a < 0.0 then -a else a
  }

  predicate Increasing(times: seq<int>) { forall i, j :: 0 <= i < j < |times| ==> times[i] < times[j] }

  lemma {:induction false} ProductOfNonNegatives(a: real, b: real)
    requires a >= 0.0 && b >= 0.0
    ensures a * b >= 0.0
  {
  }

  lemma {:induction false} Cancel(a: real, b: real, k: real)
    requires k > 0.0 && a * k <= b * k
    ensures a <= b
  {
    var gap := a - b;
    assert gap * k == a * k - b * k;
    if gap > 0.0 {
      Positive(gap, k);
    }
  }

  lemma {:induction false} Positive(a: real, b: real)
    requires a > 0.0 && b > 0.0
    ensures a * b > 0.0
  {
  }
}
