/** Arithmetic shared by the player and weapon models: the C# `(int)` cast of a
    float and sums of per-frame time steps. Floats are modelled as `real`. */
module Numeric {

  /** C#'s `(int)` conversion of a floating-point value: truncation toward zero,
      also for negative values (unlike Dafny's `Floor`). */
  function Trunc(x: real): (r: int)
    ensures 0.0 <= x ==> 0 <= r && r as real <= x < r as real + 1.0
    ensures x < 0.0 ==> r <= 0 && r as real - 1.0 < x <= r as real
  {
    if 0.0 <= x then x.Floor else -((-x).Floor)
  }

  /** Truncation of non-negative values never decreases when its argument grows. */
  lemma TruncMonotone(x: real, y: real)
    requires 0.0 <= x <= y
    ensures Trunc(x) <= Trunc(y)
  {
  }

  /** Total time of a sequence of frames, first frame first. */
  function Sum(dts: seq<real>): real
  {
    if dts == [] then 0.0 else dts[0] + Sum(dts[1..])
  }

  /** Frame times supplied by the engine are never negative. */
  ghost predicate NonNegative(dts: seq<real>)
  {
    forall i :: 0 <= i < |dts| ==> 0.0 <= dts[i]
  }

  lemma {:induction false} SumNonNegative(dts: seq<real>)
    requires NonNegative(dts)
    ensures 0.0 <= Sum(dts)
  {
    if dts != [] {
      assert NonNegative(dts[1..]) by {
        forall i | 0 <= i < |dts[1..]| ensures 0.0 <= dts[1..][i] {
          assert dts[1..][i] == dts[i + 1];
        }
      }
      SumNonNegative(dts[1..]);
    }
  }

  /** The tail of a non-negative frame sequence is non-negative. */
  lemma NonNegativeTail(dts: seq<real>)
    requires dts != [] && NonNegative(dts)
    ensures 0.0 <= dts[0] && NonNegative(dts[1..]) && dts[0] <= Sum(dts)
  {
    assert NonNegative(dts[1..]) by {
      forall i | 0 <= i < |dts[1..]| ensures 0.0 <= dts[1..][i] {
        assert dts[1..][i] == dts[i + 1];
      }
    }
    SumNonNegative(dts[1..]);
  }
}
