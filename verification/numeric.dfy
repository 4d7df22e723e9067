/** Python numeric conversions used by the motion code, on exact reals. */
module Numeric {

  /** Python's `int()` applied to a float: truncation toward zero. */
  function Trunc(v: real): (n: int)
    ensures 0.0 <= v ==> 0 <= n && n as real <= v < n as real + 1.0
    ensures v < 0.0 ==> n <= 0 && n as real - 1.0 < v <= n as real
  {
    if v >= 0.0 then v.Floor else -((-v).Floor)
  }

  /** The number of iterations of Python's `range(n)`. */
  function Count(n: int): (c: nat)
    ensures n >= 0 ==> c == n
    ensures n <= 0 ==> c == 0
  {
    if n < 0 then 0 else n
  }

  /** Python's `abs()` on a float. */
  function Abs(v: real): real
  {
    if v < 0.0 then -v else v
  }

  /** Python's `min()` of two floats (the first one on a tie). */
  function Min(a: real, b: real): real
  {
    if b < a then b else a
  }

  /** Python's `max()` of two floats (the first one on a tie). */
  function Max(a: real, b: real): real
  {
    if b > a then b else a
  }

  /** `max(0, min(v, hi))`, the clamp applied to the Z estimate. */
  function Clamp(v: real, hi: real): (c: real)
    ensures 0.0 <= c
    ensures 0.0 <= hi ==> c <= hi
    ensures 0.0 <= v <= hi ==> c == v
  {
    Max(0.0, Min(v, hi))
  }

  /**
   * Stepping `Trunc(|d| * spm)` pulses of `1/spm` from a start toward a
   * target `d` away leaves the estimate at most one pulse short of it, on
   * the start's side.
   */
  lemma {:induction false} TruncatedApproach(d: real, spm: real)
    requires spm > 0.0
    ensures var n := Trunc(Abs(d) * spm) as real;
      0.0 <= n / spm <= Abs(d) < n / spm + 1.0 / spm
  {
    var n := Trunc(Abs(d) * spm) as real;
    assert n <= Abs(d) * spm < n + 1.0;
    assert n / spm <= Abs(d) by {
      assert n / spm * spm == n;
    }
    assert Abs(d) < n / spm + 1.0 / spm by {
      assert (n / spm + 1.0 / spm) * spm == n + 1.0;
    }
  }
}
