/** Exponential decay per millisecond: `Pow(r, n)` with `0 < r <= 1`, where `r = exp(-1 / (3_600_000 * window_hours))`. */
module Decay {

  ghost function Pow(r: real, n: nat): real {
    if n == 0 then 1.0 else r * Pow(r, n - 1)
  }

  lemma {:induction false} PowAdds(r: real, a: nat, b: nat)
    ensures Pow(r, a + b) == Pow(r, a) * Pow(r, b)
  {
    if a > 0 {
      PowAdds(r, a - 1, b);
      assert Pow(r, a + b) == r * Pow(r, a - 1 + b);
    }
  }

  lemma {:induction false} PowBounds(r: real, n: nat)
    requires 0.0 < r <= 1.0
    ensures 0.0 < Pow(r, n) <= 1.0
  {
    if n > 0 {
      PowBounds(r, n - 1);
      Shrinks(r, Pow(r, n - 1));
    }
  }

  lemma Shrinks(a: real, b: real)
    requires 0.0 < a <= 1.0 && 0.0 < b <= 1.0
    ensures 0.0 < a * b <= b
    ensures a < 1.0 ==> a * b < b
  {
  }

  lemma {:induction false} PowBelowOne(r: real, n: nat)
    requires 0.0 < r < 1.0 && n > 0
    ensures Pow(r, n) < 1.0
  {
    PowBounds(r, n - 1);
    Shrinks(r, Pow(r, n - 1));
  }
}
