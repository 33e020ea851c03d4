/** Python's `round(x, 4)` on the exact value of its argument.

    CPython rounds a float to `n` decimals correctly: it takes the exact
    binary value, rounds it to the nearest multiple of 10^-n, and breaks an
    exact tie towards the even neighbour. The model works on exact reals, so
    it states that rule directly; converting the result back to the nearest
    double is not modelled. */
module Rounding {

  /** Nearest integer to `x`, ties to the even one. */
  function RoundHalfEven(x: real): (k: int)
    ensures -0.5 <= k as real - x <= 0.5
    ensures (k as real - x == 0.5 || x - k as real == 0.5) ==> k % 2 == 0
  {
    var n := x.Floor;
    var frac := x - n as real;
    if frac < 0.5 then n
    else if frac > 0.5 then n + 1
    else if n % 2 == 0 then n
    else n + 1
  }

  /** Scale of four decimal places. */
  const Scale: real := 10000.0

  /** `round(v, 4)`: the multiple of 10^-4 nearest to `v`. */
  function Round4(v: real): (r: real)
    ensures OnGrid(r)
    ensures -0.00005 <= r - v <= 0.00005
  {
    var k := RoundHalfEven(v * Scale);
    assert k as real / Scale * Scale == k as real;
    assert (k as real).Floor == k;
    k as real / Scale
  }

  /** A value with at most four decimals: an integer multiple of 10^-4. */
  predicate OnGrid(v: real) {
    (v * Scale).Floor as real == v * Scale
  }

  /** An integer rounds to itself. */
  lemma RoundHalfEvenOfInt(k: int)
    ensures RoundHalfEven(k as real) == k
  {
    assert (k as real).Floor == k;
  }

  /** Ties to even is symmetric about zero, so rounding commutes with
      negation. */
  lemma RoundHalfEvenNeg(x: real)
    ensures RoundHalfEven(-x) == -RoundHalfEven(x)
  {
    var n := x.Floor;
    var f := x - n as real;
    if f == 0.0 {
      assert (-x).Floor == -n;
    } else {
      assert (-x).Floor == -n - 1;
      assert -x - (-n - 1) as real == 1.0 - f;
      if f == 0.5 {
        assert (n % 2 == 0) <==> ((-n - 1) % 2 != 0);
      }
    }
  }

  /** A value that already has at most four decimals is not changed. */
  lemma Round4OnGrid(v: real)
    requires OnGrid(v)
    ensures Round4(v) == v
  {
    RoundHalfEvenOfInt((v * Scale).Floor);
  }

  /** Rounding twice is rounding once. */
  lemma Round4Idempotent(v: real)
    ensures Round4(Round4(v)) == Round4(v)
  {
    Round4OnGrid(Round4(v));
  }

  /** `round(-v, 4) == -round(v, 4)`. */
  lemma Round4Neg(v: real)
    ensures Round4(-v) == -Round4(v)
  {
    assert -v * Scale == -(v * Scale);
    RoundHalfEvenNeg(v * Scale);
  }
}
