/** Arithmetic helpers shared by the projection: Math.max, Math.min, Math.pow
    with a natural exponent, Math.round, and a running sum. */
module Numeric {

  /** Math.max of two numbers. */
  function Max(a: real, b: real): (m: real)
    ensures m >= a && m >= b
    ensures m == a || m == b
  {
    if a >= b then a else b
  }

  /** Math.min of two numbers. */
  function Min(a: real, b: real): (m: real)
    ensures m <= a && m <= b
    ensures m == a || m == b
  {
    if a <= b then a else b
  }

  /** Math.pow(x, n) for a natural exponent n: n-fold product of x. */
  function Pow(x: real, n: nat): (p: real)
    ensures x != 0.0 ==> p != 0.0
    ensures x > 0.0 ==> p > 0.0
    ensures x >= 1.0 ==> p >= 1.0
    ensures x > 1.0 && n >= 1 ==> p > 1.0
  {
    if n == 0 then 1.0
    else
      var q := Pow(x, n - 1);
      assert x >= 1.0 ==> x * q >= q;
      assert x > 1.0 && n >= 1 ==> x * q > q;
      x * q
  }

  /** One more factor of a base of at least 1 never makes a power smaller. */
  lemma PowStep(x: real, k: nat, n: nat)
    requires x >= 1.0 && n == k + 1
    ensures Pow(x, k) <= Pow(x, n)
  {
    var q := Pow(x, k);
    assert Pow(x, n) == x * q;
    assert q >= 1.0;
    assert x * q - q == (x - 1.0) * q;
  }

  /** Powers of a base of at least 1 grow with the exponent. */
  lemma {:induction false} PowMonotone(x: real, m: nat, n: nat)
    requires x >= 1.0 && m <= n
    ensures Pow(x, m) <= Pow(x, n)
  {
    if m < n {
      PowMonotone(x, m, n - 1);
      PowStep(x, n - 1, n);
    }
  }

  /** Solving b * d == x for b. */
  lemma DivideBoth(b: real, d: real, x: real)
    requires d != 0.0 && b * d == x
    ensures b == x / d
  {
  }

  /** Multiplying by d undoes dividing by d, and the other way round. */
  lemma CancelDivisor(a: real, d: real)
    requires d != 0.0
    ensures (a / d) * d == a
    ensures (a * d) / d == a
  {
  }

  lemma MulDivAssoc(a: real, b: real, d: real)
    requires d != 0.0
    ensures a * b / d == a * (b / d)
  {
    CancelDivisor(b, d);
    DivideBoth(a * (b / d), d, a * b);
  }

  /** A fraction whose numerator lies in [0, d] lies in [0, 1]. */
  lemma FractionBounds(n: real, d: real)
    requires d > 0.0 && 0.0 <= n <= d
    ensures 0.0 <= n / d <= 1.0
    ensures n == d ==> n / d == 1.0
    ensures n == 0.0 ==> n / d == 0.0
  {
  }

  /** Scaling a nonnegative amount by a factor in [0, 1] keeps it in [0, a]. */
  lemma ScaleBounds(a: real, f: real)
    requires a >= 0.0 && 0.0 <= f <= 1.0
    ensures 0.0 <= a * f <= a
  {
    assert a - a * f == a * (1.0 - f);
  }

  /** Scaling by a nonnegative factor preserves order. */
  lemma ScaleMonotone(a: real, p: real, q: real)
    requires a >= 0.0 && p <= q
    ensures a * p <= a * q
  {
    assert a * q - a * p == a * (q - p);
  }

  /** Multiplying once more by x extends a power by one: (a * x^n) * x == a * x^(n+1). */
  lemma CompoundStep(a: real, x: real, n: nat)
    ensures a * Pow(x, n) * x == a * Pow(x, n + 1)
  {
    assert Pow(x, n + 1) == x * Pow(x, n);
  }

  /** An amount after a year at `percent` percent: amount * (1 + percent / 100). */
  function Grow(amount: real, percent: real): real
  {
    amount * (1.0 + percent / 100.0)
  }

  /** `amount` compounded for n years at `percent` percent a year. */
  function Compound(amount: real, percent: real, n: nat): real
  {
    amount * Pow(1.0 + percent / 100.0, n)
  }

  /** One more year of growth extends the compounding by one year. */
  lemma GrowCompound(prev: real, a: real, percent: real, m: nat, n: nat)
    requires prev == Compound(a, percent, m) && n == m + 1
    ensures Grow(prev, percent) == Compound(a, percent, n)
  {
    CompoundStep(a, 1.0 + percent / 100.0, m);
  }

  /** Growing a nonnegative amount at a nonnegative rate never loses value. */
  lemma GrowNotLess(c: real, percent: real)
    requires c >= 0.0 && percent >= 0.0
    ensures Grow(c, percent) >= c
  {
    assert Grow(c, percent) - c == c * (percent / 100.0);
  }

  /** A nonnegative amount compounded at a nonnegative rate stays nonnegative. */
  lemma CompoundNonnegative(a: real, percent: real, n: nat)
    requires a >= 0.0 && percent >= 0.0
    ensures Compound(a, percent, n) >= 0.0
  {
    var p := Pow(1.0 + percent / 100.0, n);
    assert p > 0.0;
  }

  /** Compounding a nonnegative amount at a nonnegative rate never loses
      value with more years. */
  lemma {:induction false} CompoundMonotone(a: real, percent: real, j: nat, k: nat)
    requires a >= 0.0 && percent >= 0.0 && j <= k
    ensures Compound(a, percent, j) <= Compound(a, percent, k)
  {
    if j < k {
      var m := k - 1;
      CompoundMonotone(a, percent, j, m);
      CompoundNonnegative(a, percent, m);
      GrowCompound(Compound(a, percent, m), a, percent, m, k);
      GrowNotLess(Compound(a, percent, m), percent);
    }
  }

  /** Math.round: the nearest integer, halves rounded up (towards +infinity). */
  function Round(x: real): (r: int)
    ensures x - 0.5 < r as real <= x + 0.5
  {
    (x + 0.5).Floor
  }

  /** Sum of a sequence of amounts, accumulated from the front. */
  function Sum(s: seq<real>): real
  {
    if |s| == 0 then 0.0 else Sum(s[..|s| - 1]) + s[|s| - 1]
  }
}
