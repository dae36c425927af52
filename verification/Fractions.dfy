/** Fractional accumulators: exact multiples, their floors and their fractional parts. */
module Fractions {

  function Frac(x: real): real {
    x - x.Floor as real
  }

  lemma FloorIs(x: real, k: int)
    requires k as real <= x < k as real + 1.0
    ensures x.Floor == k
  {
  }

  lemma Scale(y: real, z: real, k: real)
    requires k > 0.0 && y <= z
    ensures y * k <= z * k
  {
  }

  lemma Unscale(y: real, z: real, k: real)
    requires k > 0.0 && y * k <= z * k
    ensures y <= z
  {
  }

  lemma QuotientTimes(a: real, b: real)
    requires b > 0.0
    ensures (a / b) * b == a
  {
  }

  lemma FactorAtMostOne(q: real, a: real, b: real)
    requires q * b == a && 0.0 < a <= b
    ensures 0.0 < q <= 1.0
  {
    if q <= 0.0 {
      Scale(q, 0.0, b);
    }
    assert 1.0 * b == b;
    Unscale(q, 1.0, b);
  }

  lemma FactorAtLeastOne(q: real, a: real, b: real)
    requires q * a == b && 0.0 < a <= b
    ensures q >= 1.0
  {
    assert 1.0 * a == a;
    Unscale(1.0, q, a);
  }

  lemma QuotientBounds(a: real, b: real)
    requires 0.0 < a <= b
    ensures 0.0 < a / b <= 1.0 && b / a >= 1.0
  {
    QuotientTimes(a, b);
    QuotientTimes(b, a);
    FactorAtMostOne(a / b, a, b);
    FactorAtLeastOne(b / a, a, b);
  }

  /** n * x by repeated addition. */
  function Times(n: nat, x: real): real {
    if n == 0 then 0.0 else Times(n - 1, x) + x
  }

  function Product(n: nat, x: real): real {
    n as real * x
  }

  lemma ProductStep(n: nat, x: real)
    requires n > 0
    ensures Product(n, x) == Product(n - 1, x) + x
  {
    assert n as real == (n - 1) as real + 1.0;
  }

  lemma {:induction false} ProductIsTimes(n: nat, x: real)
    ensures Times(n, x) == Product(n, x)
  {
    if n > 0 {
      ProductIsTimes(n - 1, x);
      ProductStep(n, x);
    }
  }

  lemma {:induction false} TimesAtLeast(n: nat, x: real)
    requires x >= 2.0
    ensures Times(n, x) >= 2.0 * n as real
  {
    if n > 0 {
      TimesAtLeast(n - 1, x);
    }
  }

  lemma {:induction false} TimesAdds(m: nat, n: nat, x: real)
    ensures Times(m + n, x) == Times(m, x) + Times(n, x)
  {
    if n > 0 {
      TimesAdds(m, n - 1, x);
    }
  }

  /** What an accumulator that started at `start` has given out after n steps of x. */
  function Given(start: real, x: real, n: nat): int {
    (start + Times(n, x)).Floor
  }

  /** One step of an accumulator: it gives the floor and keeps the fraction. */
  lemma GivenStep(start: real, x: real, n: nat)
    ensures var kept := Frac(start + Times(n, x));
      && Given(start, x, n + 1) == Given(start, x, n) + (kept + x).Floor
      && Frac(start + Times(n + 1, x)) == Frac(kept + x)
  {
    var kept := Frac(start + Times(n, x));
    assert start + Times(n + 1, x) == Given(start, x, n) as real + (kept + x);
    FloorIs(start + Times(n + 1, x), Given(start, x, n) + (kept + x).Floor);
  }

  /** Restarting from the kept fraction gives out the rest, and keeps the same. */
  lemma GivenSplits(start: real, x: real, m: nat, n: nat)
    ensures var kept := Frac(start + Times(m, x));
      && Given(start, x, m + n) == Given(start, x, m) + Given(kept, x, n)
      && Frac(start + Times(m + n, x)) == Frac(kept + Times(n, x))
  {
    TimesAdds(m, n, x);
    var kept := Frac(start + Times(m, x));
    assert start + Times(m + n, x) == Given(start, x, m) as real + (kept + Times(n, x));
    FloorIs(start + Times(m + n, x), Given(start, x, m) + Given(kept, x, n));
  }

  /** Splitting kept + x into a whole and a fraction is one step of the accumulator. */
  lemma StepSplits(start: real, x: real, n: nat, whole: int, next: real)
    requires whole as real + next == x + Frac(start + Times(n, x)) && 0.0 <= next < 1.0
    ensures Given(start, x, n + 1) == Given(start, x, n) + whole && next == Frac(start + Times(n + 1, x))
  {
    GivenStep(start, x, n);
    FloorIs(x + Frac(start + Times(n, x)), whole);
  }
}
