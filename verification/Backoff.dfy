/** The delays of the reconnect loop: geometric growth up to a cap, over the reals. */
module Backoff {

  /** A negative `maxAttempts` means unlimited. */
  datatype Policy = Policy(maxAttempts: int, initialDelay: real, maxDelay: real, multiplier: real)

  function Pow(base: real, n: nat): real {
    if n == 0 then 1.0 else base * Pow(base, n - 1)
  }

  function Uncapped(p: Policy, n: nat): real {
    p.initialDelay * Pow(p.multiplier, n)
  }

  function Delay(p: Policy, n: nat): real {
    if Uncapped(p, n) < p.maxDelay then Uncapped(p, n) else p.maxDelay
  }

  /** The policy of a server that was given none. */
  const DEFAULT_POLICY := Policy(-1, 500.0, 30000.0, 2.0)

  function TotalDelay(p: Policy, n: nat): real {
    if n == 0 then 0.0 else TotalDelay(p, n - 1) + Delay(p, n - 1)
  }

  predicate Growing(p: Policy) {
    p.initialDelay >= 0.0 && p.multiplier >= 1.0
  }

  lemma ScaleUp(a: real, m: real)
    requires a >= 0.0 && m >= 1.0
    ensures m * a >= a
  {
    assert (m - 1.0) * a >= 0.0;
  }

  lemma {:induction false} PowAtLeastOne(base: real, n: nat)
    requires base >= 1.0
    ensures Pow(base, n) >= 1.0
  {
    if n > 0 {
      PowAtLeastOne(base, n - 1);
      ScaleUp(Pow(base, n - 1), base);
    }
  }

  lemma UncappedStep(p: Policy, n: nat)
    ensures Uncapped(p, n + 1) == p.multiplier * Uncapped(p, n)
  {
    var a, m, q := p.initialDelay, p.multiplier, Pow(p.multiplier, n);
    assert a * (m * q) == m * (a * q);
  }

  lemma UncappedNonNegative(p: Policy, n: nat)
    requires Growing(p)
    ensures Uncapped(p, n) >= 0.0
  {
    PowAtLeastOne(p.multiplier, n);
  }

  lemma {:induction false} UncappedGrows(p: Policy, m: nat, n: nat)
    requires Growing(p) && m <= n
    ensures Uncapped(p, m) <= Uncapped(p, n)
    decreases n - m
  {
    if m < n {
      UncappedGrows(p, m, n - 1);
      UncappedNonNegative(p, n - 1);
      UncappedStep(p, n - 1);
      ScaleUp(Uncapped(p, n - 1), p.multiplier);
    }
  }

  /** Delays never shrink and never exceed the cap; once the cap is reached it stays. */
  lemma DelaysGrowToTheCap(p: Policy, m: nat, n: nat)
    requires Growing(p) && m <= n
    ensures Delay(p, m) <= Delay(p, n) <= p.maxDelay
    ensures Delay(p, m) == p.maxDelay ==> Delay(p, n) == p.maxDelay
  {
    UncappedGrows(p, m, n);
  }

  /** n attempts wait at most n times the cap in all. */
  lemma {:induction false} TotalDelayBounded(p: Policy, n: nat)
    ensures TotalDelay(p, n) <= n as real * p.maxDelay
  {
    if n > 0 {
      TotalDelayBounded(p, n - 1);
      var k, cap := (n - 1) as real, p.maxDelay;
      assert (k + 1.0) * cap == k * cap + cap;
    }
  }

  lemma TotalWithin(p: Policy, n: nat, max: nat)
    requires n <= max && p.maxDelay >= 0.0
    ensures TotalDelay(p, n) <= max as real * p.maxDelay
  {
    TotalDelayBounded(p, n);
    assert (max as real - n as real) * p.maxDelay >= 0.0;
  }

  /** `sum` is the sum of a, a*m, ..., up to and without a*q, where q is a power of m. */
  ghost predicate IsGeometricSum(sum: real, a: real, q: real, m: real) {
    sum * (m - 1.0) == a * (q - 1.0)
  }

  lemma {:induction false} GeometricSum(p: Policy, n: nat)
    requires Growing(p)
    requires n > 0 ==> Uncapped(p, n - 1) <= p.maxDelay
    ensures IsGeometricSum(TotalDelay(p, n), p.initialDelay, Pow(p.multiplier, n), p.multiplier)
  {
    if n > 0 {
      if n > 1 {
        UncappedGrows(p, n - 2, n - 1);
      }
      GeometricSum(p, n - 1);
      var sum, q := TotalDelay(p, n - 1), Pow(p.multiplier, n - 1);
      GeometricStep(sum, p.initialDelay, p.multiplier, q);
      assert TotalDelay(p, n) == sum + p.initialDelay * q;
      assert Pow(p.multiplier, n) == p.multiplier * q;
    }
  }

  lemma GeometricStep(sum: real, a: real, m: real, q: real)
    requires IsGeometricSum(sum, a, q, m)
    ensures IsGeometricSum(sum + a * q, a, m * q, m)
  {
    assert (sum + a * q) * (m - 1.0) == sum * (m - 1.0) + (a * q) * (m - 1.0);
    assert (a * q) * (m - 1.0) == a * (m * q) - a * q;
    assert a * (q - 1.0) == a * q - a;
    assert a * (m * q - 1.0) == a * (m * q) - a;
  }

  lemma Quotient(x: real, d: real, y: real)
    requires x * d == y && d != 0.0
    ensures x == y / d
  {
  }

  function GeometricTotal(a: real, q: real, m: real): real
    requires m != 1.0
  {
    a * (q - 1.0) / (m - 1.0)
  }

  lemma ClosedForm(x: real, a: real, q: real, m: real)
    requires IsGeometricSum(x, a, q, m) && m != 1.0
    ensures x == GeometricTotal(a, q, m)
  {
    Quotient(x, m - 1.0, a * (q - 1.0));
  }

  /** Below the cap the total is the geometric sum, in closed form. */
  lemma TotalDelayGeometric(p: Policy, n: nat)
    requires Growing(p) && p.multiplier != 1.0
    requires n > 0 ==> Uncapped(p, n - 1) <= p.maxDelay
    ensures TotalDelay(p, n) == GeometricTotal(p.initialDelay, Pow(p.multiplier, n), p.multiplier)
  {
    GeometricSum(p, n);
    ClosedForm(TotalDelay(p, n), p.initialDelay, Pow(p.multiplier, n), p.multiplier);
  }

  // ------------------------------------------------------------ when the cap is reached

  /** Pow is the power: it turns sums of exponents into products. */
  lemma {:induction false} PowAdds(base: real, m: nat, n: nat)
    ensures Pow(base, m + n) == Pow(base, m) * Pow(base, n)
    ensures Pow(base, 1) == base
  {
    if m > 0 {
      PowAdds(base, m - 1, n);
      assert base * (Pow(base, m - 1) * Pow(base, n)) == base * Pow(base, m - 1) * Pow(base, n);
    }
  }

  /** The delay before attempt n + 1 is the cap exactly when the power has reached it, and the
      power itself otherwise. */
  lemma DelayIsTheLesser(p: Policy, n: nat)
    ensures p.initialDelay * Pow(p.multiplier, n) >= p.maxDelay <==> Delay(p, n) == p.maxDelay
    ensures p.initialDelay * Pow(p.multiplier, n) < p.maxDelay ==>
              Delay(p, n) == p.initialDelay * Pow(p.multiplier, n)
  {
  }

  /** The power stays below the cap before attempt k + 1 and has reached it there. */
  predicate Crosses(p: Policy, k: nat) {
    (k > 0 ==> Uncapped(p, k - 1) < p.maxDelay) && Uncapped(p, k) >= p.maxDelay
  }

  /** n waits of the cap. */
  function Repeated(cap: real, n: nat): real {
    if n == 0 then 0.0 else Repeated(cap, n - 1) + cap
  }

  lemma {:induction false} RepeatedIsProduct(cap: real, n: nat)
    ensures Repeated(cap, n) == n as real * cap
  {
    if n > 0 {
      RepeatedIsProduct(cap, n - 1);
      assert n as real * cap == (n - 1) as real * cap + cap;
    }
  }

  lemma {:induction false} CapFromThere(p: Policy, k: nat, n: nat)
    requires Growing(p) && Crosses(p, k) && k <= n
    ensures TotalDelay(p, n) == TotalDelay(p, k) + Repeated(p.maxDelay, n - k)
    decreases n - k
  {
    if k < n {
      CapFromThere(p, k, n - 1);
      UncappedGrows(p, k, n - 1);
    }
  }

  /** The total of a loop that crosses the cap: the geometric sum up to the crossing, and the cap
      for every later attempt. */
  lemma TotalDelayAcrossTheCap(p: Policy, k: nat, n: nat)
    requires Growing(p) && p.multiplier != 1.0 && Crosses(p, k) && k <= n
    ensures TotalDelay(p, n) ==
            GeometricTotal(p.initialDelay, Pow(p.multiplier, k), p.multiplier) + Repeated(p.maxDelay, n - k)
  {
    CapFromThere(p, k, n);
    TotalDelayGeometric(p, k);
  }

  lemma {:induction false} PowOutgrowsLine(base: real, n: nat)
    requires base >= 1.0
    ensures Pow(base, n) >= 1.0 + n as real * (base - 1.0)
  {
    if n > 0 {
      PowOutgrowsLine(base, n - 1);
      PowAtLeastOne(base, n - 1);
      var d, q := base - 1.0, Pow(base, n - 1);
      assert Pow(base, n) == q + d * q;
      assert d * q >= d by { assert d * (q - 1.0) >= 0.0; }
      assert n as real * d == (n - 1) as real * d + d;
    }
  }

  lemma Scales(a: real, x: real, y: real)
    requires a >= 0.0 && x >= y
    ensures a * x >= a * y
  {
    assert a * (x - y) >= 0.0;
  }

  lemma EnoughSteps(step: real, cap: real) returns (n: nat)
    requires step > 0.0 && cap > 0.0
    ensures n as real * step >= cap
  {
    var x := cap / step;
    assert x * step == cap;
    n := (x + 1.0).Floor;
    Scales(step, n as real, x);
  }

  /** A growing policy with a positive start outgrows any cap. */
  lemma Outgrows(p: Policy) returns (n: nat)
    requires p.initialDelay > 0.0 && p.multiplier > 1.0 && p.maxDelay > 0.0
    ensures Uncapped(p, n) >= p.maxDelay
  {
    var a, d := p.initialDelay, p.multiplier - 1.0;
    assert a * d > 0.0;
    n := EnoughSteps(a * d, p.maxDelay);
    PowOutgrowsLine(p.multiplier, n);
    Scales(a, Pow(p.multiplier, n), n as real * d);
    assert a * (n as real * d) == n as real * (a * d);
  }

  ghost predicate ReachesCap(p: Policy) {
    exists n: nat :: Uncapped(p, n) >= p.maxDelay
  }

  lemma {:induction false} FlatStaysFlat(p: Policy, n: nat)
    requires p.initialDelay == 0.0 || p.multiplier == 1.0
    ensures Uncapped(p, n) == p.initialDelay
  {
    if n > 0 {
      FlatStaysFlat(p, n - 1);
      UncappedStep(p, n - 1);
    }
  }

  /** The cap is reached in the end if and only if the first delay has reached it or the delays
      really grow. */
  lemma CapIsReachedIff(p: Policy)
    requires Growing(p)
    ensures ReachesCap(p) <==>
              p.initialDelay >= p.maxDelay || (p.initialDelay > 0.0 && p.multiplier > 1.0)
  {
    if p.initialDelay >= p.maxDelay {
      assert Uncapped(p, 0) >= p.maxDelay;
    } else if p.initialDelay > 0.0 && p.multiplier > 1.0 {
      var n := Outgrows(p);
    } else {
      forall n: nat ensures Uncapped(p, n) < p.maxDelay {
        FlatStaysFlat(p, n);
      }
    }
  }

  /** The default policy waits 0.5, 1, 2, 4, 8 and 16 seconds, and 30 seconds from then on. */
  lemma DefaultDelays(n: nat)
    requires n >= 6
    ensures Delay(DEFAULT_POLICY, 0) == 500.0 && Delay(DEFAULT_POLICY, 5) == 16000.0
    ensures Delay(DEFAULT_POLICY, n) == 30000.0
    ensures TotalDelay(DEFAULT_POLICY, n) == 31500.0 + (n - 6) as real * 30000.0
  {
    var p := DEFAULT_POLICY;
    assert Pow(2.0, 1) == 2.0 && Pow(2.0, 2) == 4.0 && Pow(2.0, 3) == 8.0;
    assert Pow(2.0, 4) == 16.0 && Pow(2.0, 5) == 32.0 && Pow(2.0, 6) == 64.0;
    UncappedGrows(p, 6, n);
    TotalDelayAcrossTheCap(p, 6, n);
    RepeatedIsProduct(30000.0, n - 6);
    assert GeometricTotal(500.0, 64.0, 2.0) == 31500.0;
  }
}
