/** Trial division and the search for the next primes. */
module Primes {
  import Modular

  ghost predicate Prime(n: int) {
    n >= 2 && forall d :: 2 <= d < n ==> n % d != 0
  }

  lemma Divides(n: nat, d: nat, e: nat)
    requires d > 0 && n == d * e
    ensures n % d == 0
  {
    Modular.MultipleMod(e, d);
    assert d * e == e * d;
  }

  /** A proper divisor has a partner; the smaller of the two is at most the square root. */
  lemma SmallDivisor(n: nat, d: nat) returns (e: nat)
    requires 2 <= d < n && n % d == 0
    ensures 2 <= e <= d && e * e <= n && n % e == 0
  {
    var k := n / d;
    assert n == k * d;
    assert k >= 2 by {
      if k <= 1 { Modular.MulMonotone(k, 1, d); }
    }
    if d <= k {
      e := d;
      Modular.MulMonotone(d, k, d);
    } else {
      e := k;
      Modular.MulMonotone(k, d, k);
      assert k * d == d * k;
      Divides(n, k, d);
    }
  }

  /** Odd numbers have no even divisor. */
  lemma OddDivisor(n: nat, d: nat)
    requires d > 0 && n % 2 == 1 && n % d == 0
    ensures d % 2 == 1
  {
    var k := n / d;
    assert n == k * d;
    if d % 2 == 0 {
      var h := d / 2;
      assert d == h * 2;
      assert k * (h * 2) == (k * h) * 2;
      Modular.MultipleMod(k * h, 2);
    }
  }

  /** Trial division by 2 and by the odd numbers up to the square root. */
  method IsPrime(value: int) returns (r: bool)
    ensures r <==> Prime(value)
  {
    if value < 2 { return false; }
    if value % 2 == 0 { return value == 2; }
    var d := 3;
    while d * d <= value
      invariant d >= 3 && d % 2 == 1
      invariant forall e :: 2 <= e < d ==> value % e != 0
      decreases value - d
    {
      if value % d == 0 {
        assert d < value by { Modular.MulMonotone(2, d, d); }
        return false;
      }
      if value % (d + 1) == 0 { OddDivisor(value, d + 1); }
      SquareGrows(d, value);
      d := d + 2;
    }
    NoSmallDivisor(value, d);
    return true;
  }

  lemma SquareGrows(d: nat, value: nat)
    requires d >= 3 && d * d <= value
    ensures d + 2 <= value + 1
  {
    Modular.MulMonotone(3, d, d);
  }

  lemma NoSmallDivisor(value: nat, d: nat)
    requires value >= 2 && d * d > value && forall e :: 2 <= e < d ==> value % e != 0
    ensures Prime(value)
  {
    forall f | 2 <= f < value ensures value % f != 0 {
      if value % f == 0 {
        var e := SmallDivisor(value, f);
        if e >= d { Modular.MulMonotone(d, e, e); Modular.MulMonotone(d, e, d); }
      }
    }
  }

  // ---------------------------------------------------------------------------
  // There is always another prime
  // ---------------------------------------------------------------------------

  function Factorial(n: nat): nat { if n == 0 then 1 else n * Factorial(n - 1) }

  lemma {:induction false} FactorialDivisible(n: nat, d: nat)
    requires 1 <= d <= n
    ensures Factorial(n) % d == 0 && Factorial(n) >= 1
  {
    FactorialPositive(n);
    if d == n {
      Divides(Factorial(n), n, Factorial(n - 1));
    } else {
      FactorialDivisible(n - 1, d);
      var k := Factorial(n - 1) / d;
      assert Factorial(n - 1) == k * d;
      assert n * (k * d) == d * (n * k);
      Divides(Factorial(n), d, n * k);
    }
  }

  lemma {:induction false} FactorialPositive(n: nat)
    ensures Factorial(n) >= 1
  {
    if n > 0 {
      FactorialPositive(n - 1);
      Modular.MulMonotone(1, n, Factorial(n - 1));
    }
  }

  /** The least divisor from d on is prime, when nothing smaller divides. */
  lemma {:induction false} PrimeDivisor(n: nat, d: nat) returns (p: nat)
    requires 2 <= d <= n && forall e :: 2 <= e < d ==> n % e != 0
    ensures Prime(p) && n % p == 0
    decreases n - d
  {
    if n % d == 0 {
      p := d;
      forall e | 2 <= e < d ensures d % e != 0 {
        if d % e == 0 {
          var k, j := n / d, d / e;
          assert n == k * d && d == j * e;
          assert k * (j * e) == e * (k * j);
          Divides(n, e, k * j);
        }
      }
    } else {
      assert d != n by { Modular.DivModUnique(n, n, 1, 0); }
      p := PrimeDivisor(n, d + 1);
    }
  }

  /** Euclid: a prime divisor of n! + 1 is larger than n. */
  lemma {:induction false} Euclid(n: int)
    ensures exists p :: p > n && Prime(p)
  {
    var k: nat := if n < 2 then 2 else n;
    var f := Factorial(k);
    FactorialDivisible(k, 1);
    var p := PrimeDivisor(f + 1, 2);
    if p <= k {
      FactorialDivisible(k, p);
      Modular.DivModUnique(f + 1, p, f / p, 1) by { assert f == (f / p) * p; }
    }
    assert p > n && Prime(p);
  }

  // ---------------------------------------------------------------------------
  // The n-th prime after a start
  // ---------------------------------------------------------------------------

  ghost predicate IsNext(n: int, p: int) {
    p > n && Prime(p) && forall q :: n < q < p ==> !Prime(q)
  }

  lemma {:induction false} Least(n: int, k: int, bound: int) returns (p: int)
    requires n < k <= bound && Prime(bound) && forall q :: n < q < k ==> !Prime(q)
    ensures IsNext(n, p)
    decreases bound - k
  {
    if Prime(k) { p := k; } else { p := Least(n, k + 1, bound); }
  }

  lemma NextExists(n: int)
    ensures exists p :: IsNext(n, p)
  {
    Euclid(n);
    var bound :| bound > n && Prime(bound);
    var p := Least(n, n + 1, bound);
  }

  ghost function NextPrime(n: int): (p: int)
    ensures IsNext(n, p)
  {
    NextExists(n);
    var p :| IsNext(n, p);
    p
  }

  lemma NextUnique(n: int, p: int, q: int)
    requires IsNext(n, p) && IsNext(n, q)
    ensures p == q
  {
  }

  /** The count-th prime above start. */
  ghost function NthPrime(start: int, count: nat): int {
    if count == 0 then start else NextPrime(NthPrime(start, count - 1))
  }

  method FindNthPrimeAfter(start: int, count: nat) returns (prime: int)
    ensures prime == NthPrime(start, count)
  {
    prime := start;
    for i := 0 to count
      invariant prime == NthPrime(start, i)
    {
      ghost var n, next := prime, NextPrime(prime);
      prime := prime + 1;
      var found := IsPrime(prime);
      while !found
        invariant n < prime <= next && (found <==> Prime(prime))
        invariant forall q :: n < q < prime ==> !Prime(q)
        decreases next - prime
      {
        prime := prime + 1;
        found := IsPrime(prime);
      }
      NextUnique(n, prime, next);
    }
  }

  /** Later primes are larger. */
  lemma {:induction false} NthPrimeGrows(start: int, a: nat, b: nat)
    requires a < b
    ensures NthPrime(start, a) < NthPrime(start, b) && Prime(NthPrime(start, b))
  {
    if a < b - 1 { NthPrimeGrows(start, a, b - 1); }
  }

  /** Nothing prime is skipped: every prime above start is one of them. */
  lemma {:induction false} NthPrimeCovers(start: int, count: nat, q: int)
    requires start < q <= NthPrime(start, count) && Prime(q)
    ensures exists k: nat :: 1 <= k <= count && q == NthPrime(start, k)
  {
    if q <= NthPrime(start, count - 1) {
      NthPrimeCovers(start, count - 1, q);
      var k: nat :| 1 <= k <= count - 1 && q == NthPrime(start, k);
      assert 1 <= k <= count;
    } else {
      assert q == NthPrime(start, count);
    }
  }
}
