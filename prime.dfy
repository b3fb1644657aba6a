/**
 * The prime sample's worker class (sample/prime/prime.js): an incremental
 * generator that keeps the primes found so far and tests each next candidate
 * against them only.
 */
module PrimeSample {

  /** `n` is a prime number. */
  ghost predicate IsPrimeNumber(n: int) {
    n >= 2 && forall d :: 2 <= d < n ==> n % d != 0
  }

  /**
   * `(n % p) == 0` in JavaScript. Its `%` truncates toward zero while Dafny's is
   * Euclidean, but the two agree on whether the remainder is zero; `n % 0` is
   * `NaN`, which is not equal to zero.
   */
  predicate Divides(p: int, n: int) {
    p != 0 && n % p == 0
  }

  /** Euclidean division is unique: a quotient and a remainder in range are the ones `/` and `%` give. */
  lemma RemainderUnique(x: int, d: int, q: int, r: int)
    requires d > 0 && 0 <= r < d && x == d * q + r
    ensures x % d == r
  {
    var q', r' := x / d, x % d;
    assert d * (q - q') == r' - r;
    if q - q' >= 1 {
      MultipleAtLeast(d, q - q');
    } else if q' - q >= 1 {
      MultipleAtLeast(d, q' - q);
    }
  }

  lemma MultipleAtLeast(d: int, t: int)
    requires d > 0 && t >= 1
    ensures d * t >= d
  {
  }

  /** A multiple of `d` leaves no remainder. */
  lemma MultipleHasNoRemainder(d: int, k: int)
    requires d > 0
    ensures (d * k) % d == 0
  {
    RemainderUnique(d * k, d, k, 0);
  }

  /** Divisibility is transitive. */
  lemma DividesTransitive(e: int, d: int, m: int)
    requires e > 0 && d > 0
    requires d % e == 0 && m % d == 0
    ensures m % e == 0
  {
    var b, a := d / e, m / d;
    assert m == e * (b * a) by {
      assert d == e * b;
      assert m == d * a;
    }
    MultipleHasNoRemainder(e, b * a);
  }

  /** A product with a factor divisible by `d` is divisible by `d`. */
  lemma ProductDivisible(d: int, a: int, k: int)
    requires d > 0 && a % d == 0
    ensures (a * k) % d == 0
  {
    var q := a / d;
    assert a * k == d * (q * k) by {
      assert a == d * q;
    }
    MultipleHasNoRemainder(d, q * k);
  }

  ghost function Factorial(n: nat): (f: nat)
    ensures f >= 1
  {
    if n == 0 then 1 else n * Factorial(n - 1)
  }

  /** Every number from 1 to `n` divides `n!`. */
  lemma {:induction false} FactorialDivisible(n: nat, d: int)
    requires 1 <= d <= n
    ensures Factorial(n) % d == 0
  {
    if d == n {
      MultipleHasNoRemainder(n, Factorial(n - 1));
    } else {
      FactorialDivisible(n - 1, d);
      ProductDivisible(d, Factorial(n - 1), n);
      assert Factorial(n - 1) * n == Factorial(n);
    }
  }

  /** The least divisor of `m` that is at least `d`, where none below `d` (from 2) divides `m`. */
  ghost function LeastDivisorFrom(m: int, d: int): (e: int)
    requires 2 <= d <= m
    ensures d <= e <= m && m % e == 0
    ensures forall k :: d <= k < e ==> m % k != 0
    decreases m - d
  {
    if m % d == 0 then d else LeastDivisorFrom(m, d + 1)
  }

  /** The least divisor above 1 of a number is prime. */
  lemma LeastDivisorIsPrime(m: int)
    requires m >= 2
    ensures IsPrimeNumber(LeastDivisorFrom(m, 2))
  {
    var e := LeastDivisorFrom(m, 2);
    forall k | 2 <= k < e
      ensures e % k != 0
    {
      if e % k == 0 {
        DividesTransitive(k, e, m);
      }
    }
  }

  /** There is a prime above every number: the least divisor of `n! + 1` above 1. */
  lemma PrimeAbove(n: nat)
    ensures exists p :: p > n && IsPrimeNumber(p)
  {
    var m := Factorial(n) + 1;
    var p := LeastDivisorFrom(m, 2);
    LeastDivisorIsPrime(m);
    if p <= n {
      FactorialDivisible(n, p);
      var q := Factorial(n) / p;
      assert Factorial(n) == p * q;
      RemainderUnique(m, p, q, 1);
    }
  }

  /**
   * Testing a candidate against the primes below it decides primality: a
   * composite number has a prime factor smaller than itself.
   */
  lemma PrimeIffNoListedDivisor(primes: seq<int>, n: int)
    requires n >= 2
    requires forall i :: 0 <= i < |primes| ==> IsPrimeNumber(primes[i]) && primes[i] < n
    requires forall p :: 2 <= p < n && IsPrimeNumber(p) ==> p in primes
    ensures IsPrimeNumber(n) <==> forall i :: 0 <= i < |primes| ==> !Divides(primes[i], n)
  {
    if !IsPrimeNumber(n) {
      var e := LeastDivisorFrom(n, 2);
      LeastDivisorIsPrime(n);
      assert e < n;
      var i :| 0 <= i < |primes| && primes[i] == e;
      assert Divides(primes[i], n);
    }
  }

  /** `primes` is exactly the primes below `n`, in increasing order. */
  ghost predicate ListsPrimesBelow(primes: seq<int>, n: int) {
    && (forall i, j :: 0 <= i < j < |primes| ==> primes[i] < primes[j])
    && (forall i :: 0 <= i < |primes| ==> IsPrimeNumber(primes[i]) && primes[i] < n)
    && (forall p :: 2 <= p < n && IsPrimeNumber(p) ==> p in primes)
  }

  /** Passing over a composite number keeps the list complete. */
  lemma PassComposite(primes: seq<int>, n: int)
    requires ListsPrimesBelow(primes, n) && !IsPrimeNumber(n)
    ensures ListsPrimesBelow(primes, n + 1)
  {
  }

  /** Appending the next prime keeps the list complete and increasing. */
  lemma AppendPrime(primes: seq<int>, n: int)
    requires ListsPrimesBelow(primes, n) && IsPrimeNumber(n)
    ensures ListsPrimesBelow(primes + [n], n + 1)
  {
  }

  /** The primes below `n` in increasing order: the list the generator is meant to hold. */
  ghost function PrimesBelow(n: int): seq<int>
    decreases n
  {
    if n <= 2 then [] else PrimesBelow(n - 1) + (if IsPrimeNumber(n - 1) then [n - 1] else [])
  }

  /** The reference list holds exactly the primes below `n`, each once, in increasing order. */
  lemma {:induction false} PrimesBelowListsThem(n: int)
    ensures ListsPrimesBelow(PrimesBelow(n), n)
    decreases n
  {
    if n > 2 {
      PrimesBelowListsThem(n - 1);
      if IsPrimeNumber(n - 1) {
        AppendPrime(PrimesBelow(n - 1), n - 1);
      } else {
        PassComposite(PrimesBelow(n - 1), n - 1);
      }
    }
  }

  class Prime {
    var primes: seq<int>
    var num: int

    /** `primes` is the reference list of every prime up to the last number examined, `num`. */
    ghost predicate Valid()
      reads this
    {
      num >= 1 && primes == PrimesBelow(num + 1)
    }

    constructor ()
      ensures Valid()
      ensures primes == [] && num == 1
    {
      primes := [];
      num := 1;
    }

    /**
     * `isPrime`: false as soon as a listed prime divides `n`, true otherwise;
     * when the list holds every prime below `n`, that is primality itself.
     */
    method IsPrime(n: int) returns (r: bool)
      ensures r <==> forall i :: 0 <= i < |primes| ==> !Divides(primes[i], n)
      ensures n >= 2 && primes == PrimesBelow(n) ==> (r <==> IsPrimeNumber(n))
    {
      if n >= 2 && primes == PrimesBelow(n) {
        PrimesBelowListsThem(n);
        PrimeIffNoListedDivisor(primes, n);
      }
      for i := 0 to |primes|
        invariant forall k :: 0 <= k < i ==> !Divides(primes[k], n)
      {
        if primes[i] != 0 && n % primes[i] == 0 {
          return false;
        }
      }
      r := true;
    }

    /**
     * `getNextPrime`: advances `num` to the next prime, appends it to
     * `primes` and returns it; no prime was skipped on the way.
     */
    method GetNextPrime() returns (r: int)
      requires Valid()
      modifies this
      ensures Valid()
      ensures r == num && num > old(num)
      ensures IsPrimeNumber(r)
      ensures forall k :: old(num) < k < r ==> !IsPrimeNumber(k)
      ensures primes == old(primes) + [r]
    {
      PrimeAbove(num);
      ghost var bound :| bound > num && IsPrimeNumber(bound);
      while true
        invariant old(num) <= num < bound
        invariant primes == old(primes)
        invariant num >= 1 && primes == PrimesBelow(num + 1)
        invariant forall k :: old(num) < k <= num ==> !IsPrimeNumber(k)
        decreases bound - num
      {
        num := num + 1;
        var found := IsPrime(num);
        assert found <==> IsPrimeNumber(num);
        if found {
          primes := primes + [num];
          return num;
        }
      }
    }
  }
}
