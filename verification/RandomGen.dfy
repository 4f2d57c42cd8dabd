/**
 The random generator (src/randomvar.cpp): the division-split form of the minimal standard generator
 x -> 16807 x mod (2^31 - 1), the minstd_rand0 of section 26.5.5 of ISO/IEC 14882:2011.
 */
module RandomGenerator {

  const A := 16807
  const M := 2147483647
  const Q := 127773
  const R := 2836

  const INT32_MAX := 0x7fff_ffff

  /** A * AINV = 1 modulo M. */
  const AINV := 1407677000

  ghost predicate Seed(x: int) { 1 <= x < M }

  ghost predicate FitsInt32(x: int) { -INT32_MAX - 1 <= x <= INT32_MAX }

  /** The generator without the split: one multiplication modulo M. */
  function Next(x: int): int { A * x % M }

  /** The split: with x = Q xq + xr, A x = (A xr - R xq) + M xq, and A xr - R xq lies within one M of 0. */
  lemma SplitIsExact(x: int)
    requires Seed(x)
    ensures var xq, xr := x / Q, x % Q;
            && FitsInt32(A * xr) && FitsInt32(R * xq) && FitsInt32(A * xr - R * xq)
            && A * x == (A * xr - R * xq) + M * xq
            && -M < A * xr - R * xq < M
  {
    var xq, xr := x / Q, x % Q;
    assert x == Q * xq + xr && 0 <= xr < Q;
    assert 0 <= xq <= 16807;
    assert A * Q + R == M;
  }

  lemma ModUnique(y: int, k: int, r: int)
    requires y == M * k + r && 0 <= r < M
    ensures y % M == r
  {
  }

  class RandomGen {
    var seed: int
    var xn: int

    constructor (s: int)
      ensures seed == s && xn == s
    {
      seed := s;
      xn := s;
    }

    method Init(s: int)
      modifies this
      ensures seed == s && xn == s
    {
      xn := s;
      seed := s;
    }

    /** The code's steps; with a positive state its division and remainder agree with the Euclidean ones. */
    method Sample() returns (r: int)
      requires Seed(xn)
      modifies this`xn
      ensures r == xn == Next(old(xn)) && Seed(xn)
    {
      SplitIsExact(xn);
      NextIsSeed(xn);
      ghost var x := xn;
      var xq := xn / Q;
      var xr := xn % Q;
      assert FitsInt32(A * xr) && FitsInt32(R * xq);
      xn := A * xr - R * xq;
      assert FitsInt32(xn);
      if xn < 0 {
        xn := xn + M;
        ModUnique(A * x, xq - 1, xn);
      } else {
        ModUnique(A * x, xq, xn);
      }
      return xn;
    }
  }

  // ---------- a permutation of the seeds ----------

  function Back(y: int): int { AINV * y % M }

  lemma MulMod(a: int, b: int)
    ensures a * (b % M) % M == a * b % M
  {
    var k := b / M;
    assert b == M * k + b % M;
    assert a * b == M * (a * k) + a * (b % M);
    AddMultiple(a * (b % M), a * k);
  }

  lemma AddMultiple(r: int, k: int)
    ensures (M * k + r) % M == r % M
  {
    var q := r / M;
    assert r == M * q + r % M;
    assert M * k + r == M * (k + q) + r % M;
    ModUnique(M * k + r, k + q, r % M);
  }

  /** Multiplying by A and then by its inverse gives a seed back, and the other way round. */
  lemma BackAndForth(x: int)
    requires 0 <= x < M
    ensures Back(Next(x)) == x && Next(Back(x)) == x
  {
    MulMod(AINV, A * x);
    MulMod(A, AINV * x);
    assert AINV * A == M * 11017 + 1;
    assert AINV * (A * x) == M * (11017 * x) + x;
    assert A * (AINV * x) == M * (11017 * x) + x;
    ModUnique(AINV * (A * x), 11017 * x, x);
  }

  /** The state never becomes 0. */
  lemma NextIsSeed(x: int)
    requires Seed(x)
    ensures Seed(Next(x)) && Seed(Back(x))
  {
    BackAndForth(x);
  }

  /** The generator permutes [1, M - 1]: every seed has exactly one predecessor. */
  lemma NextIsBijection(y: int)
    requires Seed(y)
    ensures Seed(Back(y)) && Next(Back(y)) == y
    ensures forall x :: Seed(x) && Next(x) == y ==> x == Back(y)
  {
    BackAndForth(y);
    NextIsSeed(y);
    forall x | Seed(x) && Next(x) == y ensures x == Back(y) {
      BackAndForth(x);
    }
  }

  // ---------- the n-th sample ----------

  function Nth(x: int, n: nat): int { if n == 0 then x else Next(Nth(x, n - 1)) }

  function Power(b: int, n: nat): int { if n == 0 then 1 else b * Power(b, n - 1) }

  lemma {:induction false} NthIsPower(x: int, n: nat)
    requires Seed(x)
    ensures Nth(x, n) == Power(A, n) * x % M && Seed(Nth(x, n))
  {
    if n > 0 {
      NthIsPower(x, n - 1);
      NextIsSeed(Nth(x, n - 1));
      MulMod(A, Power(A, n - 1) * x);
      assert A * (Power(A, n - 1) * x) == Power(A, n) * x;
    }
  }
}
