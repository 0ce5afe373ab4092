/** Bitwise-and and powers of two on natural numbers. */
module Bits {

  function Pow2(k: nat): (p: nat)
    ensures p > 0
  {
    if k == 0 then 1 else 2 * Pow2(k - 1)
  }

  ghost predicate IsPow2(n: nat) {
    exists k: nat :: n == Pow2(k)
  }

  /** Bit `k` of `x`. */
  function Bit(x: nat, k: nat): bool {
    x / Pow2(k) % 2 == 1
  }

  function And(a: nat, b: nat): nat
    decreases a
  {
    if a == 0 then 0
    else 2 * And(a / 2, b / 2) + if a % 2 == 1 && b % 2 == 1 then 1 else 0
  }

  lemma {:induction false} Pow2Adds(j: nat, k: nat)
    ensures Pow2(j + k) == Pow2(j) * Pow2(k)
  {
    if j > 0 {
      Pow2Adds(j - 1, k);
    }
  }

  lemma {:induction false} Pow2Grows(j: nat, k: nat)
    requires j <= k
    ensures Pow2(j) <= Pow2(k)
    decreases k
  {
    if j < k {
      Pow2Grows(j, k - 1);
    }
  }

  /** Masking with 2^k - 1 is the remainder modulo 2^k. */
  lemma {:induction false} MaskIsMod(a: nat, k: nat)
    ensures And(a, Pow2(k) - 1) == a % Pow2(k)
    decreases k
  {
    if k == 0 {
      AndZero(a);
    } else {
      MaskIsMod(a / 2, k - 1);
      MaskStep(a, Pow2(k - 1));
      DoublePow2(k);
    }
  }

  lemma DoublePow2(k: nat)
    requires k > 0
    ensures Pow2(k) == 2 * Pow2(k - 1)
  {
  }

  lemma MaskStep(a: nat, p: nat)
    requires p > 0 && And(a / 2, p - 1) == a / 2 % p
    ensures And(a, 2 * p - 1) == a % (2 * p)
  {
    hide And;
    var h, r := p - 1, a / 2 % p;
    AndOdd(a, h);
    Halved(a, p);
    assert 2 * h + 1 == 2 * p - 1;
    assert And(a, 2 * p - 1) == 2 * r + a % 2;
  }

  lemma AndOdd(a: nat, h: nat)
    ensures And(a, 2 * h + 1) == 2 * And(a / 2, h) + a % 2
  {
    assert (2 * h + 1) / 2 == h && (2 * h + 1) % 2 == 1;
    if a == 0 {
      assert And(0, h) == 0;
    }
  }

  lemma {:induction false} AndZero(a: nat)
    ensures And(a, 0) == 0
  {
    if a > 0 {
      AndZero(a / 2);
    }
  }

  lemma {:induction false} AndSelf(a: nat)
    ensures And(a, a) == a
  {
    if a > 0 {
      AndSelf(a / 2);
    }
  }

  lemma ModUnique(x: int, q: int, r: nat, m: nat)
    requires x == q * m + r && r < m
    ensures x % m == r && x / m == q
  {
    var d := x / m - q;
    assert x == x / m * m + x % m;
    assert d * m == x / m * m - q * m;
    assert d * m == r - x % m;
    MultipleIsFar(d, m);
  }

  lemma MultipleIsFar(d: int, m: nat)
    ensures d >= 1 ==> d * m >= m
    ensures d <= -1 ==> d * m <= 0 - m
  {
  }

  lemma Halved(a: nat, p: nat)
    requires p > 0
    ensures a % (2 * p) == 2 * (a / 2 % p) + a % 2
  {
    var h := a / 2;
    assert a == h / p * (2 * p) + (2 * (h % p) + a % 2) by {
      assert h == h / p * p + h % p;
    }
    ModUnique(a, h / p, 2 * (h % p) + a % 2, 2 * p);
  }

  /** Reducing modulo a multiple first does not change the remainder. */
  lemma ModOfMod(x: int, m: nat, c: nat)
    requires m > 0 && c > 0
    ensures x % (m * c) % m == x % m
  {
    var q, r := x / (m * c), x % (m * c);
    assert m * c > 0;
    assert x == q * (m * c) + r;
    assert x == (q * c + r / m) * m + r % m by {
      assert r == r / m * m + r % m;
      assert q * (m * c) == q * c * m;
    }
    ModUnique(x, q * c + r / m, r % m, m);
  }

  /** For n > 0, `n & (n - 1)` is zero exactly for powers of two. */
  lemma {:induction false} PowerOfTwoTest(n: nat)
    requires n > 0
    ensures And(n, n - 1) == 0 <==> IsPow2(n)
  {
    if n == 1 {
      assert n == Pow2(0);
    } else if n % 2 == 1 {
      AndSelf(n / 2);
      assert (n - 1) / 2 == n / 2;
      forall k: nat
        ensures n != Pow2(k)
      {
      }
    } else {
      var h := n / 2;
      PowerOfTwoTest(h);
      assert (n - 1) / 2 == h - 1;
      if k: nat :| h == Pow2(k) {
        assert n == Pow2(k + 1);
      }
      if k: nat :| n == Pow2(k) {
        assert h == Pow2(k - 1);
      }
    }
  }
}
