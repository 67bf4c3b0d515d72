/**
 * Facts about counters that advance by one and wrap at a modulus, shared
 * by the audio ring pointers and the dispatcher's packet counters.
 */
module Modular {
  /** A multiple of `n` strictly between `-n` and `n` is zero. */
  lemma {:induction false} SmallMultiple(k: int, n: int)
    requires n > 0 && -n < k * n < n
    ensures k == 0
  {
    if k >= 1 {
      MultipleAtLeast(k, n);
    } else if k <= -1 {
      MultipleAtLeast(-k, n);
    }
  }

  lemma {:induction false} MultipleAtLeast(k: int, n: int)
    requires k >= 1 && n > 0
    ensures k * n >= n
    decreases k
  {
    if k > 1 {
      MultipleAtLeast(k - 1, n);
      assert k * n == (k - 1) * n + n;
    }
  }

  /** Quotient and remainder are the only ones with `x == q * n + m` and `0 <= m < n`. */
  lemma DivModUnique(x: int, n: int, q: int, m: int)
    requires n > 0 && 0 <= m < n && x == q * n + m
    ensures x / n == q && x % n == m
  {
    var q', m' := x / n, x % n;
    assert x == q' * n + m';
    assert (q - q') * n == m' - m;
    SmallMultiple(q - q', n);
  }

  /** One step past `x` either moves the remainder up by one or wraps it to zero and bumps the quotient. */
  lemma StepMod(x: int, n: int)
    requires x >= 0 && n > 0
    ensures x % n + 1 < n ==> (x + 1) % n == x % n + 1 && (x + 1) / n == x / n
    ensures x % n + 1 == n ==> (x + 1) % n == 0 && (x + 1) / n == x / n + 1
  {
    var q, m := x / n, x % n;
    assert x == q * n + m;
    if m + 1 < n {
      DivModUnique(x + 1, n, q, m + 1);
    } else {
      assert x + 1 == (q + 1) * n + 0;
      DivModUnique(x + 1, n, q + 1, 0);
    }
  }

  /** Two counts less than one modulus apart land on different positions. */
  lemma DistinctMod(a: int, b: int, n: int)
    requires 0 <= a < b < a + n
    ensures a % n != b % n
  {
    var qa, qb := a / n, b / n;
    assert a == qa * n + a % n;
    assert b == qb * n + b % n;
    if a % n == b % n {
      assert b - a == (qb - qa) * n;
      SmallMultiple(qb - qa, n);
    }
  }

  /** Adding one modulus does not move a position. */
  lemma ShiftMod(x: int, n: int)
    requires 0 <= x < n
    ensures x % n == x && (x + n) % n == x
  {
    DivModUnique(x, n, 0, x);
    DivModUnique(x + n, n, 1, x);
  }
}
