/** Swift's `min` and `max` on times, and facts about `%` that the navigation and scrolling proofs rely on. */
module Arithmetic {

  function Min(a: real, b: real): real { if a <= b then a else b }
  function Max(a: real, b: real): real { if a >= b then a else b }

  /** `k * n >= n` for positive `k` and `n`. */
  lemma {:induction false} MulAtLeast(k: int, n: int)
    requires k >= 1 && n > 0
    ensures k * n >= n
  {
    if k > 1 {
      MulAtLeast(k - 1, n);
      assert k * n == (k - 1) * n + n;
    }
  }

  /** The remainder is the one value of `a - q * n` in [0, n). */
  lemma ModUnique(a: int, n: int, q: int)
    requires n > 0 && 0 <= a - q * n < n
    ensures a % n == a - q * n
  {
    var d := a / n;
    assert a == d * n + a % n;
    if d > q {
      MulAtLeast(d - q, n);
    } else if d < q {
      MulAtLeast(q - d, n);
    }
  }

  /** Adding one and then reducing gives the remainder of the successor. */
  lemma ModSucc(k: int, n: int)
    requires n > 0
    ensures (k % n + 1) % n == (k + 1) % n
  {
    var q := k / n;
    assert k == q * n + k % n;
    if k % n + 1 < n {
      ModUnique(k % n + 1, n, 0);
      ModUnique(k + 1, n, q);
    } else {
      ModUnique(k % n + 1, n, 1);
      assert k + 1 == (q + 1) * n;
      ModUnique(k + 1, n, q + 1);
    }
  }
}
