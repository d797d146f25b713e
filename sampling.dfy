/**
 * The project draws every random choice as `Math.floor(Math.random() * n)`.
 * The sample `Math.random()` is passed in as a real `r` in [0, 1), so every
 * draw is a deterministic function of its sample.
 */
module Sampling {

  /** The index `Math.floor(r * n)` picked from a pool of `n` entries. */
  function PickIndex(r: real, n: nat): (k: nat)
    requires 0.0 <= r < 1.0 && n > 0
    ensures k < n
    ensures k as real <= r * n as real < k as real + 1.0
  {
    ScaledBelow(r, n);
    (r * n as real).Floor
  }

  lemma ScaledBelow(r: real, n: nat)
    requires 0.0 <= r < 1.0 && n > 0
    ensures 0.0 <= r * n as real < n as real
  {
  }

  /**
   * The draw is uniform: index `k` is picked exactly for the samples in
   * [k/n, (k+1)/n), an interval of width 1/n whatever `k` is.
   */
  lemma PickIndexInterval(r: real, n: nat, k: nat)
    requires 0.0 <= r < 1.0 && n > 0 && k < n
    ensures PickIndex(r, n) == k <==> k as real / n as real <= r < (k as real + 1.0) / n as real
  {
    var N := n as real;
    var K := k as real;
    ScaleLower(K, r, N);
    ScaleUpper(K + 1.0, r, N);
  }

  /** For a positive scale n, a/n <= b exactly when a <= b*n. */
  lemma ScaleLower(a: real, b: real, n: real)
    requires n > 0.0
    ensures a / n <= b <==> a <= b * n
  {
    assert (a / n) * n == a;
    if a / n <= b {
      assert (b - a / n) * n >= 0.0;
    } else {
      assert (a / n - b) * n > 0.0;
    }
  }

  /** For a positive scale n, b < a/n exactly when b*n < a. */
  lemma ScaleUpper(a: real, b: real, n: real)
    requires n > 0.0
    ensures b < a / n <==> b * n < a
  {
    ScaleLower(a, b, n);
  }

  /** Every index of the pool can be drawn: the sample k/n picks index k. */
  lemma EveryIndexReachable(n: nat, k: nat)
    requires n > 0 && k < n
    ensures 0.0 <= k as real / n as real < 1.0
    ensures PickIndex(k as real / n as real, n) == k
  {
    var N := n as real;
    var K := k as real;
    ScaleLower(K, 0.0, N);
    ScaleUpper(N, K / N, N);
    PickIndexInterval(K / N, n, k);
  }

  /** `pool[Math.floor(r * pool.length)]`: a uniform pick from a non-empty pool. */
  function Pick<T>(pool: seq<T>, r: real): (x: T)
    requires |pool| > 0 && 0.0 <= r < 1.0
    ensures x in pool
  {
    pool[PickIndex(r, |pool|)]
  }

  /** The sample k/n picks the k-th entry of a pool of n entries. */
  lemma PickReaches<T>(pool: seq<T>, k: nat)
    requires k < |pool|
    ensures 0.0 <= k as real / |pool| as real < 1.0
    ensures Pick(pool, k as real / |pool| as real) == pool[k]
  {
    EveryIndexReachable(|pool|, k);
  }
}
