/** Integer facts about Euclidean division used by the frame-sampling
    proofs. */
module Arith {

  lemma MulAtLeast(a: int, k: int)
    requires a >= 1 && k > 0
    ensures a * k >= k
    decreases a
  {
    if a > 1 {
      MulAtLeast(a - 1, k);
      assert a * k == (a - 1) * k + k;
    }
  }

  /** A non-zero multiple of `k` is at least `k` away from zero. */
  lemma MulAwayFromZero(d: int, k: int)
    requires k > 0
    ensures d >= 1 ==> d * k >= k
    ensures d <= -1 ==> d * k <= -k
  {
    if d >= 1 {
      MulAtLeast(d, k);
    } else if d <= -1 {
      MulAtLeast(-d, k);
      assert d * k == -((-d) * k);
    }
  }

  /** Euclidean division is unique. */
  lemma DivModUnique(a: int, k: int, q: int, r: int)
    requires k > 0 && 0 <= r < k && a == q * k + r
    ensures a / k == q && a % k == r
  {
    var q', r' := a / k, a % k;
    assert a == q' * k + r';
    MulAwayFromZero(q' - q, k);
    assert (q' - q) * k == r - r';
  }

  /** `ceil((m + 1) / k)` exceeds `ceil(m / k)` by one exactly when `k`
      divides `m`. */
  lemma CeilStep(m: nat, k: int)
    requires k > 0
    ensures (m + k) / k == (m + k - 1) / k + (if m % k == 0 then 1 else 0)
  {
    var q, r := m / k, m % k;
    assert m == q * k + r;
    assert m + k == (q + 1) * k + r;
    DivModUnique(m + k, k, q + 1, r);
    if r == 0 {
      assert m + k - 1 == q * k + (k - 1);
      DivModUnique(m + k - 1, k, q, k - 1);
    } else {
      assert m + k - 1 == (q + 1) * k + (r - 1);
      DivModUnique(m + k - 1, k, q + 1, r - 1);
    }
  }

  /** For a multiple m of k, ceil(m / k) intervals of k end at m. */
  lemma CeilOfMultiple(m: nat, k: int)
    requires k > 0 && m % k == 0
    ensures (m + k - 1) / k * k == m
  {
    var q := m / k;
    assert m == q * k;
    DivModUnique(m + k - 1, k, q, k - 1);
  }

  /** A multiple of `k` leaves no remainder. */
  /** The index ceil(m / k) of a multiple m of k, times k, is m. */
  lemma IndexOfMultiple(m: nat, k: int, i: int)
    requires k > 0 && m % k == 0 && i == (m + k - 1) / k
    ensures i * k == m
  {
    CeilOfMultiple(m, k);
  }

  lemma MultipleMod(i: int, k: int)
    requires k > 0
    ensures (i * k) % k == 0 && (i * k) / k == i
  {
    DivModUnique(i * k, k, i, 0);
  }

  lemma MulStrictMono(i: int, j: int, k: int)
    requires i < j && k > 0
    ensures i * k < j * k
  {
    MulAtLeast(j - i, k);
    assert (j - i) * k == j * k - i * k;
  }
}
