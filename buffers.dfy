/**
 * Index arithmetic for flat float buffers: which vertex, segment or quad a
 * position in a buffer of fixed-size records belongs to.
 */
module Buffers {
  /** A positive multiple of w is at least w. */
  lemma {:induction false} MulAtLeast(w: int, d: int)
    requires 0 < w && 0 < d
    ensures w * d >= w
  {
    if d > 1 {
      MulAtLeast(w, d - 1);
      assert w * d == w * (d - 1) + w;
    }
  }

  /** Euclidean division recovers the quotient and remainder it was built from. */
  lemma DivMod(k: int, w: int, q: int, t: int)
    requires 0 < w && 0 <= t < w && k == w * q + t
    ensures k / w == q && k % w == t
  {
    var q', t' := k / w, k % w;
    assert w * q' + t' == w * q + t;
    if q' > q {
      MulAtLeast(w, q' - q);
      assert false;
    } else if q' < q {
      MulAtLeast(w, q - q');
      assert false;
    }
  }

  /** A quotient by w of an index below w * (n + 1) is at most n. */
  lemma DivBound(k: int, w: int, n: int)
    requires 0 < w && 0 <= k < w * (n + 1)
    ensures 0 <= k / w <= n
  {
    var q := k / w;
    assert k == w * q + k % w;
    if q > n {
      MulAtLeast(w, q - n);
      assert false;
    }
  }
}
