/**
 * The few JavaScript number semantics the carousel relies on: the truncating
 * remainder operator `%` and the NaN that `x % 0` produces. Dafny's own `%`
 * is Euclidean (never negative), so JavaScript's is written out here and
 * related to it.
 */
module JsNumbers {
  /** A JavaScript number as the carousel index can hold it: an integer, or NaN. */
  datatype JsNum = Int(v: int) | NaN

  /** `multiple * n` is at least `n` away from zero unless `multiple` is zero. */
  lemma MulBounds(multiple: int, n: int)
    requires n > 0
    ensures multiple >= 1 ==> multiple * n >= n
    ensures multiple <= -1 ==> multiple * n <= -n
  {
  }

  /** Euclidean division is unique: any decomposition `a == q * n + m` with `0 <= m < n` gives `a % n`. */
  lemma EuclidUnique(a: int, n: int, q: int, m: int)
    requires n > 0 && 0 <= m < n && a == q * n + m
    ensures a % n == m
  {
    var k := q - a / n;
    assert a == (a / n) * n + a % n;
    assert a % n - m == k * n;
    MulBounds(k, n);
  }

  /**
   * JavaScript's `a % n` for a positive divisor: the remainder of the division
   * truncated toward zero, so it carries the sign of the dividend.
   */
  function TruncRem(a: int, n: int): (r: int)
    requires n > 0
    ensures 0 <= a ==> 0 <= r < n && r == a % n
    ensures a < 0 ==> -n < r <= 0 && r == (if a % n == 0 then 0 else a % n - n)
  {
    if a >= 0 then a % n
    else
      var m := (-a) % n;
      EuclidUnique(a, n, if m == 0 then -((-a) / n) else -((-a) / n) - 1, if m == 0 then 0 else n - m);
      -m
  }

  /** JavaScript `x % n` for a non-negative integer divisor: NaN when either side is NaN or `n` is 0. */
  function Rem(x: JsNum, n: nat): (r: JsNum)
    ensures r.Int? <==> x.Int? && n > 0
    ensures r.Int? ==> -(n as int) < r.v < n
  {
    match x
    case NaN => NaN
    case Int(a) => if n == 0 then NaN else Int(TruncRem(a, n))
  }

  /** JavaScript `x + k` for an integer `k`: NaN stays NaN. */
  function Add(x: JsNum, k: int): (r: JsNum)
    ensures r.Int? <==> x.Int?
    ensures r.Int? ==> r.v == x.v + k
  {
    match x
    case NaN => NaN
    case Int(a) => Int(a + k)
  }

  /** `((x % total) + total) % total`, the carousel's way of folding any index into `[0, total)`. */
  function Wrap(x: JsNum, total: nat): JsNum
  {
    Rem(Add(Rem(x, total), total), total)
  }

  /**
   * For a positive `total` the double truncated remainder agrees with the
   * Euclidean `i mod total`, and so always lands in `[0, total)`; with no
   * slides at all (or from NaN) it is NaN.
   */
  lemma {:induction false} WrapIsEuclideanMod(x: JsNum, total: nat)
    ensures total > 0 && x.Int? ==> Wrap(x, total) == Int(x.v % total)
    ensures total > 0 && x.Int? ==> 0 <= Wrap(x, total).v < total
    ensures total == 0 || x.NaN? ==> Wrap(x, total) == NaN
  {
    if total > 0 && x.Int? {
      var i, t := x.v, total as int;
      var r1 := TruncRem(i, t);
      if i >= 0 { EuclidUnique(r1 + t, t, 1, r1); }
      else if i % t == 0 { EuclidUnique(t, t, 1, 0); }
      else { EuclidUnique(i % t, t, 0, i % t); }
    }
  }

  /** Folding twice is folding once. */
  lemma WrapIdempotent(x: JsNum, total: nat)
    ensures Wrap(Wrap(x, total), total) == Wrap(x, total)
  {
    WrapIsEuclideanMod(x, total);
    WrapIsEuclideanMod(Wrap(x, total), total);
    if total > 0 && x.Int? {
      EuclidUnique(x.v % total, total, 0, x.v % total);
    }
  }

  /** An index already in `[0, total)` is left where it is. */
  lemma WrapInRange(k: int, total: nat)
    requires 0 <= k < total
    ensures Wrap(Int(k), total) == Int(k)
  {
    WrapIsEuclideanMod(Int(k), total);
  }

  /** Stepping forward from the last slide wraps to the first. */
  lemma NextWrapsToFirst(total: nat)
    requires total > 0
    ensures Wrap(Add(Int(total - 1), 1), total) == Int(0)
  {
    WrapIsEuclideanMod(Int(total), total);
  }

  /** Stepping back from the first slide wraps to the last. */
  lemma PrevWrapsToLast(total: nat)
    requires total > 0
    ensures Wrap(Add(Int(0), -1), total) == Int(total - 1)
  {
    WrapIsEuclideanMod(Int(-1), total);
    EuclidUnique(-1, total, -1, total - 1);
  }

  /** From any slide, one step forward and one step back returns to it. */
  lemma PrevAfterNext(k: int, total: nat)
    requires 0 <= k < total
    ensures Wrap(Add(Wrap(Add(Int(k), 1), total), -1), total) == Int(k)
  {
    WrapIsEuclideanMod(Int(k + 1), total);
    var n := Wrap(Int(k + 1), total);
    WrapIsEuclideanMod(Int(n.v - 1), total);
    if k + 1 < total {
      EuclidUnique(k + 1, total, 0, k + 1);
      EuclidUnique(k, total, 0, k);
    } else {
      EuclidUnique(k + 1, total, 1, 0);
      EuclidUnique(-1, total, -1, total - 1);
    }
  }
}
