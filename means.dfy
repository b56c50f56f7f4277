/**
 * Arithmetic means as the pages compute them with `reduce` and a division:
 * exact over `real`, with the 0/0 of an empty list (NaN in JavaScript) kept
 * apart as `None`.
 */
module Means {
  import opened Wrappers

  /** `xs.reduce((sum, x) => sum + x, 0)`, accumulated left to right. */
  function SumReals(xs: seq<real>): real {
    if |xs| == 0 then 0.0 else SumReals(xs[..|xs| - 1]) + xs[|xs| - 1]
  }

  /** `sum / xs.length`; `None` for an empty list. */
  function Mean(xs: seq<real>): (m: Option<real>)
    ensures m.None? <==> |xs| == 0
  {
    if |xs| == 0 then None else Some(SumReals(xs) / |xs| as real)
  }

  lemma {:induction false} SumRealsBounds(xs: seq<real>, lo: real, hi: real)
    requires forall k :: 0 <= k < |xs| ==> lo <= xs[k] <= hi
    ensures lo * |xs| as real <= SumReals(xs) <= hi * |xs| as real
  {
    if |xs| > 0 {
      var n := |xs| - 1;
      SumRealsBounds(xs[..n], lo, hi);
      assert lo * |xs| as real == lo * n as real + lo;
      assert hi * |xs| as real == hi * n as real + hi;
    }
  }

  /** The mean of values in [lo, hi] lies in [lo, hi]. */
  lemma MeanWithin(xs: seq<real>, lo: real, hi: real)
    requires |xs| >= 1
    requires forall k :: 0 <= k < |xs| ==> lo <= xs[k] <= hi
    ensures Mean(xs).Some? && lo <= Mean(xs).value <= hi
  {
    SumRealsBounds(xs, lo, hi);
    var total, n := SumReals(xs), |xs| as real;
    MeanBounds(total, n, lo, hi);
  }

  /** A total between `lo * n` and `hi * n`, divided by `n`, lies between `lo` and `hi`. */
  lemma MeanBounds(total: real, n: real, lo: real, hi: real)
    requires n > 0.0 && lo * n <= total <= hi * n
    ensures lo <= total / n <= hi
  {
    var q := total / n;
    assert q * n == total;
    if q < lo {
      ScaleStrict(q, lo, n);
      assert false;
    }
    if q > hi {
      ScaleStrict(hi, q, n);
      assert false;
    }
  }

  /** A positive part of a whole is a fraction in (0, 1], and 1 only for the whole itself. */
  lemma FractionOfWhole(part: real, whole: real)
    requires 0.0 < part <= whole
    ensures 0.0 < part / whole <= 1.0
    ensures part / whole == 1.0 <==> part == whole
  {
    var q := part / whole;
    assert q * whole == part;
    MeanBounds(part, whole, 0.0, 1.0);
    if q == 0.0 {
      assert false;
    }
    if part == whole {
      MeanBounds(part, whole, 1.0, 1.0);
    }
  }

  lemma ScaleStrict(x: real, y: real, m: real)
    requires m > 0.0 && x < y
    ensures x * m < y * m
  {
  }

  lemma CastProduct(x: nat, n: nat)
    ensures (x * n) as real == x as real * n as real
  {
  }
}
