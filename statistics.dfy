/** The hand-written arithmetic of simple_experiment.py: clipping, sums and
    means, Pearson correlation with its coarse significance rule, and mean
    absolute error. All arithmetic is over exact reals. */
module Statistics {

  /** `sqrt` is an exact square root on the non-negative reals, the role
      `math.sqrt` plays in the source. */
  ghost predicate IsSqrt(sqrt: real -> real) {
    && sqrt(0.0) == 0.0
    && forall a :: 0.0 <= a ==> 0.0 <= sqrt(a) && sqrt(a) * sqrt(a) == a
  }

  function Abs(v: real): real {
    if v < 0.0 then -v else v
  }

  function Min(a: real, b: real): real {
    if a <= b then a else b
  }

  function Max(a: real, b: real): real {
    if a >= b then a else b
  }

  /** `clip(value, min_val, max_val)` = `max(min_val, min(max_val, value))`. */
  function Clip(value: real, lo: real, hi: real): (r: real)
    ensures lo <= hi ==> lo <= r <= hi
    ensures lo <= value <= hi ==> r == value
    ensures lo <= hi && value < lo ==> r == lo
    ensures lo <= hi && hi < value ==> r == hi
  {
    Max(lo, Min(hi, value))
  }

  /** Clipping twice to the same range is clipping once. */
  lemma ClipIdempotent(value: real, lo: real, hi: real)
    requires lo <= hi
    ensures Clip(Clip(value, lo, hi), lo, hi) == Clip(value, lo, hi)
  {
  }

  /** Every element lies in [lo, hi]. */
  ghost predicate AllWithin(s: seq<real>, lo: real, hi: real) {
    forall i :: 0 <= i < |s| ==> lo <= s[i] <= hi
  }

  /** Python's `sum`. */
  function Sum(s: seq<real>): real
    decreases |s|
  {
    if s == [] then 0.0 else s[0] + Sum(s[1..])
  }

  /** Bounds on the elements bound the sum. */
  lemma {:induction false} SumWithin(s: seq<real>, lo: real, hi: real)
    requires AllWithin(s, lo, hi)
    ensures (|s| as real) * lo <= Sum(s) <= (|s| as real) * hi
    decreases |s|
  {
    if s != [] {
      SumWithin(s[1..], lo, hi);
      assert (|s| as real) * lo == lo + (|s[1..]| as real) * lo;
      assert (|s| as real) * hi == hi + (|s[1..]| as real) * hi;
    }
  }

  /** `sum(s) / len(s)`. */
  function Mean(s: seq<real>): real
    requires |s| > 0
  {
    Sum(s) / (|s| as real)
  }

  /** A mean of values in [lo, hi] lies in [lo, hi]. */
  lemma MeanWithin(s: seq<real>, lo: real, hi: real)
    requires |s| > 0 && AllWithin(s, lo, hi)
    ensures lo <= Mean(s) <= hi
  {
    var n := |s| as real;
    SumWithin(s, lo, hi);
    QuotientWithin(Sum(s), n, lo, hi);
  }

  /** Dividing by a positive count preserves bounds. */
  lemma QuotientWithin(total: real, n: real, lo: real, hi: real)
    requires n > 0.0 && n * lo <= total <= n * hi
    ensures lo <= total / n <= hi
  {
    var q := total / n;
    assert q * n == total;
  }

  /** A mean exceeds a threshold exactly when the sum exceeds threshold times count. */
  lemma MeanAboveIff(s: seq<real>, threshold: real)
    requires |s| > 0
    ensures Mean(s) > threshold <==> Sum(s) > threshold * (|s| as real)
    ensures Mean(s) < threshold <==> Sum(s) < threshold * (|s| as real)
  {
    QuotientAboveIff(Sum(s), |s| as real, threshold);
  }

  /** Comparing a quotient by a positive count with a threshold. */
  lemma QuotientAboveIff(total: real, n: real, threshold: real)
    requires n > 0.0
    ensures total / n > threshold <==> total > threshold * n
    ensures total / n < threshold <==> total < threshold * n
  {
    var q := total / n;
    assert q * n == total;
    if q > threshold {
      assert q * n > threshold * n;
    } else {
      assert q * n <= threshold * n;
    }
    if q < threshold {
      assert q * n < threshold * n;
    } else {
      assert q * n >= threshold * n;
    }
  }

  // ---------------------------------------------------------------------------
  // Pearson correlation

  /** The element-wise deviations of `s` from `m`. */
  function Centered(s: seq<real>, m: real): (c: seq<real>)
    ensures |c| == |s|
    ensures forall i :: 0 <= i < |s| ==> c[i] == s[i] - m
  {
    seq(|s|, i requires 0 <= i < |s| => s[i] - m)
  }

  /** The sum of products of paired elements. */
  function Dot(a: seq<real>, b: seq<real>): real
    requires |a| == |b|
    decreases |a|
  {
    if a == [] then 0.0 else a[0] * b[0] + Dot(a[1..], b[1..])
  }

  /** The first `n` deviations of `s` from `sum(s) / n`, as the source forms
      `x[i] - mean_x` for `i in range(n)` (with `n = len(x)`). */
  function Deviations(s: seq<real>, n: nat): (d: seq<real>)
    requires 0 < n <= |s|
    ensures |d| == n
  {
    Centered(s[..n], Sum(s) / (n as real))
  }

  /** `sum_sq_x` (or `sum_sq_y`). */
  function SumSquares(s: seq<real>, n: nat): real
    requires 0 < n <= |s|
  {
    Dot(Deviations(s, n), Deviations(s, n))
  }

  /** The inputs for which the source returns (0, 1) without dividing: no
      data, or no spread in `x` or in the first `len(x)` entries of `y`
      (which is when `sqrt(sum_sq_x * sum_sq_y)` is zero). */
  ghost predicate Degenerate(x: seq<real>, y: seq<real>)
    requires |x| <= |y|
  {
    |x| == 0 || SumSquares(x, |x|) == 0.0 || SumSquares(y, |x|) == 0.0
  }

  /** `1e-10`, the source's guard against a zero divisor. */
  const Epsilon: real := 0.0000000001

  /** `t_stat = r * sqrt((n - 2) / (1 - r**2 + 1e-10))`, then 0.05 when |t| > 2 else 0.1. */
  function ApproxPValue(corr: real, n: nat, sqrt: real -> real): (p: real)
    requires -1.0 <= corr <= 1.0
    ensures p == 0.05 || p == 0.1
  {
    SquareAtMostOne(corr);
    var tStat := corr * sqrt(((n as real) - 2.0) / (1.0 - corr * corr + Epsilon));
    if Abs(tStat) > 2.0 then 0.05 else 0.1
  }

  /** Sums that can come from two sequences: both sums of squares are
      non-negative and the cross sum is bounded by them (Cauchy–Schwarz). */
  ghost predicate ConsistentSums(num: real, sumSqX: real, sumSqY: real) {
    sumSqX >= 0.0 && sumSqY >= 0.0 && num * num <= sumSqX * sumSqY
  }

  /** The part of `pearson_correlation` after the three sums are formed:
      `num / sqrt(sum_sq_x * sum_sq_y)` and its p-value, or (0, 1) when the
      root is zero. */
  function CorrelationFromSums(num: real, sumSqX: real, sumSqY: real, n: nat, sqrt: real -> real): (r: (real, real))
    requires IsSqrt(sqrt)
    requires ConsistentSums(num, sumSqX, sumSqY)
    ensures -1.0 <= r.0 <= 1.0
    ensures r.1 == 1.0 || r.1 == 0.05 || r.1 == 0.1
  {
    var denom := sqrt(sumSqX * sumSqY);
    if denom == 0.0 then (0.0, 1.0)
    else
      CorrelationBounded(num, sumSqX * sumSqY, denom);
      var corr := num / denom;
      (corr, ApproxPValue(corr, n, sqrt))
  }

  /** `(numerator, sum_sq_x, sum_sq_y)` of `pearson_correlation`; the
      numerator's square never exceeds the product of the other two. */
  function PearsonSums(x: seq<real>, y: seq<real>): (r: (real, real, real))
    requires 0 < |x| <= |y|
    ensures r.1 == SumSquares(x, |x|) && r.2 == SumSquares(y, |x|)
    ensures ConsistentSums(r.0, r.1, r.2)
  {
    var dx, dy := Deviations(x, |x|), Deviations(y, |x|);
    CauchySchwarz(dx, dy);
    (Dot(dx, dy), Dot(dx, dx), Dot(dy, dy))
  }

  /** `pearson_correlation(x, y)`: (correlation, approximate p-value). The source
      reads `y[i]` for every `i < len(x)`, so `y` is at least as long as `x`. */
  function PearsonCorrelation(x: seq<real>, y: seq<real>, sqrt: real -> real): (r: (real, real))
    requires |x| <= |y|
    requires IsSqrt(sqrt)
    ensures -1.0 <= r.0 <= 1.0
    ensures r.1 == 1.0 || r.1 == 0.05 || r.1 == 0.1
  {
    if |x| == 0 then (0.0, 1.0)
    else
      var sums := PearsonSums(x, y);
      CorrelationFromSums(sums.0, sums.1, sums.2, |x|, sqrt)
  }

  lemma {:induction false} DotSelfNonNegative(a: seq<real>)
    ensures Dot(a, a) >= 0.0
    decreases |a|
  {
    if a != [] {
      DotSelfNonNegative(a[1..]);
      assert a[0] * a[0] >= 0.0;
    }
  }

  /** `k * a`, element-wise. */
  function Scale(k: real, a: seq<real>): (c: seq<real>)
    ensures |c| == |a|
    decreases |a|
  {
    if a == [] then [] else [k * a[0]] + Scale(k, a[1..])
  }

  /** `a + b`, element-wise. */
  function Add(a: seq<real>, b: seq<real>): (c: seq<real>)
    requires |a| == |b|
    ensures |c| == |a|
    decreases |a|
  {
    if a == [] then [] else [a[0] + b[0]] + Add(a[1..], b[1..])
  }

  lemma {:induction false} DotSymmetric(a: seq<real>, b: seq<real>)
    requires |a| == |b|
    ensures Dot(a, b) == Dot(b, a)
    decreases |a|
  {
    if a != [] {
      DotSymmetric(a[1..], b[1..]);
    }
  }

  lemma {:induction false} DotScaleLeft(k: real, a: seq<real>, b: seq<real>)
    requires |a| == |b|
    ensures Dot(Scale(k, a), b) == k * Dot(a, b)
    decreases |a|
  {
    if a != [] {
      var s := Scale(k, a);
      assert s[0] == k * a[0] && s[1..] == Scale(k, a[1..]);
      DotScaleLeft(k, a[1..], b[1..]);
      Distribute(k, a[0] * b[0], Dot(a[1..], b[1..]));
    }
  }

  lemma Distribute(k: real, x: real, y: real)
    ensures k * x + k * y == k * (x + y)
  {
  }

  lemma {:induction false} DotAddLeft(a: seq<real>, b: seq<real>, c: seq<real>)
    requires |a| == |b| == |c|
    ensures Dot(Add(a, b), c) == Dot(a, c) + Dot(b, c)
    decreases |a|
  {
    if a != [] {
      var s := Add(a, b);
      assert s[0] == a[0] + b[0] && s[1..] == Add(a[1..], b[1..]);
      DotAddLeft(a[1..], b[1..], c[1..]);
    }
  }

  /** The combination `t * a + b`, element-wise. */
  function Combine(t: real, a: seq<real>, b: seq<real>): (c: seq<real>)
    requires |a| == |b|
    ensures |c| == |a|
  {
    Add(Scale(t, a), b)
  }

  /** The square of a sum: `Dot(s + b, s + b) = Dot(s, s) + 2 Dot(s, b) + Dot(b, b)`. */
  lemma DotAddSquare(s: seq<real>, b: seq<real>)
    requires |s| == |b|
    ensures Dot(Add(s, b), Add(s, b)) == Dot(s, s) + 2.0 * Dot(s, b) + Dot(b, b)
  {
    var c := Add(s, b);
    DotAddLeft(s, b, c);
    DotSymmetric(s, c);
    DotSymmetric(b, c);
    DotAddLeft(s, b, s);
    DotAddLeft(s, b, b);
    DotSymmetric(b, s);
  }

  /** Scaling both sides scales the product by the square. */
  lemma DotScaleBoth(t: real, a: seq<real>)
    ensures Dot(Scale(t, a), Scale(t, a)) == t * t * Dot(a, a)
  {
    var s := Scale(t, a);
    DotScaleLeft(t, a, s);
    DotSymmetric(a, s);
    DotScaleLeft(t, a, a);
    MulAssoc(t, Dot(a, a));
  }

  lemma MulAssoc(t: real, x: real)
    ensures t * (t * x) == t * t * x
  {
  }

  /** Expanding the square of a combination. */
  lemma DotCombine(t: real, a: seq<real>, b: seq<real>)
    requires |a| == |b|
    ensures Dot(Combine(t, a, b), Combine(t, a, b))
         == t * t * Dot(a, a) + 2.0 * t * Dot(a, b) + Dot(b, b)
  {
    DotAddSquare(Scale(t, a), b);
    DotScaleBoth(t, a);
    DotScaleLeft(t, a, b);
  }

  /** The Cauchy–Schwarz inequality, by the discriminant of the non-negative
      quadratic `t |-> Dot(t*a + b, t*a + b)`. */
  lemma CauchySchwarz(a: seq<real>, b: seq<real>)
    requires |a| == |b|
    ensures ConsistentSums(Dot(a, b), Dot(a, a), Dot(b, b))
  {
    var A, B, C := Dot(a, a), Dot(a, b), Dot(b, b);
    DotSelfNonNegative(a);
    DotSelfNonNegative(b);
    var t := if A == 0.0 then (if B == 0.0 then 0.0 else -(C + 1.0) / (2.0 * B)) else -B / A;
    QuadraticNonNegative(t, a, b);
    DiscriminantRule(A, B, C, t);
  }

  /** The quadratic `t |-> t*t*A + 2*t*B + C` is non-negative at `t`. */
  ghost predicate NonNegativeAt(t: real, A: real, B: real, C: real) {
    t * t * A + 2.0 * t * B + C >= 0.0
  }

  /** The quadratic `t |-> Dot(t*a + b, t*a + b)` is non-negative. */
  lemma QuadraticNonNegative(t: real, a: seq<real>, b: seq<real>)
    requires |a| == |b|
    ensures NonNegativeAt(t, Dot(a, a), Dot(a, b), Dot(b, b))
  {
    DotCombine(t, a, b);
    DotSelfNonNegative(Combine(t, a, b));
  }

  /** A quadratic with non-negative outer coefficients that is non-negative
      at the point chosen in `CauchySchwarz` has a non-positive discriminant. */
  lemma DiscriminantRule(A: real, B: real, C: real, t: real)
    requires A >= 0.0 && C >= 0.0
    requires t == if A == 0.0 then (if B == 0.0 then 0.0 else -(C + 1.0) / (2.0 * B)) else -B / A
    requires NonNegativeAt(t, A, B, C)
    ensures ConsistentSums(B, A, C)
  {
    if A == 0.0 {
      if B != 0.0 {
        LinearQuadraticNegative(t, B, C);
        assert false;
      }
    } else {
      DiscriminantStep(A, B, C);
    }
  }

  /** With no quadratic term, the quadratic is negative at the chosen point. */
  lemma LinearQuadraticNegative(t: real, B: real, C: real)
    requires B != 0.0 && t == -(C + 1.0) / (2.0 * B)
    ensures t * t * 0.0 + 2.0 * t * B + C < 0.0
  {
    assert 2.0 * t * B == -(C + 1.0);
  }

  /** If the quadratic is non-negative at its vertex, the discriminant is not positive. */
  lemma DiscriminantStep(A: real, B: real, C: real)
    requires A > 0.0
    requires 0.0 <= (-B / A) * (-B / A) * A + 2.0 * (-B / A) * B + C
    ensures B * B <= A * C
  {
    var t := -B / A;
    assert t * A == -B;
    assert t * t * A == -t * B;
    assert 0.0 <= C + t * B;
    assert t * B * A == -B * B;
    MulNonNegative(C + t * B, A);
    assert 0.0 <= C * A + t * B * A;
  }

  lemma MulNonNegative(x: real, y: real)
    requires x >= 0.0 && y >= 0.0
    ensures x * y >= 0.0
  {
  }

  /** A correlation `num / sqrt(sum_sq_x * sum_sq_y)` lies in [-1, 1]. */
  lemma CorrelationBounded(num: real, product: real, denom: real)
    requires num * num <= product
    requires denom > 0.0 || denom < 0.0
    requires 0.0 <= denom && denom * denom == product
    ensures -1.0 <= num / denom <= 1.0
  {
    AbsBoundFromSquares(num, denom);
    RatioBound(num, denom);
  }

  lemma AbsBoundFromSquares(b: real, d: real)
    requires d > 0.0 && b * b <= d * d
    ensures -d <= b <= d
  {
    if b > d {
      SquareGrows(b, d);
    }
    if b < -d {
      SquareGrows(-b, d);
      NegSquare(b);
    }
  }

  lemma MulStrict(x: real, y: real, z: real)
    requires x > y && z > 0.0
    ensures x * z > y * z
  {
  }

  lemma SquareGrows(c: real, d: real)
    requires c > d > 0.0
    ensures c * c > d * d
  {
    MulStrict(c, d, c);
    MulStrict(c, d, d);
  }

  lemma NegSquare(b: real)
    ensures (-b) * (-b) == b * b
  {
  }

  lemma RatioBound(b: real, d: real)
    requires d > 0.0 && -d <= b <= d
    ensures -1.0 <= b / d <= 1.0
  {
    var r := b / d;
    assert r * d == b;
  }

  lemma SquareAtMostOne(r: real)
    requires -1.0 <= r <= 1.0
    ensures r * r <= 1.0
  {
    if r >= 0.0 {
      assert r * r <= r * 1.0;
    } else {
      assert r * r <= (-r) * 1.0;
    }
  }

  /** A non-zero product of non-negatives has a positive root. */
  lemma SqrtOfNonZero(sqrt: real -> real, p: real)
    requires IsSqrt(sqrt) && p >= 0.0 && p != 0.0
    ensures sqrt(p) > 0.0
  {
    var s := sqrt(p);
    assert s * s == p;
  }

  /** On the sums, the result is (0, 1) exactly when their product is zero. */
  lemma FromSumsDegenerateIff(num: real, sumSqX: real, sumSqY: real, n: nat, sqrt: real -> real)
    requires IsSqrt(sqrt)
    requires ConsistentSums(num, sumSqX, sumSqY)
    ensures CorrelationFromSums(num, sumSqX, sumSqY, n, sqrt) == (0.0, 1.0) <==> sumSqX == 0.0 || sumSqY == 0.0
  {
    MulNonNegative(sumSqX, sumSqY);
    ProductZeroIff(sumSqX, sumSqY);
    if sumSqX * sumSqY != 0.0 {
      SqrtOfNonZero(sqrt, sumSqX * sumSqY);
    }
  }

  lemma ProductZeroIff(u: real, v: real)
    ensures u * v == 0.0 <==> u == 0.0 || v == 0.0
  {
    if u != 0.0 && v != 0.0 {
      var w := u * v;
      assert w / v == u;
    }
  }

  /** The source returns exactly (0, 1) on empty or zero-variance input, and
      only there: testing `sqrt(sum_sq_x * sum_sq_y) == 0` is testing the
      product itself. */
  lemma PearsonDegenerateIff(x: seq<real>, y: seq<real>, sqrt: real -> real)
    requires |x| <= |y| && IsSqrt(sqrt)
    ensures PearsonCorrelation(x, y, sqrt) == (0.0, 1.0) <==> Degenerate(x, y)
  {
    if |x| > 0 {
      var sums := PearsonSums(x, y);
      FromSumsDegenerateIff(sums.0, sums.1, sums.2, |x|, sqrt);
    }
  }

  /** The sum of a constant sequence. */
  lemma {:induction false} SumConstant(s: seq<real>, c: real)
    requires forall i :: 0 <= i < |s| ==> s[i] == c
    ensures Sum(s) == (|s| as real) * c
    decreases |s|
  {
    if s != [] {
      SumConstant(s[1..], c);
    }
  }

  lemma {:induction false} DotZero(a: seq<real>)
    requires forall i :: 0 <= i < |a| ==> a[i] == 0.0
    ensures Dot(a, a) == 0.0
    decreases |a|
  {
    if a != [] {
      DotZero(a[1..]);
    }
  }

  /** A constant sequence has no spread: `sum_sq` is zero. */
  lemma ConstantHasZeroSumSquares(s: seq<real>)
    requires |s| > 0
    requires forall i :: 0 <= i < |s| ==> s[i] == s[0]
    ensures SumSquares(s, |s|) == 0.0
  {
    var n := |s|;
    assert s[..n] == s;
    SumConstant(s, s[0]);
    assert Sum(s) / (n as real) == s[0];
    DotZero(Deviations(s, n));
  }

  /** If either sequence is constant, the source returns (0, 1). (For `y` this
      needs `len(y) == len(x)`: the source's `mean_y` divides the sum of ALL of
      `y` by `len(x)`.) */
  lemma PearsonConstantInput(x: seq<real>, y: seq<real>, sqrt: real -> real)
    requires 0 < |x| <= |y| && IsSqrt(sqrt)
    requires (forall i :: 0 <= i < |x| ==> x[i] == x[0])
          || (|y| == |x| && forall i :: 0 <= i < |y| ==> y[i] == y[0])
    ensures PearsonCorrelation(x, y, sqrt) == (0.0, 1.0)
  {
    if forall i :: 0 <= i < |x| ==> x[i] == x[0] {
      ConstantHasZeroSumSquares(x);
    } else {
      ConstantHasZeroSumSquares(y);
    }
    PearsonDegenerateIff(x, y, sqrt);
  }

  /** Where the t-statistic is computed, `n - 2` is non-negative (a single pair
      has zero spread and returns early) and the divisor `1 - r**2 + 1e-10` is
      positive, so the square root is taken of a non-negative number. */
  lemma TStatWellDefined(x: seq<real>, y: seq<real>, sqrt: real -> real)
    requires |x| <= |y| && IsSqrt(sqrt)
    requires !Degenerate(x, y)
    ensures |x| >= 2
    ensures var r := PearsonCorrelation(x, y, sqrt).0;
      1.0 - r * r + Epsilon > 0.0 && ((|x| as real) - 2.0) / (1.0 - r * r + Epsilon) >= 0.0
  {
    if |x| == 1 {
      ConstantHasZeroSumSquares(x);
    }
    DivisorPositive(PearsonCorrelation(x, y, sqrt).0, |x|);
  }

  lemma DivisorPositive(r: real, n: nat)
    requires -1.0 <= r <= 1.0 && n >= 2
    ensures 1.0 - r * r + Epsilon > 0.0 && ((n as real) - 2.0) / (1.0 - r * r + Epsilon) >= 0.0
  {
    SquareAtMostOne(r);
  }

  /** `|t| > 2` exactly when `t * t > 4`. */
  lemma AbsAboveTwoIff(t: real)
    ensures Abs(t) > 2.0 <==> t * t > 4.0
  {
    if Abs(t) > 2.0 {
      assert Abs(t) * Abs(t) > 2.0 * 2.0;
    } else {
      assert Abs(t) * Abs(t) <= 2.0 * Abs(t) <= 4.0;
    }
  }

  /** `|r * sqrt(m / d)| > 2` exactly when `r**2 * m > 4 * d`, for `d > 0`. */
  lemma TStatRule(r: real, m: real, d: real, root: real)
    requires d > 0.0 && m / d >= 0.0
    requires root >= 0.0 && root * root == m / d
    ensures Abs(r * root) > 2.0 <==> r * r * m > 4.0 * d
  {
    var t := r * root;
    AbsAboveTwoIff(t);
    assert t * t == r * r * (root * root);
    var rr := r * r;
    assert rr * (m / d) == (rr * m) / d;
    QuotientAboveIff(rr * m, d, 4.0);
    assert t * t == (rr * m) / d;
  }

  /** The p-value rule of `ApproxPValue`, without square roots. */
  lemma ApproxPValueRule(corr: real, n: nat, sqrt: real -> real)
    requires IsSqrt(sqrt) && -1.0 <= corr <= 1.0 && n >= 2
    ensures ApproxPValue(corr, n, sqrt) == 0.05
        <==> corr * corr * ((n as real) - 2.0) > 4.0 * (1.0 - corr * corr + Epsilon)
  {
    SquareAtMostOne(corr);
    var d := 1.0 - corr * corr + Epsilon;
    var m := (n as real) - 2.0;
    assert m / d >= 0.0;
    TStatRule(corr, m, d, sqrt(m / d));
  }

  /** The significance rule on the sums. */
  lemma FromSumsPValueRule(num: real, sumSqX: real, sumSqY: real, n: nat, sqrt: real -> real)
    requires IsSqrt(sqrt)
    requires ConsistentSums(num, sumSqX, sumSqY)
    requires sumSqX != 0.0 && sumSqY != 0.0 && n >= 2
    ensures var (r, p) := CorrelationFromSums(num, sumSqX, sumSqY, n, sqrt);
      p == 0.05 <==> r * r * ((n as real) - 2.0) > 4.0 * (1.0 - r * r + Epsilon)
  {
    MulNonNegative(sumSqX, sumSqY);
    ProductZeroIff(sumSqX, sumSqY);
    SqrtOfNonZero(sqrt, sumSqX * sumSqY);
    var denom := sqrt(sumSqX * sumSqY);
    CorrelationBounded(num, sumSqX * sumSqY, denom);
    var r := num / denom;
    assert CorrelationFromSums(num, sumSqX, sumSqY, n, sqrt) == (r, ApproxPValue(r, n, sqrt));
    ApproxPValueRule(r, n, sqrt);
  }

  /** The significance rule without square roots: on non-degenerate input the
      p-value is 0.05 exactly when `r**2 * (n - 2) > 4 * (1 - r**2 + 1e-10)`,
      and 0.1 otherwise. */
  lemma PearsonPValueRule(x: seq<real>, y: seq<real>, sqrt: real -> real)
    requires |x| <= |y| && IsSqrt(sqrt)
    requires !Degenerate(x, y)
    ensures var (r, p) := PearsonCorrelation(x, y, sqrt);
      (p == 0.05 || p == 0.1)
      && (p == 0.05 <==> r * r * ((|x| as real) - 2.0) > 4.0 * (1.0 - r * r + Epsilon))
  {
    PearsonDegenerateIff(x, y, sqrt);
    TStatWellDefined(x, y, sqrt);
    var sums := PearsonSums(x, y);
    FromSumsPValueRule(sums.0, sums.1, sums.2, |x|, sqrt);
  }

  // ---------------------------------------------------------------------------
  // Mean absolute error

  /** `sum(abs(t - p) for t, p in zip(true_vals, pred_vals))`: `zip` stops at
      the shorter sequence. */
  function SumAbsDiff(t: seq<real>, p: seq<real>): real
    decreases |t|
  {
    if t == [] || p == [] then 0.0 else Abs(t[0] - p[0]) + SumAbsDiff(t[1..], p[1..])
  }

  /** `mean_absolute_error(true_vals, pred_vals)`; it divides by `len(true_vals)`. */
  function MeanAbsoluteError(t: seq<real>, p: seq<real>): real
    requires |t| > 0
  {
    SumAbsDiff(t, p) / (|t| as real)
  }

  function MinLength(t: seq<real>, p: seq<real>): nat {
    if |t| <= |p| then |t| else |p|
  }

  lemma {:induction false} SumAbsDiffNonNegative(t: seq<real>, p: seq<real>)
    ensures SumAbsDiff(t, p) >= 0.0
    decreases |t|
  {
    if t != [] && p != [] {
      SumAbsDiffNonNegative(t[1..], p[1..]);
    }
  }

  /** The zipped sum of distances is zero exactly when the zipped pairs agree. */
  lemma {:induction false} SumAbsDiffZeroIff(t: seq<real>, p: seq<real>)
    ensures SumAbsDiff(t, p) == 0.0 <==> t[..MinLength(t, p)] == p[..MinLength(t, p)]
    decreases |t|
  {
    var m := MinLength(t, p);
    if t != [] && p != [] {
      SumAbsDiffZeroIff(t[1..], p[1..]);
      SumAbsDiffNonNegative(t[1..], p[1..]);
      var m' := MinLength(t[1..], p[1..]);
      assert m == m' + 1;
      assert t[..m] == [t[0]] + t[1..][..m'];
      assert p[..m] == [p[0]] + p[1..][..m'];
    }
  }

  /** Each zipped distance between scores in [1, 5] is at most 4. */
  lemma {:induction false} SumAbsDiffBound(t: seq<real>, p: seq<real>)
    requires AllWithin(t, 1.0, 5.0) && AllWithin(p, 1.0, 5.0)
    ensures SumAbsDiff(t, p) <= 4.0 * (MinLength(t, p) as real)
    decreases |t|
  {
    if t != [] && p != [] {
      AllWithinTail(t, 1.0, 5.0);
      AllWithinTail(p, 1.0, 5.0);
      SumAbsDiffBound(t[1..], p[1..]);
      assert MinLength(t, p) == MinLength(t[1..], p[1..]) + 1;
      DistanceWithin(t[0], p[0], 1.0, 5.0);
    }
  }

  lemma AllWithinTail(s: seq<real>, lo: real, hi: real)
    requires s != [] && AllWithin(s, lo, hi)
    ensures AllWithin(s[1..], lo, hi) && lo <= s[0] <= hi
  {
    forall i | 0 <= i < |s[1..]| ensures lo <= s[1..][i] <= hi {
      assert s[1..][i] == s[i + 1];
    }
  }

  lemma DistanceWithin(a: real, b: real, lo: real, hi: real)
    requires lo <= a <= hi && lo <= b <= hi
    ensures Abs(a - b) <= hi - lo
  {
  }

  /** The mean absolute error is non-negative, is zero exactly when the zipped
      pairs agree (for equal lengths: when the sequences are equal), and is at
      most 4 for scores in [1, 5]. */
  lemma MeanAbsoluteErrorProperties(t: seq<real>, p: seq<real>)
    requires |t| > 0
    ensures MeanAbsoluteError(t, p) >= 0.0
    ensures MeanAbsoluteError(t, p) == 0.0 <==> t[..MinLength(t, p)] == p[..MinLength(t, p)]
    ensures |t| == |p| ==> (MeanAbsoluteError(t, p) == 0.0 <==> t == p)
    ensures AllWithin(t, 1.0, 5.0) && AllWithin(p, 1.0, 5.0) ==> MeanAbsoluteError(t, p) <= 4.0
  {
    var n := |t| as real;
    SumAbsDiffNonNegative(t, p);
    SumAbsDiffZeroIff(t, p);
    QuotientWithin(SumAbsDiff(t, p), n, 0.0, SumAbsDiff(t, p) / n);
    assert SumAbsDiff(t, p) / n * n == SumAbsDiff(t, p);
    if |t| == |p| {
      assert t[..|t|] == t && p[..|p|] == p;
    }
    if AllWithin(t, 1.0, 5.0) && AllWithin(p, 1.0, 5.0) {
      SumAbsDiffBound(t, p);
      assert (MinLength(t, p) as real) * 4.0 <= n * 4.0;
      QuotientWithin(SumAbsDiff(t, p), n, 0.0, 4.0);
    }
  }
}
