/**
 Reference definitions of the batch statistics the scaler estimates, and the
 algebra that lets two batches' summaries be merged without revisiting data.

 Every `f64` of the scaler is modelled as an exact `real`. `Mean` and `Var`
 stand for the array reductions `mean_axis` and `std_axis` (squared) that the
 scaler applies to a one-dimensional batch.

 The proofs keep nonlinear arithmetic away from the recursive definitions:
 each algebraic step is a lemma over plain reals, and the lemmas about
 sequences pass it scalars that their preconditions tie to the sums.
 */
module Statistics {

  /** `x.powi(2)` */
  function Sq(x: real): real {
    x * x
  }

  /** Sum of the samples, accumulated from the front. */
  function Sum(s: seq<real>): real
    decreases |s|
  {
    if |s| == 0 then 0.0 else Sum(s[..|s| - 1]) + s[|s| - 1]
  }

  /** Sum of the squares of the samples. */
  function SumSq(s: seq<real>): real
    decreases |s|
  {
    if |s| == 0 then 0.0 else SumSq(s[..|s| - 1]) + Sq(s[|s| - 1])
  }

  /** Sum of squared deviations of the samples from a centre `c`. */
  function SS(s: seq<real>, c: real): real
    decreases |s|
  {
    if |s| == 0 then 0.0 else SS(s[..|s| - 1], c) + Sq(s[|s| - 1] - c)
  }

  /** Arithmetic mean of a non-empty batch. */
  function Mean(s: seq<real>): real
    requires |s| > 0
  {
    Sum(s) / |s| as real
  }

  /** A batch whose ddof-adjusted variance is defined: non-empty, and with
      more samples than the delta degrees of freedom. */
  predicate HasVariance(s: seq<real>, ddof: real) {
    |s| > 0 && ddof < |s| as real
  }

  /** Variance with delta degrees of freedom `ddof`: the squared deviations
      from the mean, divided by `|s| - ddof`. With `ddof = 0` this is the
      population variance, with `ddof = 1` the sample variance. */
  function Var(s: seq<real>, ddof: real): real
    requires HasVariance(s, ddof)
  {
    SS(s, Mean(s)) / (|s| as real - ddof)
  }

  /** `sqrt` is a square root on the non-negative reals (the platform's
      `f64::sqrt`; what it returns for a negative argument is left open). */
  ghost predicate IsSqrt(sqrt: real -> real) {
    forall x :: 0.0 <= x ==> 0.0 <= sqrt(x) && sqrt(x) * sqrt(x) == x
  }

  /** What a square root promises at one point. */
  lemma SqrtSquared(sqrt: real -> real, x: real)
    requires IsSqrt(sqrt) && x >= 0.0
    ensures sqrt(x) >= 0.0 && Sq(sqrt(x)) == x
  {
  }

  /** `ss` is the pooled sum of squared deviations of two parts with sizes
      `n1`, `n2`, means `m1`, `m2` and squared deviations `ss1`, `ss2`. */
  predicate Pooled(ss: real, n1: real, m1: real, ss1: real, n2: real, m2: real, ss2: real)
    requires n1 + n2 != 0.0
  {
    ss == ss1 + ss2 + Sq(m2 - m1) * n1 * n2 / (n1 + n2)
  }

  // ---------------------------------------------------------------------
  // Plain arithmetic facts used by the lemmas below.

  lemma SqNonNegative(x: real)
    ensures Sq(x) >= 0.0
  {
  }

  lemma Cancel(a: real, b: real, c: real)
    requires a != 0.0 && a * b == a * c
    ensures b == c
  {
  }

  lemma DivNonNegative(a: real, b: real)
    requires a >= 0.0 && b > 0.0
    ensures a / b >= 0.0
  {
  }

  /** A quotient times its divisor is the dividend. */
  lemma DivMul(v: real, s: real, q: real)
    requires q != 0.0 && v == s / q
    ensures v * q == s
  {
  }

  /** The sum of a part is its count times its mean. */
  lemma SqOverCount(s: real, n: real, m: real)
    requires n > 0.0 && m == s / n
    ensures s == n * m && Sq(s) / n == n * Sq(m)
  {
    assert Sq(s) == n * (n * Sq(m));
  }

  lemma DivSplit(x: real, y: real, z: real, n: real)
    requires n != 0.0 && x * n - y == z
    ensures x - y / n == z / n
  {
  }

  lemma AtMeanArith(n: real, sum: real, m: real)
    requires n > 0.0 && m == sum / n
    ensures -(2.0 * m * sum) + n * Sq(m) == -(Sq(sum) / n)
  {
    SqOverCount(sum, n, m);
  }

  lemma MeanArith(s1: real, s2: real, n1: real, n2: real)
    requires n1 > 0.0 && n2 > 0.0
    ensures (s1 + s2) / (n1 + n2) == s1 / n1 + (s2 / n2 - s1 / n1) * n2 / (n1 + n2)
  {
    var m1, m2 := s1 / n1, s2 / n2;
    SqOverCount(s1, n1, m1);
    SqOverCount(s2, n2, m2);
    assert m1 * (n1 + n2) + (m2 - m1) * n2 == s1 + s2;
  }

  lemma ChanPolynomial(n1: real, n2: real, m1: real, m2: real)
    ensures (n1 * Sq(m1) + n2 * Sq(m2)) * (n1 + n2) - Sq(m2 - m1) * n1 * n2
         == Sq(n1 * m1 + n2 * m2)
  {
  }

  lemma ChanStep(n1: real, n2: real, s1: real, s2: real, q1: real, q2: real,
                 m1: real, m2: real, ss1: real, ss2: real, ss: real)
    requires n1 > 0.0 && n2 > 0.0 && m1 == s1 / n1 && m2 == s2 / n2
    requires ss1 == q1 - Sq(s1) / n1 && ss2 == q2 - Sq(s2) / n2
    requires ss == (q1 + q2) - Sq(s1 + s2) / (n1 + n2)
    ensures ss == ss1 + ss2 + Sq(m2 - m1) * n1 * n2 / (n1 + n2)
  {
    SqOverCount(s1, n1, m1);
    SqOverCount(s2, n2, m2);
    ChanPolynomial(n1, n2, m1, m2);
    DivSplit(n1 * Sq(m1) + n2 * Sq(m2), Sq(m2 - m1) * n1 * n2, Sq(s1 + s2), n1 + n2);
  }

  lemma ExpandStep(ss: real, ss': real, q: real, q': real, sum: real, sum': real,
                   x: real, c: real, k: real)
    requires ss == ss' + Sq(x - c) && q == q' + Sq(x) && sum == sum' + x
    requires ss' == q' - 2.0 * c * sum' + k * Sq(c)
    ensures ss == q - 2.0 * c * sum + (k + 1.0) * Sq(c)
  {
  }

  // ---------------------------------------------------------------------
  // Sequences.

  lemma {:induction false} SumConcat(a: seq<real>, b: seq<real>)
    ensures Sum(a + b) == Sum(a) + Sum(b)
    decreases |b|
  {
    if |b| == 0 {
      assert a + b == a;
    } else {
      var b' := b[..|b| - 1];
      assert (a + b)[..|a + b| - 1] == a + b';
      SumConcat(a, b');
    }
  }

  lemma {:induction false} SumSqConcat(a: seq<real>, b: seq<real>)
    ensures SumSq(a + b) == SumSq(a) + SumSq(b)
    decreases |b|
  {
    if |b| == 0 {
      assert a + b == a;
    } else {
      var b' := b[..|b| - 1];
      assert (a + b)[..|a + b| - 1] == a + b';
      SumSqConcat(a, b');
    }
  }

  /** Squared deviations are never negative. */
  lemma {:induction false} SSNonNegative(s: seq<real>, c: real)
    ensures SS(s, c) >= 0.0
    decreases |s|
  {
    if |s| > 0 {
      SSNonNegative(s[..|s| - 1], c);
      SqNonNegative(s[|s| - 1] - c);
    }
  }

  /** `SS` in terms of the raw sums: `SumSq(s) - 2 c Sum(s) + |s| c^2`. */
  lemma {:induction false} SSExpand(s: seq<real>, c: real)
    ensures SS(s, c) == SumSq(s) - 2.0 * c * Sum(s) + |s| as real * Sq(c)
    decreases |s|
  {
    if |s| > 0 {
      var k := |s| - 1;
      SSExpand(s[..k], c);
      ExpandStep(SS(s, c), SS(s[..k], c), SumSq(s), SumSq(s[..k]), Sum(s), Sum(s[..k]),
                 s[k], c, k as real);
    }
  }

  /** Worker for `SSAtMean`: the sequence's sums are passed as scalar formals
      tied to them by `requires`, which keeps the proof cheap. */
  lemma SSAtMeanScalars(s: seq<real>, n: real, sum: real, q: real, m: real, ss: real)
    requires |s| > 0 && n == |s| as real && sum == Sum(s) && q == SumSq(s)
    requires m == Mean(s) && ss == SS(s, m)
    ensures ss == q - Sq(sum) / n
  {
    SSExpand(s, m);
    AtMeanArith(n, sum, m);
  }

  /** The squared deviations around the mean, from the sum and the sum of
      squares alone. */
  lemma SSAtMean(s: seq<real>)
    requires |s| > 0
    ensures SS(s, Mean(s)) == SumSq(s) - Sq(Sum(s)) / |s| as real
  {
    SSAtMeanScalars(s, |s| as real, Sum(s), SumSq(s), Mean(s), SS(s, Mean(s)));
  }

  /** Worker for `MergeMean`, with the counts and sums as scalar formals, for
      cost. */
  lemma MergeMeanScalars(a: seq<real>, b: seq<real>, n1: real, n2: real, s1: real, s2: real)
    requires |a| > 0 && |b| > 0
    requires n1 == |a| as real && n2 == |b| as real && s1 == Sum(a) && s2 == Sum(b)
    ensures Mean(a + b) == s1 / n1 + (s2 / n2 - s1 / n1) * n2 / (n1 + n2)
  {
    SumConcat(a, b);
    assert |a + b| as real == n1 + n2;
    MeanArith(s1, s2, n1, n2);
  }

  /** The mean of a concatenation, from the two parts' sizes and means. */
  lemma MergeMean(a: seq<real>, b: seq<real>)
    requires |a| > 0 && |b| > 0
    ensures Mean(a + b)
         == Mean(a) + (Mean(b) - Mean(a)) * (|b| as real) / (|a| as real + |b| as real)
  {
    MergeMeanScalars(a, b, |a| as real, |b| as real, Sum(a), Sum(b));
  }

  /** Worker for `MergeSS`. Its many formals name each count, sum and mean
      once, so the solver reasons about scalars rather than sequence terms;
      they are there for cost only. */
  lemma MergeSSScalars(a: seq<real>, b: seq<real>, n1: real, n2: real, s1: real, s2: real,
                       q1: real, q2: real, m1: real, m2: real, ss1: real, ss2: real,
                       m: real, ss: real)
    requires |a| > 0 && |b| > 0
    requires n1 == |a| as real && n2 == |b| as real && s1 == Sum(a) && s2 == Sum(b)
    requires q1 == SumSq(a) && q2 == SumSq(b) && m1 == Mean(a) && m2 == Mean(b)
    requires ss1 == SS(a, m1) && ss2 == SS(b, m2) && m == Mean(a + b) && ss == SS(a + b, m)
    ensures Pooled(ss, n1, m1, ss1, n2, m2, ss2)
  {
    SSAtMeanScalars(a, n1, s1, q1, m1, ss1);
    SSAtMeanScalars(b, n2, s2, q2, m2, ss2);
    SumConcat(a, b);
    SumSqConcat(a, b);
    SSAtMeanScalars(a + b, n1 + n2, s1 + s2, q1 + q2, m, ss);
    ChanStep(n1, n2, s1, s2, q1, q2, m1, m2, ss1, ss2, ss);
  }

  /** Chan, Golub and LeVeque's pairwise update: the squared deviations of a
      concatenation around its mean are those of the parts around their own
      means, plus a term for the shift between those means. */
  lemma MergeSS(a: seq<real>, b: seq<real>)
    requires |a| > 0 && |b| > 0
    ensures Pooled(SS(a + b, Mean(a + b)), |a| as real, Mean(a), SS(a, Mean(a)),
                   |b| as real, Mean(b), SS(b, Mean(b)))
  {
    MergeSSScalars(a, b, |a| as real, |b| as real, Sum(a), Sum(b), SumSq(a), SumSq(b),
                   Mean(a), Mean(b), SS(a, Mean(a)), SS(b, Mean(b)),
                   Mean(a + b), SS(a + b, Mean(a + b)));
  }

  /** The ddof-adjusted variance is never negative. */
  lemma VarNonNegative(s: seq<real>, ddof: real)
    requires HasVariance(s, ddof)
    ensures Var(s, ddof) >= 0.0
  {
    SSNonNegative(s, Mean(s));
    DivNonNegative(SS(s, Mean(s)), |s| as real - ddof);
  }

  /** Appending one sample adds it to the sum and its square to the sum of
      squares. */
  lemma SnocSums(s: seq<real>, x: real)
    ensures Sum(s + [x]) == Sum(s) + x && SumSq(s + [x]) == SumSq(s) + Sq(x)
  {
    assert (s + [x])[..|s|] == s;
  }
}
