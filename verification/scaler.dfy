/**
 The fitted `StandardScaler` and its `transform`: an element-wise map that
 subtracts the estimated mean and divides by the estimated standard
 deviation, so that the batch the scaler summarises comes out with mean 0
 and unit variance.
 */
module Scaler {
  import opened Statistics

  /** The crate's field-less error struct. */
  datatype ScalingError = ScalingError

  datatype Result<T> = Ok(value: T) | Err(error: ScalingError)

  /** A tuned scaler: the delta degrees of freedom it was fitted with, and
      its estimates of the mean and standard deviation. */
  datatype StandardScaler = StandardScaler(ddof: real, mean: real, standardDeviation: real)

  /** `t` holds the exact summary of `history`: its mean, and a non-negative
      standard deviation whose square is the ddof-adjusted variance. */
  predicate Summarises(t: StandardScaler, history: seq<real>) {
    && HasVariance(history, t.ddof)
    && t.mean == Mean(history)
    && t.standardDeviation >= 0.0
    && Sq(t.standardDeviation) == Var(history, t.ddof)
  }

  /** `(inputs - mean) / standard_deviation`, element-wise; there is no error
      path, and scaling back by the standard deviation and adding the mean
      recovers every input. */
  function Transform(scaler: StandardScaler, inputs: seq<real>): (r: Result<seq<real>>)
    requires scaler.standardDeviation != 0.0
    ensures r.Ok? && |r.value| == |inputs|
    ensures forall i :: 0 <= i < |inputs| ==>
              r.value[i] * scaler.standardDeviation + scaler.mean == inputs[i]
  {
    Ok(seq(|inputs|, i requires 0 <= i < |inputs| =>
             (inputs[i] - scaler.mean) / scaler.standardDeviation))
  }

  // ---------------------------------------------------------------------
  // The inverse map `y * sd + m`, applied to a whole batch.

  function Affine(ys: seq<real>, sd: real, m: real): (xs: seq<real>)
    ensures |xs| == |ys|
  {
    seq(|ys|, i requires 0 <= i < |ys| => ys[i] * sd + m)
  }

  lemma AffinePrefix(ys: seq<real>, sd: real, m: real, k: nat)
    requires k <= |ys|
    ensures Affine(ys, sd, m)[..k] == Affine(ys[..k], sd, m)
  {
    assert forall i :: 0 <= i < k ==> Affine(ys, sd, m)[..k][i] == Affine(ys[..k], sd, m)[i];
  }

  /** Scaling the transform's output back recovers its input. */
  lemma TransformInverse(t: StandardScaler, inputs: seq<real>)
    requires t.standardDeviation != 0.0
    ensures Affine(Transform(t, inputs).value, t.standardDeviation, t.mean) == inputs
  {
    var back := Affine(Transform(t, inputs).value, t.standardDeviation, t.mean);
    assert forall i :: 0 <= i < |inputs| ==> back[i] == inputs[i];
  }

  /** `sx` is the sum of an affine image `y * sd + m` of `n` values whose sum
      is `sy`. */
  predicate ScaledSum(sx: real, sy: real, n: real, sd: real, m: real) {
    sx == sd * sy + n * m
  }

  /** `a` is `sd^2` times `q`. */
  predicate ScaledSquares(a: real, sd: real, q: real) {
    a == Sq(sd) * q
  }

  lemma AffineSumStep(sx: real, sx': real, sy: real, sy': real, x: real, y: real, sd: real,
                      m: real, k: real, n: real)
    requires sx == sx' + x && x == y * sd + m && sy == sy' + y && n == k + 1.0
    requires ScaledSum(sx', sy', k, sd, m)
    ensures ScaledSum(sx, sy, n, sd, m)
  {
  }

  lemma AffineSSStep(a: real, a': real, q: real, q': real, x: real, y: real, sd: real,
                     m: real)
    requires a == a' + Sq(x - m) && x == y * sd + m && q == q' + Sq(y)
    requires ScaledSquares(a', sd, q')
    ensures ScaledSquares(a, sd, q)
  {
    assert Sq(x - m) == Sq(sd) * Sq(y);
  }

  lemma {:induction false} AffineSum(ys: seq<real>, sd: real, m: real)
    ensures ScaledSum(Sum(Affine(ys, sd, m)), Sum(ys), |ys| as real, sd, m)
    decreases |ys|
  {
    if |ys| > 0 {
      var k := |ys| - 1;
      var xs := Affine(ys, sd, m);
      AffinePrefix(ys, sd, m, k);
      AffineSum(ys[..k], sd, m);
      AffineSumStep(Sum(xs), Sum(Affine(ys[..k], sd, m)), Sum(ys), Sum(ys[..k]), xs[k], ys[k], sd, m,
                    |ys[..k]| as real, |ys| as real);
    }
  }

  lemma {:induction false} AffineSS(ys: seq<real>, sd: real, m: real)
    ensures ScaledSquares(SS(Affine(ys, sd, m), m), sd, SumSq(ys))
    decreases |ys|
  {
    if |ys| > 0 {
      var k := |ys| - 1;
      var xs := Affine(ys, sd, m);
      AffinePrefix(ys, sd, m, k);
      AffineSS(ys[..k], sd, m);
      AffineSSStep(SS(xs, m), SS(Affine(ys[..k], sd, m), m), SumSq(ys), SumSq(ys[..k]), xs[k],
                   ys[k], sd, m);
    }
  }

  /** Arithmetic step of `AffineCentred`. The count arrives twice, as `n` and
      `n'`, and the sums as plain reals, so the solver sees only scalar terms
      and the proof stays cheap. */
  lemma CentreArith(n: real, n': real, sx: real, sy: real, sd: real, m: real)
    requires n > 0.0 && n' == n && sd != 0.0 && m == sx / n && ScaledSum(sx, sy, n', sd, m)
    ensures sy / n' == 0.0
  {
    assert sd * sy == 0.0;
  }

  /** The affine image of `ys` has mean `m` only when `ys` has mean 0. */
  lemma AffineCentred(ys: seq<real>, sd: real, m: real)
    requires |ys| > 0 && sd != 0.0 && m == Mean(Affine(ys, sd, m))
    ensures Mean(ys) == 0.0
  {
    var xs := Affine(ys, sd, m);
    AffineSum(ys, sd, m);
    CentreArith(|xs| as real, |ys| as real, Sum(xs), Sum(ys), sd, m);
  }

  /** A scaler whose mean is that of `inputs` maps them to a batch with
      mean 0. */
  lemma TransformCentres(t: StandardScaler, inputs: seq<real>)
    requires |inputs| > 0 && t.standardDeviation != 0.0 && t.mean == Mean(inputs)
    ensures Mean(Transform(t, inputs).value) == 0.0
  {
    TransformInverse(t, inputs);
    AffineCentred(Transform(t, inputs).value, t.standardDeviation, t.mean);
  }

  /** Arithmetic step of `AffineUnit`. As in `CentreArith`, duplicate and
      scalar formals keep the solver away from sequence terms, for cost. */
  lemma UnitArith(sd2: real, sd: real, ssx: real, q: real, ssy: real, n: real, n': real,
                  ddof: real)
    requires ddof < n && n' == n && sd2 == Sq(sd) && sd != 0.0 && ssy == q
    requires ScaledSquares(ssx, sd, q) && sd2 == ssx / (n' - ddof)
    ensures ssy / (n - ddof) == 1.0
  {
    var d := n - ddof;
    assert sd2 * d == ssx;
    var e, f := sd * d, sd * q;
    assert sd * e == sd2 * d && sd * f == sd2 * q;
    Cancel(sd, e, f);
    Cancel(sd, d, q);
  }

  /** The affine image of `ys` has ddof-variance `sd^2` only when `ys`,
      centred, has ddof-variance 1. */
  lemma AffineUnit(ys: seq<real>, sd: real, m: real, ddof: real)
    requires |ys| > 0 && sd != 0.0 && ddof < |ys| as real
    requires m == Mean(Affine(ys, sd, m)) && Sq(sd) == Var(Affine(ys, sd, m), ddof)
    ensures Mean(ys) == 0.0 && Var(ys, ddof) == 1.0
  {
    var xs := Affine(ys, sd, m);
    AffineCentred(ys, sd, m);
    AffineSS(ys, sd, m);
    SSExpand(ys, 0.0);
    UnitArith(Sq(sd), sd, SS(xs, m), SumSq(ys), SS(ys, 0.0), |ys| as real, |xs| as real, ddof);
  }

  /** The doc-comment's promise: a scaler that summarises `inputs`, with a
      non-zero standard deviation, rescales them to zero mean and unit
      ddof-adjusted variance. */
  lemma TransformStandardizes(t: StandardScaler, inputs: seq<real>)
    requires Summarises(t, inputs) && t.standardDeviation != 0.0
    ensures Mean(Transform(t, inputs).value) == 0.0
    ensures Var(Transform(t, inputs).value, t.ddof) == 1.0
  {
    TransformInverse(t, inputs);
    AffineUnit(Transform(t, inputs).value, t.standardDeviation, t.mean, t.ddof);
  }
}
