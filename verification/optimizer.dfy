/**
 The `OnlineOptimizer`: it tunes a `StandardScaler` on a first batch with
 `fit`, then folds further batches into it with `incremental_fit`, keeping
 only the number of samples seen so far.

 `&mut self` plus a returned `Result` is modelled by a `Step`: the optimizer
 after the call and the call's result. The square root of the platform is a
 parameter `sqrt` that the callers promise to be one on the non-negative
 reals.
 */
module Optimizer {
  import opened Statistics
  import opened Configuration
  import opened Scaler

  /** The count of samples absorbed so far. */
  datatype OnlineOptimizer = OnlineOptimizer(nSamples: nat)

  /** The optimizer after a call, and what the call returned. */
  datatype Step = Step(optimizer: OnlineOptimizer, result: Result<StandardScaler>)

  /** `OnlineOptimizer::default()`: nothing seen yet. */
  function Default(): (o: OnlineOptimizer)
    ensures o.nSamples == 0
  {
    OnlineOptimizer(0)
  }

  /** `fit`: the empty batch is refused and the count is left alone;
      otherwise the count restarts at the batch's length and the scaler holds
      the batch's exact mean and ddof-adjusted standard deviation. */
  function Fit(opt: OnlineOptimizer, inputs: seq<real>, blueprint: Config, sqrt: real -> real)
    : (s: Step)
    requires IsSqrt(sqrt)
    requires |inputs| == 0 || blueprint.ddof < |inputs| as real
    ensures s.result.Err? <==> |inputs| == 0
    ensures s.result.Err? ==> s.optimizer == opt
    ensures s.result.Ok? ==>
              && s.optimizer.nSamples == |inputs|
              && s.result.value.ddof == blueprint.ddof
              && Summarises(s.result.value, inputs)
  {
    if |inputs| == 0 then
      Step(opt, Err(ScalingError))
    else
      var mean := Mean(inputs);
      VarNonNegative(inputs, blueprint.ddof);
      var standardDeviation := sqrt(Var(inputs, blueprint.ddof));
      Step(OnlineOptimizer(|inputs|),
           Ok(StandardScaler(blueprint.ddof, mean, standardDeviation)))
  }

  /** The mean `m1` of a part, moved towards a batch whose mean lies `delta`
      away, by the batch's share `n2 / n` of the union's `n` samples. */
  function ShiftedMean(m1: real, delta: real, n2: real, n: real): real
    requires n != 0.0
  {
    m1 + delta * n2 / n
  }

  /** The variance of the union of two parts, given each part's count, mean
      and ddof-adjusted variance: undo each part's divisor, add the term for
      the shift between the means, and divide by the union's divisor. */
  function PooledVariance(n1: real, m1: real, v1: real, n2: real, m2: real, v2: real,
                          ddof: real): real
    requires n1 + n2 != 0.0 && n1 + n2 - ddof != 0.0
  {
    (v1 * (n1 - ddof) + v2 * (n2 - ddof) + Sq(m2 - m1) * n1 * n2 / (n1 + n2))
      / (n1 + n2 - ddof)
  }

  /** `incremental_fit`: the empty batch returns the scaler and the
      optimizer as they were; otherwise the count grows by the batch's
      length, `ddof` is carried over, and mean and standard deviation are
      updated from the batch's own mean and standard deviation. */
  function IncrementalFit(opt: OnlineOptimizer, inputs: seq<real>, transformer: StandardScaler,
                          sqrt: real -> real): (s: Step)
    requires |inputs| == 0 || HasVariance(inputs, transformer.ddof)
    ensures s.result.Ok?
    ensures |inputs| == 0 ==> s == Step(opt, Ok(transformer))
    ensures |inputs| > 0 ==>
              && s.optimizer.nSamples == opt.nSamples + |inputs|
              && s.result.value.ddof == transformer.ddof
  {
    if |inputs| == 0 then
      Step(opt, Ok(transformer))
    else
      var ddof := transformer.ddof;
      var batchNSamples := |inputs|;
      var batchMean := Mean(inputs);
      var batchStd := sqrt(Var(inputs, ddof));
      var meanDelta := batchMean - transformer.mean;
      var newNSamples := opt.nSamples + batchNSamples;
      var newMean := ShiftedMean(transformer.mean, meanDelta, batchNSamples as real,
                                 newNSamples as real);
      var newStd := sqrt(PooledVariance(opt.nSamples as real, transformer.mean,
                                        Sq(transformer.standardDeviation),
                                        batchNSamples as real, batchMean, Sq(batchStd),
                                        ddof));
      Step(OnlineOptimizer(newNSamples), Ok(StandardScaler(ddof, newMean, newStd)))
  }

  // ---------------------------------------------------------------------
  // The merge is exact.

  /** Worker for `PooledVarianceMerges`, over scalar formals, for cost. */
  lemma PooledVarianceScalars(n1: real, m1: real, v1: real, ss1: real,
                              n2: real, m2: real, v2: real, ss2: real,
                              ddof: real, ss: real, v: real)
    requires ddof < n1 && ddof < n2 && 0.0 < n1 && 0.0 < n2
    requires v1 == ss1 / (n1 - ddof) && v2 == ss2 / (n2 - ddof)
    requires Pooled(ss, n1, m1, ss1, n2, m2, ss2)
    requires v == ss / (n1 + n2 - ddof)
    ensures PooledVariance(n1, m1, v1, n2, m2, v2, ddof) == v
  {
    DivMul(v1, ss1, n1 - ddof);
    DivMul(v2, ss2, n2 - ddof);
  }

  lemma IncrementalFitUnfold(opt: OnlineOptimizer, inputs: seq<real>, t: StandardScaler,
                             sqrt: real -> real)
    requires HasVariance(inputs, t.ddof)
    ensures IncrementalFit(opt, inputs, t, sqrt).result.value.mean
         == ShiftedMean(t.mean, Mean(inputs) - t.mean, |inputs| as real,
                        (opt.nSamples + |inputs|) as real)
    ensures IncrementalFit(opt, inputs, t, sqrt).result.value.standardDeviation
         == sqrt(PooledVariance(opt.nSamples as real, t.mean, Sq(t.standardDeviation),
                                |inputs| as real, Mean(inputs), Sq(sqrt(Var(inputs, t.ddof))),
                                t.ddof))
  {
  }

  /** Worker for `IncrementalFitMean`, with the update's intermediate values
      as formals, for cost. */
  lemma MeanStepScalars(history: seq<real>, inputs: seq<real>, m1: real, n1: nat, r: real)
    requires |history| > 0 && |inputs| > 0 && m1 == Mean(history) && n1 == |history|
    requires r == ShiftedMean(m1, Mean(inputs) - m1, |inputs| as real, (n1 + |inputs|) as real)
    ensures r == Mean(history + inputs)
  {
    MergeMean(history, inputs);
  }

  /** Pooling two batches' counts, means and variances gives the variance
      of their concatenation. */
  lemma PooledVarianceMerges(a: seq<real>, b: seq<real>, ddof: real)
    requires HasVariance(a, ddof) && HasVariance(b, ddof)
    ensures HasVariance(a + b, ddof)
    ensures PooledVariance(|a| as real, Mean(a), Var(a, ddof), |b| as real, Mean(b), Var(b, ddof),
                           ddof)
         == Var(a + b, ddof)
  {
    MergeSS(a, b);
    PooledVarianceScalars(|a| as real, Mean(a), Var(a, ddof), SS(a, Mean(a)),
                          |b| as real, Mean(b), Var(b, ddof), SS(b, Mean(b)),
                          ddof, SS(a + b, Mean(a + b)), Var(a + b, ddof));
  }

  /** The mean update: shifting the old mean towards the batch's mean by
      the batch's share of all samples gives the mean of the concatenation. */
  lemma IncrementalFitMean(opt: OnlineOptimizer, history: seq<real>, inputs: seq<real>,
                           t: StandardScaler, sqrt: real -> real)
    requires opt.nSamples == |history| && |history| > 0 && t.mean == Mean(history)
    requires HasVariance(inputs, t.ddof)
    ensures IncrementalFit(opt, inputs, t, sqrt).result.value.mean == Mean(history + inputs)
  {
    IncrementalFitUnfold(opt, inputs, t, sqrt);
    MeanStepScalars(history, inputs, t.mean, opt.nSamples,
                    IncrementalFit(opt, inputs, t, sqrt).result.value.mean);
  }

  /** The standard deviation update: pooling the old and the batch's
      variance gives the variance of the concatenation, and the update takes
      its square root. */
  lemma IncrementalFitStd(opt: OnlineOptimizer, history: seq<real>, inputs: seq<real>,
                          t: StandardScaler, sqrt: real -> real)
    requires IsSqrt(sqrt)
    requires opt.nSamples == |history| && Summarises(t, history)
    requires HasVariance(inputs, t.ddof)
    ensures HasVariance(history + inputs, t.ddof)
    ensures IncrementalFit(opt, inputs, t, sqrt).result.value.standardDeviation
         == sqrt(Var(history + inputs, t.ddof))
  {
    IncrementalFitUnfold(opt, inputs, t, sqrt);
    VarNonNegative(inputs, t.ddof);
    SqrtSquared(sqrt, Var(inputs, t.ddof));
    PooledVarianceMerges(history, inputs, t.ddof);
  }

  /** The headline property: if the scaler summarises the samples the
      optimizer has counted, then after `incremental_fit` it summarises
      those samples followed by the batch, and the count is theirs. */
  lemma IncrementalFitMerges(opt: OnlineOptimizer, history: seq<real>, inputs: seq<real>,
                             t: StandardScaler, sqrt: real -> real)
    requires IsSqrt(sqrt)
    requires opt.nSamples == |history| && Summarises(t, history)
    requires |inputs| == 0 || HasVariance(inputs, t.ddof)
    ensures IncrementalFit(opt, inputs, t, sqrt).optimizer.nSamples == |history + inputs|
    ensures IncrementalFit(opt, inputs, t, sqrt).result.value.ddof == t.ddof
    ensures Summarises(IncrementalFit(opt, inputs, t, sqrt).result.value, history + inputs)
    ensures |inputs| > 0 ==>
              IncrementalFit(opt, inputs, t, sqrt).result.value.standardDeviation
              == sqrt(Var(history + inputs, t.ddof))
  {
    if |inputs| == 0 {
      assert history + inputs == history;
    } else {
      IncrementalFitMean(opt, history, inputs, t, sqrt);
      IncrementalFitStd(opt, history, inputs, t, sqrt);
      VarNonNegative(history + inputs, t.ddof);
      SqrtSquared(sqrt, Var(history + inputs, t.ddof));
    }
  }

  /** Fitting a first batch and folding in a second gives exactly what
      fitting their concatenation gives: the same optimizer and the same
      scaler. */
  lemma FitThenUpdateIsFit(opt: OnlineOptimizer, a: seq<real>, b: seq<real>, blueprint: Config,
                           sqrt: real -> real)
    requires IsSqrt(sqrt)
    requires HasVariance(a, blueprint.ddof) && HasVariance(b, blueprint.ddof)
    ensures HasVariance(a + b, blueprint.ddof)
    ensures IncrementalFit(Fit(opt, a, blueprint, sqrt).optimizer, b,
                           Fit(opt, a, blueprint, sqrt).result.value, sqrt)
         == Fit(opt, a + b, blueprint, sqrt)
  {
    var s := Fit(opt, a, blueprint, sqrt);
    IncrementalFitMerges(s.optimizer, a, b, s.result.value, sqrt);
  }

  /** Folding in two batches one after the other gives exactly what folding
      in their concatenation at once gives. */
  lemma UpdatesCompose(opt: OnlineOptimizer, history: seq<real>, t: StandardScaler,
                       b: seq<real>, c: seq<real>, sqrt: real -> real)
    requires IsSqrt(sqrt)
    requires opt.nSamples == |history| && Summarises(t, history)
    requires |b| == 0 || HasVariance(b, t.ddof)
    requires |c| == 0 || HasVariance(c, t.ddof)
    ensures |b + c| == 0 || HasVariance(b + c, t.ddof)
    ensures IncrementalFit(opt, b + c, t, sqrt).result.Ok?
    ensures Summarises(IncrementalFit(opt, b, t, sqrt).result.value, history + b)
    ensures IncrementalFit(IncrementalFit(opt, b, t, sqrt).optimizer, c,
                           IncrementalFit(opt, b, t, sqrt).result.value, sqrt)
         == IncrementalFit(opt, b + c, t, sqrt)
  {
    var s := IncrementalFit(opt, b, t, sqrt);
    IncrementalFitMerges(opt, history, b, t, sqrt);
    IncrementalFitMerges(s.optimizer, history + b, c, s.result.value, sqrt);
    IncrementalFitMerges(opt, history, b + c, t, sqrt);
    assert history + b + c == history + (b + c);
    if |c| == 0 {
      assert b + c == b;
    } else if |b| == 0 {
      assert b + c == c;
    }
  }

  /** With the default blueprint, `fit` estimates the sample variance: the
      squared deviations over one less than the batch's length. */
  lemma DefaultFitIsSampleVariance(opt: OnlineOptimizer, inputs: seq<real>, sqrt: real -> real)
    requires IsSqrt(sqrt) && |inputs| >= 2
    ensures Fit(opt, inputs, DefaultConfig(), sqrt).result.Ok?
    ensures Sq(Fit(opt, inputs, DefaultConfig(), sqrt).result.value.standardDeviation)
         == SS(inputs, Mean(inputs)) / (|inputs| as real - 1.0)
  {
  }

  /** The running-mean driver: fit on a first batch with the default
      blueprint, then fold in a second. Each scaler, whenever its standard
      deviation is not zero, maps the data it has seen to mean 0: the first
      batch after the fit, the two batches stacked after the update. */
  lemma RunningMeanDriver(x: seq<real>, x2: seq<real>, sqrt: real -> real)
    requires IsSqrt(sqrt) && |x| >= 2 && |x2| >= 2
    ensures Fit(Default(), x, DefaultConfig(), sqrt).result.Ok?
    ensures var s := Fit(Default(), x, DefaultConfig(), sqrt);
            var t := s.result.value;
            && (t.standardDeviation != 0.0 ==> Mean(Transform(t, x).value) == 0.0)
            && var s2 := IncrementalFit(s.optimizer, x2, t, sqrt);
               var t2 := s2.result.value;
               && s2.optimizer.nSamples == |x + x2|
               && (t2.standardDeviation != 0.0 ==> Mean(Transform(t2, x + x2).value) == 0.0)
  {
    var s := Fit(Default(), x, DefaultConfig(), sqrt);
    var t := s.result.value;
    if t.standardDeviation != 0.0 {
      TransformCentres(t, x);
    }
    IncrementalFitMerges(s.optimizer, x, x2, t, sqrt);
    var t2 := IncrementalFit(s.optimizer, x2, t, sqrt).result.value;
    if t2.standardDeviation != 0.0 {
      TransformCentres(t2, x + x2);
    }
  }

  /** Sums and sums of squares of the worked example's batches. */
  lemma ExampleSums()
    ensures Sum([2.0, 4.0, 4.0, 4.0, 5.0, 5.0, 7.0, 9.0]) == 40.0
    ensures SumSq([2.0, 4.0, 4.0, 4.0, 5.0, 5.0, 7.0, 9.0]) == 232.0
    ensures Sum([2.0, 4.0, 4.0, 4.0, 5.0, 5.0, 7.0, 9.0] + [1.0, 3.0]) == 44.0
    ensures SumSq([2.0, 4.0, 4.0, 4.0, 5.0, 5.0, 7.0, 9.0] + [1.0, 3.0]) == 242.0
  {
    var a := [2.0, 4.0, 4.0, 4.0, 5.0, 5.0, 7.0, 9.0];
    var b := [1.0, 3.0];
    var p0: seq<real> := [];
    var p1 := p0 + [2.0];
    SnocSums(p0, 2.0);
    var p2 := p1 + [4.0];
    SnocSums(p1, 4.0);
    var p3 := p2 + [4.0];
    SnocSums(p2, 4.0);
    var p4 := p3 + [4.0];
    SnocSums(p3, 4.0);
    var p5 := p4 + [5.0];
    SnocSums(p4, 5.0);
    var p6 := p5 + [5.0];
    SnocSums(p5, 5.0);
    var p7 := p6 + [7.0];
    SnocSums(p6, 7.0);
    var p8 := p7 + [9.0];
    SnocSums(p7, 9.0);
    var p9 := p8 + [1.0];
    SnocSums(p8, 1.0);
    var p10 := p9 + [3.0];
    SnocSums(p9, 3.0);
    assert p8 == a && p10 == a + b;
  }

  /** Fitting `[2, 4, 4, 4, 5, 5, 7, 9]` with the default blueprint gives mean
      5 and variance 32/7; folding in `[1, 3]` gives mean 22/5 and variance
      242/45, those of the ten samples together. */
  lemma WorkedExample(sqrt: real -> real)
    requires IsSqrt(sqrt)
    ensures var a := [2.0, 4.0, 4.0, 4.0, 5.0, 5.0, 7.0, 9.0];
            var s := Fit(Default(), a, DefaultConfig(), sqrt);
            var t := s.result.value;
            var u := IncrementalFit(s.optimizer, [1.0, 3.0], t, sqrt).result.value;
            && s.result.Ok? && t.mean == 5.0 && Sq(t.standardDeviation) == 32.0 / 7.0
            && u.mean == 22.0 / 5.0 && Sq(u.standardDeviation) == 242.0 / 45.0
  {
    var a := [2.0, 4.0, 4.0, 4.0, 5.0, 5.0, 7.0, 9.0];
    var b := [1.0, 3.0];
    ExampleSums();
    SSAtMean(a);
    SSAtMean(a + b);
    var s := Fit(Default(), a, DefaultConfig(), sqrt);
    IncrementalFitMerges(s.optimizer, a, b, s.result.value, sqrt);
  }
}
