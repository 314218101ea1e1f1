/**
 The older snapshot of the scaler. Its `fit`, `transform` and blueprint are
 those of `Optimizer`, `Scaler` and `Configuration`; only `incremental_fit`
 differs, in how it updates the standard deviation: it adds the old
 standard deviation, the batch's standard deviation and the shift term,
 where the pooled update squares, undoes the divisors and takes a root.
 */
module Basic {
  import opened Statistics
  import opened Configuration
  import opened Scaler
  import Optimizer

  /** The older standard deviation update, from the old standard deviation
      `s1`, the batch's `s2`, the shift `delta` between the means and the
      counts `n1`, `n2` and `n`. */
  function LegacyStd(s1: real, s2: real, delta: real, n1: real, n2: real, n: real): real
    requires n != 0.0
  {
    s1 + s2 + Sq(delta) * n1 * n2 / n
  }

  /** The older `incremental_fit`: count, `ddof` and mean are updated as in
      `Optimizer.IncrementalFit`, the standard deviation by `LegacyStd`. */
  function IncrementalFit(opt: Optimizer.OnlineOptimizer, inputs: seq<real>,
                          transformer: StandardScaler, sqrt: real -> real): (s: Optimizer.Step)
    requires |inputs| == 0 || HasVariance(inputs, transformer.ddof)
    ensures s.result.Ok?
    ensures |inputs| == 0 ==> s == Optimizer.Step(opt, Ok(transformer))
    ensures |inputs| > 0 ==>
              && s.optimizer.nSamples == opt.nSamples + |inputs|
              && s.result.value.ddof == transformer.ddof
  {
    if |inputs| == 0 then
      Optimizer.Step(opt, Ok(transformer))
    else
      var batchNSamples := |inputs|;
      var batchMean := Mean(inputs);
      var batchStd := sqrt(Var(inputs, transformer.ddof));
      var meanDelta := batchMean - transformer.mean;
      var newNSamples := opt.nSamples + batchNSamples;
      var newMean := Optimizer.ShiftedMean(transformer.mean, meanDelta, batchNSamples as real,
                                           newNSamples as real);
      var newStd := LegacyStd(transformer.standardDeviation, batchStd, meanDelta,
                              opt.nSamples as real, batchNSamples as real, newNSamples as real);
      Optimizer.Step(Optimizer.OnlineOptimizer(newNSamples),
                     Ok(StandardScaler(transformer.ddof, newMean, newStd)))
  }

  /** Apart from the standard deviation, the older update agrees with the
      pooled one: same optimizer, same `ddof`, same mean, and so the mean of
      everything seen. */
  lemma LegacyMeanMerges(opt: Optimizer.OnlineOptimizer, history: seq<real>, inputs: seq<real>,
                         t: StandardScaler, sqrt: real -> real)
    requires IsSqrt(sqrt)
    requires opt.nSamples == |history| && Summarises(t, history)
    requires |inputs| == 0 || HasVariance(inputs, t.ddof)
    ensures IncrementalFit(opt, inputs, t, sqrt).optimizer
         == Optimizer.IncrementalFit(opt, inputs, t, sqrt).optimizer
    ensures IncrementalFit(opt, inputs, t, sqrt).result.value.ddof == t.ddof
    ensures IncrementalFit(opt, inputs, t, sqrt).result.value.mean == Mean(history + inputs)
  {
    Optimizer.IncrementalFitMerges(opt, history, inputs, t, sqrt);
    if |inputs| > 0 {
      Optimizer.IncrementalFitUnfold(opt, inputs, t, sqrt);
    }
  }

  /** The pair `[0, 2]` has mean 1 and sample variance 2. */
  lemma PairStatistics()
    ensures Mean([0.0, 2.0]) == 1.0 && HasVariance([0.0, 2.0], 1.0) && Var([0.0, 2.0], 1.0) == 2.0
  {
    var h := [0.0, 2.0];
    assert h[..1] == [0.0];
    assert [0.0][..0] == [];
    assert Sum([0.0]) == 0.0;
    assert Sum(h) == 2.0;
    assert SS([0.0], 1.0) == 1.0;
    assert SS(h, 1.0) == 2.0;
  }

  /** Fitting `[0, 2]` with the default blueprint and then folding in
      `[0, 2]` again: the older update reports a standard deviation whose
      square is 8, while the four samples' sample variance is 4/3, which
      is what the pooled update reports. */
  lemma LegacyUpdateCounterexample(sqrt: real -> real)
    requires IsSqrt(sqrt)
    ensures var h := [0.0, 2.0];
            var s := Optimizer.Fit(Optimizer.Default(), h, DefaultConfig(), sqrt);
            var legacy := IncrementalFit(s.optimizer, h, s.result.value, sqrt).result.value;
            var pooled := Optimizer.IncrementalFit(s.optimizer, h, s.result.value, sqrt).result.value;
            && HasVariance(h + h, 1.0)
            && Var(h + h, 1.0) == 4.0 / 3.0
            && Sq(legacy.standardDeviation) == 8.0
            && !Summarises(legacy, h + h)
            && Summarises(pooled, h + h)
  {
    var h := [0.0, 2.0];
    PairStatistics();
    var s := Optimizer.Fit(Optimizer.Default(), h, DefaultConfig(), sqrt);
    var t := s.result.value;
    Optimizer.IncrementalFitMerges(s.optimizer, h, h, t, sqrt);
    Optimizer.PooledVarianceMerges(h, h, 1.0);
    SqrtSquared(sqrt, 2.0);
    var legacy := IncrementalFit(s.optimizer, h, t, sqrt).result.value;
    assert legacy.standardDeviation == sqrt(2.0) + sqrt(2.0) + Sq(0.0) * 2.0 * 2.0 / 4.0;
    assert Sq(legacy.standardDeviation) == 4.0 * Sq(sqrt(2.0));
  }
}
