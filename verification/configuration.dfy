/**
 The scaler's blueprint: the one hyper-parameter, the delta degrees of freedom
 `ddof` subtracted from the sample count in the variance's divisor.
 */
module Configuration {
  /** Any `ddof` is accepted at construction; nothing is validated. */
  datatype Config = Config(ddof: real)

  /** `Config::default()`: the sample standard deviation, `ddof = 1`. */
  function DefaultConfig(): (c: Config)
    ensures c.ddof == 1.0
  {
    Config(1.0)
  }
}
