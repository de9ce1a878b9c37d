/** Severities and z-score classification (stats/anomaly.go). */
module Anomaly {
  import opened Common

  /** `Unset` is the empty string, the zero value of the source's severity type. */
  datatype Severity = Unset | Unknown | None | Low | Medium | High

  datatype AnomalyConfig = AnomalyConfig(minSamples: int, mediumZ: real, highZ: real)

  datatype AnomalyResult = AnomalyResult(zScore: real, isAnomalous: bool, severity: Severity, score: real)

  const NO_RESULT: AnomalyResult := AnomalyResult(0.0, false, Unset, 0.0)

  function WithDefaults(c: AnomalyConfig): AnomalyConfig {
    var minSamples := if c.minSamples <= 0 then 10 else c.minSamples;
    var mediumZ := if c.mediumZ <= 0.0 then 2.0 else c.mediumZ;
    var highZ := if c.highZ <= 0.0 then 3.0 else c.highZ;
    AnomalyConfig(minSamples, mediumZ, if highZ < mediumZ then mediumZ else highZ)
  }

  /** What is configured with a positive value is kept, except that high severity never starts below medium. */
  lemma LimitsAreKept(c: AnomalyConfig)
    ensures
      var limits := WithDefaults(c);
      && (c.minSamples > 0 ==> limits.minSamples == c.minSamples)
      && (c.minSamples <= 0 ==> limits.minSamples == 10)
      && (c.mediumZ > 0.0 ==> limits.mediumZ == c.mediumZ)
      && (c.mediumZ <= 0.0 ==> limits.mediumZ == 2.0)
      && (c.highZ > 0.0 ==> limits.highZ == MaxReal(c.highZ, limits.mediumZ))
      && (c.highZ <= 0.0 ==> limits.highZ == MaxReal(3.0, limits.mediumZ))
  {
  }

  function Abs(x: real): real {
    if x < 0.0 then -x else x
  }

  function ComputeZScore(value: real, mean: real, stddev: real): real {
    if stddev <= 0.0 then 0.0 else (value - mean) / stddev
  }

  function ClassifyZScore(z: real, config: AnomalyConfig, sampleCount: int): AnomalyResult {
    var cfg := WithDefaults(config);
    if sampleCount < cfg.minSamples then
      AnomalyResult(z, false, Unknown, 0.0)
    else if Abs(z) >= cfg.highZ then
      AnomalyResult(z, true, High, 1.0)
    else if Abs(z) >= cfg.mediumZ then
      AnomalyResult(z, true, Medium, 0.7)
    else if Abs(z) > 0.0 then
      AnomalyResult(z, false, Low, 0.3)
    else
      AnomalyResult(z, false, None, 0.0)
  }

  function Rank(s: Severity): nat {
    match s
    case High => 4
    case Medium => 3
    case Low => 2
    case None => 1
    case Unset => 0
    case Unknown => 0
  }

  function MaxSeverity(a: Severity, b: Severity): Severity {
    if Rank(a) >= Rank(b) then a else b
  }

  /** A distance of `q` standard deviations compared with a bound, on squares. */
  lemma ScaledBound(q: real, s: real, d: real, t: real, dd: real, ss: real, tt: real)
    requires s > 0.0 && t > 0.0 && d == q * s
    requires dd == d * d && ss == s * s && tt == t * t
    ensures Abs(q) >= t <==> dd >= tt * ss
  {
    var qq := Abs(q) * Abs(q);
    ProductPositive(s, s, ss);
    SquareOfAbs(q, qq);
    SquareOfProduct(q, s, d, dd, ss, qq);
    Cancel(qq, tt, ss);
    SquareOrder(Abs(q), t, qq, tt);
  }

  lemma SquareOfAbs(q: real, qq: real)
    requires qq == Abs(q) * Abs(q)
    ensures qq == q * q
  {
  }

  lemma SquareOfProduct(q: real, s: real, d: real, dd: real, ss: real, qq: real)
    requires d == q * s && dd == d * d && ss == s * s && qq == q * q
    ensures dd == qq * ss
  {
    Substitute(d, q * s, d);
    Substitute(d, q * s, q * s);
    Substitute(ss, s * s, q * q);
    Substitute(qq, q * q, ss);
  }

  lemma QuotientRestores(d: real, s: real)
    requires s != 0.0
    ensures d / s * s == d
  {
    Quotient(d, s, d / s);
  }

  /** Classification restated on the variance, with no square root and no division: a sample is
      anomalous exactly when the baseline is large enough, is not constant, and the squared deviation
      reaches `mediumZ` squared variances; it is high exactly when it reaches `highZ` squared ones. */
  lemma ClassificationBySquares(value: real, mean: real, stddev: real, variance: real, config: AnomalyConfig, n: int)
    requires stddev >= 0.0 && stddev * stddev == variance
    ensures
      var cfg := WithDefaults(config);
      var r := ClassifyZScore(ComputeZScore(value, mean, stddev), config, n);
      var d := value - mean;
      && (r.isAnomalous <==> n >= cfg.minSamples && variance > 0.0 && d * d >= cfg.mediumZ * cfg.mediumZ * variance)
      && (r.severity == High <==> n >= cfg.minSamples && variance > 0.0 && d * d >= cfg.highZ * cfg.highZ * variance)
      && (r.isAnomalous <==> r.severity == Medium || r.severity == High)
      && (r.severity == Unknown <==> n < cfg.minSamples)
      && (r.severity == None <==> n >= cfg.minSamples && (variance == 0.0 || d == 0.0))
      && r.severity != Unset && ScoreFits(r)
  {
    if stddev == 0.0 {
      Substitute(stddev, 0.0, stddev);
    }
    if stddev > 0.0 {
      var z, d := ComputeZScore(value, mean, stddev), value - mean;
      QuotientRestores(d, stddev);
      ClassificationOfMultiple(z, stddev, d, config, n, d * d, variance);
    }
  }

  /** The score says how severe the finding is. */
  predicate ScoreFits(r: AnomalyResult) {
    && (r.score == 1.0 <==> r.severity == High)
    && (r.score == 0.7 <==> r.severity == Medium)
    && (r.score == 0.3 <==> r.severity == Low)
    && (r.score == 0.0 <==> r.severity == None || r.severity == Unknown || r.severity == Unset)
  }

  lemma ClassificationOfMultiple(z: real, s: real, d: real, config: AnomalyConfig, n: int, dd: real, ss: real)
    requires s > 0.0 && d == z * s && dd == d * d && ss == s * s
    ensures
      var cfg := WithDefaults(config);
      var r := ClassifyZScore(z, config, n);
      && ss > 0.0
      && (r.isAnomalous <==> n >= cfg.minSamples && dd >= cfg.mediumZ * cfg.mediumZ * ss)
      && (r.severity == High <==> n >= cfg.minSamples && dd >= cfg.highZ * cfg.highZ * ss)
      && (r.isAnomalous <==> r.severity == Medium || r.severity == High)
      && (r.severity == Unknown <==> n < cfg.minSamples)
      && (r.severity == None <==> n >= cfg.minSamples && d == 0.0)
      && r.severity != Unset && ScoreFits(r)
  {
    var cfg := WithDefaults(config);
    if d == 0.0 {
      Cancel(z, 0.0, s);
      Cancel(0.0, z, s);
    }
    if z == 0.0 {
      Substitute(z, 0.0, s);
    }
    ProductPositive(s, s, ss);
    ScaledBound(z, s, d, cfg.mediumZ, dd, ss, cfg.mediumZ * cfg.mediumZ);
    ScaledBound(z, s, d, cfg.highZ, dd, ss, cfg.highZ * cfg.highZ);
  }

  /** A farther sample is never rated lower, on the severity scale or on the score. */
  lemma ClassificationIsMonotone(z: real, z': real, config: AnomalyConfig, n: int)
    requires Abs(z) <= Abs(z')
    ensures Rank(ClassifyZScore(z, config, n).severity) <= Rank(ClassifyZScore(z', config, n).severity)
    ensures ClassifyZScore(z, config, n).score <= ClassifyZScore(z', config, n).score
    ensures ClassifyZScore(z, config, n).isAnomalous ==> ClassifyZScore(z', config, n).isAnomalous
  {
  }
}
