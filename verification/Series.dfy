/** One rate series (stats/engine.go): the statistics kept for one key, as a value that a sequence of
    observations moves along, and as the object that is updated in place. */
module Series {
  import opened Common
  import opened Anomaly
  import opened Burst
  import opened Variance
  import opened Ewma

  datatype RateConfig = RateConfig(
    alpha: real,
    minInterval: int,
    anomaly: AnomalyConfig,
    burst: BurstConfig,
    maxEntries: int,
    entryTTL: int,
    cleanupInterval: int
  )

  /** Every configuration the engine builds has a positive minimum interval. */
  predicate Sound(cfg: RateConfig) {
    cfg.minInterval > 0
  }

  datatype RateMetrics = RateMetrics(
    current: real,
    ewma: real,
    mean: real,
    variance: real,
    stdDev: real,
    sampleCount: int,
    anomaly: AnomalyResult,
    burst: BurstSnapshot
  )

  const NO_METRICS: RateMetrics := RateMetrics(0.0, 0.0, 0.0, 0.0, 0.0, 0, NO_RESULT, NO_BURST)

  /** The per-key state; an instant of zero means that there has been no event yet. */
  datatype SeriesState = SeriesState(
    lastEvent: int,
    lastSeen: int,
    ewma: Average,
    running: Running,
    burst: seq<int>
  )

  function FreshSeries(cfg: RateConfig): SeriesState {
    SeriesState(0, 0, Fresh(cfg.alpha), START, [])
  }

  function Seconds(d: int): (s: real)
    ensures d > 0 ==> s > 0.0
  {
    d as real / SECOND as real
  }

  /** The interval a rate is computed from: never below the minimum, whatever the clock did. */
  function Interval(cfg: RateConfig, elapsed: int): int {
    var dt := if elapsed < cfg.minInterval then cfg.minInterval else elapsed;
    if dt <= 0 then cfg.minInterval else dt
  }

  /** The rate at which events come that are so far apart. */
  function PerSecond(interval: int): real
    requires interval > 0
  {
    1.0 / Seconds(interval)
  }

  function RateOf(cfg: RateConfig, elapsed: int): real
    requires Sound(cfg)
  {
    PerSecond(Interval(cfg, elapsed))
  }

  /** The series after an event at `now`. */
  function Observed(cfg: RateConfig, s: SeriesState, now: int): SeriesState
    requires Sound(cfg)
  {
    var burst := Added(Defaults(cfg.burst), s.burst, now);
    if s.lastEvent == 0 then
      s.(lastSeen := now, lastEvent := now, burst := burst)
    else
      var rate := RateOf(cfg, now - s.lastEvent);
      SeriesState(now, now, Updated(s.ewma, rate), Update(s.running, rate), burst)
  }

  /** What an event at `now` is answered with: the rate is judged against the baseline before it. */
  function Metrics(cfg: RateConfig, sqrt: real -> real, s: SeriesState, now: int): RateMetrics
    requires Sound(cfg)
  {
    var burst := Burst.SnapshotOf(Defaults(cfg.burst), |Added(Defaults(cfg.burst), s.burst, now)|);
    if s.lastEvent == 0 then
      NO_METRICS.(burst := burst)
    else
      var rate := RateOf(cfg, now - s.lastEvent);
      var baseline := Variance.SnapshotOf(s.running, sqrt);
      var z := ComputeZScore(rate, baseline.mean, baseline.stdDev);
      RateMetrics(rate, Updated(s.ewma, rate).value, baseline.mean, baseline.variance, baseline.stdDev,
        baseline.count, ClassifyZScore(z, cfg.anomaly, baseline.count), burst)
  }

  /** A lone series, created for the event at `from` and fed the events up to `n`. */
  function Lone(cfg: RateConfig, ts: seq<int>, from: nat, n: nat): SeriesState
    requires Sound(cfg) && from <= n <= |ts|
  {
    if n == from then FreshSeries(cfg) else Observed(cfg, Lone(cfg, ts, from, n - 1), ts[n - 1])
  }

  // ----- what a series holds is its history -----

  /** The rates between consecutive events. */
  function Rates(cfg: RateConfig, ts: seq<int>): (rates: seq<real>)
    requires Sound(cfg)
    ensures |rates| == if ts == [] then 0 else |ts| - 1
  {
    if ts == [] then [] else seq(|ts| - 1, i requires 0 <= i < |ts| - 1 => RateOf(cfg, ts[i + 1] - ts[i]))
  }

  /** After n events a series holds exactly: the average and the accumulator of the n - 1 rates between
      them, and the burst buffer of all n. */
  lemma {:induction false} SeriesIsHistory(cfg: RateConfig, ts: seq<int>, n: nat)
    requires Sound(cfg) && 0 < n <= |ts|
    requires forall i :: 0 <= i < n ==> ts[i] != 0
    ensures Lone(cfg, ts, 0, n) == SeriesState(ts[n - 1], ts[n - 1],
              Averaged(cfg.alpha, Rates(cfg, ts), n - 1),
              Accumulated(Rates(cfg, ts), n - 1),
              Filled(Defaults(cfg.burst), ts, n))
  {
    hide Updated, Update, Added, Defaults, RateOf;
    if n > 1 {
      SeriesIsHistory(cfg, ts, n - 1);
      assert Rates(cfg, ts)[n - 2] == RateOf(cfg, ts[n - 1] - ts[n - 2]);
    } else {
      assert Lone(cfg, ts, 0, 0) == FreshSeries(cfg);
      assert Filled(Defaults(cfg.burst), ts, 0) == [];
    }
  }

  /** The k-th event is judged against the k - 2 rates before it, so nothing is called anomalous before
      event `minSamples` + 2. */
  lemma WarmUp(cfg: RateConfig, sqrt: real -> real, ts: seq<int>, k: nat)
    requires Sound(cfg) && 0 < k <= |ts|
    requires forall i :: 0 <= i < k ==> ts[i] != 0
    ensures
      var m := Metrics(cfg, sqrt, Lone(cfg, ts, 0, k - 1), ts[k - 1]);
      && m.sampleCount == (if k == 1 then 0 else k - 2)
      && (m.anomaly.isAnomalous ==> k >= Anomaly.WithDefaults(cfg.anomaly).minSamples + 2)
      && (m.anomaly.severity == Unset <==> k == 1)
      && m.burst.count >= 1
      && (k == 1 ==>
            m.current == m.ewma == m.mean == m.variance == m.stdDev == m.anomaly.zScore == m.anomaly.score == 0.0)
  {
    hide Added, Update, Updated, RateOf, Accumulated, Averaged, Filled, Defaults, Rates;
    DefaultsUsable(cfg.burst);
    if k > 1 {
      SeriesIsHistory(cfg, ts, k - 1);
      WelfordKeepsSums(Rates(cfg, ts), k - 2);
    }
    BufferFits(cfg, ts, k - 1);
    LatestIsKept(Defaults(cfg.burst), Lone(cfg, ts, 0, k - 1).burst, ts[k - 1]);
  }

  lemma {:induction false} BufferFits(cfg: RateConfig, ts: seq<int>, n: nat)
    requires Sound(cfg) && n <= |ts|
    ensures |Lone(cfg, ts, 0, n).burst| <= Defaults(cfg.burst).maxSamples
  {
    hide Updated, Update, Defaults, RateOf, Added;
    DefaultsUsable(cfg.burst);
    if n > 0 {
      BufferFits(cfg, ts, n - 1);
      LatestIsKept(Defaults(cfg.burst), Lone(cfg, ts, 0, n - 1).burst, ts[n - 1]);
    }
  }

  /** A series is judged against the batch statistics of its past rates: an event is anomalous exactly
      when there are enough of them, they are not all alike, and the squared deviation from their mean
      reaches `mediumZ` squared sample variances, and of high severity when it reaches `highZ` squared ones.
      The average it reports has its own rate already, and so has the burst. */
  lemma JudgedAgainstThePast(cfg: RateConfig, sqrt: real -> real, ts: seq<int>, k: nat)
    requires Sound(cfg) && IsSquareRoot(sqrt) && 2 < k <= |ts|
    requires forall i :: 0 <= i < k ==> ts[i] != 0
    ensures
      var past := Rates(cfg, ts)[..k - 2];
      var m := Metrics(cfg, sqrt, Lone(cfg, ts, 0, k - 1), ts[k - 1]);
      var limits := Anomaly.WithDefaults(cfg.anomaly);
      var d := m.current - BatchMean(past);
      var judged := k - 2 >= limits.minSamples && m.variance > 0.0;
      && CountsAs(cfg, m.current, ts[k - 1] - ts[k - 2])
      && m.mean == BatchMean(past) && m.variance == SampleVariance(past) && m.sampleCount == k - 2
      && m.stdDev >= 0.0 && m.stdDev * m.stdDev == m.variance
      && (m.anomaly.isAnomalous <==> judged && d * d >= limits.mediumZ * limits.mediumZ * m.variance)
      && (m.anomaly.severity == High <==> judged && d * d >= limits.highZ * limits.highZ * m.variance)
      && m.ewma == Averaged(cfg.alpha, Rates(cfg, ts), k - 1).value
      && m.burst == Burst.SnapshotOf(Defaults(cfg.burst), |Filled(Defaults(cfg.burst), ts, k)|)
  {
    hide *;
    var rates := Rates(cfg, ts);
    var past := rates[..k - 2];
    SeriesIsHistory(cfg, ts, k - 1);
    AccumulatedPrefix(rates, past, k - 2);
    SnapshotIsBatch(past, sqrt);
    JudgedAgainstBaseline(cfg, sqrt, Lone(cfg, ts, 0, k - 1), ts[k - 1]);
    RateIsReciprocal(cfg, ts[k - 1] - ts[k - 2]);
    RateAt(cfg, ts, k - 2);
    OneMoreSample(cfg.alpha, rates, k - 1);
    OneMoreEvent(Defaults(cfg.burst), ts, k);
  }

  lemma RateAt(cfg: RateConfig, ts: seq<int>, i: nat)
    requires Sound(cfg) && i + 1 < |ts|
    ensures i < |Rates(cfg, ts)| && Rates(cfg, ts)[i] == RateOf(cfg, ts[i + 1] - ts[i])
  {
    hide RateOf;
  }

  lemma OneMoreSample(alpha: real, xs: seq<real>, n: nat)
    requires 0 < n <= |xs|
    ensures Averaged(alpha, xs, n) == Updated(Averaged(alpha, xs, n - 1), xs[n - 1])
  {
    hide Updated;
  }

  lemma OneMoreEvent(cfg: BurstConfig, ts: seq<int>, n: nat)
    requires 0 < n <= |ts|
    ensures Filled(cfg, ts, n) == Added(cfg, Filled(cfg, ts, n - 1), ts[n - 1])
  {
    hide Added;
  }

  lemma JudgedAgainstBaseline(cfg: RateConfig, sqrt: real -> real, s: SeriesState, now: int)
    requires Sound(cfg) && s.lastEvent != 0
    requires
      var base := Variance.SnapshotOf(s.running, sqrt);
      base.stdDev >= 0.0 && base.stdDev * base.stdDev == base.variance
    ensures
      var base := Variance.SnapshotOf(s.running, sqrt);
      var m := Metrics(cfg, sqrt, s, now);
      var limits := Anomaly.WithDefaults(cfg.anomaly);
      var d := m.current - base.mean;
      var judged := base.count >= limits.minSamples && base.variance > 0.0;
      && m.current == RateOf(cfg, now - s.lastEvent)
      && m.mean == base.mean && m.variance == base.variance && m.stdDev == base.stdDev && m.sampleCount == base.count
      && (m.anomaly.isAnomalous <==> judged && d * d >= limits.mediumZ * limits.mediumZ * base.variance)
      && (m.anomaly.severity == High <==> judged && d * d >= limits.highZ * limits.highZ * base.variance)
      && m.ewma == Updated(s.ewma, m.current).value
      && m.burst == Burst.SnapshotOf(Defaults(cfg.burst), |Added(Defaults(cfg.burst), s.burst, now)|)
  {
    hide Added, RateOf, Updated, Variance.SnapshotOf, ClassifyZScore, ComputeZScore;
    var base := Variance.SnapshotOf(s.running, sqrt);
    ClassificationBySquares(RateOf(cfg, now - s.lastEvent), base.mean, base.stdDev, base.variance, cfg.anomaly,
                            base.count);
  }

  lemma {:induction false} AccumulatedPrefix(xs: seq<real>, ys: seq<real>, n: nat)
    requires n <= |xs| && n <= |ys|
    requires forall i :: 0 <= i < n ==> xs[i] == ys[i]
    ensures Accumulated(xs, n) == Accumulated(ys, n)
  {
    hide Update;
    if n > 0 {
      AccumulatedPrefix(xs, ys, n - 1);
    }
  }

  // ----- the spread of a real series -----

  /** The greatest rate a configuration allows. */
  function TopRate(cfg: RateConfig): real
    requires Sound(cfg)
  {
    1.0 / Seconds(cfg.minInterval)
  }

  lemma RateIsBounded(cfg: RateConfig, elapsed: int)
    requires Sound(cfg)
    ensures 0.0 < RateOf(cfg, elapsed) <= TopRate(cfg)
    ensures elapsed <= cfg.minInterval ==> RateOf(cfg, elapsed) == TopRate(cfg)
  {
    SecondsOrdered(cfg.minInterval, Interval(cfg, elapsed));
    Reciprocal(Seconds(cfg.minInterval), Seconds(Interval(cfg, elapsed)));
  }

  /** A rate in events per second, times the time that it counts for in nanoseconds, is one second. */
  ghost predicate CountsAs(cfg: RateConfig, rate: real, elapsed: int) {
    && (elapsed >= cfg.minInterval ==> rate * elapsed as real == 1_000_000_000.0)
    && (elapsed <= cfg.minInterval ==> rate * cfg.minInterval as real == 1_000_000_000.0)
  }

  /** The rate is the reciprocal of the time since the last event, or of the minimum interval if that is
      longer. */
  lemma RateIsReciprocal(cfg: RateConfig, elapsed: int)
    requires Sound(cfg)
    ensures elapsed >= cfg.minInterval ==> RateOf(cfg, elapsed) * elapsed as real == 1_000_000_000.0
    ensures elapsed <= cfg.minInterval ==> RateOf(cfg, elapsed) * cfg.minInterval as real == 1_000_000_000.0
    ensures CountsAs(cfg, RateOf(cfg, elapsed), elapsed)
  {
    var dt := Interval(cfg, elapsed);
    PerSecondIs(dt);
  }

  lemma PerSecondIs(dt: int)
    requires dt > 0
    ensures PerSecond(dt) * dt as real == 1_000_000_000.0
  {
    var s := Seconds(dt);
    Quotient(dt as real, SECOND as real, s);
    Quotient(1.0, s, 1.0 / s);
    assert 1.0 / s * (s * SECOND as real) == (1.0 / s * s) * SECOND as real;
  }

  /** Past the minimum interval a longer wait makes a lower rate. */
  lemma RateFalls(cfg: RateConfig, elapsed: int, longer: int)
    requires Sound(cfg) && cfg.minInterval <= elapsed < longer
    ensures RateOf(cfg, longer) < RateOf(cfg, elapsed)
  {
    hide RateOf;
    var r, r' := RateOf(cfg, elapsed), RateOf(cfg, longer);
    RateIsReciprocal(cfg, elapsed);
    RateIsReciprocal(cfg, longer);
    RateIsBounded(cfg, elapsed);
    ProductPositive(r, (longer - elapsed) as real, r * (longer - elapsed) as real);
    assert r * longer as real == r * elapsed as real + r * (longer - elapsed) as real;
    Cancel(r', r, longer as real);
  }

  lemma SecondsOrdered(a: int, b: int)
    requires 0 < a <= b
    ensures 0.0 < Seconds(a) <= Seconds(b)
  {
    QuotientOrder(b as real, SECOND as real, a as real / SECOND as real);
    QuotientOrder(a as real, SECOND as real, 0.0);
  }

  lemma Reciprocal(a: real, b: real)
    requires 0.0 < a <= b
    ensures 0.0 < 1.0 / b <= 1.0 / a
  {
    assert 1.0 / a * a == 1.0 && 1.0 / b * b == 1.0;
    ReciprocalOrder(a, b, 1.0 / a, 1.0 / b);
  }

  lemma ReciprocalOrder(a: real, b: real, p: real, q: real)
    requires 0.0 < a <= b && p * a == 1.0 && q * b == 1.0
    ensures 0.0 < q <= p
  {
    Cancel(0.0, q, b);
    ProductNonnegative(q, b - a, q * (b - a));
    assert q * (b - a) == q * b - q * a;
    Cancel(p, q, a);
  }

  /** In every series that can arise the mean rate lies in (0, M], with M the reciprocal of the minimum
      interval, the spread is at most that of a two-point distribution on 0 and M with the same mean,
      and the moving average lies in (0, M] too. */
  lemma SpreadOfRealSeries(cfg: RateConfig, ts: seq<int>, n: nat)
    requires Sound(cfg) && 1 < n <= |ts|
    requires forall i :: 0 <= i < n ==> ts[i] != 0
    ensures
      var s, top := Lone(cfg, ts, 0, n), TopRate(cfg);
      && s.running.count == n - 1
      && 0.0 < s.running.mean <= top
      && 0.0 <= s.running.m2 <= (n - 1) as real * s.running.mean * (top - s.running.mean)
      && 0.0 < s.ewma.value <= top
  {
    hide *;
    RatesAreBounded(cfg, ts);
    SeriesIsHistory(cfg, ts, n);
    WelfordIsBatch(Rates(cfg, ts), n - 1);
    SpreadIsBounded(Rates(cfg, ts), n - 1, TopRate(cfg));
    AverageIsBounded(cfg.alpha, Rates(cfg, ts), n - 1, TopRate(cfg));
  }

  lemma RatesAreBounded(cfg: RateConfig, ts: seq<int>)
    requires Sound(cfg)
    ensures forall i :: 0 <= i < |Rates(cfg, ts)| ==> 0.0 < Rates(cfg, ts)[i] <= TopRate(cfg)
  {
    hide TopRate, RateOf;
    forall i | 0 <= i < |Rates(cfg, ts)| ensures 0.0 < Rates(cfg, ts)[i] <= TopRate(cfg) {
      RateIsBounded(cfg, ts[i + 1] - ts[i]);
    }
  }

  lemma {:induction false} AverageIsBounded(alpha: real, xs: seq<real>, n: nat, top: real)
    requires 0 < n <= |xs|
    requires forall i :: 0 <= i < n ==> 0.0 < xs[i] <= top
    ensures Averaged(alpha, xs, n).initialized
    ensures 0.0 < Averaged(alpha, xs, n).alpha <= 1.0
    ensures 0.0 < Averaged(alpha, xs, n).value <= top
  {
    hide Mix;
    if n > 1 {
      AverageIsBounded(alpha, xs, n - 1, top);
      var e, x := Averaged(alpha, xs, n - 1), xs[n - 1];
      Blend(e.alpha, x, e.value, MinReal(e.value, x), top);
    } else {
      assert Averaged(alpha, xs, 0) == Fresh(alpha);
    }
  }

  // ----- anomalies happen -----

  /** Events far apart, the first two half as far as the others, and a last one at the minimum interval. */
  function Surprise(cfg: RateConfig, n: nat, gap: int): (ts: seq<int>)
    ensures |ts| == n + 2
  {
    seq(n + 1, i requires 0 <= i < n + 1 => Apart(gap, i)) + [Apart(gap, n) + cfg.minInterval]
  }

  function Apart(gap: int, i: nat): int {
    if i == 0 then 1 else 1 + gap + (i - 1) * (2 * gap)
  }

  lemma ApartIs(gap: int, i: nat)
    requires gap > 0
    ensures Apart(gap, i) > 0
    ensures Apart(gap, i + 1) - Apart(gap, i) == if i == 0 then gap else 2 * gap
  {
    if i > 0 {
      ProductNonnegative((i - 1) as real, (2 * gap) as real, (i - 1) as real * (2 * gap) as real);
      assert i * (2 * gap) == (i - 1) * (2 * gap) + 2 * gap;
      assert (i - 1) * (2 * gap) >= 0;
    }
  }

  /** A gap so long that its rate, taken `times` times, is no more than the top rate. */
  lemma LowRate(cfg: RateConfig, times: int, gap: int)
    requires Sound(cfg) && times > 0 && gap == times * cfg.minInterval
    ensures gap >= cfg.minInterval && RateOf(cfg, gap) * times as real == TopRate(cfg)
  {
    hide RateOf, TopRate;
    var r, top := RateOf(cfg, gap), TopRate(cfg);
    assert gap == cfg.minInterval + (times - 1) * cfg.minInterval && (times - 1) * cfg.minInterval >= 0;
    RateIsReciprocal(cfg, gap);
    RateIsReciprocal(cfg, cfg.minInterval);
    RateIsBounded(cfg, cfg.minInterval);
    var m := cfg.minInterval as real;
    assert r * (times as real * m) == (r * times as real) * m;
    Cancel(r * times as real, top, m);
    Cancel(top, r * times as real, m);
  }

  lemma SurpriseAt(cfg: RateConfig, n: nat, gap: int, i: nat)
    requires Sound(cfg) && gap >= cfg.minInterval && i <= n
    ensures
      var ts := Surprise(cfg, n, gap);
      ts[i] > 0 && ts[i + 1] - ts[i] == if i == n then cfg.minInterval else if i == 0 then gap else 2 * gap
  {
    hide Apart;
    ApartIs(gap, i);
  }

  lemma SurpriseIsOrdered(cfg: RateConfig, n: nat, gap: int)
    requires Sound(cfg) && n >= 2 && gap >= cfg.minInterval
    ensures Nondecreasing(Surprise(cfg, n, gap)) && Surprise(cfg, n, gap)[0] > 0
  {
    hide Surprise, Nondecreasing;
    var ts := Surprise(cfg, n, gap);
    forall i: nat | i < |ts| - 1 ensures ts[i] > 0 && ts[i + 1] >= ts[i] {
      SurpriseAt(cfg, n, gap, i);
    }
    StepsAreOrdered(ts);
  }

  lemma SurpriseRates(cfg: RateConfig, n: nat, gap: int)
    requires Sound(cfg) && n >= 2 && gap >= cfg.minInterval
    ensures
      var past := Rates(cfg, Surprise(cfg, n, gap))[..n];
      (forall i :: 0 <= i < n ==> 0.0 < past[i] <= RateOf(cfg, gap)) && past[1] < past[0]
  {
    hide RateOf, Surprise, Sound;
    var ts := Surprise(cfg, n, gap);
    forall i: nat | i < n
      ensures Rates(cfg, ts)[i] == RateOf(cfg, if i == 0 then gap else 2 * gap)
    {
      SurpriseAt(cfg, n, gap, i);
    }
    LongerGap(cfg, gap);
  }

  lemma LongerGap(cfg: RateConfig, gap: int)
    requires Sound(cfg) && gap >= cfg.minInterval
    ensures 0.0 < RateOf(cfg, 2 * gap) < RateOf(cfg, gap)
  {
    hide RateOf;
    RateIsBounded(cfg, 2 * gap);
    RateFalls(cfg, gap, 2 * gap);
  }

  lemma StepsAreOrdered(ts: seq<int>)
    requires forall i: nat :: i < |ts| - 1 ==> ts[i + 1] >= ts[i]
    ensures Nondecreasing(ts)
  {
    forall i: nat, j: nat | i <= j < |ts| ensures ts[i] <= ts[j] {
      StepsOrder(ts, i, j);
    }
  }

  lemma {:induction false} StepsOrder(ts: seq<int>, i: nat, j: nat)
    requires i <= j < |ts| && forall i: nat :: i < |ts| - 1 ==> ts[i + 1] >= ts[i]
    ensures ts[i] <= ts[j]
  {
    if i < j {
      StepsOrder(ts, i, j - 1);
      assert ts[j - 1 + 1] >= ts[j - 1];
    }
  }

  /** For every configuration there is an ordered history whose last event is called anomalous. */
  lemma SomeEventIsAnomalous(cfg: RateConfig, sqrt: real -> real) returns (ts: seq<int>, k: nat)
    requires Sound(cfg) && IsSquareRoot(sqrt)
    ensures 2 < k == |ts| && Nondecreasing(ts) && ts[0] > 0
    ensures Metrics(cfg, sqrt, Lone(cfg, ts, 0, k - 1), ts[k - 1]).anomaly.isAnomalous
  {
    hide *;
    var limits := Anomaly.WithDefaults(cfg.anomaly);
    LimitsArePositive(cfg.anomaly);
    var n := if limits.minSamples < 2 then 2 else limits.minSamples;
    var times := (2.0 * limits.mediumZ).Floor + 2;
    var gap := times * cfg.minInterval;
    SoundIs(cfg);
    LowRate(cfg, times, gap);
    ts, k := Surprise(cfg, n, gap), n + 2;
    SurpriseIsOrdered(cfg, n, gap);
    SurpriseAt(cfg, n, gap, n);
    SurpriseRates(cfg, n, gap);
    OrderedIsPositive(ts);
    var past := Rates(cfg, ts)[..n];
    var low, top := RateOf(cfg, gap), TopRate(cfg);
    MeanOfRates(past, low);
    VarianceOfRates(past, low);
    FarOff(top, low, times as real, limits.mediumZ, BatchMean(past), SampleVariance(past));
    AnomalousAtTop(cfg, sqrt, ts, k);
  }

  lemma AnomalousAtTop(cfg: RateConfig, sqrt: real -> real, ts: seq<int>, k: nat)
    requires Sound(cfg) && IsSquareRoot(sqrt) && 2 < k <= |ts| && ts[k - 1] - ts[k - 2] == cfg.minInterval
    requires forall i :: 0 <= i < k ==> ts[i] != 0
    requires
      var past, limits := Rates(cfg, ts)[..k - 2], Anomaly.WithDefaults(cfg.anomaly);
      var d := TopRate(cfg) - BatchMean(past);
      k - 2 >= limits.minSamples && SampleVariance(past) > 0.0
      && d * d >= limits.mediumZ * limits.mediumZ * SampleVariance(past)
    ensures Metrics(cfg, sqrt, Lone(cfg, ts, 0, k - 1), ts[k - 1]).anomaly.isAnomalous
  {
    hide *;
    JudgedAgainstThePast(cfg, sqrt, ts, k);
    TopOnly(cfg, Metrics(cfg, sqrt, Lone(cfg, ts, 0, k - 1), ts[k - 1]).current);
  }

  lemma SoundIs(cfg: RateConfig)
    ensures Sound(cfg) <==> cfg.minInterval > 0
  {
  }

  lemma OrderedIsPositive(ts: seq<int>)
    requires Nondecreasing(ts) && ts != [] && ts[0] > 0
    ensures forall i :: 0 <= i < |ts| ==> ts[i] != 0
  {
  }

  lemma LimitsArePositive(c: AnomalyConfig)
    ensures Anomaly.WithDefaults(c).minSamples > 0 && Anomaly.WithDefaults(c).mediumZ > 0.0
  {
  }

  lemma TopOnly(cfg: RateConfig, rate: real)
    requires Sound(cfg) && CountsAs(cfg, rate, cfg.minInterval)
    ensures rate == TopRate(cfg)
  {
    hide TopRate;
    RateIsReciprocal(cfg, cfg.minInterval);
    RateIsBounded(cfg, cfg.minInterval);
    Cancel(rate, TopRate(cfg), cfg.minInterval as real);
    Cancel(TopRate(cfg), rate, cfg.minInterval as real);
  }

  lemma MeanOfRates(past: seq<real>, low: real)
    requires |past| >= 2 && forall i :: 0 <= i < |past| ==> 0.0 < past[i] <= low
    ensures 0.0 < BatchMean(past) <= low
  {
    hide *;
    SpreadIsBounded(past, |past|, low);
    BatchOfAll(past, Accumulated(past, |past|).mean, Accumulated(past, |past|).m2);
  }

  lemma VarianceOfRates(past: seq<real>, low: real)
    requires |past| >= 2 && forall i :: 0 <= i < |past| ==> 0.0 < past[i] <= low
    requires past[1] < past[0]
    ensures 0.0 < SampleVariance(past) <= 2.0 * low * low
  {
    hide *;
    var n := |past|;
    var mean, m2 := Accumulated(past, n).mean, Accumulated(past, n).m2;
    SpreadIsBounded(past, n, low);
    BatchOfAll(past, mean, m2);
    TwoDiffer(past, n, mean);
    WelfordIsBatch(past, n);
    VarianceIs(past, m2);
    SpreadInRange(n as real, mean, low, m2);
  }

  lemma VarianceIs(past: seq<real>, m2: real)
    requires |past| >= 2 && m2 == Deviation(past, |past|, BatchMean(past))
    ensures SampleVariance(past) == m2 / (|past| - 1) as real
  {
  }

  lemma {:induction false} TwoDiffer(past: seq<real>, n: nat, centre: real)
    requires 2 <= n <= |past| && past[1] != past[0]
    ensures Deviation(past, n, centre) > 0.0
  {
    hide Square;
    SquareNonnegative(past[n - 1] - centre);
    if n == 2 {
      SquareNonnegative(past[0] - centre);
      assert Deviation(past, 0, centre) == 0.0;
      assert Deviation(past, 1, centre) == Square(past[0] - centre);
      SquarePositive(past[if past[0] != centre then 0 else 1] - centre);
    } else {
      TwoDiffer(past, n - 1, centre);
    }
  }

  lemma SquarePositive(d: real)
    requires d != 0.0
    ensures Square(d) > 0.0
  {
    if d > 0.0 {
      ProductPositive(d, d, Square(d));
    } else {
      ProductPositive(-d, -d, Square(d));
    }
  }

  lemma SpreadInRange(n: real, mean: real, low: real, m2: real)
    requires n >= 2.0 && 0.0 < mean <= low && 0.0 < m2 <= n * mean * (low - mean)
    ensures 0.0 < m2 / (n - 1.0) <= 2.0 * low * low
  {
    var s, ll := mean * (low - mean), low * low;
    ProductNonnegative(low - mean, low, (low - mean) * low);
    ProductNonnegative(mean, mean, mean * mean);
    ProductNonnegative(low, low, ll);
    assert s == mean * low - mean * mean <= ll;
    assert n * mean * (low - mean) == n * s;
    Cancel(ll, s, n);
    ProductNonnegative(n - 2.0, ll, (n - 2.0) * ll);
    assert 2.0 * ll * (n - 1.0) == n * ll + (n - 2.0) * ll;
    QuotientOrder(m2, n - 1.0, 2.0 * ll);
    QuotientOrder(m2, n - 1.0, 0.0);
    Quotient(m2, n - 1.0, m2 / (n - 1.0));
    assert 2.0 * ll == 2.0 * low * low;
  }

  /** The top rate is far off a mean of low ones. */
  lemma FarOff(top: real, low: real, times: real, z: real, mean: real, variance: real)
    requires z > 0.0 && times >= 1.0 + 2.0 * z && low * times == top
    requires 0.0 < mean <= low && 0.0 < variance <= 2.0 * low * low
    ensures (top - mean) * (top - mean) >= z * z * variance
  {
    var d, e, zz, ll := top - mean, 2.0 * z * low, z * z, low * low;
    ProductNonnegative(times - 1.0 - 2.0 * z, low, (times - 1.0 - 2.0 * z) * low);
    assert (times - 1.0 - 2.0 * z) * low == low * times - low - e;
    assert d >= e;
    ProductPositive(z, low, z * low);
    ProductNonnegative(d - e, d, (d - e) * d);
    ProductNonnegative(d - e, e, (d - e) * e);
    assert d * d - e * e == (d - e) * d + (d - e) * e;
    ProductPositive(z, z, zz);
    ProductPositive(low, low, ll);
    FourTimes(z, low, e, zz, ll);
    Cancel(2.0 * ll, variance, zz);
    ProductPositive(zz, ll, zz * ll);
    assert 2.0 * ll * zz == 2.0 * (zz * ll);
    assert variance * zz == zz * variance;
  }

  lemma FourTimes(z: real, low: real, e: real, zz: real, ll: real)
    requires e == 2.0 * z * low && zz == z * z && ll == low * low
    ensures e * e == 4.0 * (zz * ll)
  {
    var p := z * low;
    assert e == 2.0 * p;
    assert e * e == 4.0 * (p * p);
    assert p * p == (z * z) * (low * low);
  }

  // ----- the series in place -----

  class RateSeries {
    var lastEvent: int
    var lastSeen: int
    const ewma: EwmaStat
    const running: RunningStat
    const burst: BurstDetector

    constructor (cfg: RateConfig)
      ensures Valid(cfg) && Abstract() == FreshSeries(cfg)
      ensures fresh(Repr())
    {
      lastEvent, lastSeen := 0, 0;
      ewma := new EwmaStat(cfg.alpha);
      running := new RunningStat();
      burst := new BurstDetector(cfg.burst);
    }

    /** The parts of a series are its own and never replaced. */
    ghost function Repr(): set<object> {
      {this, ewma, running, burst, burst.buf}
    }

    ghost predicate Valid(cfg: RateConfig)
      reads Repr()
    {
      burst.Valid() && burst.cfg == Defaults(cfg.burst)
    }

    ghost function Abstract(): SeriesState
      requires burst in Repr() && burst.Valid()
      reads Repr()
    {
      SeriesState(lastEvent, lastSeen, ewma.Abstract(), running.Abstract(), burst.Contents())
    }

    /** One event of this series. */
    method Observe(cfg: RateConfig, sqrt: real -> real, now: int) returns (r: RateMetrics)
      requires Sound(cfg) && Valid(cfg)
      modifies Repr()
      ensures Valid(cfg)
      ensures Abstract() == Observed(cfg, old(Abstract()), now)
      ensures r == Metrics(cfg, sqrt, old(Abstract()), now)
    {
      hide Updated, Update, Added, Defaults, Burst.SnapshotOf, Variance.SnapshotOf, ComputeZScore, ClassifyZScore,
        PerSecond,
        BurstDetector.Contents, BurstDetector.Valid;
      lastSeen := now;
      var snapshot := burst.Add(now);
      var prev := lastEvent;
      lastEvent := now;
      if prev == 0 {
        return NO_METRICS.(burst := snapshot);
      }
      var dt := now - prev;
      if dt < cfg.minInterval {
        dt := cfg.minInterval;
      }
      if dt <= 0 {
        dt := cfg.minInterval;
      }
      r := Judge(cfg, sqrt, PerSecond(dt), snapshot);
    }

    /** Judges a rate against the baseline before it, which it then joins. */
    method Judge(cfg: RateConfig, sqrt: real -> real, currentRate: real, snapshot: BurstSnapshot)
      returns (r: RateMetrics)
      modifies ewma, running
      ensures ewma.Abstract() == Updated(old(ewma.Abstract()), currentRate)
      ensures running.Abstract() == Update(old(running.Abstract()), currentRate)
      ensures
        var baseline := Variance.SnapshotOf(old(running.Abstract()), sqrt);
        var z := ComputeZScore(currentRate, baseline.mean, baseline.stdDev);
        r == RateMetrics(currentRate, ewma.Abstract().value, baseline.mean, baseline.variance, baseline.stdDev,
               baseline.count, ClassifyZScore(z, cfg.anomaly, baseline.count), snapshot)
    {
      hide Updated, Update, Variance.SnapshotOf, ComputeZScore, ClassifyZScore;
      var baseline := running.Snapshot(sqrt);
      var z := ComputeZScore(currentRate, baseline.mean, baseline.stdDev);
      var anomaly := ClassifyZScore(z, cfg.anomaly, baseline.count);
      running.Observe(currentRate);
      var average := ewma.Observe(currentRate);
      r := RateMetrics(currentRate, average, baseline.mean, baseline.variance, baseline.stdDev,
        baseline.count, anomaly, snapshot);
    }
  }
}
