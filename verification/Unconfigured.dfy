/** What the statistics do where they are not configured, as in the shipped policy (config/baseline.yaml):
    in numbers. */
module Unconfigured {
  import opened Common
  import opened Anomaly
  import opened Evaluator
  import opened Series
  import Burst
  import Variance
  import Reputation

  // ----- reputations -----

  predicate NoPenaltiesSet(c: Reputation.ReputationConfig) {
    && c.penaltyAlert <= 0.0 && c.penaltyRemed <= 0.0
    && c.penaltyAnomalyMedium <= 0.0 && c.penaltyAnomalyHigh <= 0.0
    && c.penaltyBurstMedium <= 0.0 && c.penaltyBurstHigh <= 0.0
  }

  /** Nothing is set for the reputations. */
  predicate Unset(c: Reputation.ReputationConfig) {
    && NoPenaltiesSet(c)
    && c.initialScore <= 0.0 && c.minScore <= 0.0 && c.maxScore <= 0.0 && c.neutralScore <= 0.0
    && c.halfLife <= 0 && c.rewardStable <= 0.0
    && c.penaltyDrift <= 0.0 && c.penaltyCooldown <= 0.0 && c.penaltyConflict <= 0.0
    && c.maxEntries <= 0 && c.entryTTL <= 0 && c.cleanupInterval <= 0
  }

  /** With the penalties left alone a worse update never pays, whatever else is configured. */
  lemma WorseNeverGainsByDefault(c: Reputation.ReputationConfig, q: real)
    requires NoPenaltiesSet(c) && Reputation.Fraction(q)
    ensures Reputation.GraverCostsMore(Reputation.WithDefaults(c))
    ensures Reputation.WorseNeverGains(Reputation.WithDefaults(c), q, false)
  {
    hide Reputation.WithDefaults, Reputation.WorseNeverGains;
    var cfg := Reputation.WithDefaults(c);
    Reputation.DefaultsFillGaps(c);
    Reputation.DefaultsAreProper(c);
    Reputation.WorseNeverGainsIff(cfg, q, false);
  }

  /** What an update takes from a score. */
  function Cost(upd: Reputation.ReputationUpdate): real {
    CostOfOutcome(upd) + CostOf(upd.anomalySeverity) + CostOf(upd.burstSeverity)
  }

  function CostOfOutcome(upd: Reputation.ReputationUpdate): real {
    (if upd.wasDrift then 0.02 else 0.0)
    + (if upd.finalAction == Alert then 0.01 else if upd.finalAction == Remediate then 0.03 else 0.0)
    + (if upd.cooldownApplied then 0.005 else 0.0)
    + (if upd.conflictDetected then 0.01 else 0.0)
  }

  function CostOf(s: Severity): real {
    if s == High then 0.02 else if s == Medium then 0.01 else 0.0
  }

  lemma CostsAre(c: Reputation.ReputationConfig, upd: Reputation.ReputationUpdate)
    requires Unset(c)
    ensures Reputation.OutcomePenalties(Reputation.WithDefaults(c), upd) == CostOfOutcome(upd)
    ensures Reputation.SignalPenalties(Reputation.WithDefaults(c), upd)
            == CostOf(upd.anomalySeverity) + CostOf(upd.burstSeverity)
  {
    hide Reputation.WithDefaults;
    Reputation.DefaultsFillGaps(c);
  }

  /** A process starts at a half. An update at once moves its score `s` to max(0, min(1, s + gain) - cost), where
      only an update without a drift and without a high severity gains, 0.001. */
  lemma Charges(c: Reputation.ReputationConfig, q: real, s: real, now: int, upd: Reputation.ReputationUpdate)
    requires Unset(c) && Reputation.Fraction(q) && 0.0 <= s <= 1.0
    ensures
      var gain := if upd.wasDrift || upd.anomalySeverity == High || upd.burstSeverity == High then 0.0 else 0.001;
      Reputation.Judged(Reputation.WithDefaults(c), q, Reputation.Standing(s, At(now)), now, upd)
        == Reputation.Standing(MaxReal(0.0, MinReal(1.0, s + gain) - Cost(upd)), At(now))
    ensures Reputation.WithDefaults(c).initialScore == 0.5
  {
    hide Reputation.WithDefaults, Reputation.Judged, Reputation.OutcomePenalties, Reputation.SignalPenalties,
      CostOfOutcome, CostOf, Reputation.Decayed;
    var cfg, r := Reputation.WithDefaults(c), Reputation.Standing(s, At(now));
    Reputation.DefaultsFillGaps(c);
    Reputation.DefaultsAreProper(c);
    CostsAre(c, upd);
    Reputation.CascadeFuses(cfg, q, r, now, upd);
    StandsStill(cfg, q, r, now);
  }

  lemma StandsStill(cfg: Reputation.ReputationConfig, q: real, r: Reputation.Standing, now: int)
    requires r.lastUpdated == At(now)
    ensures Reputation.Decayed(cfg, q, r, now) == r
  {
  }

  /** What the pipeline reports about a drift, alone, and what a drift is charged for beside it. */
  lemma DriftCharges(c: Reputation.ReputationConfig, q: real, s: real, now: int)
    requires Unset(c) && Reputation.Fraction(q) && 0.0 <= s <= 1.0
    ensures
      var cfg, r := Reputation.WithDefaults(c), Reputation.Standing(s, At(now));
      var allowed := Reputation.ReputationUpdate(true, Allow, false, false, None, None);
      && Reputation.Judged(cfg, q, r, now, allowed).score == MaxReal(0.0, s - 0.02)
      && Reputation.Judged(cfg, q, r, now, allowed.(finalAction := Alert)).score == MaxReal(0.0, s - 0.03)
      && Reputation.Judged(cfg, q, r, now, allowed.(finalAction := Remediate)).score == MaxReal(0.0, s - 0.05)
      && Reputation.Judged(cfg, q, r, now, allowed.(finalAction := Alert, cooldownApplied := true)).score
         == MaxReal(0.0, s - 0.035)
      && Reputation.Judged(cfg, q, r, now, allowed.(finalAction := Alert, conflictDetected := true)).score
         == MaxReal(0.0, s - 0.04)
  {
    hide Reputation.WithDefaults, Reputation.Judged;
    var allowed := Reputation.ReputationUpdate(true, Allow, false, false, None, None);
    Charges(c, q, s, now, allowed);
    Charges(c, q, s, now, allowed.(finalAction := Alert));
    Charges(c, q, s, now, allowed.(finalAction := Remediate));
    Charges(c, q, s, now, allowed.(finalAction := Alert, cooldownApplied := true));
    Charges(c, q, s, now, allowed.(finalAction := Alert, conflictDetected := true));
  }

  /** In half an hour a score comes half as close to one half. */
  lemma HalfAnHour(c: Reputation.ReputationConfig, q: real, s: real, since: int)
    requires Unset(c) && Power(q, 1_800_000_000_000) == 0.5
    ensures
      var r := Reputation.Standing(s, At(since));
      Reputation.Decayed(Reputation.WithDefaults(c), q, r, since + 1_800_000_000_000).score - 0.5 == (s - 0.5) / 2.0
  {
    hide Reputation.WithDefaults, Power, Reputation.Decayed;
    var cfg, r := Reputation.WithDefaults(c), Reputation.Standing(s, At(since));
    Reputation.DefaultsFillGaps(c);
    Reputation.DefaultsAreProper(c);
    Reputation.HalfLives(cfg, q, r, since + 1_800_000_000_000, 1);
    PowerOne(0.5);
  }

  lemma PowerOne(b: real)
    ensures Power(b, 1) == b
  {
    assert Power(b, 0) == 1.0;
  }

  // ----- bursts and anomalies -----

  /** A burst is medium from the tenth event within two seconds on, and high from the twentieth. */
  lemma Bursts(c: Burst.BurstConfig, ts: seq<int>, n: nat)
    requires c.window <= 0 && c.threshold <= 0 && c.maxSamples <= 0
    requires Nondecreasing(ts) && 0 < n <= |ts|
    ensures
      var cfg := Burst.Defaults(c);
      var recent := |set i: nat | i < n && ts[n - 1] - ts[i] < 2_000_000_000|;
      var severity := Burst.SeverityOf(cfg, |Burst.Filled(cfg, ts, n)|);
      severity == if recent >= 20 then High else if recent >= 10 then Medium else None
  {
    hide Burst.Filled, Burst.WindowCount, Burst.ScoreOf;
    var cfg := Burst.Defaults(c);
    Burst.DefaultsUsable(c);
    Burst.ScoreAndAlarmAreExact(cfg, ts, n);
    Burst.WindowIsCounted(cfg, ts, n);
  }

  /** The first eleven events of a series are never anomalous; then one is if its rate is two standard
      deviations off the mean of those before it. */
  lemma Anomalies(cfg: RateConfig, sqrt: real -> real, ts: seq<int>, k: nat)
    requires cfg.anomaly.minSamples <= 0 && cfg.anomaly.mediumZ <= 0.0
    requires Sound(cfg) && Variance.IsSquareRoot(sqrt) && 2 < k <= |ts|
    requires forall i :: 0 <= i < k ==> ts[i] != 0
    ensures
      var past := Rates(cfg, ts)[..k - 2];
      var m := Metrics(cfg, sqrt, Lone(cfg, ts, 0, k - 1), ts[k - 1]);
      var d := m.current - Variance.BatchMean(past);
      m.anomaly.isAnomalous <==>
        k >= 12 && Variance.SampleVariance(past) > 0.0 && d * d >= 4.0 * Variance.SampleVariance(past)
  {
    hide Metrics, Lone, Rates, Variance.BatchMean, Variance.SampleVariance, Variance.IsSquareRoot, CountsAs;
    LimitsAreKept(cfg.anomaly);
    JudgedAgainstThePast(cfg, sqrt, ts, k);
  }
}
