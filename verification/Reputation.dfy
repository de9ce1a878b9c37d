/** Process reputation (stats/reputation.go): a lazily decayed, clamped score, moved by rewards and
    penalties. Elapsed time enters as a whole number of nanoseconds, so the decay factor of the source,
    one half to the power elapsed / half-life, is `Power(q, elapsed)` for the `q` with
    `Power(q, halfLife) == 1/2`. */
module Reputation {
  import opened Common
  import opened Anomaly
  import opened Evaluator

  datatype ReputationConfig = ReputationConfig(
    initialScore: real,
    minScore: real,
    maxScore: real,
    neutralScore: real,
    halfLife: int,
    rewardStable: real,
    penaltyDrift: real,
    penaltyAlert: real,
    penaltyRemed: real,
    penaltyCooldown: real,
    penaltyConflict: real,
    penaltyAnomalyMedium: real,
    penaltyAnomalyHigh: real,
    penaltyBurstMedium: real,
    penaltyBurstHigh: real,
    maxEntries: int,
    entryTTL: int,
    cleanupInterval: int
  )

  function Or(x: real, default: real): real {
    if x <= 0.0 then default else x
  }

  function OrInt(x: int, default: int): int {
    if x <= 0 then default else x
  }

  function Clamp(x: real, lo: real, hi: real): real {
    var atLeast := if x < lo then lo else x;
    if atLeast > hi then hi else atLeast
  }

  function WithDefaults(c: ReputationConfig): ReputationConfig {
    var minScore := if c.minScore < 0.0 then 0.0 else c.minScore;
    var givenMax := Or(c.maxScore, 1.0);
    var maxScore := if givenMax < minScore then minScore else givenMax;
    ReputationConfig(
      Clamp(Or(c.initialScore, 0.5), minScore, maxScore),
      minScore,
      maxScore,
      Clamp(Or(c.neutralScore, 0.5), minScore, maxScore),
      OrInt(c.halfLife, 30 * MINUTE),
      Or(c.rewardStable, 0.001),
      Or(c.penaltyDrift, 0.02),
      Or(c.penaltyAlert, 0.01),
      Or(c.penaltyRemed, 0.03),
      Or(c.penaltyCooldown, 0.005),
      Or(c.penaltyConflict, 0.01),
      Or(c.penaltyAnomalyMedium, 0.01),
      Or(c.penaltyAnomalyHigh, 0.02),
      Or(c.penaltyBurstMedium, 0.01),
      Or(c.penaltyBurstHigh, 0.02),
      OrInt(c.maxEntries, 2048),
      OrInt(c.entryTTL, 30 * MINUTE),
      OrInt(c.cleanupInterval, MINUTE)
    )
  }

  /** What every defaulted configuration satisfies. */
  predicate Proper(c: ReputationConfig) {
    && 0.0 <= c.minScore <= c.neutralScore <= c.maxScore && 0.0 < c.maxScore && 0.0 < c.neutralScore
    && c.minScore <= c.initialScore <= c.maxScore && 0.0 < c.initialScore
    && c.halfLife > 0 && c.rewardStable > 0.0
    && c.penaltyDrift > 0.0 && c.penaltyAlert > 0.0 && c.penaltyRemed > 0.0
    && c.penaltyCooldown > 0.0 && c.penaltyConflict > 0.0
    && c.penaltyAnomalyMedium > 0.0 && c.penaltyAnomalyHigh > 0.0
    && c.penaltyBurstMedium > 0.0 && c.penaltyBurstHigh > 0.0
    && c.maxEntries > 0 && c.entryTTL > 0 && c.cleanupInterval > 0
  }

  /** Defaulting yields a proper configuration, and leaves exactly the proper ones alone, so the source's
      repeated defaulting of one configuration changes nothing. */
  lemma DefaultsAreProper(c: ReputationConfig)
    ensures Proper(WithDefaults(c))
    ensures WithDefaults(c) == c <==> Proper(c)
    ensures WithDefaults(WithDefaults(c)) == WithDefaults(c)
  {
  }

  /** A positive value is kept, and any other is replaced. */
  predicate Filled(given: real, default: real, value: real) {
    value == if given > 0.0 then given else default
  }

  predicate FilledInt(given: int, default: int, value: int) {
    value == if given > 0 then given else default
  }

  /** Each value on its own is kept if it is positive; the scores are then brought into their range. Half-lives
      and times to live are half an hour, and passes a minute apart. */
  lemma DefaultsFillGaps(c: ReputationConfig)
    ensures
      var d := WithDefaults(c);
      && Filled(c.rewardStable, 0.001, d.rewardStable)
      && Filled(c.penaltyDrift, 0.02, d.penaltyDrift)
      && Filled(c.penaltyAlert, 0.01, d.penaltyAlert)
      && Filled(c.penaltyRemed, 0.03, d.penaltyRemed)
      && Filled(c.penaltyCooldown, 0.005, d.penaltyCooldown)
      && Filled(c.penaltyConflict, 0.01, d.penaltyConflict)
      && Filled(c.penaltyAnomalyMedium, 0.01, d.penaltyAnomalyMedium)
      && Filled(c.penaltyAnomalyHigh, 0.02, d.penaltyAnomalyHigh)
      && Filled(c.penaltyBurstMedium, 0.01, d.penaltyBurstMedium)
      && Filled(c.penaltyBurstHigh, 0.02, d.penaltyBurstHigh)
      && FilledInt(c.halfLife, 1_800_000_000_000, d.halfLife)
      && FilledInt(c.maxEntries, 2048, d.maxEntries)
      && FilledInt(c.entryTTL, 1_800_000_000_000, d.entryTTL)
      && FilledInt(c.cleanupInterval, 60_000_000_000, d.cleanupInterval)
    ensures
      var d := WithDefaults(c);
      && (c.minScore >= 0.0 ==> d.minScore == c.minScore) && (c.minScore <= 0.0 ==> d.minScore == 0.0)
      && (c.maxScore > 0.0 ==> d.maxScore == MaxReal(c.maxScore, d.minScore))
      && (c.maxScore <= 0.0 ==> d.maxScore == MaxReal(1.0, d.minScore))
      && (0.0 < c.initialScore && d.minScore <= c.initialScore <= d.maxScore ==> d.initialScore == c.initialScore)
      && (0.0 < c.neutralScore && d.minScore <= c.neutralScore <= d.maxScore ==> d.neutralScore == c.neutralScore)
      && (c.initialScore <= 0.0 && d.minScore <= 0.5 <= d.maxScore ==> d.initialScore == 0.5)
      && (c.neutralScore <= 0.0 && d.minScore <= 0.5 <= d.maxScore ==> d.neutralScore == 0.5)
  {
  }

  // ----- the score -----

  datatype Standing = Standing(score: real, lastUpdated: Moment)

  /** Moves the score towards neutral; a clock that went back moves nothing. (The source's test for a
      half-life of zero comes after the defaulting that rules it out.) */
  function Decayed(config: ReputationConfig, q: real, r: Standing, now: int): Standing {
    var cfg := WithDefaults(config);
    match r.lastUpdated
    case Never => r.(lastUpdated := At(now))
    case At(last) =>
      if now - last <= 0 then r
      else Standing(Toward(cfg.neutralScore, r.score, Power(q, now - last)), At(now))
  }

  /** The score after its distance to neutral has shrunk by a factor. */
  function Toward(neutral: real, score: real, factor: real): real {
    neutral + (score - neutral) * factor
  }

  function Increased(config: ReputationConfig, q: real, r: Standing, delta: real, now: int): Standing {
    var cfg := WithDefaults(config);
    var raised := Decayed(cfg, q, r, now).score + delta;
    var capped := if raised > cfg.maxScore then cfg.maxScore else raised;
    Standing(if capped < cfg.minScore then cfg.minScore else capped, At(now))
  }

  function Decreased(config: ReputationConfig, q: real, r: Standing, delta: real, now: int): Standing {
    var cfg := WithDefaults(config);
    Standing(Clamp(Decayed(cfg, q, r, now).score - delta, cfg.minScore, cfg.maxScore), At(now))
  }

  /** What `GetScore` leaves behind; its score is the answer. */
  function Scored(config: ReputationConfig, q: real, r: Standing, now: int): Standing {
    var cfg := WithDefaults(config);
    var d := Decayed(cfg, q, r, now);
    d.(score := Clamp(d.score, cfg.minScore, cfg.maxScore))
  }

  datatype ReputationUpdate = ReputationUpdate(
    wasDrift: bool,
    finalAction: Action,
    cooldownApplied: bool,
    conflictDetected: bool,
    anomalySeverity: Severity,
    burstSeverity: Severity
  )

  predicate IsStable(upd: ReputationUpdate) {
    !upd.wasDrift && upd.anomalySeverity != High && upd.burstSeverity != High
  }

  function Penalized(config: ReputationConfig, q: real, r: Standing, applies: bool, delta: real, now: int): Standing {
    if applies then Decreased(config, q, r, delta, now) else r
  }

  /** The penalties for what happened, one call of the source each, in its order. */
  function PenalizedForOutcome(cfg: ReputationConfig, q: real, r: Standing, now: int, upd: ReputationUpdate): Standing {
    var r1 := Penalized(cfg, q, r, upd.wasDrift, cfg.penaltyDrift, now);
    var r2 := Penalized(cfg, q, r1, upd.finalAction == Alert, cfg.penaltyAlert, now);
    var r3 := Penalized(cfg, q, r2, upd.finalAction == Remediate, cfg.penaltyRemed, now);
    var r4 := Penalized(cfg, q, r3, upd.cooldownApplied, cfg.penaltyCooldown, now);
    Penalized(cfg, q, r4, upd.conflictDetected, cfg.penaltyConflict, now)
  }

  /** The penalties for the behavioural signals. */
  function PenalizedForSignals(cfg: ReputationConfig, q: real, r: Standing, now: int, upd: ReputationUpdate): Standing {
    var r1 := Penalized(cfg, q, r, upd.anomalySeverity == High, cfg.penaltyAnomalyHigh, now);
    var r2 := Penalized(cfg, q, r1, upd.anomalySeverity == Medium, cfg.penaltyAnomalyMedium, now);
    var r3 := Penalized(cfg, q, r2, upd.burstSeverity == High, cfg.penaltyBurstHigh, now);
    Penalized(cfg, q, r3, upd.burstSeverity == Medium, cfg.penaltyBurstMedium, now)
  }

  /** The standing after an update. */
  function Judged(cfg: ReputationConfig, q: real, r: Standing, now: int, upd: ReputationUpdate): Standing {
    var scored := Scored(cfg, q, r, now);
    var rewarded := if IsStable(upd) then Increased(cfg, q, scored, cfg.rewardStable, now) else scored;
    var charged := PenalizedForOutcome(cfg, q, rewarded, now, upd);
    Scored(cfg, q, PenalizedForSignals(cfg, q, charged, now, upd), now)
  }

  // ----- decay -----

  ghost predicate InRange(cfg: ReputationConfig, r: Standing) {
    cfg.minScore <= r.score <= cfg.maxScore
  }

  ghost predicate Fraction(q: real) {
    0.0 < q < 1.0
  }

  lemma {:induction false} PowerOfFraction(q: real, n: nat)
    requires Fraction(q)
    ensures 0.0 < Power(q, n) <= 1.0
  {
    if n > 0 {
      PowerOfFraction(q, n - 1);
      ProductPositive(q, Power(q, n - 1), Power(q, n));
      ProductNonnegative(1.0 - q, Power(q, n - 1), (1.0 - q) * Power(q, n - 1));
      assert (1.0 - q) * Power(q, n - 1) == Power(q, n - 1) - Power(q, n);
    }
  }

  lemma {:induction false} PowerAdds(q: real, a: nat, b: nat)
    ensures Power(q, a + b) == Power(q, a) * Power(q, b)
  {
    if a > 0 {
      PowerAdds(q, a - 1, b);
      assert a + b - 1 == (a - 1) + b;
      Associates(q, Power(q, a - 1), Power(q, b));
    }
  }

  lemma Associates(a: real, b: real, c: real)
    ensures a * (b * c) == (a * b) * c
  {
  }

  lemma TowardStays(neutral: real, score: real, factor: real)
    requires 0.0 < factor <= 1.0
    ensures
      var d := Toward(neutral, score, factor);
      if score >= neutral then neutral <= d <= score else score <= d <= neutral
  {
    Shrinks(score - neutral, factor, (score - neutral) * factor);
  }

  lemma TowardTwice(neutral: real, score: real, f: real, g: real, fg: real)
    requires fg == f * g
    ensures Toward(neutral, Toward(neutral, score, f), g) == Toward(neutral, score, fg)
  {
    Associates(score - neutral, f, g);
  }

  lemma TowardIsMonotone(neutral: real, score: real, score': real, factor: real)
    requires 0.0 < factor && score' <= score
    ensures Toward(neutral, score', factor) <= Toward(neutral, score, factor)
  {
    Cancel(score - neutral, score' - neutral, factor);
  }

  lemma TowardByOne(neutral: real, score: real)
    ensures Toward(neutral, score, 1.0) == score
  {
  }

  /** A decayed score lies between the old score and the neutral one, so it stays in range and the clamp
      that follows a decay has nothing to do. */
  lemma DecayStaysInRange(cfg: ReputationConfig, q: real, r: Standing, now: int)
    requires Proper(cfg) && Fraction(q) && InRange(cfg, r)
    ensures InRange(cfg, Decayed(cfg, q, r, now))
    ensures Scored(cfg, q, r, now) == Decayed(cfg, q, r, now)
    ensures
      var d := Decayed(cfg, q, r, now).score;
      if r.score >= cfg.neutralScore then cfg.neutralScore <= d <= r.score else r.score <= d <= cfg.neutralScore
    ensures r.lastUpdated.At? && now <= r.lastUpdated.time ==> Decayed(cfg, q, r, now) == r
    ensures r.lastUpdated.Never? ==> Decayed(cfg, q, r, now) == Standing(r.score, At(now))
  {
    hide WithDefaults, Power, Proper, Toward;
    ProperIsKept(cfg);
    if r.lastUpdated.At? && now - r.lastUpdated.time > 0 {
      PowerOfFraction(q, now - r.lastUpdated.time);
      TowardStays(cfg.neutralScore, r.score, Power(q, now - r.lastUpdated.time));
    }
  }

  lemma ProperIsKept(cfg: ReputationConfig)
    requires Proper(cfg)
    ensures WithDefaults(cfg) == cfg
    ensures cfg.minScore <= cfg.neutralScore <= cfg.maxScore && cfg.halfLife > 0
  {
  }

  lemma Shrinks(d: real, f: real, p: real)
    requires 0.0 < f <= 1.0 && p == d * f
    ensures d >= 0.0 ==> 0.0 <= p <= d
    ensures d <= 0.0 ==> d <= p <= 0.0
  {
    if d >= 0.0 {
      ProductNonnegative(d, f, p);
      ProductNonnegative(d, 1.0 - f, d * (1.0 - f));
    } else {
      ProductNonnegative(-d, f, -d * f);
      ProductNonnegative(-d, 1.0 - f, -d * (1.0 - f));
    }
  }

  /** Decay is path independent: stopping on the way changes nothing. */
  lemma DecayComposes(cfg: ReputationConfig, q: real, r: Standing, t: int, now: int)
    requires Proper(cfg)
    requires r.lastUpdated.At? ==> r.lastUpdated.time <= t
    requires t <= now
    ensures Decayed(cfg, q, Decayed(cfg, q, r, t), now).score ==
              if r.lastUpdated.At? then Decayed(cfg, q, r, now).score
              else Decayed(cfg, q, Standing(r.score, At(t)), now).score
    ensures Decayed(cfg, q, Decayed(cfg, q, r, t), now).lastUpdated == At(now)
    ensures r.lastUpdated.At? ==> Decayed(cfg, q, Decayed(cfg, q, r, t), now) == Decayed(cfg, q, r, now)
  {
    hide WithDefaults, Power, Proper, Toward;
    ProperIsKept(cfg);
    if r.lastUpdated.At? && r.lastUpdated.time < t < now {
      var a, b := t - r.lastUpdated.time, now - t;
      PowerAdds(q, a, b);
      assert a + b == now - r.lastUpdated.time;
      TowardTwice(cfg.neutralScore, r.score, Power(q, a), Power(q, b), Power(q, a + b));
    }
  }

  /** After k half-lives the distance to the neutral score is divided by 2 to the k. */
  lemma HalfLives(cfg: ReputationConfig, q: real, r: Standing, now: int, k: nat)
    requires Proper(cfg) && Power(q, cfg.halfLife) == 0.5
    requires r.lastUpdated.At? && now == r.lastUpdated.time + k * cfg.halfLife
    ensures Decayed(cfg, q, r, now).score - cfg.neutralScore == (r.score - cfg.neutralScore) * Power(0.5, k)
  {
    hide WithDefaults, Proper, Power, Toward;
    ProperIsKept(cfg);
    Halvings(q, cfg.halfLife, k);
    if k == 0 {
      PowerZero(0.5);
      TowardByOne(cfg.neutralScore, r.score);
    } else {
      assert now - r.lastUpdated.time == k * cfg.halfLife > 0;
    }
    assert Decayed(cfg, q, r, now).score == Toward(cfg.neutralScore, r.score, Power(0.5, k));
    TowardIs(cfg.neutralScore, r.score, Power(0.5, k));
  }

  lemma TowardIs(neutral: real, score: real, factor: real)
    ensures Toward(neutral, score, factor) - neutral == (score - neutral) * factor
  {
  }

  lemma PowerZero(q: real)
    ensures Power(q, 0) == 1.0
  {
  }

  lemma PowerStep(q: real, k: nat)
    requires k > 0
    ensures Power(q, k) == q * Power(q, k - 1)
  {
  }

  lemma {:induction false} Halvings(q: real, h: nat, k: nat)
    requires Power(q, h) == 0.5
    ensures Power(q, k * h) == Power(0.5, k)
  {
    if k == 0 {
      PowerZero(q);
      PowerZero(0.5);
    } else {
      hide Power;
      Halvings(q, h, k - 1);
      PowerAdds(q, h, (k - 1) * h);
      assert k * h == h + (k - 1) * h;
      PowerStep(0.5, k);
    }
  }

  // ----- the cascade -----

  function OutcomePenalties(cfg: ReputationConfig, upd: ReputationUpdate): real {
    (if upd.wasDrift then cfg.penaltyDrift else 0.0)
    + (match upd.finalAction case Allow => 0.0 case Alert => cfg.penaltyAlert case Remediate => cfg.penaltyRemed)
    + (if upd.cooldownApplied then cfg.penaltyCooldown else 0.0)
    + (if upd.conflictDetected then cfg.penaltyConflict else 0.0)
  }

  function SignalPenalties(cfg: ReputationConfig, upd: ReputationUpdate): real {
    (match upd.anomalySeverity
     case High => cfg.penaltyAnomalyHigh
     case Medium => cfg.penaltyAnomalyMedium
     case _ => 0.0)
    + (match upd.burstSeverity case High => cfg.penaltyBurstHigh case Medium => cfg.penaltyBurstMedium case _ => 0.0)
  }

  /** The sum of the penalties an update draws. */
  function Penalties(cfg: ReputationConfig, upd: ReputationUpdate): real {
    OutcomePenalties(cfg, upd) + SignalPenalties(cfg, upd)
  }

  function Reward(cfg: ReputationConfig, upd: ReputationUpdate): real {
    if IsStable(upd) then cfg.rewardStable else 0.0
  }

  /** The whole cascade in one formula: reward, cap, all penalties at once, floor. */
  function Fused(cfg: ReputationConfig, score: real, upd: ReputationUpdate): real {
    MaxReal(cfg.minScore, MinReal(cfg.maxScore, score + Reward(cfg, upd)) - Penalties(cfg, upd))
  }

  /** A standing that no decay at `now` can move, worth `base` less the penalties so far. */
  ghost predicate Docked(cfg: ReputationConfig, r: Standing, now: int, base: real, penalties: real) {
    && r.lastUpdated.At? && r.lastUpdated.time >= now
    && base <= cfg.maxScore
    && r.score == MaxReal(cfg.minScore, base - penalties)
  }

  lemma PenaltyStep(cfg: ReputationConfig, q: real, r: Standing, applies: bool, delta: real, now: int,
                    base: real, sum: real, sum': real)
    requires Proper(cfg) && Docked(cfg, r, now, base, sum) && delta > 0.0 && sum >= 0.0
    requires sum' == if applies then sum + delta else sum
    ensures Docked(cfg, Penalized(cfg, q, r, applies, delta, now), now, base, sum')
    ensures applies || r.lastUpdated == At(now) ==> Penalized(cfg, q, r, applies, delta, now).lastUpdated == At(now)
  {
    hide WithDefaults;
    ProperIsKept(cfg);
  }

  lemma RewardStep(cfg: ReputationConfig, q: real, r: Standing, now: int, upd: ReputationUpdate)
    requires Proper(cfg) && Docked(cfg, r, now, r.score, 0.0)
    ensures
      var r' := if IsStable(upd) then Increased(cfg, q, r, cfg.rewardStable, now) else r;
      && Docked(cfg, r', now, MinReal(cfg.maxScore, r.score + Reward(cfg, upd)), 0.0)
      && (IsStable(upd) ==> r'.lastUpdated == At(now))
      && (!IsStable(upd) ==> upd.wasDrift || upd.anomalySeverity == High || upd.burstSeverity == High)
  {
    hide WithDefaults;
    ProperIsKept(cfg);
  }

  lemma OutcomeStep(cfg: ReputationConfig, q: real, r: Standing, now: int, upd: ReputationUpdate, base: real)
    requires Proper(cfg) && Docked(cfg, r, now, base, 0.0)
    ensures
      var r' := PenalizedForOutcome(cfg, q, r, now, upd);
      && Docked(cfg, r', now, base, OutcomePenalties(cfg, upd))
      && OutcomePenalties(cfg, upd) >= 0.0
      && (upd.wasDrift || r.lastUpdated == At(now) ==> r'.lastUpdated == At(now))
  {
    hide Penalized, Docked, Proper;
    PenaltiesPositive(cfg);
    var p1 := if upd.wasDrift then cfg.penaltyDrift else 0.0;
    PenaltyStep(cfg, q, r, upd.wasDrift, cfg.penaltyDrift, now, base, 0.0, p1);
    var r1 := Penalized(cfg, q, r, upd.wasDrift, cfg.penaltyDrift, now);
    var p2 := if upd.finalAction == Alert then p1 + cfg.penaltyAlert else p1;
    PenaltyStep(cfg, q, r1, upd.finalAction == Alert, cfg.penaltyAlert, now, base, p1, p2);
    var r2 := Penalized(cfg, q, r1, upd.finalAction == Alert, cfg.penaltyAlert, now);
    var p3 := if upd.finalAction == Remediate then p2 + cfg.penaltyRemed else p2;
    PenaltyStep(cfg, q, r2, upd.finalAction == Remediate, cfg.penaltyRemed, now, base, p2, p3);
    var r3 := Penalized(cfg, q, r2, upd.finalAction == Remediate, cfg.penaltyRemed, now);
    var p4 := if upd.cooldownApplied then p3 + cfg.penaltyCooldown else p3;
    PenaltyStep(cfg, q, r3, upd.cooldownApplied, cfg.penaltyCooldown, now, base, p3, p4);
    var r4 := Penalized(cfg, q, r3, upd.cooldownApplied, cfg.penaltyCooldown, now);
    var p5 := if upd.conflictDetected then p4 + cfg.penaltyConflict else p4;
    PenaltyStep(cfg, q, r4, upd.conflictDetected, cfg.penaltyConflict, now, base, p4, p5);
  }

  lemma SignalStep(cfg: ReputationConfig, q: real, r: Standing, now: int, upd: ReputationUpdate, base: real, sum: real)
    requires Proper(cfg) && Docked(cfg, r, now, base, sum) && sum >= 0.0
    ensures
      var r' := PenalizedForSignals(cfg, q, r, now, upd);
      && Docked(cfg, r', now, base, sum + SignalPenalties(cfg, upd))
      && SignalPenalties(cfg, upd) >= 0.0
      && (upd.anomalySeverity == High || upd.burstSeverity == High || r.lastUpdated == At(now) ==>
            r'.lastUpdated == At(now))
  {
    hide Penalized, Docked, Proper;
    PenaltiesPositive(cfg);
    var p1 := if upd.anomalySeverity == High then sum + cfg.penaltyAnomalyHigh else sum;
    PenaltyStep(cfg, q, r, upd.anomalySeverity == High, cfg.penaltyAnomalyHigh, now, base, sum, p1);
    var r1 := Penalized(cfg, q, r, upd.anomalySeverity == High, cfg.penaltyAnomalyHigh, now);
    var p2 := if upd.anomalySeverity == Medium then p1 + cfg.penaltyAnomalyMedium else p1;
    PenaltyStep(cfg, q, r1, upd.anomalySeverity == Medium, cfg.penaltyAnomalyMedium, now, base, p1, p2);
    var r2 := Penalized(cfg, q, r1, upd.anomalySeverity == Medium, cfg.penaltyAnomalyMedium, now);
    var p3 := if upd.burstSeverity == High then p2 + cfg.penaltyBurstHigh else p2;
    PenaltyStep(cfg, q, r2, upd.burstSeverity == High, cfg.penaltyBurstHigh, now, base, p2, p3);
    var r3 := Penalized(cfg, q, r2, upd.burstSeverity == High, cfg.penaltyBurstHigh, now);
    var p4 := if upd.burstSeverity == Medium then p3 + cfg.penaltyBurstMedium else p3;
    PenaltyStep(cfg, q, r3, upd.burstSeverity == Medium, cfg.penaltyBurstMedium, now, base, p3, p4);
  }

  /** The cascade of clamped and re-decayed steps equals one formula on the decayed score, and always
      stamps the standing with the time of the update. */
  lemma CascadeFuses(cfg: ReputationConfig, q: real, r: Standing, now: int, upd: ReputationUpdate)
    requires Proper(cfg) && Fraction(q) && InRange(cfg, r)
    ensures Judged(cfg, q, r, now, upd) == Standing(Fused(cfg, Decayed(cfg, q, r, now).score, upd), At(now))
    ensures InRange(cfg, Judged(cfg, q, r, now, upd))
  {
    hide Decayed, Scored, Increased, PenalizedForOutcome, PenalizedForSignals, OutcomePenalties, SignalPenalties,
      Docked, Proper, Reward, IsStable, MinReal, MaxReal, InRange;
    DecayStaysInRange(cfg, q, r, now);
    DecayDocks(cfg, q, r, now);
    var scored := Scored(cfg, q, r, now);
    RewardStep(cfg, q, scored, now, upd);
    var rewarded := if IsStable(upd) then Increased(cfg, q, scored, cfg.rewardStable, now) else scored;
    var base := MinReal(cfg.maxScore, scored.score + Reward(cfg, upd));
    OutcomeStep(cfg, q, rewarded, now, upd, base);
    var charged := PenalizedForOutcome(cfg, q, rewarded, now, upd);
    SignalStep(cfg, q, charged, now, upd, base, OutcomePenalties(cfg, upd));
    LastScore(cfg, q, PenalizedForSignals(cfg, q, charged, now, upd), now, base, Penalties(cfg, upd));
  }

  lemma PenaltiesPositive(cfg: ReputationConfig)
    requires Proper(cfg)
    ensures cfg.penaltyDrift > 0.0 && cfg.penaltyAlert > 0.0 && cfg.penaltyRemed > 0.0
    ensures cfg.penaltyCooldown > 0.0 && cfg.penaltyConflict > 0.0
    ensures cfg.penaltyAnomalyMedium > 0.0 && cfg.penaltyAnomalyHigh > 0.0
    ensures cfg.penaltyBurstMedium > 0.0 && cfg.penaltyBurstHigh > 0.0
  {
  }

  lemma DecayDocks(cfg: ReputationConfig, q: real, r: Standing, now: int)
    requires Proper(cfg) && Fraction(q) && InRange(cfg, r)
    ensures Docked(cfg, Scored(cfg, q, r, now), now, Scored(cfg, q, r, now).score, 0.0)
  {
    hide WithDefaults;
    DecayStaysInRange(cfg, q, r, now);
    ProperIsKept(cfg);
  }

  lemma LastScore(cfg: ReputationConfig, q: real, r: Standing, now: int, base: real, penalties: real)
    requires Proper(cfg) && Docked(cfg, r, now, base, penalties) && r.lastUpdated == At(now) && penalties >= 0.0
    ensures Scored(cfg, q, r, now) == Standing(MaxReal(cfg.minScore, base - penalties), At(now))
    ensures InRange(cfg, Scored(cfg, q, r, now))
  {
    hide WithDefaults;
    ProperIsKept(cfg);
  }

  // ----- worse updates -----

  /** The second update is at least as bad: no flag cleared, no milder action, no lower severity. */
  predicate NoMilder(u: ReputationUpdate, v: ReputationUpdate) {
    && (u.wasDrift ==> v.wasDrift)
    && (u.cooldownApplied ==> v.cooldownApplied)
    && (u.conflictDetected ==> v.conflictDetected)
    && Gravity(u.finalAction) <= Gravity(v.finalAction)
    && Rank(u.anomalySeverity) <= Rank(v.anomalySeverity)
    && Rank(u.burstSeverity) <= Rank(v.burstSeverity)
  }

  /** The graver penalty of each pair is at least the milder one, or so large that it takes every score
      to the minimum anyway. */
  predicate GraverCostsMore(cfg: ReputationConfig) {
    var span := cfg.maxScore - cfg.minScore;
    && (cfg.penaltyAlert <= cfg.penaltyRemed || span <= cfg.penaltyRemed)
    && (cfg.penaltyAnomalyMedium <= cfg.penaltyAnomalyHigh || span <= cfg.penaltyAnomalyHigh)
    && (cfg.penaltyBurstMedium <= cfg.penaltyBurstHigh || span <= cfg.penaltyBurstHigh)
  }

  /** What the pipeline reports: without drift nothing but `Allow`, a remediation only with a drift and
      without cooldown or conflict, a cooldown only with an alert. */
  predicate Sent(u: ReputationUpdate) {
    && (!u.wasDrift ==> u.finalAction == Allow && !u.cooldownApplied && !u.conflictDetected)
    && (u.finalAction == Remediate ==> !u.cooldownApplied && !u.conflictDetected)
    && (u.cooldownApplied ==> u.finalAction == Alert)
  }

  /** For such updates an alert is told from a remediation only beside the penalty for the drift. */
  predicate GraverCostsMoreWhenSent(cfg: ReputationConfig) {
    var span := cfg.maxScore - cfg.minScore;
    && (cfg.penaltyAlert <= cfg.penaltyRemed || span <= cfg.penaltyDrift + cfg.penaltyRemed)
    && (cfg.penaltyAnomalyMedium <= cfg.penaltyAnomalyHigh || span <= cfg.penaltyAnomalyHigh)
    && (cfg.penaltyBurstMedium <= cfg.penaltyBurstHigh || span <= cfg.penaltyBurstHigh)
  }

  /** Whatever the entry and the time, a worse update does not end with the higher score. */
  ghost predicate WorseNeverGains(cfg: ReputationConfig, q: real, sentOnly: bool) {
    forall r: Standing, now: int, u, v ::
      InRange(cfg, r) && NoMilder(u, v) && (sentOnly ==> Sent(u) && Sent(v)) ==>
        Judged(cfg, q, r, now, v).score <= Judged(cfg, q, r, now, u).score
  }

  /** The condition for all updates, or for those that the pipeline sends. */
  predicate CostsMore(cfg: ReputationConfig, sentOnly: bool) {
    if sentOnly then GraverCostsMoreWhenSent(cfg) else GraverCostsMore(cfg)
  }

  lemma WorseLoses(cfg: ReputationConfig, s: real, s': real, u: ReputationUpdate, v: ReputationUpdate, sentOnly: bool)
    requires Proper(cfg) && CostsMore(cfg, sentOnly) && NoMilder(u, v) && (sentOnly ==> Sent(u) && Sent(v))
    requires cfg.minScore <= s' <= s <= cfg.maxScore
    ensures Fused(cfg, s', v) <= Fused(cfg, s, u)
  {
    hide OutcomePenalties, SignalPenalties, CostsMore, Sent;
    StabilityIsLost(cfg, u, v);
    PenaltiesPositive(cfg);
    if Fused(cfg, s', v) > cfg.minScore {
      PenaltiesOrdered(cfg, u, v, sentOnly);
    }
  }

  lemma StabilityIsLost(cfg: ReputationConfig, u: ReputationUpdate, v: ReputationUpdate)
    requires Proper(cfg) && NoMilder(u, v)
    ensures Reward(cfg, v) <= Reward(cfg, u)
  {
  }

  lemma PenaltiesOrdered(cfg: ReputationConfig, u: ReputationUpdate, v: ReputationUpdate, sentOnly: bool)
    requires Proper(cfg) && CostsMore(cfg, sentOnly) && NoMilder(u, v) && (sentOnly ==> Sent(u) && Sent(v))
    requires Penalties(cfg, v) < cfg.maxScore - cfg.minScore
    ensures Penalties(cfg, u) <= Penalties(cfg, v)
  {
    PenaltiesPositive(cfg);
    assert OutcomePenalties(cfg, v) >= 0.0 && SignalPenalties(cfg, v) >= 0.0;
    OutcomesOrdered(cfg, u, v, sentOnly);
    SignalsOrdered(cfg, u, v, sentOnly);
  }

  lemma OutcomesOrdered(cfg: ReputationConfig, u: ReputationUpdate, v: ReputationUpdate, sentOnly: bool)
    requires Proper(cfg) && CostsMore(cfg, sentOnly) && NoMilder(u, v) && (sentOnly ==> Sent(u) && Sent(v))
    requires OutcomePenalties(cfg, v) < cfg.maxScore - cfg.minScore
    ensures OutcomePenalties(cfg, u) <= OutcomePenalties(cfg, v)
  {
  }

  lemma SignalsOrdered(cfg: ReputationConfig, u: ReputationUpdate, v: ReputationUpdate, sentOnly: bool)
    requires Proper(cfg) && CostsMore(cfg, sentOnly) && NoMilder(u, v)
    requires SignalPenalties(cfg, v) < cfg.maxScore - cfg.minScore
    ensures SignalPenalties(cfg, u) <= SignalPenalties(cfg, v)
  {
  }

  /** A worse update never ends with a higher score exactly when the graver penalty of each pair costs
      at least as much as the milder one, wherever the score range lets the difference show; for the
      updates that the pipeline sends, wherever the range left by the penalty for drift does. */
  lemma WorseNeverGainsIff(cfg: ReputationConfig, q: real, sentOnly: bool)
    requires Proper(cfg) && Fraction(q)
    ensures WorseNeverGains(cfg, q, sentOnly) <==> CostsMore(cfg, sentOnly)
  {
    hide Judged, Decayed, Scored, Sent, CostsMore, NoMilder, InRange, Proper;
    if CostsMore(cfg, sentOnly) {
      forall r: Standing, now: int, u, v | InRange(cfg, r) && NoMilder(u, v) && (sentOnly ==> Sent(u) && Sent(v))
        ensures Judged(cfg, q, r, now, v).score <= Judged(cfg, q, r, now, u).score
      {
        WorseIsJudgedLower(cfg, q, r, now, u, v, sentOnly);
      }
    } else {
      var u, v := SomePairInverted(cfg, sentOnly);
      BestStanding(cfg, q);
      var best := Standing(cfg.maxScore, At(0));
      assert Judged(cfg, q, best, 0, v).score > Judged(cfg, q, best, 0, u).score by {
        CascadeFuses(cfg, q, Standing(cfg.maxScore, At(0)), 0, u);
        CascadeFuses(cfg, q, Standing(cfg.maxScore, At(0)), 0, v);
      }
    }
  }

  lemma WorseIsJudgedLower(cfg: ReputationConfig, q: real, r: Standing, now: int, u: ReputationUpdate,
                           v: ReputationUpdate, sentOnly: bool)
    requires Proper(cfg) && Fraction(q) && CostsMore(cfg, sentOnly)
    requires InRange(cfg, r) && NoMilder(u, v) && (sentOnly ==> Sent(u) && Sent(v))
    ensures Judged(cfg, q, r, now, v).score <= Judged(cfg, q, r, now, u).score
  {
    hide Judged, Decayed, Scored, Sent, CostsMore, NoMilder, Proper, Fused;
    DecayStaysInRange(cfg, q, r, now);
    CascadeFuses(cfg, q, r, now, u);
    CascadeFuses(cfg, q, r, now, v);
    var s := Decayed(cfg, q, r, now).score;
    WorseLoses(cfg, s, s, u, v, sentOnly);
  }

  lemma BestStanding(cfg: ReputationConfig, q: real)
    requires Proper(cfg)
    ensures InRange(cfg, Standing(cfg.maxScore, At(0)))
    ensures Decayed(cfg, q, Standing(cfg.maxScore, At(0)), 0) == Standing(cfg.maxScore, At(0))
  {
  }

  /** Two updates, the second worse than the first, that the best score tells apart the wrong way round. */
  lemma SomePairInverted(cfg: ReputationConfig, sentOnly: bool) returns (u: ReputationUpdate, v: ReputationUpdate)
    requires Proper(cfg) && !CostsMore(cfg, sentOnly)
    ensures NoMilder(u, v) && (sentOnly ==> Sent(u) && Sent(v))
    ensures Fused(cfg, cfg.maxScore, v) > Fused(cfg, cfg.maxScore, u)
  {
    var calm := ReputationUpdate(false, Allow, false, false, None, None);
    var span := cfg.maxScore - cfg.minScore;
    if cfg.penaltyAnomalyMedium > cfg.penaltyAnomalyHigh && span > cfg.penaltyAnomalyHigh {
      u, v := calm.(anomalySeverity := Medium), calm.(anomalySeverity := High);
    } else if cfg.penaltyBurstMedium > cfg.penaltyBurstHigh && span > cfg.penaltyBurstHigh {
      u, v := calm.(burstSeverity := Medium), calm.(burstSeverity := High);
    } else {
      u, v := calm.(wasDrift := sentOnly, finalAction := Alert), calm.(wasDrift := sentOnly, finalAction := Remediate);
    }
  }

  // ----- runs -----

  datatype Op = Get(now: int) | Update(now: int, upd: ReputationUpdate)

  function Applied(cfg: ReputationConfig, q: real, r: Standing, op: Op): Standing {
    match op
    case Get(now) => Scored(cfg, q, r, now)
    case Update(now, upd) => Judged(cfg, q, r, now, upd)
  }

  function Run(cfg: ReputationConfig, q: real, r: Standing, ops: seq<Op>, n: nat): Standing
    requires n <= |ops|
  {
    if n == 0 then r else Applied(cfg, q, Run(cfg, q, r, ops, n - 1), ops[n - 1])
  }

  /** The same run with only some of the calls made. */
  function RunKept(cfg: ReputationConfig, q: real, r: Standing, ops: seq<Op>, keep: seq<bool>, n: nat): Standing
    requires n <= |ops| == |keep|
  {
    if n == 0 then r
    else if keep[n - 1] then Applied(cfg, q, RunKept(cfg, q, r, ops, keep, n - 1), ops[n - 1])
    else RunKept(cfg, q, r, ops, keep, n - 1)
  }

  /** The score never leaves its range, whatever is asked and reported and whatever the clock does. */
  lemma {:induction false} ScoreStaysInRange(cfg: ReputationConfig, q: real, r: Standing, ops: seq<Op>,
                                             keep: seq<bool>, n: nat)
    requires Proper(cfg) && Fraction(q) && InRange(cfg, r) && n <= |ops| == |keep|
    ensures InRange(cfg, Run(cfg, q, r, ops, n)) && InRange(cfg, RunKept(cfg, q, r, ops, keep, n))
  {
    hide Applied, InRange;
    if n > 0 {
      ScoreStaysInRange(cfg, q, r, ops, keep, n - 1);
      InRangeStep(cfg, q, Run(cfg, q, r, ops, n - 1), ops[n - 1]);
      InRangeStep(cfg, q, RunKept(cfg, q, r, ops, keep, n - 1), ops[n - 1]);
    }
  }

  lemma InRangeStep(cfg: ReputationConfig, q: real, r: Standing, op: Op)
    requires Proper(cfg) && Fraction(q) && InRange(cfg, r)
    ensures InRange(cfg, Applied(cfg, q, r, op))
  {
    hide Scored, Judged, InRange, Decayed;
    DecayStaysInRange(cfg, q, r, op.now);
    if op.Update? {
      CascadeFuses(cfg, q, r, op.now, op.upd);
    }
  }

  ghost predicate Ordered(start: int, ops: seq<Op>) {
    && (forall i :: 0 <= i < |ops| ==> start <= ops[i].now)
    && (forall i, j :: 0 <= i <= j < |ops| ==> ops[i].now <= ops[j].now)
  }

  /** Two standings nobody can tell apart from time `t` on. */
  ghost predicate SameFrom(cfg: ReputationConfig, q: real, a: Standing, b: Standing, t: int) {
    && a.lastUpdated.At? && a.lastUpdated.time <= t
    && b.lastUpdated.At? && b.lastUpdated.time <= t
    && Decayed(cfg, q, a, t) == Decayed(cfg, q, b, t)
  }

  lemma SameLater(cfg: ReputationConfig, q: real, a: Standing, b: Standing, t: int, now: int)
    requires Proper(cfg) && SameFrom(cfg, q, a, b, t) && t <= now
    ensures SameFrom(cfg, q, a, b, now)
  {
    hide Decayed;
    DecayComposes(cfg, q, a, t, now);
    DecayComposes(cfg, q, b, t, now);
  }

  /** A call moves them to the same place, and a query one of them to where they still cannot be told apart. */
  lemma SameStep(cfg: ReputationConfig, q: real, a: Standing, b: Standing, op: Op)
    requires Proper(cfg) && Fraction(q) && InRange(cfg, a) && InRange(cfg, b)
    requires SameFrom(cfg, q, a, b, op.now)
    ensures Applied(cfg, q, a, op) == Applied(cfg, q, b, op)
    ensures SameFrom(cfg, q, Applied(cfg, q, a, op), Applied(cfg, q, b, op), op.now)
    ensures op.Get? ==> SameFrom(cfg, q, Applied(cfg, q, a, op), b, op.now)
  {
    hide Decayed, Scored, Judged, InRange, Proper;
    DecayStaysInRange(cfg, q, a, op.now);
    DecayStaysInRange(cfg, q, b, op.now);
    DecayComposes(cfg, q, a, op.now, op.now);
    DecayComposes(cfg, q, b, op.now, op.now);
    if op.Update? {
      CascadeFuses(cfg, q, a, op.now, op.upd);
      CascadeFuses(cfg, q, b, op.now, op.upd);
    }
    StampedNow(cfg, q, a, op.now);
  }

  lemma StampedNow(cfg: ReputationConfig, q: real, r: Standing, now: int)
    requires r.lastUpdated.At? && r.lastUpdated.time <= now
    ensures Decayed(cfg, q, r, now).lastUpdated == At(now)
  {
  }

  /** Queries of an entry are invisible: leaving any of them out of an ordered run of it changes no score
      read at or after the end of it. */
  lemma {:induction false} QueriesAreInvisible(cfg: ReputationConfig, q: real, r: Standing, start: int, ops: seq<Op>,
                                               keep: seq<bool>, n: nat, now: int)
    requires Proper(cfg) && Fraction(q) && InRange(cfg, r) && r.lastUpdated == At(start)
    requires n <= |ops| == |keep| && Ordered(start, ops) && start <= now
    requires forall i :: 0 <= i < n ==> ops[i].now <= now && (keep[i] || ops[i].Get?)
    ensures SameFrom(cfg, q, Run(cfg, q, r, ops, n), RunKept(cfg, q, r, ops, keep, n), now)
    ensures Scored(cfg, q, Run(cfg, q, r, ops, n), now) == Scored(cfg, q, RunKept(cfg, q, r, ops, keep, n), now)
  {
    hide Decayed, Judged, InRange, SameFrom, Applied, Proper;
    ScoreStaysInRange(cfg, q, r, ops, keep, n);
    if n == 0 {
      SameAsItself(cfg, q, r, start, now);
    } else {
      ScoreStaysInRange(cfg, q, r, ops, keep, n - 1);
      var at := ops[n - 1].now;
      QueriesAreInvisible(cfg, q, r, start, ops, keep, n - 1, at);
      SameStep(cfg, q, Run(cfg, q, r, ops, n - 1), RunKept(cfg, q, r, ops, keep, n - 1), ops[n - 1]);
      SameLater(cfg, q, Run(cfg, q, r, ops, n), RunKept(cfg, q, r, ops, keep, n), at, now);
    }
    SameScore(cfg, q, Run(cfg, q, r, ops, n), RunKept(cfg, q, r, ops, keep, n), now);
  }

  lemma SameAsItself(cfg: ReputationConfig, q: real, r: Standing, start: int, now: int)
    requires r.lastUpdated == At(start) && start <= now
    ensures SameFrom(cfg, q, r, r, now)
  {
  }

  lemma SameScore(cfg: ReputationConfig, q: real, a: Standing, b: Standing, now: int)
    requires Proper(cfg) && SameFrom(cfg, q, a, b, now)
    ensures Scored(cfg, q, a, now) == Scored(cfg, q, b, now)
  {
    hide Decayed, WithDefaults;
    ProperIsKept(cfg);
  }

  /** Every call is made. */
  function AllOf(n: nat): (keep: seq<bool>)
    ensures |keep| == n
  {
    seq(n, _ => true)
  }

  /** Run for run: same clock readings, updates no milder, start no higher. */
  ghost predicate NoMilderRun(ops: seq<Op>, ops': seq<Op>) {
    && |ops| == |ops'|
    && forall i :: 0 <= i < |ops| ==>
         && ops[i].now == ops'[i].now
         && (ops[i].Get? <==> ops'[i].Get?)
         && (ops[i].Update? ==> NoMilder(ops[i].upd, ops'[i].upd))
  }

  /** Misbehaviour never pays, over whole runs: a process whose updates are no milder, read at the same
      times, never has the higher score, whatever the clock does. */
  lemma {:induction false} WorseRunsScoreLower(cfg: ReputationConfig, q: real, r: Standing, r': Standing,
                                               ops: seq<Op>, ops': seq<Op>, n: nat)
    requires Proper(cfg) && Fraction(q) && GraverCostsMore(cfg)
    requires InRange(cfg, r) && InRange(cfg, r') && r'.score <= r.score && r.lastUpdated == r'.lastUpdated
    requires NoMilderRun(ops, ops') && n <= |ops|
    ensures Run(cfg, q, r', ops', n).score <= Run(cfg, q, r, ops, n).score
    ensures Run(cfg, q, r', ops', n).lastUpdated == Run(cfg, q, r, ops, n).lastUpdated
  {
    hide Applied, InRange, Proper, GraverCostsMore, NoMilder;
    if n > 0 {
      WorseRunsScoreLower(cfg, q, r, r', ops, ops', n - 1);
      ScoreStaysInRange(cfg, q, r, ops, AllOf(|ops|), n - 1);
      ScoreStaysInRange(cfg, q, r', ops', AllOf(|ops|), n - 1);
      WorseStep(cfg, q, Run(cfg, q, r, ops, n - 1), Run(cfg, q, r', ops', n - 1), ops[n - 1], ops'[n - 1]);
    }
  }

  lemma WorseStep(cfg: ReputationConfig, q: real, r: Standing, r': Standing, op: Op, op': Op)
    requires Proper(cfg) && Fraction(q) && GraverCostsMore(cfg)
    requires InRange(cfg, r) && InRange(cfg, r') && r'.score <= r.score && r.lastUpdated == r'.lastUpdated
    requires op.now == op'.now && (op.Get? <==> op'.Get?) && (op.Update? ==> NoMilder(op.upd, op'.upd))
    ensures Applied(cfg, q, r', op').score <= Applied(cfg, q, r, op).score
    ensures Applied(cfg, q, r', op').lastUpdated == Applied(cfg, q, r, op).lastUpdated
  {
    hide Decayed, Scored, Judged, Proper, GraverCostsMore, NoMilder, Fused;
    DecayStaysInRange(cfg, q, r, op.now);
    DecayStaysInRange(cfg, q, r', op.now);
    DecayIsMonotone(cfg, q, r, r', op.now);
    if op.Update? {
      CascadeFuses(cfg, q, r, op.now, op.upd);
      CascadeFuses(cfg, q, r', op.now, op'.upd);
      WorseLoses(cfg, Decayed(cfg, q, r, op.now).score, Decayed(cfg, q, r', op.now).score, op.upd, op'.upd, false);
    }
  }

  lemma DecayIsMonotone(cfg: ReputationConfig, q: real, r: Standing, r': Standing, now: int)
    requires Proper(cfg) && Fraction(q) && r'.score <= r.score && r.lastUpdated == r'.lastUpdated
    ensures Decayed(cfg, q, r', now).score <= Decayed(cfg, q, r, now).score
    ensures Decayed(cfg, q, r', now).lastUpdated == Decayed(cfg, q, r, now).lastUpdated
  {
    hide WithDefaults, Power, Proper, Toward;
    ProperIsKept(cfg);
    if r.lastUpdated.At? && now - r.lastUpdated.time > 0 {
      PowerOfFraction(q, now - r.lastUpdated.time);
      TowardIsMonotone(cfg.neutralScore, r.score, r'.score, Power(q, now - r.lastUpdated.time));
    }
  }
}
