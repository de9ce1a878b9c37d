/** The decision engine (agent/evaluator.go): base scoring, three multipliers from the streaming
    statistics, rounding, thresholds and the policy's downgrade. */
module Evaluator {
  import opened Common
  import opened Anomaly
  import opened Burst
  import opened Series
  import opened Fusion

  datatype Action = Allow | Alert | Remediate

  datatype SysctlPolicy = SysctlPolicy(
    expected: string,
    category: string,
    criticality: string,
    remediation: string,
    cooldown: int
  )

  datatype GlobalConfig = GlobalConfig(defaultCooldown: int, remediateThreshold: int, alertThreshold: int)

  /** What the statistics say about an event. */
  datatype EventIntel = EventIntel(
    processWrite: RateMetrics,
    paramDrift: RateMetrics,
    reputation: real,
    severity: Severity,
    burst: BurstSnapshot
  )

  datatype Context = Context(
    category: string,
    criticality: string,
    isTrustedProcess: bool,
    isAllowedProcess: bool,
    hasIntel: bool,
    intel: EventIntel
  )

  datatype Decision = Decision(
    action: Action,
    score: int,
    baseScore: int,
    riskMultiplier: real,
    anomalyMultiplier: real,
    burstMultiplier: real,
    reputationMultiplier: real
  )

  predicate IsHardRule(ctx: Context) {
    ctx.category == "security" && ctx.criticality == "high" && !ctx.isTrustedProcess
  }

  function BaseScore(ctx: Context): int {
    if IsHardRule(ctx) then 10
    else
      var untrusted := if !ctx.isTrustedProcess then 3 else 0;
      var critical := if ctx.criticality == "high" then 5 else 0;
      var security := if ctx.category == "security" then 2 else 0;
      var trusted := if ctx.isTrustedProcess then -2 else 0;
      var score := untrusted + critical + security + trusted;
      if score < 0 then 0 else score
  }

  /** The severity the evaluator uses: the fused one, or its own fusion when none was supplied. */
  function EffectiveSeverity(intel: EventIntel): Severity {
    if intel.severity == Unset then Fuse(intel.processWrite, intel.paramDrift).severity else intel.severity
  }

  function EffectiveBurst(intel: EventIntel): BurstSnapshot {
    if intel.burst.window == 0 && intel.burst.threshold == 0 then Fuse(intel.processWrite, intel.paramDrift).burst
    else intel.burst
  }

  function AnomalyMultiplier(s: Severity): real {
    match s
    case High => 1.30
    case Medium => 1.15
    case _ => 1.0
  }

  function BurstMultiplier(score: real): real {
    if score > 0.0 then
      var m := 1.0 + 0.25 * score;
      if m < 1.0 then 1.0 else m
    else 1.0
  }

  function ReputationMultiplier(rep: real): real {
    var m := if rep < 0.5 then 1.0 + (0.5 - rep) * 0.3 else 1.0 - (rep - 0.5) * 0.1;
    var atLeast := if m < 0.9 then 0.9 else m;
    if atLeast > 1.2 then 1.2 else atLeast
  }

  function TotalMultiplier(ctx: Context): real {
    if !ctx.hasIntel then 1.0
    else
      var total := AnomalyMultiplier(EffectiveSeverity(ctx.intel))
                   * BurstMultiplier(EffectiveBurst(ctx.intel).score)
                   * ReputationMultiplier(ctx.intel.reputation);
      if total < 1.0 && IsHardRule(ctx) then 1.0 else total
  }

  /** Rounds half away from zero. */
  function Round(x: real): int {
    if x >= 0.0 then (x + 0.5).Floor else -((-x + 0.5).Floor)
  }

  function FinalScore(ctx: Context): int {
    var base := BaseScore(ctx);
    if !ctx.hasIntel then base
    else
      var rounded := Round(base as real * TotalMultiplier(ctx));
      var score := if rounded < 0 then 0 else rounded;
      if IsHardRule(ctx) && score < base then base else score
  }

  function RemediateAt(global: GlobalConfig): int {
    if global.remediateThreshold <= 0 then 8 else global.remediateThreshold
  }

  function AlertAt(global: GlobalConfig): int {
    if global.alertThreshold <= 0 then 4 else global.alertThreshold
  }

  function ActionFor(score: int, entry: SysctlPolicy, global: GlobalConfig): Action {
    var action :=
      if score >= RemediateAt(global) then Remediate
      else if score >= AlertAt(global) then Alert
      else Allow;
    if action == Remediate && entry.remediation == "alert" then Alert else action
  }

  function EvaluateDecision(ctx: Context, entry: SysctlPolicy, global: GlobalConfig): Decision {
    if ctx.isAllowedProcess then
      Decision(Allow, 0, 0, 1.0, 1.0, 1.0, 1.0)
    else
      var score := FinalScore(ctx);
      if ctx.hasIntel then
        Decision(ActionFor(score, entry, global), score, BaseScore(ctx), TotalMultiplier(ctx),
          AnomalyMultiplier(EffectiveSeverity(ctx.intel)),
          BurstMultiplier(EffectiveBurst(ctx.intel).score),
          ReputationMultiplier(ctx.intel.reputation))
      else
        Decision(ActionFor(score, entry, global), score, BaseScore(ctx), 1.0, 1.0, 1.0, 1.0)
  }

  function Gravity(a: Action): nat {
    match a
    case Allow => 0
    case Alert => 1
    case Remediate => 2
  }

  // ----- what the scores can be -----

  /** Every base score, by what the process and the parameter are. */
  lemma BaseScoreTable(ctx: Context)
    ensures
      var sec, high, base := ctx.category == "security", ctx.criticality == "high", BaseScore(ctx);
      if ctx.isTrustedProcess then base == (if high && sec then 5 else if high then 3 else 0)
      else base == (if high && sec then 10 else if high then 8 else if sec then 5 else 3)
  {
  }

  /** With the reputation in [0, 1] and the burst score at most 1, as the statistics report them. */
  predicate Reasonable(intel: EventIntel) {
    0.0 <= intel.reputation <= 1.0 && EffectiveBurst(intel).score <= 1.0
  }

  lemma Product3(a: real, b: real, c: real, a': real, b': real, c': real)
    requires 0.0 < a <= a' && 0.0 < b <= b' && 0.0 < c <= c'
    ensures 0.0 < a * b * c <= a' * b' * c'
  {
    Product2(a, b, a', b');
    Product2(a * b, c, a' * b', c');
  }

  lemma Product2(a: real, b: real, a': real, b': real)
    requires 0.0 < a <= a' && 0.0 < b <= b'
    ensures 0.0 < a * b <= a' * b'
  {
    ProductPositive(a, b, a * b);
    ProductNonnegative(a' - a, b, (a' - a) * b);
    ProductNonnegative(a', b' - b, a' * (b' - b));
    assert a' * b' - a * b == (a' - a) * b + a' * (b' - b);
  }

  lemma MultiplierFactors(ctx: Context)
    ensures 1.0 <= AnomalyMultiplier(EffectiveSeverity(ctx.intel)) <= 1.30
    ensures 1.0 <= BurstMultiplier(EffectiveBurst(ctx.intel).score)
    ensures EffectiveBurst(ctx.intel).score <= 1.0 ==> BurstMultiplier(EffectiveBurst(ctx.intel).score) <= 1.25
    ensures 0.9 <= ReputationMultiplier(ctx.intel.reputation) <= 1.2
    ensures ctx.intel.reputation <= 1.0 ==> 0.95 <= ReputationMultiplier(ctx.intel.reputation)
    ensures ctx.intel.reputation >= 0.0 ==> ReputationMultiplier(ctx.intel.reputation) <= 1.15
  {
  }

  lemma MultiplierIsBounded(ctx: Context)
    ensures TotalMultiplier(ctx) >= 0.9
    ensures ctx.intel.reputation <= 1.0 ==> TotalMultiplier(ctx) >= 0.95
    ensures ctx.hasIntel && IsHardRule(ctx) ==> TotalMultiplier(ctx) >= 1.0
    ensures Reasonable(ctx.intel) ==> TotalMultiplier(ctx) <= 1.86875
  {
    hide AnomalyMultiplier, BurstMultiplier, ReputationMultiplier, EffectiveBurst, EffectiveSeverity, Fuse;
    MultiplierFactors(ctx);
    var a := AnomalyMultiplier(EffectiveSeverity(ctx.intel));
    var b := BurstMultiplier(EffectiveBurst(ctx.intel).score);
    var c := ReputationMultiplier(ctx.intel.reputation);
    Product3(1.0, 1.0, 0.9, a, b, c);
    if ctx.intel.reputation <= 1.0 {
      Product3(1.0, 1.0, 0.95, a, b, c);
    }
    if Reasonable(ctx.intel) {
      Product3(a, b, c, 1.30, 1.25, 1.15);
    }
  }

  /** The bounds are met: the worst signals multiply by exactly 1.86875, which turns a 10 into a 19, the
      best ones by exactly 0.95, and a neutral process without signals by exactly 1. */
  lemma MultiplierExtremes(ctx: Context, global: GlobalConfig, entry: SysctlPolicy)
    requires ctx.hasIntel && IsHardRule(ctx) && !ctx.isAllowedProcess
    ensures ctx.intel.severity == High && ctx.intel.burst.score == 1.0 && ctx.intel.burst.window > 0
              && ctx.intel.reputation == 0.0 ==>
              EvaluateDecision(ctx, entry, global).riskMultiplier == 1.86875
              && EvaluateDecision(ctx, entry, global).score == 19
    ensures ctx.intel.severity == None && ctx.intel.burst.score == 0.0 && ctx.intel.burst.window > 0 ==>
              (ctx.intel.reputation == 0.5 ==> TotalMultiplier(ctx.(isTrustedProcess := true)) == 1.0)
              && (ctx.intel.reputation == 1.0 ==> TotalMultiplier(ctx.(isTrustedProcess := true)) == 0.95)
  {
  }

  /** The multiplier is the product of three factors, one for each signal, that under the hard rule never falls
      below 1; signals that come without their fusion are fused. The factors by severity, at the ends of the range
      of the burst, and at the worst, a neutral, the best and a far better reputation. */
  lemma MultiplierTable(ctx: Context, entry: SysctlPolicy, global: GlobalConfig)
    requires ctx.hasIntel && !ctx.isAllowedProcess
    ensures
      var d, rep := EvaluateDecision(ctx, entry, global), ctx.intel.reputation;
      var fused, given := Fuse(ctx.intel.processWrite, ctx.intel.paramDrift), ctx.intel;
      var severity := if given.severity == Unset then fused.severity else given.severity;
      var burst := if given.burst.window == 0 && given.burst.threshold == 0 then fused.burst else given.burst;
      var product := d.anomalyMultiplier * d.burstMultiplier * d.reputationMultiplier;
      && d.riskMultiplier == (if IsHardRule(ctx) then MaxReal(1.0, product) else product)
      && d.anomalyMultiplier == (if severity == High then 1.3 else if severity == Medium then 1.15 else 1.0)
      && (burst.score <= 0.0 ==> d.burstMultiplier == 1.0)
      && (burst.score == 1.0 ==> d.burstMultiplier == 1.25)
      && (6.0 * rep <= -1.0 ==> d.reputationMultiplier == 1.2)
      && (rep == 0.0 ==> d.reputationMultiplier == 1.15)
      && (rep == 0.5 ==> d.reputationMultiplier == 1.0)
      && (rep == 1.0 ==> d.reputationMultiplier == 0.95)
      && (rep >= 1.5 ==> d.reputationMultiplier == 0.9)
  {
    hide Round, Fuse;
  }

  /** Without signals the base score stands, and what an allowed process does scores nothing. */
  lemma NoSignals(ctx: Context, entry: SysctlPolicy, global: GlobalConfig)
    ensures
      var d := EvaluateDecision(ctx, entry, global);
      && (!ctx.hasIntel || ctx.isAllowedProcess ==>
            && d.score == d.baseScore
            && d.riskMultiplier == d.anomalyMultiplier == d.burstMultiplier == d.reputationMultiplier == 1.0)
      && (ctx.isAllowedProcess ==> d.score == 0)
      && (!ctx.isAllowedProcess ==> d.baseScore == BaseScore(ctx))
  {
    hide BaseScore, Fuse;
  }

  /** Between those points the factors are straight: that of the burst grows evenly, and that of the reputation
      falls evenly up to a half, and evenly from there. */
  lemma FactorsAreStraight(s: real, t: real, mid: real)
    requires 2.0 * mid == s + t
    ensures s >= 0.0 && t >= 0.0 ==> 2.0 * BurstMultiplier(mid) == BurstMultiplier(s) + BurstMultiplier(t)
    ensures (-1.0 <= 6.0 * s && s <= 0.5 && -1.0 <= 6.0 * t && t <= 0.5) || (0.5 <= s <= 1.5 && 0.5 <= t <= 1.5) ==>
              2.0 * ReputationMultiplier(mid) == ReputationMultiplier(s) + ReputationMultiplier(t)
  {
  }

  /** The score is the base score times the multiplier, rounded to the nearest whole number, up if in doubt. */
  lemma ScoreIsNearest(ctx: Context, entry: SysctlPolicy, global: GlobalConfig)
    requires !ctx.isAllowedProcess
    ensures
      var d := EvaluateDecision(ctx, entry, global);
      d.score as real - 0.5 <= d.baseScore as real * d.riskMultiplier < d.score as real + 0.5
  {
    hide AnomalyMultiplier, BurstMultiplier, ReputationMultiplier, EffectiveBurst, EffectiveSeverity, ActionFor,
      TotalMultiplier;
    MultiplierIsBounded(ctx);
    BaseScoreTable(ctx);
    var base, m := BaseScore(ctx) as real, EvaluateDecision(ctx, entry, global).riskMultiplier;
    ProductNonnegative(base, m, base * m);
    if m >= 1.0 {
      ProductNonnegative(base, m - 1.0, base * (m - 1.0));
      assert base * (m - 1.0) == base * m - base;
    }
  }

  /** The scores of a neutral process without a burst, by the severity of the anomaly. */
  lemma ScoreTable(ctx: Context, entry: SysctlPolicy, global: GlobalConfig)
    requires ctx.hasIntel && !ctx.isAllowedProcess && ctx.intel.severity != Unset && ctx.intel.burst.window > 0
    requires ctx.intel.reputation == 0.5 && ctx.intel.burst.score == 0.0
    ensures
      var d := EvaluateDecision(ctx, entry, global);
      match ctx.intel.severity
      case High =>
        d.score == if d.baseScore == 10 then 13 else if d.baseScore == 8 then 10 else if d.baseScore == 5 then 7
                   else if d.baseScore == 3 then 4 else 0
      case Medium =>
        d.score == if d.baseScore == 10 then 12 else if d.baseScore == 8 then 9 else if d.baseScore == 5 then 6
                   else if d.baseScore == 3 then 3 else 0
      case _ => d.score == d.baseScore
  {
    BaseScoreTable(ctx);
    hide BaseScore;
  }

  lemma DropsByMultiplier(ctx: Context, entry: SysctlPolicy, global: GlobalConfig)
    ensures
      var d := EvaluateDecision(ctx, entry, global);
      d.score < d.baseScore <==> d.baseScore == 8 && d.riskMultiplier < 0.9375
  {
    hide AnomalyMultiplier, BurstMultiplier, ReputationMultiplier, EffectiveBurst, EffectiveSeverity, ActionFor,
      TotalMultiplier;
    MultiplierIsBounded(ctx);
    BaseScoreTable(ctx);
    if ctx.hasIntel && !ctx.isAllowedProcess {
      var t := TotalMultiplier(ctx);
      var base := BaseScore(ctx);
      assert base as real * t == if base == 8 then 8.0 * t else if base == 10 then 10.0 * t
        else if base == 5 then 5.0 * t else if base == 3 then 3.0 * t else 0.0;
    }
  }

  /** An untrusted write to a high-criticality parameter outside the security category, with no anomaly to
      speak of, by a process whose reputation outweighs its burst. */
  predicate Discounted(ctx: Context) {
    && !ctx.isAllowedProcess && ctx.hasIntel
    && !ctx.isTrustedProcess && ctx.criticality == "high" && ctx.category != "security"
    && EffectiveSeverity(ctx.intel) != Medium && EffectiveSeverity(ctx.intel) != High
    && Outweighs(BurstMultiplier(EffectiveBurst(ctx.intel).score), ReputationMultiplier(ctx.intel.reputation))
  }

  /** The two factors together fall below 15/16, so that an 8 is rounded down. */
  predicate Outweighs(burst: real, reputation: real) {
    burst * reputation < 0.9375
  }

  /** The one way in which the statistics can lower a score. Every other score is kept up by rounding or by
      the hard rule; this one falls from 8 to 7. */
  lemma ScoreDropsIff(ctx: Context, entry: SysctlPolicy, global: GlobalConfig)
    ensures
      var d := EvaluateDecision(ctx, entry, global);
      && (d.score < d.baseScore <==> Discounted(ctx))
      && (Discounted(ctx) ==> d.baseScore == 8 && d.score == 7)
  {
    hide EffectiveBurst, EffectiveSeverity, ActionFor, ReputationMultiplier, BurstMultiplier, Outweighs,
      TotalMultiplier;
    DropsByMultiplier(ctx, entry, global);
    BaseScoreTable(ctx);
    MultiplierIsBounded(ctx);
    if ctx.hasIntel && !IsHardRule(ctx) {
      TotalOutweighs(ctx);
    }
  }

  lemma TotalOutweighs(ctx: Context)
    requires ctx.hasIntel && !IsHardRule(ctx)
    ensures TotalMultiplier(ctx) < 0.9375
            <==> EffectiveSeverity(ctx.intel) != Medium && EffectiveSeverity(ctx.intel) != High
                 && Outweighs(BurstMultiplier(EffectiveBurst(ctx.intel).score),
                              ReputationMultiplier(ctx.intel.reputation))
  {
    hide EffectiveBurst, EffectiveSeverity, ReputationMultiplier, BurstMultiplier, IsHardRule, Outweighs;
    MultiplierFactors(ctx);
    var a := AnomalyMultiplier(EffectiveSeverity(ctx.intel));
    var b := BurstMultiplier(EffectiveBurst(ctx.intel).score);
    var c := ReputationMultiplier(ctx.intel.reputation);
    if a == 1.0 {
      OneIsNeutral(a, b, c);
      OutweighsIs(b, c, b * c);
    } else {
      Product3(1.15, 1.0, 0.9, a, b, c);
    }
  }

  lemma OneIsNeutral(a: real, b: real, c: real)
    requires a == 1.0
    ensures a * b * c == b * c
  {
  }

  lemma OutweighsIs(b: real, c: real, p: real)
    requires p == b * c
    ensures Outweighs(b, c) <==> p < 0.9375
  {
  }

  /** A discount takes a reputation of more than 1.125. */
  lemma DiscountTakesReputation(ctx: Context)
    requires Discounted(ctx)
    ensures ctx.intel.reputation > 1.125
  {
    hide EffectiveBurst, EffectiveSeverity, BurstMultiplier, ReputationMultiplier, Outweighs;
    MultiplierFactors(ctx);
    GrowingFactor(BurstMultiplier(EffectiveBurst(ctx.intel).score), ReputationMultiplier(ctx.intel.reputation));
    DiscountOf(ctx.intel.reputation);
  }

  lemma GrowingFactor(b: real, c: real)
    requires 1.0 <= b && 0.0 < c && Outweighs(b, c)
    ensures c < 0.9375
  {
    ProductNonnegative(b - 1.0, c, (b - 1.0) * c);
    assert (b - 1.0) * c == b * c - c;
  }

  lemma DiscountOf(rep: real)
    ensures ReputationMultiplier(rep) < 0.9375 <==> rep > 1.125
  {
  }

  /** The thresholds between which the lost point matters. */
  predicate PointMatters(entry: SysctlPolicy, global: GlobalConfig) {
    || (RemediateAt(global) == 8 && (entry.remediation != "alert" || AlertAt(global) >= 8))
    || (RemediateAt(global) > 8 && AlertAt(global) == 8)
  }

  /** Exactly when the statistics weaken the action. */
  lemma ActionIsWeakenedIff(ctx: Context, entry: SysctlPolicy, global: GlobalConfig)
    ensures
      Gravity(EvaluateDecision(ctx, entry, global).action)
      < Gravity(EvaluateDecision(ctx.(hasIntel := false), entry, global).action)
      <==> Discounted(ctx) && PointMatters(entry, global)
  {
    hide Discounted, FinalScore, TotalMultiplier, ActionFor, AnomalyMultiplier, BurstMultiplier, ReputationMultiplier,
      EffectiveBurst, EffectiveSeverity;
    ScoreDropsIff(ctx, entry, global);
    if !ctx.isAllowedProcess {
      NoIntelNoChange(ctx, entry, global);
      if Discounted(ctx) {
        SevenForEight(entry, global);
      } else {
        ActionIsMonotone(BaseScore(ctx), FinalScore(ctx), entry, global);
      }
    } else {
      AllowedIsAllowed(ctx, entry, global);
    }
  }

  lemma NoIntelNoChange(ctx: Context, entry: SysctlPolicy, global: GlobalConfig)
    requires !ctx.isAllowedProcess
    ensures EvaluateDecision(ctx.(hasIntel := false), entry, global).action == ActionFor(BaseScore(ctx), entry, global)
    ensures EvaluateDecision(ctx, entry, global).action == ActionFor(FinalScore(ctx), entry, global)
    ensures EvaluateDecision(ctx, entry, global).score == FinalScore(ctx)
    ensures EvaluateDecision(ctx, entry, global).baseScore == BaseScore(ctx)
  {
    hide TotalMultiplier, ActionFor, AnomalyMultiplier, BurstMultiplier, ReputationMultiplier, EffectiveBurst,
      EffectiveSeverity, Round;
  }

  lemma AllowedIsAllowed(ctx: Context, entry: SysctlPolicy, global: GlobalConfig)
    requires ctx.isAllowedProcess
    ensures !Discounted(ctx)
    ensures EvaluateDecision(ctx, entry, global).action
            == EvaluateDecision(ctx.(hasIntel := false), entry, global).action
  {
  }

  lemma SevenForEight(entry: SysctlPolicy, global: GlobalConfig)
    ensures Gravity(ActionFor(7, entry, global)) < Gravity(ActionFor(8, entry, global)) <==> PointMatters(entry, global)
  {
  }

  /** The discount is real: with the default thresholds, and the burst of a first event in a window, a
      reputation of 2 turns a remediation into an alert. */
  lemma GoodNameWeakens(entry: SysctlPolicy, global: GlobalConfig, cfg: BurstConfig, intel: EventIntel)
    requires entry.remediation != "alert" && global.remediateThreshold <= 0 && global.alertThreshold <= 0
    requires cfg.window > 0 && cfg.threshold == 10 && intel.burst == Burst.SnapshotOf(cfg, 1)
    requires intel.severity == None && intel.reputation == 2.0
    ensures
      var ctx := Context("network", "high", false, false, true, intel);
      && EvaluateDecision(ctx, entry, global).score == 7
      && EvaluateDecision(ctx, entry, global).action == Alert
      && EvaluateDecision(ctx.(hasIntel := false), entry, global).action == Remediate
  {
    var ctx := Context("network", "high", false, false, true, intel);
    assert intel.burst.score == 0.1 && BurstMultiplier(0.1) == 1.025 && ReputationMultiplier(2.0) == 0.9;
    assert Outweighs(1.025, 0.9);
    assert Discounted(ctx);
    ScoreDropsIff(ctx, entry, global);
  }

  /** A reputation of at most 1 never lowers a score, and with scores in [0, 1] none exceeds 19. */
  lemma IntelligenceOnlyEscalates(ctx: Context, entry: SysctlPolicy, global: GlobalConfig)
    requires Reasonable(ctx.intel)
    ensures
      var d := EvaluateDecision(ctx, entry, global);
      && d.baseScore <= d.score <= 19
      && Gravity(d.action) >= Gravity(EvaluateDecision(ctx.(hasIntel := false), entry, global).action)
  {
    hide AnomalyMultiplier, BurstMultiplier, ReputationMultiplier, EffectiveBurst, EffectiveSeverity, TotalMultiplier,
      Reasonable;
    assert ctx.intel.reputation <= 1.0 by { ReasonableReputation(ctx.intel); }
    DropsByMultiplier(ctx, entry, global);
    MultiplierIsBounded(ctx);
    BaseScoreTable(ctx);
    if ctx.hasIntel && !ctx.isAllowedProcess {
      var base, t := BaseScore(ctx) as real, TotalMultiplier(ctx);
      Scales(base, 10.0, t, 1.86875);
      RoundIsMonotone(base * t, 18.6875);
      ActionIsMonotone(BaseScore(ctx), FinalScore(ctx), entry, global);
    }
  }

  lemma ReasonableReputation(intel: EventIntel)
    requires Reasonable(intel)
    ensures 0.0 <= intel.reputation <= 1.0
  {
  }

  lemma Scales(a: real, a': real, t: real, t': real)
    requires 0.0 <= a <= a' && 0.0 <= t <= t'
    ensures 0.0 <= a * t <= a' * t'
  {
    ProductNonnegative(a, t, a * t);
    ProductNonnegative(a' - a, t, (a' - a) * t);
    ProductNonnegative(a', t' - t, a' * (t' - t));
    assert a' * t' - a * t == (a' - a) * t + a' * (t' - t);
  }

  lemma RoundIsMonotone(x: real, y: real)
    requires x <= y
    ensures Round(x) <= Round(y)
  {
  }

  lemma ActionIsMonotone(score: int, score': int, entry: SysctlPolicy, global: GlobalConfig)
    requires score <= score'
    ensures Gravity(ActionFor(score, entry, global)) <= Gravity(ActionFor(score', entry, global))
  {
  }

  // ----- worse signals, worse decisions -----

  /** The second event's signals are at least as bad: severity and burst no lower, reputation no higher. */
  predicate NoBetter(a: EventIntel, b: EventIntel) {
    && Rank(EffectiveSeverity(a)) <= Rank(EffectiveSeverity(b))
    && EffectiveBurst(a).score <= EffectiveBurst(b).score
    && a.reputation >= b.reputation
  }

  lemma FactorsAreMonotone(a: EventIntel, b: EventIntel)
    requires NoBetter(a, b)
    ensures 0.0 < AnomalyMultiplier(EffectiveSeverity(a)) <= AnomalyMultiplier(EffectiveSeverity(b))
    ensures 0.0 < BurstMultiplier(EffectiveBurst(a).score) <= BurstMultiplier(EffectiveBurst(b).score)
    ensures 0.0 < ReputationMultiplier(a.reputation) <= ReputationMultiplier(b.reputation)
  {
  }

  /** The score is nondecreasing in the anomaly severity and the burst score and nonincreasing in the
      reputation, and the action inherits this order whatever the thresholds are. */
  lemma DecisionIsMonotone(ctx: Context, worse: EventIntel, entry: SysctlPolicy, global: GlobalConfig)
    requires ctx.hasIntel && NoBetter(ctx.intel, worse)
    ensures
      var d, d' := EvaluateDecision(ctx, entry, global), EvaluateDecision(ctx.(intel := worse), entry, global);
      && d.score <= d'.score
      && Gravity(d.action) <= Gravity(d'.action)
      && d.baseScore == d'.baseScore
  {
    hide AnomalyMultiplier, BurstMultiplier, ReputationMultiplier, EffectiveBurst, EffectiveSeverity, NoBetter,
      ActionFor, Round;
    var ctx' := ctx.(intel := worse);
    var a, b := ctx.intel, worse;
    FactorsAreMonotone(a, b);
    Product3(
      AnomalyMultiplier(EffectiveSeverity(a)), BurstMultiplier(EffectiveBurst(a).score),
      ReputationMultiplier(a.reputation),
      AnomalyMultiplier(EffectiveSeverity(b)), BurstMultiplier(EffectiveBurst(b).score),
      ReputationMultiplier(b.reputation));
    var base := BaseScore(ctx);
    assert base == BaseScore(ctx') >= 0;
    assert 0.0 < TotalMultiplier(ctx) <= TotalMultiplier(ctx');
    Scales(base as real, base as real, TotalMultiplier(ctx), TotalMultiplier(ctx'));
    RoundIsMonotone(base as real * TotalMultiplier(ctx), base as real * TotalMultiplier(ctx'));
    ActionIsMonotone(FinalScore(ctx), FinalScore(ctx'), entry, global);
  }

  // ----- rules no signal can override -----

  /** Exactly when the decision is to remediate, and when to allow; otherwise it is an alert. */
  lemma RemediatesIff(ctx: Context, entry: SysctlPolicy, global: GlobalConfig)
    ensures
      var d := EvaluateDecision(ctx, entry, global);
      var remediateAt := if global.remediateThreshold > 0 then global.remediateThreshold else 8;
      var alertAt := if global.alertThreshold > 0 then global.alertThreshold else 4;
      && (d.action == Remediate <==> !ctx.isAllowedProcess && entry.remediation != "alert" && d.score >= remediateAt)
      && (d.action == Allow <==> ctx.isAllowedProcess || (d.score < remediateAt && d.score < alertAt))
  {
    hide FinalScore, TotalMultiplier;
  }

  /** An untrusted write to a high-criticality security parameter scores at least 10, whatever the
      statistics say, so a remediation threshold of up to 10 is always reached. */
  lemma HardRuleIsAFloor(ctx: Context, entry: SysctlPolicy, global: GlobalConfig)
    requires IsHardRule(ctx) && !ctx.isAllowedProcess
    ensures EvaluateDecision(ctx, entry, global).score >= 10
    ensures global.remediateThreshold <= 10 && entry.remediation != "alert" ==>
              EvaluateDecision(ctx, entry, global).action == Remediate
  {
    hide TotalMultiplier, Round;
  }

  /** An evaluator left to fuse the signals itself decides as it does on signals fused upstream. */
  lemma FallbackFusionAgrees(ctx: Context, entry: SysctlPolicy, global: GlobalConfig, upstream: EventIntel)
    requires ctx.intel.severity == Unset && ctx.intel.burst.window == 0 && ctx.intel.burst.threshold == 0
    requires
      var f := Fuse(ctx.intel.processWrite, ctx.intel.paramDrift);
      upstream == ctx.intel.(severity := f.severity, burst := f.burst)
    ensures EvaluateDecision(ctx, entry, global) == EvaluateDecision(ctx.(intel := upstream), entry, global)
  {
    FusedSeverityIsWorst(ctx.intel.processWrite, ctx.intel.paramDrift);
    hide Fuse, AnomalyMultiplier, BurstMultiplier, ReputationMultiplier, ActionFor, Round;
    var ctx' := ctx.(intel := upstream);
    assert ctx'.intel == upstream;
    assert EffectiveSeverity(ctx.intel) == EffectiveSeverity(ctx'.intel);
    assert EffectiveBurst(ctx.intel) == EffectiveBurst(ctx'.intel);
    assert TotalMultiplier(ctx) == TotalMultiplier(ctx');
  }
}
