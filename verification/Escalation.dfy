/** When the statistics weaken a decision of the pipeline (agent/worker.go, agent/evaluator.go): exactly if
    the best reputation outweighs the smallest burst that a drift can come with. */
module Escalation {
  import opened Common
  import opened Series
  import opened SeriesCache
  import opened Evaluator
  import opened Pipeline
  import opened EventSpec
  import Burst
  import Conflict
  import Fusion
  import Engine
  import Reputation
  import ReputationManager
  import ReputationRuns

  /** The decision about an event, with and without statistics. */
  function DecisionOn(policy: Policy, ev: Event, intel: EventIntel, hasIntel: bool): Decision
    requires Relevant(policy, ev)
  {
    EvaluateDecision(ContextOf(policy, ev, intel).(hasIntel := hasIntel), policy.sysctl[ev.param], policy.global)
  }

  function ContextOf(policy: Policy, ev: Event, intel: EventIntel): Context
    requires Relevant(policy, ev)
  {
    var entry := policy.sysctl[ev.param];
    Context(entry.category, entry.criticality, ev.trusted, ev.allowed, true, intel)
  }

  /** The statistics have not lowered the score, and not weakened the action. */
  ghost predicate Escalates(policy: Policy, ev: Event, intel: EventIntel) {
    Relevant(policy, ev) ==>
      var d := DecisionOn(policy, ev, intel, true);
      && d.score >= d.baseScore && d.action == Pipeline.Decide(policy, ev, intel)
      && Gravity(d.action) >= Gravity(DecisionOn(policy, ev, intel, false).action)
  }

  /** A drift that is processed, from what the engine knows and from a scene. */
  ghost predicate DriftProcessed(policy: Policy, e: Engine.Setup, k: Engine.Knowledge, s: Scene, ev: Event,
                                 world: World, outcome: Outcome, intel: EventIntel, k': Engine.Knowledge, s': Scene) {
    && InOrder(world, world.now) && outcome.wasDrift
    && Learned(policy, e, k, ev, world, Charged(outcome), intel, k')
    && Comes(policy, s, ev, world, Charged(outcome), intel, s')
  }

  /** Some drift is weakened by what the engine knows. */
  ghost predicate WeakenedFrom(e: Engine.Setup, k: Engine.Knowledge) {
    exists policy, s, ev, world, outcome, intel, k', s' ::
      DriftProcessed(policy, e, k, s, ev, world, outcome, intel, k', s') && !Escalates(policy, ev, intel)
  }

  /** The burst score of the first event in the window of a detector. */
  function FirstScore(cfg: Burst.BurstConfig): real {
    Burst.ScoreOf(Burst.Defaults(cfg), 1)
  }

  /** A reputation that makes up for the smallest burst that a drift comes with. */
  predicate MakesUp(e: Engine.Setup, reputation: real) {
    Outweighs(BurstMultiplier(MaxReal(FirstScore(e.writes.burst), FirstScore(e.drifts.burst))),
              ReputationMultiplier(reputation))
  }

  /** Known before any event: the best reputation makes up for the smallest burst. */
  predicate CanWeaken(e: Engine.Setup) {
    MakesUp(e, e.reputation.maxScore)
  }

  // ----- what a weakened drift takes -----

  lemma ScoreGrows(cfg: Burst.BurstConfig, count: nat)
    requires Burst.Usable(cfg) && count >= 1
    ensures Burst.ScoreOf(cfg, count) >= Burst.ScoreOf(cfg, 1)
  {
    var t := cfg.threshold as real;
    QuotientOrder(count as real, t, 1.0 / t);
    Quotient(1.0, t, 1.0 / t);
  }

  lemma LatestCounts(cfg: Burst.BurstConfig, s: seq<int>, now: int)
    requires Burst.Usable(cfg)
    ensures |Burst.Added(cfg, s, now)| >= 1
  {
    Burst.FirstNewIsNew(Burst.Pushed(cfg.maxSamples, s, now), now - cfg.window, 0);
  }

  lemma ObservedAtLeastOnce(cfg: RateConfig, sqrt: real -> real, c: Cache, key: string, now: int, c': Cache,
                            r: RateMetrics)
    requires Sound(cfg) && key != "" && Observes(cfg, sqrt, c, key, now, c', r)
    ensures r.burst.score >= FirstScore(cfg.burst)
  {
    hide Burst.Added, Burst.ScoreOf, Cleaned, Observed, Burst.Defaults;
    var mid :| Cleaned(cfg, c, now, mid) && c' == AfterEvent(cfg, mid, key, now)
               && r == Metrics(cfg, sqrt, StateOf(cfg, mid, key), now);
    var detector := Burst.Defaults(cfg.burst);
    Burst.DefaultsUsable(cfg.burst);
    LatestCounts(detector, StateOf(cfg, mid, key).burst, now);
    ScoreGrows(detector, |Burst.Added(detector, StateOf(cfg, mid, key).burst, now)|);
  }

  /** What the evaluator takes for the burst of the intelligence is the greater of the two. */
  lemma EffectiveScore(processWrite: RateMetrics, paramDrift: RateMetrics, reputation: real)
    ensures EffectiveBurst(Engine.Intel(processWrite, paramDrift, reputation)).score
         == MaxReal(processWrite.burst.score, paramDrift.burst.score)
  {
  }

  lemma MakesUpBy(e: Engine.Setup, ctx: Context, burst: real, reputation: real)
    requires Discounted(ctx) && EffectiveBurst(ctx.intel).score == burst && ctx.intel.reputation <= reputation
    requires burst >= FirstScore(e.writes.burst) && burst >= FirstScore(e.drifts.burst)
    ensures MakesUp(e, reputation)
  {
    hide EffectiveBurst, EffectiveSeverity, FirstScore, Outweighs;
    var first := MaxReal(FirstScore(e.writes.burst), FirstScore(e.drifts.burst));
    FactorOrder(first, burst, ctx.intel.reputation, reputation);
    OutweighsFurther(BurstMultiplier(burst), ReputationMultiplier(ctx.intel.reputation), BurstMultiplier(first),
                     ReputationMultiplier(reputation));
  }

  lemma FactorOrder(first: real, burst: real, low: real, high: real)
    requires first <= burst && low <= high
    ensures 0.0 < BurstMultiplier(first) <= BurstMultiplier(burst)
    ensures 0.0 < ReputationMultiplier(high) <= ReputationMultiplier(low)
  {
  }

  lemma OutweighsFurther(b: real, c: real, b': real, c': real)
    requires 0.0 < b' <= b && 0.0 < c' <= c && Outweighs(b, c)
    ensures Outweighs(b', c')
  {
    Product2(b', c', b, c);
  }

  lemma WeakenedIsDiscounted(policy: Policy, ev: Event, intel: EventIntel)
    requires Relevant(policy, ev)
    ensures !Escalates(policy, ev, intel) <==> Discounted(ContextOf(policy, ev, intel))
  {
    hide EvaluateDecision, Discounted;
    ScoreDropsIff(ContextOf(policy, ev, intel), policy.sysctl[ev.param], policy.global);
    ActionIsWeakenedIff(ContextOf(policy, ev, intel), policy.sysctl[ev.param], policy.global);
  }

  /** Of a process without a name nothing good is known. */
  lemma NamelessIsNotDiscounted(e: Engine.Setup, k: Engine.Knowledge, now: int, k': Engine.Knowledge, ctx: Context)
    requires Engine.ReputationGiven(e, k, "", now, k', ctx.intel.reputation)
    ensures !Discounted(ctx)
  {
    if Discounted(ctx) {
      DiscountTakesReputation(ctx);
    }
  }

  /** A process without a name counts as one of the worst reputation, and nothing is remembered of it. */
  lemma NamelessIsSuspect(policy: Policy, e: Engine.Setup, k: Engine.Knowledge, ev: Event, world: World,
                          outcome: Outcome, intel: EventIntel, k': Engine.Knowledge)
    requires Relevant(policy, ev) && ev.process == ""
    requires Learned(policy, e, k, ev, world, Charged(outcome), intel, k')
    ensures intel.reputation == 0.0 && ReputationMultiplier(intel.reputation) == 1.15
    ensures !intel.processWrite.anomaly.isAnomalous && intel.processWrite.burst.score == 0.0
    ensures k'.writes == k.writes && k'.entries == k.entries
  {
    hide Engine.Intel, UpdateFor, Observes;
    var written, asked :| Steps(e, k, ev, world, Charged(outcome), intel, written, asked, k');
    assert Observes(e.writes, e.sqrt, k.writes, "", world.now, written.writes, intel.processWrite);
    Unobserved(e.writes, e.sqrt, k.writes, world.now, written.writes, intel.processWrite);
    if outcome.wasDrift {
      var seen, fed :| DriftSteps(e, asked, ev, world, outcome, intel, seen, fed, k');
    }
  }

  lemma Unobserved(cfg: RateConfig, sqrt: real -> real, c: Cache, now: int, c': Cache, r: RateMetrics)
    requires Sound(cfg) && Observes(cfg, sqrt, c, "", now, c', r)
    ensures c' == c && r == NO_METRICS
  {
  }

  /** A weakened drift takes a reputation that makes up for the smallest burst; with nothing known of the
      process, the initial one. */
  lemma WeakeningTakes(policy: Policy, e: Engine.Setup, k: Engine.Knowledge, ev: Event, world: World,
                       outcome: Outcome, intel: EventIntel, k': Engine.Knowledge)
    requires Engine.Scored(e, k) && Relevant(policy, ev) && outcome.wasDrift
    requires Learned(policy, e, k, ev, world, Charged(outcome), intel, k') && !Escalates(policy, ev, intel)
    ensures CanWeaken(e)
    ensures k.entries == map[] ==> MakesUp(e, e.reputation.initialScore)
  {
    hide Engine.DriftObserved, Engine.WriteObserved, Engine.RemediationObserved, Engine.ReputationGiven,
      Engine.ReputationUpdated,
      Engine.Intel, Engine.Scored, Escalates, Discounted, MakesUp, EffectiveBurst, FirstScore;
    var ctx := ContextOf(policy, ev, intel);
    WeakenedIsDiscounted(policy, ev, intel);
    var written, asked :| Steps(e, k, ev, world, Charged(outcome), intel, written, asked, k');
    var seen, fed :| DriftSteps(e, asked, ev, world, outcome, intel, seen, fed, k');
    if ev.process == "" {
      NamelessIsNotDiscounted(e, written, world.now, asked, ctx);
    } else {
      WriteBurst(e, k, ev.process, world.now, written, intel.processWrite);
      DriftBurst(e, asked, ev.param, world.now, seen, intel.paramDrift);
      EffectiveScore(intel.processWrite, intel.paramDrift, intel.reputation);
      ScoredStill(e, k, written);
      Engine.ReputationFacts(e, written, ev.process, world.now, asked, intel.reputation);
      var burst := MaxReal(intel.processWrite.burst.score, intel.paramDrift.burst.score);
      MakesUpBy(e, ctx, burst, e.reputation.maxScore);
      if k.entries == map[] {
        NewcomerIsGiven(e, written, ev.process, world.now, asked, intel.reputation);
        MakesUpBy(e, ctx, burst, e.reputation.initialScore);
      }
    }
  }

  /** While no reputation makes up for the smallest burst, what the engine learns from a drift and says about
      it only escalates the decision. */
  lemma LearnedEscalates(policy: Policy, e: Engine.Setup, k: Engine.Knowledge, ev: Event, world: World,
                         outcome: Outcome, intel: EventIntel, k': Engine.Knowledge)
    requires Engine.Scored(e, k) && outcome.wasDrift && !CanWeaken(e)
    requires Learned(policy, e, k, ev, world, Charged(outcome), intel, k')
    ensures Escalates(policy, ev, intel)
  {
    hide Engine.Scored, CanWeaken, Learned, Escalates;
    if !Escalates(policy, ev, intel) {
      NobodyCares(policy, ev, intel);
      WeakeningTakes(policy, e, k, ev, world, outcome, intel, k');
    }
  }

  lemma NobodyCares(policy: Policy, ev: Event, intel: EventIntel)
    requires !Escalates(policy, ev, intel)
    ensures Relevant(policy, ev)
  {
  }

  lemma WriteBurst(e: Engine.Setup, k: Engine.Knowledge, process: string, now: int, k': Engine.Knowledge,
                   r: RateMetrics)
    requires Engine.SoundSetup(e) && process != "" && Engine.WriteObserved(e, k, process, now, k', r)
    ensures r.burst.score >= FirstScore(e.writes.burst) && k'.entries == k.entries
  {
    hide Observes;
    ObservedAtLeastOnce(e.writes, e.sqrt, k.writes, process, now, k'.writes, r);
  }

  lemma DriftBurst(e: Engine.Setup, k: Engine.Knowledge, param: string, now: int, k': Engine.Knowledge, r: RateMetrics)
    requires Engine.SoundSetup(e) && param != "" && Engine.DriftObserved(e, k, param, now, k', r)
    ensures r.burst.score >= FirstScore(e.drifts.burst)
  {
    hide Observes;
    ObservedAtLeastOnce(e.drifts, e.sqrt, k.drifts, param, now, k'.drifts, r);
  }

  lemma ScoredStill(e: Engine.Setup, k: Engine.Knowledge, k': Engine.Knowledge)
    requires Engine.Scored(e, k) && k'.entries == k.entries
    ensures Engine.Scored(e, k')
  {
  }

  lemma NewcomerIsGiven(e: Engine.Setup, k: Engine.Knowledge, process: string, now: int, k': Engine.Knowledge,
                        score: real)
    requires Engine.Scored(e, k) && k.entries == map[] && process != ""
    requires Engine.ReputationGiven(e, k, process, now, k', score)
    ensures score == e.reputation.initialScore
  {
    hide ReputationManager.Queried, ReputationManager.Cleaned;
    var cfg := e.reputation;
    var r: ReputationManager.Snapshot :| r.score == score
      && ReputationManager.Gets(cfg, e.q, map[], k.lastCleanup, process, now, k'.entries, k'.lastCleanup, r);
    var mid :| ReputationManager.Cleaned(cfg, map[], k.lastCleanup, now, mid, k'.lastCleanup)
      && var entry := ReputationManager.Queried(cfg, e.q, ReputationManager.EntryFor(cfg, mid, process, now), now);
         k'.entries == mid[process := entry] && r == ReputationManager.SnapshotOf(entry, now);
    NothingToClean(cfg, k.lastCleanup, now, mid, k'.lastCleanup);
    QueriedAtOnce(cfg, e.q, ReputationManager.FreshEntry(cfg, now), now);
  }

  lemma NothingToClean(cfg: Reputation.ReputationConfig, last: int, now: int, mid: ReputationManager.Entries,
                       last': int)
    requires ReputationManager.Cleaned(cfg, map[], last, now, mid, last')
    ensures mid == map[]
  {
  }

  /** A query at the time of the last change finds the score as it was. */
  lemma QueriedAtOnce(cfg: Reputation.ReputationConfig, q: real, entry: ReputationManager.EntryState, now: int)
    requires Reputation.Proper(cfg) && Reputation.InRange(cfg, entry.rep) && entry.rep.lastUpdated == At(now)
    ensures ReputationManager.Queried(cfg, q, entry, now).rep == entry.rep
  {
  }

  // ----- a weakened drift -----

  const NAME := "p"
  const PARAM := "x"
  const NOW: int := 1
  const ENTRY := SysctlPolicy("on", "network", "high", "auto", 0)
  const POLICY := Policy(map[PARAM := ENTRY], GlobalConfig(0, 0, 0))
  const EVENT := Event(false, "WRITE", PARAM, NAME, false, false)
  const WORLD := World(NOW, NOW, NOW, NOW, NOW, NOW, NOW, true, true, true)
  const SCENE := Scene(map[], map[], map[PARAM := "off"])

  /** What the first event of a key is answered with. */
  function FirstMetrics(cfg: RateConfig): RateMetrics {
    NO_METRICS.(burst := Burst.SnapshotOf(Burst.Defaults(cfg.burst), 1))
  }

  lemma FirstObserved(cfg: RateConfig, sqrt: real -> real, key: string, now: int) returns (c: Cache)
    requires Sound(cfg) && key != ""
    ensures Observes(cfg, sqrt, EMPTY, key, now, c, FirstMetrics(cfg))
  {
    hide Burst.Added, Burst.Defaults, Observed;
    var mid := if cfg.cleanupInterval > 0 then EMPTY.(lastCleanup := now) else EMPTY;
    assert Cleaned(cfg, EMPTY, now, mid) by {
      assert Swept(cfg, map[], now) == map[];
    }
    FirstIsOne(Burst.Defaults(cfg.burst), now) by { Burst.DefaultsUsable(cfg.burst); }
    c := AfterEvent(cfg, mid, key, now);
    assert FirstMetrics(cfg) == Metrics(cfg, sqrt, StateOf(cfg, mid, key), now);
  }

  lemma FirstIsOne(cfg: Burst.BurstConfig, now: int)
    requires Burst.Usable(cfg)
    ensures |Burst.Added(cfg, [], now)| == 1
  {
    LatestCounts(cfg, [], now);
  }

  /** A held reputation, just looked at. */
  function Held(score: real): ReputationManager.EntryState {
    ReputationManager.EntryState(NOW, Reputation.Standing(score, At(NOW)), At(NOW), 0, 0, 0)
  }

  /** Nothing observed yet, and this known of the processes. */
  function Knowing(entries: ReputationManager.Entries): Engine.Knowledge {
    Engine.Knowledge(EMPTY, EMPTY, EMPTY, entries, 0)
  }

  /** The process has a score: it is held, or it is the initial one because the process is new. */
  ghost predicate HasScore(e: Engine.Setup, entries: ReputationManager.Entries, score: real) {
    (entries == map[] && score == e.reputation.initialScore) || entries == map[NAME := Held(score)]
  }

  lemma AskedNow(e: Engine.Setup, entries: ReputationManager.Entries, score: real)
    returns (entries': ReputationManager.Entries)
    requires Reputation.Proper(e.reputation) && HasScore(e, entries, score)
    requires e.reputation.minScore <= score <= e.reputation.maxScore
    ensures |entries'| == 1
    ensures forall k: Engine.Knowledge :: k.entries == entries && k.lastCleanup == 0 ==>
              Engine.ReputationGiven(e, k, NAME, NOW, k.(entries := entries', lastCleanup := NOW), score)
  {
    hide ReputationManager.Queried;
    var cfg := e.reputation;
    assert ReputationManager.Recent(cfg, entries, NOW) == entries by { RecentlySeen(cfg, entries, score); }
    assert |entries| <= 1 && cfg.maxEntries > 0;
    assert ReputationManager.Cleaned(cfg, entries, 0, NOW, entries, NOW);
    var before := ReputationManager.EntryFor(cfg, entries, NAME, NOW);
    assert before.rep == Reputation.Standing(score, At(NOW));
    QueriedAtOnce(cfg, e.q, before, NOW);
    var entry := ReputationManager.Queried(cfg, e.q, before, NOW);
    entries' := entries[NAME := entry];
    assert entries' == map[NAME := entry];
    assert ReputationManager.Gets(cfg, e.q, entries, 0, NAME, NOW, entries', NOW,
                                  ReputationManager.SnapshotOf(entry, NOW));
  }

  lemma RecentlySeen(cfg: Reputation.ReputationConfig, entries: ReputationManager.Entries, score: real)
    requires Reputation.Proper(cfg) && (entries == map[] || entries == map[NAME := Held(score)])
    ensures ReputationManager.Recent(cfg, entries, NOW) == entries
  {
  }

  lemma ToldNow(e: Engine.Setup, k: Engine.Knowledge, process: string, now: int, upd: Reputation.ReputationUpdate)
      returns (k': Engine.Knowledge)
    requires |k.entries| <= e.reputation.maxEntries
    ensures Engine.ReputationUpdated(e, k, process, now, upd, k')
  {
    hide ReputationManager.Updates;
    var s, r := ReputationRuns.OutcomeExists(e.reputation, e.q, ReputationRuns.Store(k.entries, k.lastCleanup),
      ReputationRuns.Call(process, Reputation.Update(now, upd)));
    k' := k.(entries := s.entries, lastCleanup := s.lastCleanup);
  }

  /** The first drift of a process whose score makes up for the burst is weakened. */
  lemma WeakenedBy(e: Engine.Setup, entries: ReputationManager.Entries, score: real)
    requires Engine.SoundSetup(e) && Reputation.Proper(e.reputation) && HasScore(e, entries, score)
    requires e.reputation.minScore <= score <= e.reputation.maxScore && MakesUp(e, score)
    ensures WeakenedFrom(e, Knowing(entries))
  {
    hide Observes, FirstMetrics, Engine.ReputationGiven, Engine.ReputationUpdated, MakesUp, HasScore, Reputation.Proper,
      EvaluateDecision, Escalates, Learned, DriftLearned, Comes, Engine.Intel;
    var k := Knowing(entries);
    var writes := FirstObserved(e.writes, e.sqrt, NAME, NOW);
    var drifts := FirstObserved(e.drifts, e.sqrt, PARAM, NOW);
    var entries' := AskedNow(e, entries, score);
    var written := k.(writes := writes);
    var asked := written.(entries := entries', lastCleanup := NOW);
    var seen := asked.(drifts := drifts);
    var write, drift := FirstMetrics(e.writes), FirstMetrics(e.drifts);
    var intel := Engine.Intel(write, drift, score);
    Engine.IntelKeeps(write, drift, score);
    FirstDriftIsWeakened(e, score);
    var outcome := OutcomeOf(POLICY, SCENE, EVENT, intel, WORLD);
    ProperHasRoom(e.reputation);
    var k' := ToldNow(e, seen, NAME, NOW, UpdateFor(outcome, intel.severity, intel.burst.severity));
    DriftLearnedBy(e, asked, EVENT, WORLD, outcome, intel, seen, seen, k');
    DriftConcludes(e, asked, EVENT, WORLD, outcome, intel, k');
    LearnedBy(POLICY, e, k, EVENT, WORLD, Charged(outcome), intel, written, asked, k');
    var s' := SceneAfter(POLICY, SCENE, EVENT, intel, WORLD);
    ChargeComes(POLICY, SCENE, EVENT, WORLD, outcome, intel, s', true);
    assert DriftProcessed(POLICY, e, k, SCENE, EVENT, WORLD, outcome, intel, k', s');
  }

  lemma ProperHasRoom(cfg: Reputation.ReputationConfig)
    requires Reputation.Proper(cfg)
    ensures cfg.maxEntries > 0
  {
  }

  /** The decision about the first drift: an alert, where without statistics it is a remediation. */
  lemma FirstDriftIsWeakened(e: Engine.Setup, score: real)
    requires MakesUp(e, score)
    ensures
      var intel := Engine.Intel(FirstMetrics(e.writes), FirstMetrics(e.drifts), score);
      && Relevant(POLICY, EVENT) && !Escalates(POLICY, EVENT, intel)
      && Pipeline.Decide(POLICY, EVENT, intel) == Alert
      && DecisionOn(POLICY, EVENT, intel, false).action == Remediate
      && OutcomeOf(POLICY, SCENE, EVENT, intel, WORLD).action == Alert
      && OutcomeOf(POLICY, SCENE, EVENT, intel, WORLD).wasDrift
  {
    hide EvaluateDecision, Escalates, Discounted;
    var intel := Engine.Intel(FirstMetrics(e.writes), FirstMetrics(e.drifts), score);
    FirstIsDiscounted(e, score);
    WeakenedIsDiscounted(POLICY, EVENT, intel);
    var ctx := ContextOf(POLICY, EVENT, intel);
    DiscountedIsAlerted(ctx);
    hide Conflict.Conflicting;
  }

  lemma FirstIsDiscounted(e: Engine.Setup, score: real)
    requires MakesUp(e, score)
    ensures Relevant(POLICY, EVENT)
    ensures Discounted(ContextOf(POLICY, EVENT, Engine.Intel(FirstMetrics(e.writes), FirstMetrics(e.drifts), score)))
  {
    hide BurstMultiplier, ReputationMultiplier, Outweighs, Burst.ScoreOf;
    var write, drift := FirstMetrics(e.writes), FirstMetrics(e.drifts);
    EffectiveScore(write, drift, score);
    Fusion.FusedSeverityIsWorst(write, drift);
  }

  lemma DiscountedIsAlerted(ctx: Context)
    requires Discounted(ctx)
    ensures EvaluateDecision(ctx, ENTRY, POLICY.global).action == Alert
    ensures EvaluateDecision(ctx.(hasIntel := false), ENTRY, POLICY.global).action == Remediate
  {
    ScoreDropsIff(ctx, ENTRY, POLICY.global);
    hide Outweighs, TotalMultiplier, EffectiveBurst, EffectiveSeverity, FinalScore, BurstMultiplier,
      ReputationMultiplier;
    NoIntelNoChange(ctx, ENTRY, POLICY.global);
  }

  // ----- exactly when -----

  /** Some drift can be weakened, by reputations within the range, exactly if the best of them makes up for
      the smallest burst: a condition on the configuration. */
  lemma CanWeakenIff(e: Engine.Setup)
    requires Engine.SoundSetup(e) && Reputation.Proper(e.reputation) && Reputation.Fraction(e.q)
    ensures (exists k :: Engine.Scored(e, k) && WeakenedFrom(e, k)) <==> CanWeaken(e)
  {
    hide Escalates, Learned, Comes, MakesUp;
    if CanWeaken(e) {
      var k := Knowing(map[NAME := Held(e.reputation.maxScore)]);
      WeakenedBy(e, k.entries, e.reputation.maxScore);
      assert Engine.Scored(e, k);
    }
    forall k | Engine.Scored(e, k) && WeakenedFrom(e, k) ensures CanWeaken(e) {
      SomeWeakeningTakes(e, k);
    }
  }

  lemma SomeWeakeningTakes(e: Engine.Setup, k: Engine.Knowledge)
    requires Engine.Scored(e, k) && WeakenedFrom(e, k)
    ensures CanWeaken(e)
    ensures k.entries == map[] ==> MakesUp(e, e.reputation.initialScore)
  {
    hide Escalates, Learned, Comes, MakesUp, Engine.Scored;
    var policy, s, ev, world, outcome, intel, k', s' :|
      DriftProcessed(policy, e, k, s, ev, world, outcome, intel, k', s') && !Escalates(policy, ev, intel);
    NobodyCares(policy, ev, intel);
    WeakeningTakes(policy, e, k, ev, world, outcome, intel, k');
  }

  /** The first drift an engine sees can be weakened exactly if the initial reputation makes up for it. */
  lemma FirstDriftWeakenedIff(e: Engine.Setup)
    requires Engine.SoundSetup(e) && Reputation.Proper(e.reputation) && Reputation.Fraction(e.q)
    ensures WeakenedFrom(e, Knowing(map[])) <==> MakesUp(e, e.reputation.initialScore)
  {
    hide WeakenedFrom, MakesUp;
    if WeakenedFrom(e, Knowing(map[])) {
      SomeWeakeningTakes(e, Knowing(map[]));
    }
    if MakesUp(e, e.reputation.initialScore) {
      WeakenedBy(e, map[], e.reputation.initialScore);
    }
  }

  /** It takes a reputation of more than 1.125, and burst thresholds of at least 7. */
  lemma WeakeningTakesBoth(e: Engine.Setup, reputation: real)
    requires MakesUp(e, reputation)
    ensures reputation > 1.125
    ensures Burst.Defaults(e.writes.burst).threshold >= 7 && Burst.Defaults(e.drifts.burst).threshold >= 7
  {
    hide FirstScore, Outweighs, Burst.Defaults;
    var w, d := FirstScore(e.writes.burst), FirstScore(e.drifts.burst);
    var b, c := BurstMultiplier(MaxReal(w, d)), ReputationMultiplier(reputation);
    GrowingFactor(b, c);
    DiscountOf(reputation);
    if Burst.Defaults(e.writes.burst).threshold < 7 {
      LowThreshold(e.writes.burst);
      EnoughBurst(b, c);
    }
    if Burst.Defaults(e.drifts.burst).threshold < 7 {
      LowThreshold(e.drifts.burst);
      EnoughBurst(b, c);
    }
  }

  lemma LowThreshold(cfg: Burst.BurstConfig)
    requires Burst.Defaults(cfg).threshold < 7
    ensures FirstScore(cfg) >= 1.0 / 6.0
  {
    var t := Burst.Defaults(cfg).threshold as real;
    QuotientOrder(1.0, t, 1.0 / 6.0);
  }

  lemma EnoughBurst(b: real, c: real)
    requires b >= 1.0 + 0.25 / 6.0 && c >= 0.9
    ensures !Outweighs(b, c)
  {
    Product2(1.0 + 0.25 / 6.0, 0.9, b, c);
  }

  /** With the default threshold a reputation of 2 is enough. */
  lemma DefaultThresholdIsEnough(e: Engine.Setup)
    requires Burst.Defaults(e.writes.burst).threshold == Burst.Defaults(e.drifts.burst).threshold == 10
    ensures MakesUp(e, 2.0)
  {
    assert FirstScore(e.writes.burst) == FirstScore(e.drifts.burst) == 0.1;
    assert BurstMultiplier(0.1) == 1.025 && ReputationMultiplier(2.0) == 0.9;
    assert Outweighs(1.025, 0.9);
  }
}
