/** The statistics of the agent under one roof (stats/engine.go): three caches of rate series and the
    reputations, all configured from one place. */
module Engine {
  import opened Common
  import Anomaly
  import Burst
  import opened Series
  import opened SeriesCache
  import SeriesRuns
  import Fusion
  import opened Evaluator
  import Reputation
  import ReputationManager

  datatype Config = Config(
    driftAlpha: real,
    processAlpha: real,
    remediationAlpha: real,
    minInterval: int,
    seriesTTL: int,
    cleanupInterval: int,
    maxProcessSeries: int,
    anomaly: Anomaly.AnomalyConfig,
    burst: Burst.BurstConfig,
    reputation: Reputation.ReputationConfig
  )

  const GLOBAL_KEY := "__global__"

  function WithDefaults(c: Config): Config {
    Config(
      if c.driftAlpha == 0.0 then 0.3 else c.driftAlpha,
      if c.processAlpha == 0.0 then 0.3 else c.processAlpha,
      if c.remediationAlpha == 0.0 then 0.3 else c.remediationAlpha,
      if c.minInterval <= 0 then 10 * MILLISECOND else c.minInterval,
      if c.seriesTTL <= 0 then 30 * MINUTE else c.seriesTTL,
      if c.cleanupInterval <= 0 then MINUTE else c.cleanupInterval,
      if c.maxProcessSeries <= 0 then 2048 else c.maxProcessSeries,
      Anomaly.WithDefaults(c.anomaly),
      Burst.Defaults(c.burst),
      Reputation.WithDefaults(c.reputation))
  }

  /** The configuration of one of the caches. */
  function CacheConfig(c: Config, alpha: real, maxEntries: int): RateConfig {
    RateConfig(alpha, c.minInterval, c.anomaly, c.burst, maxEntries, c.seriesTTL, c.cleanupInterval)
  }

  /** Every cache of every engine can compute rates, forgets and sweeps; the detectors of all of them
      share one usable configuration, which no later defaulting changes. */
  lemma CachesAreSound(config: Config, alpha: real, maxEntries: int)
    ensures
      var c := WithDefaults(config);
      var cache := CacheConfig(c, alpha, maxEntries);
      && Sound(cache) && cache.entryTTL > 0 && cache.cleanupInterval > 0
      && Burst.Usable(cache.burst) && Burst.Defaults(cache.burst) == cache.burst == c.burst
      && Reputation.Proper(c.reputation)
  {
    hide Reputation.WithDefaults, Reputation.Proper;
    Burst.DefaultsUsable(config.burst);
    Reputation.DefaultsAreProper(config.reputation);
  }

  /** The intelligence of an event, as the pipeline puts it together. */
  function Intel(processWrite: RateMetrics, paramDrift: RateMetrics, reputation: real): EventIntel {
    var fused := Fusion.Fuse(processWrite, paramDrift);
    EventIntel(processWrite, paramDrift, reputation, fused.severity, fused.burst)
  }

  lemma IntelKeeps(processWrite: RateMetrics, paramDrift: RateMetrics, reputation: real)
    ensures
      var i := Intel(processWrite, paramDrift, reputation);
      i.processWrite == processWrite && i.paramDrift == paramDrift && i.reputation == reputation
  {
  }

  /** The intelligence has the worst severity among the anomalous signals, and the greater burst. */
  lemma IntelIsWorst(processWrite: RateMetrics, paramDrift: RateMetrics, reputation: real)
    ensures
      var i := Intel(processWrite, paramDrift, reputation);
      && i.processWrite == processWrite && i.paramDrift == paramDrift && i.reputation == reputation
      && Anomaly.Rank(i.severity) == Fusion.MaxNat(Anomaly.Rank(Anomaly.None),
           Fusion.MaxNat(Fusion.SeverityWhenAnomalous(processWrite.anomaly),
                         Fusion.SeverityWhenAnomalous(paramDrift.anomaly)))
      && i.burst.score == MaxReal(processWrite.burst.score, paramDrift.burst.score)
      && (i.burst.(severity := Anomaly.None) == processWrite.burst.(severity := Anomaly.None)
          || i.burst.(severity := Anomaly.None) == paramDrift.burst.(severity := Anomaly.None))
      && (processWrite.burst.score == paramDrift.burst.score ==>
            Anomaly.Rank(i.burst.severity)
            == Fusion.MaxNat(Anomaly.Rank(processWrite.burst.severity), Anomaly.Rank(paramDrift.burst.severity)))
  {
    Fusion.FusedSeverityIsWorst(processWrite, paramDrift);
  }

  // ----- what the evaluator relies on -----

  lemma ObservedBurst(cfg: RateConfig, sqrt: real -> real, c: Cache, key: string, now: int, c': Cache, r: RateMetrics)
    requires Sound(cfg) && Observes(cfg, sqrt, c, key, now, c', r)
    ensures Fusion.Reported(Burst.Defaults(cfg.burst), r.burst)
  {
    hide Burst.Defaults, Burst.Added, Burst.SnapshotOf, Cleaned, Observed;
    if key != "" {
      var mid :| Cleaned(cfg, c, now, mid) && c' == AfterEvent(cfg, mid, key, now)
                 && r == Metrics(cfg, sqrt, StateOf(cfg, mid, key), now);
      var count := |Burst.Added(Burst.Defaults(cfg.burst), StateOf(cfg, mid, key).burst, now)|;
      assert r.burst == Burst.SnapshotOf(Burst.Defaults(cfg.burst), count);
    }
  }

  lemma GottenInRange(cfg: Reputation.ReputationConfig, q: real, entries: ReputationManager.Entries, last: int,
                      process: string, now: int, entries': ReputationManager.Entries, last': int,
                      r: ReputationManager.Snapshot)
    requires Reputation.Proper(cfg) && Reputation.Fraction(q)
    requires forall k :: k in entries ==> Reputation.InRange(cfg, entries[k].rep)
    requires ReputationManager.Gets(cfg, q, entries, last, process, now, entries', last', r)
    ensures 0.0 <= r.score <= cfg.maxScore
  {
    hide ReputationManager.Queried, ReputationManager.FreshEntry;
    if process != "" {
      var mid :| ReputationManager.Cleaned(cfg, entries, last, now, mid, last')
                 && var e := ReputationManager.Queried(cfg, q, ReputationManager.EntryFor(cfg, mid, process, now), now);
                    entries' == mid[process := e] && r == ReputationManager.SnapshotOf(e, now);
      ReputationManager.FreshInRange(cfg, now);
      ReputationManager.QueriedInRange(cfg, q, ReputationManager.EntryFor(cfg, mid, process, now), now);
    }
  }

  /** Two bursts of detectors with one configuration and a reputation of at most 1.125 make intelligence
      that can only escalate a decision; with one of at most 1 no score exceeds 19. */
  lemma IntelOnlyEscalates(cfg: Burst.BurstConfig, processWrite: RateMetrics, paramDrift: RateMetrics, reputation: real,
                           ctx: Context, entry: SysctlPolicy, global: GlobalConfig)
    requires Burst.Usable(cfg)
    requires Fusion.Reported(cfg, processWrite.burst) && Fusion.Reported(cfg, paramDrift.burst)
    requires 0.0 <= reputation <= 1.125
    requires ctx.hasIntel && ctx.intel == Intel(processWrite, paramDrift, reputation)
    ensures
      var d := EvaluateDecision(ctx, entry, global);
      && d.baseScore <= d.score && (reputation <= 1.0 ==> d.score <= 19)
      && Gravity(d.action) >= Gravity(EvaluateDecision(ctx.(hasIntel := false), entry, global).action)
  {
    assert reputation <= 1.0 ==> Reasonable(ctx.intel) by {
      hide EvaluateDecision, Burst.ScoreOf;
      Fusion.OrderedSnapshots(cfg, cfg, processWrite.burst, paramDrift.burst);
      Fusion.OrderedSnapshots(cfg, cfg, paramDrift.burst, processWrite.burst);
    }
    assert ctx.intel.reputation == reputation;
    hide *;
    if Discounted(ctx) {
      DiscountTakesReputation(ctx);
    }
    ScoreDropsIff(ctx, entry, global);
    ActionIsWeakenedIff(ctx, entry, global);
    if reputation <= 1.0 {
      IntelligenceOnlyEscalates(ctx, entry, global);
    }
  }

  /** The bound on the reputation is needed: with an initial and maximal score of 2, which defaulting lets
      through, a process nobody has asked about before is given a reputation of 2. */
  lemma GoodNameIsPossible(c: Reputation.ReputationConfig, q: real, process: string, now: int)
    requires process != ""
    ensures
      var cfg := Reputation.WithDefaults(c.(minScore := 0.0, maxScore := 2.0, initialScore := 2.0));
      exists entries', last', r ::
        ReputationManager.Gets(cfg, q, map[], 0, process, now, entries', last', r) && r.score == 2.0
  {
    var cfg := Reputation.WithDefaults(c.(minScore := 0.0, maxScore := 2.0, initialScore := 2.0));
    var e := ReputationManager.Queried(cfg, q, ReputationManager.FreshEntry(cfg, now), now);
    assert ReputationManager.Recent(cfg, map[], now) == map[];
    assert ReputationManager.Cleaned(cfg, map[], 0, now, map[], now);
    assert ReputationManager.Gets(cfg, q, map[], 0, process, now, map[process := e], now,
                                  ReputationManager.SnapshotOf(e, now));
  }

  /** What an engine is configured with. */
  datatype Setup = Setup(writes: RateConfig, drifts: RateConfig, remediations: RateConfig,
                         reputation: Reputation.ReputationConfig, sqrt: real -> real, q: real)

  /** What an engine knows. */
  datatype Knowledge = Knowledge(writes: Cache, drifts: Cache, remediations: Cache,
                                 entries: ReputationManager.Entries, lastCleanup: int)

  /** The configuration of one cache: its own weight and cap, and what all three have in common. */
  predicate CacheOf(cache: RateConfig, c: Config, alpha: real, maxEntries: int) {
    && cache.alpha == (if alpha == 0.0 then 0.3 else alpha) && cache.maxEntries == maxEntries
    && cache.minInterval == (if c.minInterval > 0 then c.minInterval else 10_000_000)
    && cache.entryTTL == (if c.seriesTTL > 0 then c.seriesTTL else 1_800_000_000_000)
    && cache.cleanupInterval == (if c.cleanupInterval > 0 then c.cleanupInterval else 60_000_000_000)
    && cache.anomaly == Anomaly.WithDefaults(c.anomaly) && cache.burst == Burst.Defaults(c.burst)
  }

  /** What a configuration sets up: the writes of at most so many processes, the drifts of all parameters, and
      the remediations. */
  predicate ConfiguredBy(e: Setup, c: Config) {
    && CacheOf(e.writes, c, c.processAlpha, if c.maxProcessSeries > 0 then c.maxProcessSeries else 2048)
    && CacheOf(e.drifts, c, c.driftAlpha, 0)
    && CacheOf(e.remediations, c, c.remediationAlpha, 8)
    && e.reputation == Reputation.WithDefaults(c.reputation)
  }

  /** In such an engine a process or a parameter named at most `gap` apart is answered from all its events, in
      every run, exactly if the gap is within the time to live of the series, or half an hour if none is set. */
  lemma RemembersExactly(e: Setup, c: Config, gap: int)
    requires ConfiguredBy(e, c) && SoundSetup(e)
    ensures
      var ttl := if c.seriesTTL > 0 then c.seriesTTL else 1_800_000_000_000;
      && (SeriesRuns.Refines(e.writes, e.sqrt, gap) <==> gap <= ttl)
      && (SeriesRuns.Refines(e.drifts, e.sqrt, gap) <==> gap <= ttl)
  {
    hide SeriesRuns.Refines;
    SeriesRuns.CacheRefinesIff(e.writes, e.sqrt, gap);
    SeriesRuns.CacheRefinesIff(e.drifts, e.sqrt, gap);
  }

  predicate SoundSetup(e: Setup) {
    Sound(e.writes) && Sound(e.drifts) && Sound(e.remediations)
  }

  /** The reputations are configured properly, and all scores are in range. */
  ghost predicate Scored(e: Setup, k: Knowledge) {
    && Reputation.Proper(e.reputation) && Reputation.Fraction(e.q)
    && forall p :: p in k.entries ==> Reputation.InRange(e.reputation, k.entries[p].rep)
  }

  lemma CachesAreConfigured(config: Config, writes: RateConfig, drifts: RateConfig, remediations: RateConfig)
    requires
      var c := WithDefaults(config);
      && writes == CacheConfig(c, c.processAlpha, c.maxProcessSeries) && drifts == CacheConfig(c, c.driftAlpha, 0)
      && remediations == CacheConfig(c, c.remediationAlpha, 8)
    ensures CacheOf(writes, config, config.processAlpha,
              if config.maxProcessSeries > 0 then config.maxProcessSeries else 2048)
    ensures CacheOf(drifts, config, config.driftAlpha, 0) && CacheOf(remediations, config, config.remediationAlpha, 8)
    ensures WithDefaults(config).reputation == Reputation.WithDefaults(config.reputation)
  {
    hide Reputation.WithDefaults, Anomaly.WithDefaults, Burst.Defaults;
  }

  // The calls of the engine, as relations between what it knows before and after.

  ghost predicate WriteObserved(e: Setup, k: Knowledge, process: string, now: int, k': Knowledge, r: RateMetrics)
    requires SoundSetup(e)
  {
    Observes(e.writes, e.sqrt, k.writes, process, now, k'.writes, r) && k' == k.(writes := k'.writes)
  }

  ghost predicate DriftObserved(e: Setup, k: Knowledge, param: string, now: int, k': Knowledge, r: RateMetrics)
    requires SoundSetup(e)
  {
    Observes(e.drifts, e.sqrt, k.drifts, param, now, k'.drifts, r) && k' == k.(drifts := k'.drifts)
  }

  ghost predicate RemediationObserved(e: Setup, k: Knowledge, now: int, k': Knowledge, r: RateMetrics)
    requires SoundSetup(e)
  {
    Observes(e.remediations, e.sqrt, k.remediations, GLOBAL_KEY, now, k'.remediations, r)
    && k' == k.(remediations := k'.remediations)
  }

  ghost predicate ReputationGiven(e: Setup, k: Knowledge, process: string, now: int, k': Knowledge, score: real) {
    && k' == k.(entries := k'.entries, lastCleanup := k'.lastCleanup)
    && exists r: ReputationManager.Snapshot :: r.score == score
         && ReputationManager.Gets(e.reputation, e.q, k.entries, k.lastCleanup, process, now, k'.entries,
                                   k'.lastCleanup, r)
  }

  ghost predicate ReputationUpdated(e: Setup, k: Knowledge, process: string, now: int,
                                    upd: Reputation.ReputationUpdate, k': Knowledge) {
    && k' == k.(entries := k'.entries, lastCleanup := k'.lastCleanup)
    && exists r: ReputationManager.Snapshot ::
         ReputationManager.Updates(e.reputation, e.q, k.entries, k.lastCleanup, process, now, upd, k'.entries,
                                   k'.lastCleanup, r)
  }

  lemma WriteFacts(e: Setup, k: Knowledge, process: string, now: int, k': Knowledge, r: RateMetrics)
    requires SoundSetup(e) && WriteObserved(e, k, process, now, k', r)
    ensures Fusion.Reported(Burst.Defaults(e.writes.burst), r.burst) && k'.entries == k.entries
  {
    hide Observes, Fusion.Reported, Burst.Defaults;
    ObservedBurst(e.writes, e.sqrt, k.writes, process, now, k'.writes, r);
  }

  lemma DriftFacts(e: Setup, k: Knowledge, param: string, now: int, k': Knowledge, r: RateMetrics)
    requires SoundSetup(e) && DriftObserved(e, k, param, now, k', r)
    ensures Fusion.Reported(Burst.Defaults(e.drifts.burst), r.burst)
  {
    hide Observes, Fusion.Reported, Burst.Defaults;
    ObservedBurst(e.drifts, e.sqrt, k.drifts, param, now, k'.drifts, r);
  }

  lemma ReputationFacts(e: Setup, k: Knowledge, process: string, now: int, k': Knowledge, score: real)
    requires Scored(e, k) && ReputationGiven(e, k, process, now, k', score)
    ensures 0.0 <= score <= e.reputation.maxScore
  {
    hide ReputationManager.Gets, Reputation.Proper;
    var r: ReputationManager.Snapshot :| r.score == score
      && ReputationManager.Gets(e.reputation, e.q, k.entries, k.lastCleanup, process, now, k'.entries, k'.lastCleanup,
                                r);
    GottenInRange(e.reputation, e.q, k.entries, k.lastCleanup, process, now, k'.entries, k'.lastCleanup, r);
  }

  // ----- the engine in place -----

  class Engine {
    const cfg: Config
    const processWrites: RateSeriesManager
    const paramDrifts: RateSeriesManager
    const remediations: RateSeriesManager
    const reputation: ReputationManager.ReputationManager

    constructor (config: Config, writes: RateSeriesManager, drifts: RateSeriesManager, remediated: RateSeriesManager,
                 reputations: ReputationManager.ReputationManager)
      requires writes.Valid() && drifts.Valid() && remediated.Valid() && reputations.Valid()
      requires writes.Objects() == {writes} && drifts.Objects() == {drifts} && remediated.Objects() == {remediated}
      requires reputations.Objects() == {reputations}
      requires writes != drifts && drifts != remediated && remediated != writes
      requires writes.Abstract() == drifts.Abstract() == remediated.Abstract() == EMPTY
      requires reputations.Abstract() == map[] && reputations.lastCleanup == 0
      requires Wired(WithDefaults(config), writes, drifts, remediated, reputations)
      ensures Valid() && cfg == WithDefaults(config)
      ensures Abstract() == Knowledge(EMPTY, EMPTY, EMPTY, map[], 0) && reputation == reputations
      ensures Objects() == {writes, drifts, remediated, reputations}
      ensures ConfiguredBy(Settings(), config)
    {
      hide *;
      cfg, processWrites, paramDrifts, remediations, reputation := WithDefaults(config), writes, drifts, remediated,
        reputations;
      new;
      Assembled(config);
    }

    /** Every store has its part of the configuration. */
    static ghost predicate Wired(cfg: Config, writes: RateSeriesManager, drifts: RateSeriesManager,
                                 remediated: RateSeriesManager, reputations: ReputationManager.ReputationManager) {
      && writes.sqrt == drifts.sqrt == remediated.sqrt
      && writes.cfg == CacheConfig(cfg, cfg.processAlpha, cfg.maxProcessSeries)
      && drifts.cfg == CacheConfig(cfg, cfg.driftAlpha, 0)
      && remediated.cfg == CacheConfig(cfg, cfg.remediationAlpha, 8)
      && reputations.cfg == Reputation.WithDefaults(cfg.reputation)
    }

    lemma Assembled(config: Config)
      requires cfg == WithDefaults(config)
      requires processWrites.Valid() && paramDrifts.Valid() && remediations.Valid() && reputation.Valid()
      requires processWrites.Abstract() == paramDrifts.Abstract() == remediations.Abstract() == EMPTY
      requires reputation.Abstract() == map[] && reputation.lastCleanup == 0
      requires processWrites.Objects() == {processWrites} && paramDrifts.Objects() == {paramDrifts}
      requires remediations.Objects() == {remediations} && reputation.Objects() == {reputation}
      requires processWrites != paramDrifts && paramDrifts != remediations && remediations != processWrites
      requires Wired(cfg, processWrites, paramDrifts, remediations, reputation)
      ensures Valid() && Abstract() == Knowledge(EMPTY, EMPTY, EMPTY, map[], 0)
      ensures Objects() == {processWrites, paramDrifts, remediations, reputation}
      ensures ConfiguredBy(Settings(), config)
    {
      hide WithDefaults, Reputation.WithDefaults, RateSeriesManager.Valid, RateSeriesManager.Objects,
        RateSeriesManager.Abstract,
        ReputationManager.ReputationManager.Valid, ReputationManager.ReputationManager.Objects,
        ReputationManager.ReputationManager.Abstract;
      CachesAreSound(config, 0.0, 0);
      CachesAreConfigured(config, processWrites.cfg, paramDrifts.cfg, remediations.cfg);
      Reputation.DefaultsAreProper(config.reputation);
      Reputation.DefaultsAreProper(cfg.reputation);
    }

    /** All that changes in an engine. */
    ghost function Objects(): set<object>
      reads processWrites, paramDrifts, remediations, reputation
    {
      processWrites.Objects() + paramDrifts.Objects() + remediations.Objects() + reputation.Objects()
    }

    /** The four stores have nothing in common. */
    ghost predicate Apart()
      reads processWrites, paramDrifts, remediations, reputation
    {
      && processWrites.Objects() !! paramDrifts.Objects()
      && processWrites.Objects() !! remediations.Objects()
      && processWrites.Objects() !! reputation.Objects()
      && paramDrifts.Objects() !! remediations.Objects()
      && paramDrifts.Objects() !! reputation.Objects()
      && remediations.Objects() !! reputation.Objects()
    }

    /** The configurations of the four stores fit together. */
    ghost predicate Fitting() {
      && processWrites.sqrt == paramDrifts.sqrt == remediations.sqrt
      && processWrites.cfg.burst == paramDrifts.cfg.burst == cfg.burst && Burst.Usable(cfg.burst)
      && paramDrifts.cfg.maxEntries == 0
      && reputation.cfg == cfg.reputation
      && SoundSetup(Settings())
    }

    ghost predicate Valid()
      reads Objects()
    {
      Apart() && Fitting() && processWrites.Valid() && paramDrifts.Valid() && remediations.Valid() && reputation.Valid()
    }

    ghost function Settings(): Setup {
      Setup(processWrites.cfg, paramDrifts.cfg, remediations.cfg, reputation.cfg, processWrites.sqrt, reputation.q)
    }

    ghost function Abstract(): Knowledge
      requires Valid()
      reads Objects()
    {
      Knowledge(processWrites.Abstract(), paramDrifts.Abstract(), remediations.Abstract(), reputation.Abstract(),
                reputation.lastCleanup)
    }

    lemma Allocated()
      ensures forall o :: o in Objects() ==> allocated(o)
      ensures forall o :: o in processWrites.Objects() || o in paramDrifts.Objects() ==> allocated(o)
      ensures forall o :: o in remediations.Objects() || o in reputation.Objects() ==> allocated(o)
      ensures processWrites in processWrites.Objects() && paramDrifts in paramDrifts.Objects()
      ensures remediations in remediations.Objects() && reputation in reputation.Objects()
    {
      processWrites.Allocated();
      paramDrifts.Allocated();
      remediations.Allocated();
    }

    method ObserveProcessWrite(process: string, now: int) returns (r: RateMetrics)
      requires Valid()
      modifies Objects()
      ensures Valid() && fresh(Objects() - old(Objects()))
      ensures WriteObserved(Settings(), old(Abstract()), process, now, Abstract(), r)
    {
      hide Observes, RateSeriesManager.Valid, RateSeriesManager.Objects, RateSeriesManager.Abstract,
        ReputationManager.ReputationManager.Valid, ReputationManager.ReputationManager.Objects,
        ReputationManager.ReputationManager.Abstract;
      Allocated();
      if process == "" {
        NothingObserved(processWrites.cfg, processWrites.sqrt, processWrites.Abstract(), now);
        return NO_METRICS;
      }
      r := processWrites.Observe(process, now);
      Allocated();
    }

    method ObserveParamDrift(param: string, now: int) returns (r: RateMetrics)
      requires Valid()
      modifies Objects()
      ensures Valid() && fresh(Objects() - old(Objects()))
      ensures DriftObserved(Settings(), old(Abstract()), param, now, Abstract(), r)
    {
      hide Observes, RateSeriesManager.Valid, RateSeriesManager.Objects, RateSeriesManager.Abstract,
        ReputationManager.ReputationManager.Valid, ReputationManager.ReputationManager.Objects,
        ReputationManager.ReputationManager.Abstract;
      Allocated();
      if param == "" {
        NothingObserved(paramDrifts.cfg, paramDrifts.sqrt, paramDrifts.Abstract(), now);
        return NO_METRICS;
      }
      r := paramDrifts.Observe(param, now);
      Allocated();
    }

    method ObserveRemediation(now: int) returns (r: RateMetrics)
      requires Valid()
      modifies Objects()
      ensures Valid() && fresh(Objects() - old(Objects()))
      ensures RemediationObserved(Settings(), old(Abstract()), now, Abstract(), r)
    {
      hide Observes, RateSeriesManager.Valid, RateSeriesManager.Objects, RateSeriesManager.Abstract,
        ReputationManager.ReputationManager.Valid, ReputationManager.ReputationManager.Objects,
        ReputationManager.ReputationManager.Abstract;
      Allocated();
      r := remediations.Observe(GLOBAL_KEY, now);
      Allocated();
    }

    method GetReputation(process: string, now: int) returns (r: ReputationManager.Snapshot)
      requires Valid()
      modifies Objects()
      ensures Valid() && fresh(Objects() - old(Objects()))
      ensures ReputationGiven(Settings(), old(Abstract()), process, now, Abstract(), r.score)
      ensures 0.0 <= r.score <= cfg.reputation.maxScore
    {
      hide ReputationManager.Gets, Reputation.Proper, RateSeriesManager.Valid, RateSeriesManager.Objects,
        RateSeriesManager.Abstract,
        ReputationManager.ReputationManager.Valid, ReputationManager.ReputationManager.Objects,
        ReputationManager.ReputationManager.Abstract;
      Allocated();
      ScoresInRange();
      r := reputation.Get(process, now);
      Allocated();
      GottenInRange(reputation.cfg, reputation.q, old(reputation.Abstract()), old(reputation.lastCleanup),
        process, now, reputation.Abstract(), reputation.lastCleanup, r);
    }

    lemma ScoresInRange()
      requires Valid()
      ensures Reputation.Proper(reputation.cfg) && Reputation.Fraction(reputation.q)
      ensures forall k :: k in reputation.Abstract() ==>
                Reputation.InRange(reputation.cfg, reputation.Abstract()[k].rep)
    {
    }

    method UpdateReputation(process: string, now: int, upd: Reputation.ReputationUpdate)
      returns (r: ReputationManager.Snapshot)
      requires Valid()
      modifies Objects()
      ensures Valid() && fresh(Objects() - old(Objects()))
      ensures ReputationUpdated(Settings(), old(Abstract()), process, now, upd, Abstract())
    {
      hide ReputationManager.Updates, RateSeriesManager.Valid, RateSeriesManager.Objects, RateSeriesManager.Abstract,
        ReputationManager.ReputationManager.Valid, ReputationManager.ReputationManager.Objects,
        ReputationManager.ReputationManager.Abstract;
      Allocated();
      r := reputation.Update(process, now, upd);
      Allocated();
    }

    /** What is asked for every event: the write metrics, then the reputation of the process before it. */
    method Consult(process: string, now: int) returns (processWrite: RateMetrics, score: real, ghost written: Knowledge)
      requires Valid()
      modifies Objects()
      ensures Valid() && fresh(Objects() - old(Objects()))
      ensures WriteObserved(Settings(), old(Abstract()), process, now, written, processWrite)
      ensures ReputationGiven(Settings(), written, process, now, Abstract(), score)
      ensures 0.0 <= score <= cfg.reputation.maxScore
    {
      hide *;
      Allocated();
      SettingsAreSound();
      processWrite := ObserveProcessWrite(process, now);
      written := Abstract();
      var before := GetReputation(process, now);
      score := before.score;
      Allocated();
    }

    /** What is learned once a drift has been dealt with. */
    method Conclude(process: string, remediated: bool, observed: int, settled: int, upd: Reputation.ReputationUpdate)
        returns (ghost fed: Knowledge)
      requires Valid()
      modifies Objects()
      ensures Valid() && fresh(Objects() - old(Objects()))
      ensures SoundSetup(Settings())
      ensures if remediated then exists r :: RemediationObserved(Settings(), old(Abstract()), observed, fed, r)
              else fed == old(Abstract())
      ensures ReputationUpdated(Settings(), fed, process, settled, upd, Abstract())
    {
      hide *;
      SettingsAreSound();
      Allocated();
      if remediated {
        var _ := ObserveRemediation(observed);
      }
      fed := Abstract();
      var _ := UpdateReputation(process, settled, upd);
      Allocated();
    }

    /** What holds of every usable engine. */
    lemma Facts()
      requires Valid()
      ensures SoundSetup(Settings()) && Settings().writes.burst == Settings().drifts.burst
      ensures Settings().reputation == cfg.reputation
      ensures Scored(Settings(), Abstract())
    {
      hide Reputation.Proper;
      ScoresInRange();
    }

    lemma SettingsAreSound()
      requires Valid()
      ensures SoundSetup(Settings())
    {
    }
  }

  lemma NothingObserved(cfg: RateConfig, sqrt: real -> real, c: Cache, now: int)
    requires Sound(cfg)
    ensures Observes(cfg, sqrt, c, "", now, c, NO_METRICS)
  {
  }

  /** The engine of a configuration, with its stores. */
  method NewEngine(config: Config, root: real -> real, fraction: real) returns (engine: Engine)
    requires Reputation.Fraction(fraction)
    ensures fresh(engine.Objects()) && engine.Valid() && engine.cfg == WithDefaults(config)
    ensures engine.Abstract() == Knowledge(EMPTY, EMPTY, EMPTY, map[], 0) && engine.reputation.q == fraction
    ensures ConfiguredBy(engine.Settings(), config)
  {
    hide WithDefaults, Reputation.WithDefaults, RateSeriesManager.Valid, RateSeriesManager.Objects,
      RateSeriesManager.Abstract,
      ReputationManager.ReputationManager.Valid, ReputationManager.ReputationManager.Objects,
      ReputationManager.ReputationManager.Abstract,
      Engine.Valid, Engine.Objects, Engine.Abstract;
    var c := WithDefaults(config);
    CachesAreSound(config, c.processAlpha, c.maxProcessSeries);
    CachesAreSound(config, c.driftAlpha, 0);
    CachesAreSound(config, c.remediationAlpha, 8);
    var writes := new RateSeriesManager(CacheConfig(c, c.processAlpha, c.maxProcessSeries), root);
    var drifts := new RateSeriesManager(CacheConfig(c, c.driftAlpha, 0), root);
    var remediated := new RateSeriesManager(CacheConfig(c, c.remediationAlpha, 8), root);
    var reputations := new ReputationManager.ReputationManager(c.reputation, fraction);
    engine := new Engine(config, writes, drifts, remediated, reputations);
  }
}
