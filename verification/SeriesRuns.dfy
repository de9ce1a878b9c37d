/** Exactly when the cache of rate series refines isolated series (stats/engine.go): while no series is left
    alone for longer than the time to live, or if nothing is ever swept. */
module SeriesRuns {
  import opened Common
  import opened Series
  import opened SeriesCache
  import Burst
  import Variance
  import Pulse

  /** A call whose key is named at most `gap` apart until then, in a run that there is room for. */
  ghost predicate Comparable(cfg: RateConfig, calls: seq<Call>, i: nat, gap: int) {
    && ClockNeverGoesBack(calls) && Roomy(cfg, calls)
    && i < |calls| && calls[i].key != ""
    && var ts := TimesOf(calls, calls[i].key, i + 1);
       forall j :: 0 < j < |ts| ==> ts[j] - ts[j - 1] <= gap
  }

  /** The call is answered as by a series of its own. */
  ghost predicate LikeLone(cfg: RateConfig, sqrt: real -> real, calls: seq<Call>, i: nat, r: RateMetrics)
    requires Sound(cfg) && i < |calls|
  {
    var ts := TimesOf(calls, calls[i].key, i + 1);
    ts != [] && r == Metrics(cfg, sqrt, Lone(cfg, ts, 0, |ts| - 1), calls[i].now)
  }

  /** Keys named at most `gap` apart are answered as by series of their own, in every run. */
  ghost predicate Refines(cfg: RateConfig, sqrt: real -> real, gap: int)
    requires Sound(cfg)
  {
    forall calls: seq<Call>, caches: seq<Cache>, answers: seq<RateMetrics>, i: nat ::
      Comparable(cfg, calls, i, gap) && Execution(cfg, sqrt, calls, caches, answers) ==>
        LikeLone(cfg, sqrt, calls, i, answers[i])
  }

  /** Passes happen, and sweep by age. */
  predicate Forgets(cfg: RateConfig) {
    cfg.entryTTL > 0 && cfg.cleanupInterval > 0
  }

  // ----- if nothing is swept -----

  /** The same configuration without a time to live. */
  function Ageless(cfg: RateConfig): RateConfig {
    cfg.(entryTTL := 0)
  }

  lemma SameAnswers(cfg: RateConfig, sqrt: real -> real, s: SeriesState, now: int)
    requires Sound(cfg)
    ensures Metrics(cfg, sqrt, s, now) == Metrics(Ageless(cfg), sqrt, s, now)
    ensures Observed(cfg, s, now) == Observed(Ageless(cfg), s, now)
    ensures FreshSeries(cfg) == FreshSeries(Ageless(cfg))
  {
  }

  lemma {:induction false} SameLone(cfg: RateConfig, ts: seq<int>, n: nat)
    requires Sound(cfg) && n <= |ts|
    ensures Lone(cfg, ts, 0, n) == Lone(Ageless(cfg), ts, 0, n)
  {
    hide Observed, FreshSeries, Ageless;
    SameAnswers(cfg, x => x, FreshSeries(cfg), 0);
    if n > 0 {
      SameLone(cfg, ts, n - 1);
      SameAnswers(cfg, x => x, Lone(cfg, ts, 0, n - 1), ts[n - 1]);
    }
  }

  lemma SameOutcome(cfg: RateConfig, sqrt: real -> real, c: Cache, key: string, now: int, c': Cache, r: RateMetrics)
    requires Sound(cfg) && cfg.cleanupInterval <= 0 && Observes(cfg, sqrt, c, key, now, c', r)
    ensures Observes(Ageless(cfg), sqrt, c, key, now, c', r)
  {
    hide Observed, Metrics, FreshSeries;
    if key != "" {
      var mid :| Cleaned(cfg, c, now, mid) && c' == AfterEvent(cfg, mid, key, now)
                 && r == Metrics(cfg, sqrt, StateOf(cfg, mid, key), now);
      SameAnswers(cfg, sqrt, StateOf(cfg, mid, key), now);
      assert Cleaned(Ageless(cfg), c, now, mid);
      assert c' == AfterEvent(Ageless(cfg), mid, key, now);
    }
  }

  lemma SameExecution(cfg: RateConfig, sqrt: real -> real, calls: seq<Call>, caches: seq<Cache>,
                      answers: seq<RateMetrics>)
    requires Sound(cfg) && cfg.cleanupInterval <= 0 && Execution(cfg, sqrt, calls, caches, answers)
    ensures Execution(Ageless(cfg), sqrt, calls, caches, answers)
  {
    hide Observes;
    forall i | 0 <= i < |calls|
      ensures Observes(Ageless(cfg), sqrt, caches[i], calls[i].key, calls[i].now, caches[i + 1], answers[i])
    {
      SameOutcome(cfg, sqrt, caches[i], calls[i].key, calls[i].now, caches[i + 1], answers[i]);
    }
  }

  /** Keys within the time to live, and all keys if nothing is swept, are answered as by series of their own. */
  lemma RefinesWithin(cfg: RateConfig, sqrt: real -> real, gap: int, calls: seq<Call>, caches: seq<Cache>,
                      answers: seq<RateMetrics>, i: nat)
    requires Sound(cfg) && (gap <= cfg.entryTTL || !Forgets(cfg))
    requires Comparable(cfg, calls, i, gap) && Execution(cfg, sqrt, calls, caches, answers)
    ensures i < |answers| && LikeLone(cfg, sqrt, calls, i, answers[i])
  {
    hide Observes, Metrics, Lone, FreshSeries, TimesOf;
    if gap <= cfg.entryTTL || cfg.entryTTL <= 0 {
      CacheRefinesIsolatedSeries(cfg, sqrt, calls, caches, answers, i);
    } else {
      var ts := TimesOf(calls, calls[i].key, i + 1);
      SameExecution(cfg, sqrt, calls, caches, answers);
      CacheRefinesIsolatedSeries(Ageless(cfg), sqrt, calls, caches, answers, i);
      SameLone(cfg, ts, |ts| - 1);
      SameAnswers(cfg, sqrt, Lone(cfg, ts, 0, |ts| - 1), calls[i].now);
    }
  }

  // ----- when a series is forgotten -----

  const KEY := "k"

  /** Calls a time to live apart, one more, and one when the pass is due that finds the series too old. */
  function Story(cfg: RateConfig, k: nat, at: int): (calls: seq<Call>)
    ensures |calls| == k + 2 && forall i :: 0 <= i < k + 2 ==> calls[i].key == KEY
  {
    seq(k, i requires 0 <= i < k => Call(KEY, Pulse.Beat(cfg.entryTTL, i)))
    + [Call(KEY, at), Call(KEY, at + cfg.entryTTL + 1)]
  }

  lemma StoryIs(cfg: RateConfig, k: nat, at: int, i: nat)
    requires i < k + 2
    ensures Story(cfg, k, at)[i].now
            == if i < k then Pulse.Beat(cfg.entryTTL, i) else if i == k then at else at + cfg.entryTTL + 1
  {
    hide Pulse.Beat;
  }

  /** The clock of the story goes forward, in steps of at most a time to live and one. */
  lemma StorySteps(cfg: RateConfig, k: nat, at: int, i: nat)
    requires Forgets(cfg) && Pulse.Timely(cfg.entryTTL, cfg.cleanupInterval, k, at) && 0 < i < k + 2
    ensures 0 <= Story(cfg, k, at)[i].now - Story(cfg, k, at)[i - 1].now <= cfg.entryTTL + 1
  {
    hide Pulse.Beat, Story;
    StoryIs(cfg, k, at, i);
    StoryIs(cfg, k, at, i - 1);
    Pulse.BeatsAreOrdered(cfg.entryTTL, i - 1, i - 1);
  }

  lemma {:induction false} StoryIsOrdered(cfg: RateConfig, k: nat, at: int, i: nat, j: nat)
    requires Forgets(cfg) && Pulse.Timely(cfg.entryTTL, cfg.cleanupInterval, k, at) && i <= j < k + 2
    ensures Story(cfg, k, at)[i].now <= Story(cfg, k, at)[j].now
  {
    hide Pulse.Timely, Story;
    if i < j {
      StoryIsOrdered(cfg, k, at, i, j - 1);
      StorySteps(cfg, k, at, j);
    }
  }

  lemma StoryTimes(cfg: RateConfig, k: nat, at: int)
    requires Forgets(cfg) && Pulse.Timely(cfg.entryTTL, cfg.cleanupInterval, k, at)
    ensures
      var calls := Story(cfg, k, at);
      && ClockNeverGoesBack(calls) && calls[0].now == 1
      && (forall i :: 0 < i < k + 2 ==> calls[i].now - calls[i - 1].now <= cfg.entryTTL + 1)
      && (forall i :: 0 < i <= k ==> 0 <= calls[i].now - 1 < cfg.cleanupInterval)
      && calls[k].now == at > 0 && calls[k + 1].now == at + cfg.entryTTL + 1 >= 1 + cfg.cleanupInterval
  {
    hide Pulse.Beat, Story;
    var calls := Story(cfg, k, at);
    forall i: nat, j: nat | i <= j < |calls| ensures calls[i].now <= calls[j].now {
      StoryIsOrdered(cfg, k, at, i, j);
    }
    forall i: nat | 0 < i < k + 2 ensures calls[i].now - calls[i - 1].now <= cfg.entryTTL + 1 {
      StorySteps(cfg, k, at, i);
    }
    StoryIs(cfg, k, at, 0);
    StoryIs(cfg, k, at, k);
    StoryIs(cfg, k, at, k + 1);
    Pulse.BeatsAreOrdered(cfg.entryTTL, 0, 0);
  }

  lemma {:induction false} AllTimes(calls: seq<Call>, n: nat)
    requires n <= |calls| && forall i :: 0 <= i < |calls| ==> calls[i].key == KEY
    ensures |TimesOf(calls, KEY, n)| == n && forall i :: 0 <= i < n ==> TimesOf(calls, KEY, n)[i] == calls[i].now
  {
    if n > 0 {
      AllTimes(calls, n - 1);
    }
  }

  lemma StoryCompares(cfg: RateConfig, k: nat, at: int, gap: int)
    requires Forgets(cfg) && Pulse.Timely(cfg.entryTTL, cfg.cleanupInterval, k, at) && gap > cfg.entryTTL
    ensures Comparable(cfg, Story(cfg, k, at), k + 1, gap)
  {
    hide Story, TimesOf;
    var calls := Story(cfg, k, at);
    StoryTimes(cfg, k, at);
    AllTimes(calls, k + 2);
    assert (set i | 0 <= i < |calls| :: calls[i].key) <= {KEY};
    SubsetSize(set i | 0 <= i < |calls| :: calls[i].key, {KEY});
  }

  /** Every call has an outcome while there is room. */
  lemma OutcomeExists(cfg: RateConfig, sqrt: real -> real, c: Cache, key: string, now: int)
    returns (c': Cache, r: RateMetrics)
    requires Sound(cfg) && (cfg.maxEntries <= 0 || |c.series| <= cfg.maxEntries)
    ensures Observes(cfg, sqrt, c, key, now, c', r)
  {
    hide Observed, Metrics, FreshSeries;
    if key == "" {
      c', r := c, NO_METRICS;
    } else {
      var kept := Swept(cfg, c.series, now);
      SubsetSize(kept.Keys, c.series.Keys);
      assert |kept.Keys| == |kept| && |c.series.Keys| == |c.series|;
      var mid := if Due(cfg, c.lastCleanup, now) then Cache(kept, c.count - |c.series| + |kept|, now) else c;
      assert Cleaned(cfg, c, now, mid);
      c', r := AfterEvent(cfg, mid, key, now), Metrics(cfg, sqrt, StateOf(cfg, mid, key), now);
    }
  }

  ghost predicate OnlyOne(c: Cache) {
    c.series.Keys <= {KEY}
  }

  lemma StaysOne(cfg: RateConfig, sqrt: real -> real, c: Cache, now: int, c': Cache, r: RateMetrics)
    requires Sound(cfg) && OnlyOne(c) && Observes(cfg, sqrt, c, KEY, now, c', r)
    ensures OnlyOne(c')
  {
    hide Observed, Metrics, FreshSeries;
    var mid :| Cleaned(cfg, c, now, mid) && c' == AfterEvent(cfg, mid, KEY, now)
      && r == Metrics(cfg, sqrt, StateOf(cfg, mid, KEY), now);
    assert mid.series.Keys <= c.series.Keys;
  }

  lemma OneFits(cfg: RateConfig, c: Cache)
    requires OnlyOne(c)
    ensures cfg.maxEntries <= 0 || |c.series| <= cfg.maxEntries
  {
    SubsetSize(c.series.Keys, {KEY});
    assert |c.series.Keys| == |c.series|;
  }

  /** The story can happen. */
  lemma SomeExecution(cfg: RateConfig, sqrt: real -> real, calls: seq<Call>)
    returns (caches: seq<Cache>, answers: seq<RateMetrics>)
    requires Sound(cfg) && forall i :: 0 <= i < |calls| ==> calls[i].key == KEY
    ensures Execution(cfg, sqrt, calls, caches, answers)
  {
    hide Observes;
    caches, answers := [EMPTY], [];
    for n := 0 to |calls|
      invariant |caches| == n + 1 && |answers| == n && caches[0] == EMPTY && OnlyOne(caches[n])
      invariant forall i :: 0 <= i < n ==>
        Observes(cfg, sqrt, caches[i], calls[i].key, calls[i].now, caches[i + 1], answers[i])
    {
      OneFits(cfg, caches[n]);
      var c, r := OutcomeExists(cfg, sqrt, caches[n], KEY, calls[n].now);
      StaysOne(cfg, sqrt, caches[n], calls[n].now, c, r);
      caches, answers := caches + [c], answers + [r];
    }
  }

  /** One event of the key, when no pass is due, or for the first time. */
  lemma EventSeen(cfg: RateConfig, sqrt: real -> real, c: Cache, now: int, c': Cache, r: RateMetrics)
    requires Forgets(cfg) && Sound(cfg) && Observes(cfg, sqrt, c, KEY, now, c', r)
    requires c == EMPTY || (c.lastCleanup != 0 && now - c.lastCleanup < cfg.cleanupInterval)
    ensures c'.lastCleanup == (if c == EMPTY then now else c.lastCleanup)
    ensures KEY in c'.series && c'.series[KEY].lastSeen == now
  {
    hide Observed, Metrics, FreshSeries, Swept;
    var mid :| Cleaned(cfg, c, now, mid) && c' == AfterEvent(cfg, mid, KEY, now)
      && r == Metrics(cfg, sqrt, StateOf(cfg, mid, KEY), now);
    SeenNow(cfg, StateOf(cfg, mid, KEY), now);
  }

  /** Until the pass comes due the series stays, and the time of the first pass stands. */
  lemma {:induction false} NoPassYet(cfg: RateConfig, sqrt: real -> real, k: nat, at: int, caches: seq<Cache>,
                                     answers: seq<RateMetrics>, n: nat)
    requires Sound(cfg) && Forgets(cfg) && Pulse.Timely(cfg.entryTTL, cfg.cleanupInterval, k, at) && 0 < n <= k + 1
    requires Execution(cfg, sqrt, Story(cfg, k, at), caches, answers)
    ensures caches[n].lastCleanup == 1
    ensures KEY in caches[n].series && caches[n].series[KEY].lastSeen == Story(cfg, k, at)[n - 1].now
  {
    hide Observes, Story;
    var calls := Story(cfg, k, at);
    StoryTimes(cfg, k, at);
    if n > 1 {
      NoPassYet(cfg, sqrt, k, at, caches, answers, n - 1);
    }
    assert Observes(cfg, sqrt, caches[n - 1], calls[n - 1].key, calls[n - 1].now, caches[n], answers[n - 1]);
    EventSeen(cfg, sqrt, caches[n - 1], calls[n - 1].now, caches[n], answers[n - 1]);
  }

  /** A series that a due pass finds too old is answered for as a new one, which has no rate yet. */
  lemma AnsweredAnew(cfg: RateConfig, sqrt: real -> real, c: Cache, now: int, c': Cache, r: RateMetrics)
    requires Forgets(cfg) && Sound(cfg) && Observes(cfg, sqrt, c, KEY, now, c', r)
    requires now - c.lastCleanup >= cfg.cleanupInterval
    requires KEY in c.series && c.series[KEY].lastSeen < now - cfg.entryTTL
    ensures r.current == 0.0
  {
    var mid :| Cleaned(cfg, c, now, mid) && c' == AfterEvent(cfg, mid, KEY, now)
      && r == Metrics(cfg, sqrt, StateOf(cfg, mid, KEY), now);
    assert KEY !in mid.series;
  }

  /** A series of its own has a rate from its second event on. */
  lemma LoneHasRate(cfg: RateConfig, sqrt: real -> real, ts: seq<int>)
    requires Sound(cfg) && |ts| >= 2 && ts[|ts| - 2] != 0
    ensures Metrics(cfg, sqrt, Lone(cfg, ts, 0, |ts| - 1), ts[|ts| - 1]).current > 0.0
  {
    hide Metrics, Observed, FreshSeries, RateOf;
    var n := |ts|;
    var before := Lone(cfg, ts, 0, n - 2);
    assert Lone(cfg, ts, 0, n - 1) == Observed(cfg, before, ts[n - 2]);
    EventNow(cfg, before, ts[n - 2]);
    RateShown(cfg, sqrt, Observed(cfg, before, ts[n - 2]), ts[n - 1]);
    RateIsBounded(cfg, ts[n - 1] - ts[n - 2]);
  }

  lemma EventNow(cfg: RateConfig, s: SeriesState, now: int)
    requires Sound(cfg)
    ensures Observed(cfg, s, now).lastEvent == now
  {
    hide RateOf;
  }

  lemma RateShown(cfg: RateConfig, sqrt: real -> real, s: SeriesState, now: int)
    requires Sound(cfg) && s.lastEvent != 0
    ensures Metrics(cfg, sqrt, s, now).current == RateOf(cfg, now - s.lastEvent)
  {
    hide RateOf, Variance.SnapshotOf, Burst.SnapshotOf;
  }

  /** With a longer silence allowed, there is a run in which a series is forgotten and the answer shows it. */
  lemma SilenceShows(cfg: RateConfig, sqrt: real -> real, gap: int)
    requires Sound(cfg) && Forgets(cfg) && gap > cfg.entryTTL
    ensures !Refines(cfg, sqrt, gap)
  {
    hide Observes, Metrics, Lone, TimesOf, Comparable, Story;
    var k, at := Pulse.SomeTiming(cfg.entryTTL, cfg.cleanupInterval);
    var calls := Story(cfg, k, at);
    var caches, answers := SomeExecution(cfg, sqrt, calls);
    StoryCompares(cfg, k, at, gap);
    StoryTimes(cfg, k, at);
    NoPassYet(cfg, sqrt, k, at, caches, answers, k + 1);
    assert Observes(cfg, sqrt, caches[k + 1], calls[k + 1].key, calls[k + 1].now, caches[k + 2], answers[k + 1]);
    AnsweredAnew(cfg, sqrt, caches[k + 1], calls[k + 1].now, caches[k + 2], answers[k + 1]);
    AllTimes(calls, k + 2);
    LoneHasRate(cfg, sqrt, TimesOf(calls, KEY, k + 2));
    assert !LikeLone(cfg, sqrt, calls, k + 1, answers[k + 1]);
  }

  /** The cache refines isolated series for keys at most `gap` apart exactly if the gap is within the time to
      live, or nothing is ever swept. */
  lemma CacheRefinesIff(cfg: RateConfig, sqrt: real -> real, gap: int)
    requires Sound(cfg)
    ensures Refines(cfg, sqrt, gap) <==> gap <= cfg.entryTTL || !Forgets(cfg)
  {
    hide Comparable, Execution, LikeLone;
    if gap <= cfg.entryTTL || !Forgets(cfg) {
      forall calls: seq<Call>, caches: seq<Cache>, answers: seq<RateMetrics>, i: nat
        | Comparable(cfg, calls, i, gap) && Execution(cfg, sqrt, calls, caches, answers)
        ensures i < |calls| && i < |answers| && LikeLone(cfg, sqrt, calls, i, answers[i])
      {
        ComparableIndex(cfg, calls, i, gap);
        RefinesWithin(cfg, sqrt, gap, calls, caches, answers, i);
      }
    } else {
      SilenceShows(cfg, sqrt, gap);
    }
  }

  lemma ComparableIndex(cfg: RateConfig, calls: seq<Call>, i: nat, gap: int)
    requires Comparable(cfg, calls, i, gap)
    ensures i < |calls|
  {
  }
}
