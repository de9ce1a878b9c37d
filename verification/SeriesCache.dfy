/** The keyed cache of rate series (stats/engine.go): created on demand, swept by age and by number. */
module SeriesCache {
  import opened Common
  import opened Series

  datatype Cache = Cache(series: map<string, SeriesState>, count: int, lastCleanup: int)

  const EMPTY: Cache := Cache(map[], 0, 0)

  // ----- what a call may do -----

  /** Whether a cleanup pass is due; zero means that there has been none. */
  predicate Due(cfg: RateConfig, lastCleanup: int, now: int) {
    cfg.cleanupInterval > 0 && (lastCleanup == 0 || now - lastCleanup >= cfg.cleanupInterval)
  }

  /** The series that were seen within the time to live. */
  function Swept(cfg: RateConfig, series: map<string, SeriesState>, now: int): map<string, SeriesState> {
    if cfg.entryTTL > 0 then map k | k in series && series[k].lastSeen >= now - cfg.entryTTL :: series[k] else series
  }

  function Capped(cfg: RateConfig, n: nat): nat {
    if cfg.maxEntries > 0 then Min(n, cfg.maxEntries) else n
  }

  /** A possible outcome of `maybeCleanup`: which entries go over the cap is not determined. */
  ghost predicate Cleaned(cfg: RateConfig, c: Cache, now: int, c': Cache) {
    if !Due(cfg, c.lastCleanup, now) then c' == c
    else
      var kept := Swept(cfg, c.series, now);
      && c'.lastCleanup == now
      && c'.series.Keys <= kept.Keys
      && (forall k :: k in c'.series ==> c'.series[k] == kept[k])
      && |c'.series| == Capped(cfg, |kept|)
      && c'.count == c.count - |c.series| + |c'.series|
  }

  function StateOf(cfg: RateConfig, c: Cache, key: string): SeriesState {
    if key in c.series then c.series[key] else FreshSeries(cfg)
  }

  function AfterEvent(cfg: RateConfig, c: Cache, key: string, now: int): Cache
    requires Sound(cfg)
  {
    Cache(c.series[key := Observed(cfg, StateOf(cfg, c, key), now)],
      if key in c.series then c.count else c.count + 1, c.lastCleanup)
  }

  /** A possible outcome of `Observe`. */
  ghost predicate Observes(cfg: RateConfig, sqrt: real -> real, c: Cache, key: string, now: int, c': Cache,
                           r: RateMetrics)
    requires Sound(cfg)
  {
    if key == "" then c' == c && r == NO_METRICS
    else exists mid :: Cleaned(cfg, c, now, mid) && c' == AfterEvent(cfg, mid, key, now)
                       && r == Metrics(cfg, sqrt, StateOf(cfg, mid, key), now)
  }

  // ----- whole runs -----

  datatype Call = Call(key: string, now: int)

  ghost predicate Execution(cfg: RateConfig, sqrt: real -> real, calls: seq<Call>, caches: seq<Cache>,
                            answers: seq<RateMetrics>)
    requires Sound(cfg)
  {
    && |caches| == |calls| + 1 && |answers| == |calls|
    && caches[0] == EMPTY
    && forall i :: 0 <= i < |calls| ==>
         Observes(cfg, sqrt, caches[i], calls[i].key, calls[i].now, caches[i + 1], answers[i])
  }

  ghost predicate ClockNeverGoesBack(calls: seq<Call>) {
    forall i, j :: 0 <= i <= j < |calls| ==> calls[i].now <= calls[j].now
  }

  /** The instants at which the first `n` calls named the key. */
  function TimesOf(calls: seq<Call>, key: string, n: nat): seq<int>
    requires n <= |calls|
  {
    if n == 0 then []
    else TimesOf(calls, key, n - 1) + if calls[n - 1].key == key then [calls[n - 1].now] else []
  }

  /** The cap cannot take effect: there is none, or no more keys are ever named than it allows. */
  ghost predicate Roomy(cfg: RateConfig, calls: seq<Call>) {
    cfg.maxEntries <= 0 || |set i | 0 <= i < |calls| :: calls[i].key| <= cfg.maxEntries
  }

  /** A series may have been started anew at event `m` of its key: it is the first one, or it came after
      a silence longer than the time to live. */
  predicate MayRestart(cfg: RateConfig, ts: seq<int>, m: nat)
    requires m < |ts|
  {
    m == 0 || (cfg.entryTTL > 0 && ts[m] - ts[m - 1] > cfg.entryTTL)
  }

  /** What the cache knows of one key, when `ts` are its instants so far and `now` is the latest call. */
  ghost predicate Tracks(cfg: RateConfig, c: Cache, key: string, ts: seq<int>, now: int)
    requires Sound(cfg)
  {
    if key in c.series then
      && ts != []
      && c.series[key].lastSeen == ts[|ts| - 1]
      && exists m: nat :: m < |ts| && MayRestart(cfg, ts, m) && c.series[key] == Lone(cfg, ts, m, |ts|)
    else
      ts != [] ==> cfg.entryTTL > 0 && ts[|ts| - 1] < now - cfg.entryTTL
  }

  lemma {:induction false} LoneOfPrefix(cfg: RateConfig, ts: seq<int>, ts': seq<int>, from: nat, n: nat)
    requires Sound(cfg) && from <= n <= |ts| && n <= |ts'|
    requires forall i :: 0 <= i < n ==> ts[i] == ts'[i]
    ensures Lone(cfg, ts, from, n) == Lone(cfg, ts', from, n)
  {
    hide Observed;
    if from < n {
      LoneOfPrefix(cfg, ts, ts', from, n - 1);
    }
  }

  /** A pass that has room drops a series only if it was last seen before the time to live. */
  lemma RoomyPass(cfg: RateConfig, c: Cache, now: int, mid: Cache)
    requires Cleaned(cfg, c, now, mid)
    requires cfg.maxEntries <= 0 || |c.series| <= cfg.maxEntries
    ensures mid.series.Keys <= c.series.Keys
    ensures forall k :: k in mid.series ==> mid.series[k] == c.series[k]
    ensures forall k :: k in c.series && k !in mid.series ==>
              cfg.entryTTL > 0 && c.series[k].lastSeen < now - cfg.entryTTL
  {
    if Due(cfg, c.lastCleanup, now) {
      var kept := Swept(cfg, c.series, now);
      SubsetSize(kept.Keys, c.series.Keys);
      assert |mid.series.Keys| == |kept.Keys|;
      SameSize(mid.series.Keys, kept.Keys);
    }
  }

  /** What a call does to the series of other keys: nothing, unless a pass is due, one cleanup interval after the
      last; then those not seen for longer than the time to live go, the others stay if they fit under the cap,
      and no more than the cap are left beside that of the call. */
  lemma PassExactly(cfg: RateConfig, sqrt: real -> real, c: Cache, key: string, now: int, c': Cache, r: RateMetrics,
                    other: string)
    requires Sound(cfg) && key != "" && other != key && Observes(cfg, sqrt, c, key, now, c', r)
    ensures
      var due := cfg.cleanupInterval > 0 && (c.lastCleanup == 0 || now - c.lastCleanup >= cfg.cleanupInterval);
      var silent := cfg.entryTTL > 0 && other in c.series && now - c.series[other].lastSeen > cfg.entryTTL;
      && c'.lastCleanup == (if due then now else c.lastCleanup)
      && (other in c'.series ==> other in c.series && c'.series[other] == c.series[other] && !(due && silent))
      && (other in c.series && other !in c'.series ==> due && (silent || 0 < cfg.maxEntries < |c.series|))
      && (due && cfg.maxEntries > 0 ==> |c'.series| <= cfg.maxEntries + 1)
      && (other in c.series && other !in c'.series && !silent ==> |c'.series| >= cfg.maxEntries)
      && key in c'.series && (c.count == |c.series| ==> c'.count == |c'.series|)
  {
    hide Metrics, Observed, FreshSeries;
    var mid :| Cleaned(cfg, c, now, mid) && c' == AfterEvent(cfg, mid, key, now)
               && r == Metrics(cfg, sqrt, StateOf(cfg, mid, key), now);
    OneMoreKey(mid.series, key, c'.series[key]);
    if cfg.maxEntries <= 0 || |c.series| <= cfg.maxEntries {
      RoomyPass(cfg, c, now, mid);
    } else if Due(cfg, c.lastCleanup, now) && |mid.series| < cfg.maxEntries {
      var kept := Swept(cfg, c.series, now);
      assert |mid.series.Keys| == |kept.Keys|;
      SameSize(mid.series.Keys, kept.Keys);
    }
  }

  lemma OneMoreKey(m: map<string, SeriesState>, key: string, s: SeriesState)
    ensures |m[key := s]| == if key in m then |m| else |m| + 1
  {
    assert m[key := s].Keys == m.Keys + {key};
    assert |m| == |m.Keys| && |m[key := s]| == |m[key := s].Keys|;
    assert key in m ==> m.Keys + {key} == m.Keys;
  }

  /** One call keeps track of every key, and answers from a series that remembers its key since an
      allowed restart. */
  lemma TracksStep(cfg: RateConfig, sqrt: real -> real, c: Cache, call: Call, c': Cache, r: RateMetrics,
                   key: string, ts: seq<int>, before: int)
    requires Sound(cfg) && key != ""
    requires Observes(cfg, sqrt, c, call.key, call.now, c', r)
    requires Tracks(cfg, c, key, ts, before) && before <= call.now
    requires cfg.maxEntries <= 0 || |c.series| <= cfg.maxEntries
    ensures
      var ts' := if call.key == key then ts + [call.now] else ts;
      && Tracks(cfg, c', key, ts', call.now)
      && (call.key == key ==>
            exists m: nat :: m < |ts'| && MayRestart(cfg, ts', m)
                             && r == Metrics(cfg, sqrt, Lone(cfg, ts', m, |ts'| - 1), call.now))
  {
    hide Metrics, Cleaned, Lone, MayRestart, Tracks;
    if call.key == "" {
      StillTracks(cfg, c, c, key, ts, before, call.now);
    } else {
      var mid :| Cleaned(cfg, c, call.now, mid) && c' == AfterEvent(cfg, mid, call.key, call.now)
                 && r == Metrics(cfg, sqrt, StateOf(cfg, mid, call.key), call.now);
      RoomyPass(cfg, c, call.now, mid);
      StillTracks(cfg, c, mid, key, ts, before, call.now);
      if call.key == key {
        var m := NextState(cfg, mid, key, ts, call.now);
      } else {
        StillTracks(cfg, mid, c', key, ts, call.now, call.now);
      }
    }
  }

  /** A key that keeps its series, or loses one that is out of date, stays tracked as time passes. */
  lemma StillTracks(cfg: RateConfig, c: Cache, c': Cache, key: string, ts: seq<int>, before: int, now: int)
    requires Sound(cfg) && before <= now
    requires Tracks(cfg, c, key, ts, before)
    requires key in c'.series ==> key in c.series && c'.series[key] == c.series[key]
    requires key in c.series && key !in c'.series ==> cfg.entryTTL > 0 && c.series[key].lastSeen < now - cfg.entryTTL
    ensures Tracks(cfg, c', key, ts, now)
  {
    hide Lone, MayRestart;
  }

  /** The series an event of its own key meets, and leaves behind. */
  lemma NextState(cfg: RateConfig, c: Cache, key: string, ts: seq<int>, now: int) returns (m: nat)
    requires Sound(cfg) && Tracks(cfg, c, key, ts, now)
    ensures m < |ts + [now]| && MayRestart(cfg, ts + [now], m)
    ensures StateOf(cfg, c, key) == Lone(cfg, ts + [now], m, |ts|)
    ensures Tracks(cfg, AfterEvent(cfg, c, key, now), key, ts + [now], now)
  {
    hide Observed, FreshSeries;
    var ts' := ts + [now];
    if key in c.series {
      m :| m < |ts| && MayRestart(cfg, ts, m) && c.series[key] == Lone(cfg, ts, m, |ts|);
      LoneOfPrefix(cfg, ts, ts', m, |ts|);
    } else {
      m := |ts|;
    }
    var s := Observed(cfg, StateOf(cfg, c, key), now);
    assert s == Lone(cfg, ts', m, |ts'|);
    assert s.lastSeen == now by { SeenNow(cfg, StateOf(cfg, c, key), now); }
  }

  lemma SeenNow(cfg: RateConfig, s: SeriesState, now: int)
    requires Sound(cfg)
    ensures Observed(cfg, s, now).lastSeen == now
  {
  }

  ghost predicate Known(calls: seq<Call>, c: Cache) {
    c.series.Keys <= set i | 0 <= i < |calls| :: calls[i].key
  }

  /** An invariant of every run, for every key. */
  lemma {:induction false} RunTracks(cfg: RateConfig, sqrt: real -> real, calls: seq<Call>, caches: seq<Cache>,
                                     answers: seq<RateMetrics>, key: string, n: nat)
    requires Sound(cfg) && key != "" && n <= |calls|
    requires Execution(cfg, sqrt, calls, caches, answers)
    requires ClockNeverGoesBack(calls) && Roomy(cfg, calls)
    ensures Known(calls, caches[n])
    ensures cfg.maxEntries <= 0 || |caches[n].series| <= cfg.maxEntries
    ensures n == 0 ==> Tracks(cfg, caches[n], key, [], 0)
    ensures n > 0 ==> Tracks(cfg, caches[n], key, TimesOf(calls, key, n), calls[n - 1].now)
  {
    hide Metrics, Observed, Cleaned, Lone, Observes, Tracks;
    var named := set i | 0 <= i < |calls| :: calls[i].key;
    if n > 0 {
      RunTracks(cfg, sqrt, calls, caches, answers, key, n - 1);
      var before := if n > 1 then calls[n - 2].now else calls[n - 1].now;
      EmptyTracks(cfg, key, before);
      assert Tracks(cfg, caches[n - 1], key, TimesOf(calls, key, n - 1), before);
      assert Observes(cfg, sqrt, caches[n - 1], calls[n - 1].key, calls[n - 1].now, caches[n], answers[n - 1]);
      var ts := TimesOf(calls, key, n - 1);
      TracksStep(cfg, sqrt, caches[n - 1], calls[n - 1], caches[n], answers[n - 1], key, ts, before);
      assert TimesOf(calls, key, n) == if calls[n - 1].key == key then ts + [calls[n - 1].now] else ts;
      KnownStep(cfg, sqrt, calls, caches[n - 1], n - 1, caches[n], answers[n - 1]);
    } else {
      EmptyTracks(cfg, key, 0);
    }
    SubsetSize(caches[n].series.Keys, named);
    assert |caches[n].series| == |caches[n].series.Keys|;
  }

  lemma EmptyTracks(cfg: RateConfig, key: string, now: int)
    requires Sound(cfg)
    ensures Tracks(cfg, EMPTY, key, [], now)
  {
  }

  lemma KnownStep(cfg: RateConfig, sqrt: real -> real, calls: seq<Call>, c: Cache, i: nat, c': Cache, r: RateMetrics)
    requires Sound(cfg) && i < |calls| && Known(calls, c)
    requires Observes(cfg, sqrt, c, calls[i].key, calls[i].now, c', r)
    requires cfg.maxEntries <= 0 || |c.series| <= cfg.maxEntries
    ensures Known(calls, c')
  {
    hide Metrics, Cleaned, Observed;
    if calls[i].key != "" {
      var mid :| Cleaned(cfg, c, calls[i].now, mid) && c' == AfterEvent(cfg, mid, calls[i].key, calls[i].now)
                 && r == Metrics(cfg, sqrt, StateOf(cfg, mid, calls[i].key), calls[i].now);
      RoomyPass(cfg, c, calls[i].now, mid);
    }
  }

  /** The cache forgets only over long silences: every answer is that of a lone series fed the instants
      of its key alone, since some restart that is the first event of the key or comes after a silence
      longer than the time to live. */
  lemma AnswersRememberSinceSilence(cfg: RateConfig, sqrt: real -> real, calls: seq<Call>, caches: seq<Cache>,
                                    answers: seq<RateMetrics>, i: nat)
    requires Sound(cfg) && Execution(cfg, sqrt, calls, caches, answers)
    requires ClockNeverGoesBack(calls) && Roomy(cfg, calls)
    requires i < |calls| && calls[i].key != ""
    ensures
      var ts := TimesOf(calls, calls[i].key, i + 1);
      && ts != []
      && exists m: nat :: m < |ts| && MayRestart(cfg, ts, m)
                          && answers[i] == Metrics(cfg, sqrt, Lone(cfg, ts, m, |ts| - 1), calls[i].now)
  {
    hide Metrics, Observed, Cleaned, Lone;
    var key := calls[i].key;
    RunTracks(cfg, sqrt, calls, caches, answers, key, i);
    var before := if i > 0 then calls[i - 1].now else calls[i].now;
    assert Observes(cfg, sqrt, caches[i], key, calls[i].now, caches[i + 1], answers[i]);
    TracksStep(cfg, sqrt, caches[i], calls[i], caches[i + 1], answers[i], key, TimesOf(calls, key, i), before);
  }

  /** The cache refines isolated series: a key whose calls are never further apart than the time to live
      is answered, in any mix with other keys, exactly as a series of its own would answer it. */
  lemma CacheRefinesIsolatedSeries(cfg: RateConfig, sqrt: real -> real, calls: seq<Call>, caches: seq<Cache>,
                                   answers: seq<RateMetrics>, i: nat)
    requires Sound(cfg) && Execution(cfg, sqrt, calls, caches, answers)
    requires ClockNeverGoesBack(calls) && Roomy(cfg, calls)
    requires i < |calls| && calls[i].key != ""
    requires
      var ts := TimesOf(calls, calls[i].key, i + 1);
      cfg.entryTTL > 0 ==> forall j :: 0 < j < |ts| ==> ts[j] - ts[j - 1] <= cfg.entryTTL
    ensures
      var ts := TimesOf(calls, calls[i].key, i + 1);
      ts != [] && answers[i] == Metrics(cfg, sqrt, Lone(cfg, ts, 0, |ts| - 1), calls[i].now)
  {
    hide Metrics, Lone;
    AnswersRememberSinceSilence(cfg, sqrt, calls, caches, answers, i);
  }

  // ----- the manager in place -----

  /** All objects that the series of a map are made of. */
  ghost function Footprint(m: map<string, RateSeries>): set<object> {
    set k, o | k in m && o in m[k].Repr() :: o
  }

  /** The series of a map are usable, and no two of them share a part. */
  ghost predicate Sane(cfg: RateConfig, m: map<string, RateSeries>)
    reads Footprint(m)
  {
    && (forall k :: k in m ==> m[k].Valid(cfg))
    && (forall j, k :: j in m && k in m && j != k ==> m[j].Repr() !! m[k].Repr())
  }

  /** The values of all series. */
  ghost function States(cfg: RateConfig, m: map<string, RateSeries>): map<string, SeriesState>
    requires Sane(cfg, m)
    reads Footprint(m)
  {
    map k | k in m :: m[k].Abstract()
  }

  lemma FewerAreSane(cfg: RateConfig, all: map<string, RateSeries>, some: map<string, RateSeries>)
    requires Sane(cfg, all) && some.Keys <= all.Keys && forall k :: k in some ==> some[k] == all[k]
    ensures Sane(cfg, some) && Footprint(some) <= Footprint(all)
    ensures States(cfg, some).Keys <= States(cfg, all).Keys
    ensures forall k :: k in States(cfg, some) ==> States(cfg, some)[k] == States(cfg, all)[k]
    ensures |States(cfg, some)| == |some| && |States(cfg, all)| == |all|
  {
    assert States(cfg, some).Keys == some.Keys && States(cfg, all).Keys == all.Keys;
  }

  lemma SweptAreRecent(cfg: RateConfig, all: map<string, RateSeries>, kept: map<string, RateSeries>, now: int)
    requires Sane(cfg, all)
    requires kept == if cfg.entryTTL > 0 then map k | k in all && all[k].lastSeen >= now - cfg.entryTTL :: all[k]
             else all
    ensures Sane(cfg, kept) && States(cfg, kept) == Swept(cfg, States(cfg, all), now)
  {
    FewerAreSane(cfg, all, kept);
  }

  lemma OneMoreIsSane(cfg: RateConfig, m: map<string, RateSeries>, key: string, s: RateSeries)
    requires Sane(cfg, m) && s.Valid(cfg) && s.Repr() !! Footprint(m)
    ensures Sane(cfg, m[key := s]) && States(cfg, m[key := s]) == States(cfg, m)[key := s.Abstract()]
    ensures Footprint(m[key := s]) <= Footprint(m) + s.Repr()
  {
    hide RateSeries.Valid, RateSeries.Abstract, RateSeries.Repr;
    forall k | k in m ensures m[k].Repr() !! s.Repr() {
      assert m[k].Repr() <= Footprint(m);
    }
  }

  lemma AllThere(m: map<string, RateSeries>)
    ensures forall o :: o in Footprint(m) ==> allocated(o)
  {
  }

  /** One series of a map, apart from the others. */
  lemma OneAndOthers(cfg: RateConfig, m: map<string, RateSeries>, key: string)
    requires Sane(cfg, m) && key in m
    ensures m[key].Repr() <= Footprint(m) && m[key].Valid(cfg)
    ensures Sane(cfg, m - {key}) && m[key].Repr() !! Footprint(m - {key})
    ensures m == (m - {key})[key := m[key]]
    ensures States(cfg, m) == States(cfg, m - {key})[key := m[key].Abstract()]
  {
  }

  lemma SameKeys(cfg: RateConfig, m: map<string, RateSeries>)
    requires Sane(cfg, m)
    ensures States(cfg, m).Keys == m.Keys
  {
  }

  lemma NoPass(cfg: RateConfig, c: Cache, now: int)
    requires !Due(cfg, c.lastCleanup, now)
    ensures Cleaned(cfg, c, now, c)
  {
  }

  lemma PassCleans(cfg: RateConfig, c: Cache, now: int, left: map<string, SeriesState>)
    requires Due(cfg, c.lastCleanup, now) && c.count == |c.series|
    requires left.Keys <= Swept(cfg, c.series, now).Keys
    requires forall k :: k in left ==> left[k] == Swept(cfg, c.series, now)[k]
    requires |left| == Capped(cfg, |Swept(cfg, c.series, now)|)
    ensures Cleaned(cfg, c, now, Cache(left, |left|, now))
  {
    hide Swept;
  }

  /** A pass, from the series before it to those it leaves. */
  lemma PassOver(cfg: RateConfig, c: Cache, all: map<string, RateSeries>, kept: map<string, RateSeries>,
                 left: map<string, RateSeries>, now: int)
    requires Sane(cfg, all) && c.series == States(cfg, all) && c.count == |all| && Due(cfg, c.lastCleanup, now)
    requires kept == if cfg.entryTTL > 0 then map k | k in all && all[k].lastSeen >= now - cfg.entryTTL :: all[k]
             else all
    requires left.Keys <= kept.Keys && forall k :: k in left ==> left[k] == kept[k]
    requires |left| == Capped(cfg, |kept|)
    ensures Sane(cfg, left) && Footprint(left) <= Footprint(all)
    ensures Cleaned(cfg, c, now, Cache(States(cfg, left), |left|, now))
  {
    hide Sane, States, Cleaned, Swept, Footprint;
    FewerAreSane(cfg, all, kept);
    SweptAreRecent(cfg, all, kept, now);
    FewerAreSane(cfg, kept, left);
    PassCleans(cfg, c, now, States(cfg, left));
  }

  class RateSeriesManager {
    const cfg: RateConfig
    const sqrt: real -> real
    var series: map<string, RateSeries>
    var count: int
    var lastCleanup: int

    constructor (config: RateConfig, root: real -> real)
      requires Sound(config)
      ensures Valid() && Abstract() == EMPTY && cfg == config && sqrt == root
      ensures Objects() == {this}
    {
      cfg, sqrt := config, root;
      series, count, lastCleanup := map[], 0, 0;
    }

    /** The manager and all that its series are made of. */
    ghost function Objects(): set<object>
      reads this
    {
      {this} + Footprint(series)
    }

    lemma Allocated()
      ensures forall o :: o in Objects() ==> allocated(o)
    {
      AllThere(series);
    }

    /** The counter is the number of series. */
    ghost predicate Valid()
      reads Objects()
    {
      Sound(cfg) && count == |series| && this !in Footprint(series) && Sane(cfg, series)
    }

    ghost function Abstract(): Cache
      requires Valid()
      reads Objects()
    {
      Cache(States(cfg, series), count, lastCleanup)
    }

    method Observe(key: string, now: int) returns (r: RateMetrics)
      requires Valid()
      modifies Objects()
      ensures Valid() && fresh(Objects() - old(Objects()))
      ensures Observes(cfg, sqrt, old(Abstract()), key, now, Abstract(), r)
    {
      hide Observed, Metrics, FreshSeries, Cleaned, Sane, Footprint, States, Valid, Abstract;
      if key == "" {
        return NO_METRICS;
      }
      MaybeCleanup(now);
      ghost var mid := Abstract();
      FindOrCreate(key);
      OneOfAll(key);
      r := ObserveIn(key, now);
      assert Abstract() == AfterEvent(cfg, mid, key, now);
      AllThere(series);
    }

    lemma OneOfAll(key: string)
      requires Valid() && key in series
      ensures Sound(cfg) && series[key].Repr() <= Objects()
    {
    }

    /** The series of the key, made if there is none. */
    method FindOrCreate(key: string)
      requires Valid()
      modifies this`series, this`count
      ensures Valid() && fresh(Objects() - old(Objects()))
      ensures key in series
      ensures Abstract() == var c := old(Abstract());
                            if key in c.series then c
                              else Cache(c.series[key := FreshSeries(cfg)], c.count + 1, c.lastCleanup)
    {
      hide FreshSeries, Sane, States, Footprint;
      AllThere(series);
      SameKeys(cfg, series);
      if key !in series {
        var created := new RateSeries(cfg);
        OneMoreIsSane(cfg, series, key, created);
        series := series[key := created];
        count := count + 1;
      }
    }

    /** One event of one series; no other changes. */
    method ObserveIn(key: string, now: int) returns (r: RateMetrics)
      requires Valid() && key in series
      modifies series[key].Repr()
      ensures Valid() && Objects() == old(Objects())
      ensures var c := old(Abstract());
              Abstract() == c.(series := c.series[key := Observed(cfg, c.series[key], now)])
      ensures r == Metrics(cfg, sqrt, old(Abstract()).series[key], now)
    {
      hide Observed, Metrics, Sane, States, Footprint;
      AllThere(series - {key});
      ghost var others := series - {key};
      OneAndOthers(cfg, series, key);
      assert series[key].Repr() !! Footprint(others);
      r := series[key].Observe(cfg, sqrt, now);
      assert Sane(cfg, others);
      OneMoreIsSane(cfg, others, key, series[key]);
    }

    /** Drops the series not seen within the time to live, then entries in excess of the cap. */
    method MaybeCleanup(now: int)
      requires Valid()
      modifies this
      ensures Valid() && Objects() <= old(Objects())
      ensures Cleaned(cfg, old(Abstract()), now, Abstract())
    {
      hide Sane, States, Cleaned, Swept, Footprint;
      AllThere(series);
      ghost var before := Abstract();
      ghost var all := series;
      var interval := cfg.cleanupInterval;
      if interval <= 0 {
        NoPass(cfg, before, now);
        return;
      }
      var last := lastCleanup;
      if last != 0 {
        if now - last < interval {
          NoPass(cfg, before, now);
          return;
        }
      }
      lastCleanup := now;
      if cfg.entryTTL > 0 {
        SweepOld(now - cfg.entryTTL);
      }
      ghost var kept := series;
      if cfg.maxEntries > 0 {
        EvictExcess();
      }
      PassOver(cfg, before, all, kept, series, now);
    }

    /** Deletes one series and counts it down. */
    method Drop(key: string)
      requires count == |series| && key in series
      modifies this`series, this`count
      ensures series == old(series) - {key} && count == |series| == |old(series)| - 1
    {
      OneFewer(series, key);
      series := series - {key};
      count := count - 1;
    }

    method SweepOld(cutoff: int)
      requires count == |series|
      modifies this`series, this`count
      ensures count == |series|
      ensures series == map k | k in old(series) && old(series)[k].lastSeen >= cutoff :: old(series)[k]
    {
      var todo := series.Keys;
      while todo != {}
        invariant todo <= series.Keys <= old(series).Keys
        invariant forall k :: k in series ==> series[k] == old(series)[k]
        invariant forall k :: k in old(series) ==> (k in series <==> k in todo || old(series)[k].lastSeen >= cutoff)
        invariant count == |series|
        decreases todo
      {
        var k :| k in todo;
        todo := todo - {k};
        if series[k].lastSeen < cutoff {
          Drop(k);
        }
      }
    }

    method EvictExcess()
      requires count == |series| && cfg.maxEntries > 0
      modifies this`series, this`count
      ensures count == |series|
      ensures series.Keys <= old(series).Keys && forall k :: k in series ==> series[k] == old(series)[k]
      ensures |series| == Capped(cfg, |old(series)|)
    {
      var excess := count - cfg.maxEntries;
      var todo := series.Keys;
      while todo != {} && excess > 0
        invariant todo == series.Keys <= old(series).Keys
        invariant forall k :: k in series ==> series[k] == old(series)[k]
        invariant count == |series|
        invariant excess == count - cfg.maxEntries
        invariant |old(series)| <= cfg.maxEntries ==> series == old(series)
        invariant |old(series)| > cfg.maxEntries ==> excess >= 0
        decreases todo
      {
        var k :| k in todo;
        todo := todo - {k};
        Drop(k);
        excess := excess - 1;
      }
    }
  }
}
