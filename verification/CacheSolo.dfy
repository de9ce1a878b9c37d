/** What the protocol of the series cache has to do with the cache itself (stats/engine.go): a call that nobody
    interrupts, and whose ranges over the map run to their end, does what the manager does under one caller at a
    time, to the same series. */
module CacheSolo {
  import opened Common
  import opened CacheProtocol
  import Gate
  import Series
  import SeriesCache

  predicate Alike(cfg: Config, rc: Series.RateConfig) {
    cfg.interval == rc.cleanupInterval && cfg.maxEntries == rc.maxEntries && cfg.entryTTL == rc.entryTTL
  }

  /** The map has the series of the cache, seen when they were, and the counter is right. */
  ghost predicate Shows(sh: Shared, c: SeriesCache.Cache) {
    && sh.series.Keys == c.series.Keys && WellMade(sh)
    && (forall k :: k in c.series ==> AgeOf(sh, k) == c.series[k].lastSeen)
    && sh.count == c.count && sh.gate.last == c.lastCleanup
  }

  ghost predicate WellMade(sh: Shared) {
    && (forall k :: k in sh.series ==> sh.series[k] < |sh.lastSeen|)
    && (forall j, k :: j in sh.series && k in sh.series && sh.series[j] == sh.series[k] ==> j == k)
    && sh.count == |sh.series|
  }

  /** When the series of a key was last seen. */
  function AgeOf(sh: Shared, key: string): int {
    if key in sh.series && sh.series[key] < |sh.lastSeen| then sh.lastSeen[sh.series[key]] else 0
  }

  /** The script is one whole call, in which nobody else moves. */
  ghost predicate Solo(cfg: Config, sh: Shared, key: string, now: int, script: seq<Step>) {
    && script != [] && script[0].Call? && script[0].key == key && script[0].now == now
    && (forall k :: 0 < k < |script| ==> !Acted(cfg, sh, Idle, script, k).caller.Idle?)
    && Acted(cfg, sh, Idle, script, |script|).caller.Idle?
    && forall k :: 0 <= k < |script| ==> Complete(cfg, Acted(cfg, sh, Idle, script, k), script[k], now)
  }

  /** A range by age ends when nothing stale is left, and one by number when the excess is gone. */
  ghost predicate Complete(cfg: Config, m: Moved, step: Step, now: int) {
    && (step.EndSweep? && m.caller.Sweeping? ==>
          forall k :: k in m.shared.series ==> !Stale(cfg, m.shared, m.shared.series[k], now))
    && (step.EndEvict? && m.caller.Evicting? ==> m.caller.excess <= 0)
  }

  /** What a call of the manager leaves, after a pass that leaves `mid`: those series, the ones they were, and
      that of the key, new if the pass left none, and seen now; the counter is right. */
  ghost predicate Left(sh: Shared, sh': Shared, mid: SeriesCache.Cache, key: string, now: int) {
    && sh'.gate.last == mid.lastCleanup && WellMade(sh')
    && sh'.series.Keys == mid.series.Keys + {key} && AgeOf(sh', key) == now
    && (key !in mid.series ==> sh'.series[key] == |sh.lastSeen|)
    && forall k :: k in mid.series ==>
         k in sh.series && sh'.series[k] == sh.series[k] && (k != key ==> AgeOf(sh', k) == mid.series[k].lastSeen)
  }

  // ----- what a call goes through -----

  predicate Due(cfg: Config, sh: Shared, now: int) {
    cfg.interval > 0 && (sh.gate.last == 0 || now - sh.gate.last >= cfg.interval)
  }

  /** The keys that are not stale. */
  function Kept(cfg: Config, sh: Shared, now: int): set<string> {
    if cfg.entryTTL > 0 then set k | k in sh.series && !Stale(cfg, sh, sh.series[k], now) else sh.series.Keys
  }

  /** The pass has won the gate and taken some series away. */
  ghost predicate Reduced(sh: Shared, now: int, s: Shared, pending: int) {
    && s.gate == Gate.Gate(now, sh.gate.passes + [now]) && s.lastSeen == sh.lastSeen
    && s.series.Keys <= sh.series.Keys && (forall k :: k in s.series ==> s.series[k] == sh.series[k])
    && s.count == |s.series| + pending
  }

  /** Only stale series are gone so far. */
  ghost predicate Sweeps(cfg: Config, sh: Shared, now: int, s: Shared, pending: int) {
    && Due(cfg, sh, now) && cfg.entryTTL > 0 && Reduced(sh, now, s, pending)
    && Kept(cfg, sh, now) <= s.series.Keys
  }

  /** All stale series are gone, and beside them no more than the excess. */
  ghost predicate Trims(cfg: Config, sh: Shared, now: int, s: Shared, pending: int) {
    && Due(cfg, sh, now) && cfg.maxEntries > 0 && Reduced(sh, now, s, pending)
    && s.series.Keys <= Kept(cfg, sh, now)
    && |s.series| >= Min(|Kept(cfg, sh, now)|, cfg.maxEntries)
  }

  /** Past the pass, if one is due. */
  ghost predicate Passed(cfg: Config, sh: Shared, now: int, s: Shared) {
    if !Due(cfg, sh, now) then s == sh
    else
      var kept := Kept(cfg, sh, now);
      && Reduced(sh, now, s, 0) && s.series.Keys <= kept
      && |s.series| == if cfg.maxEntries > 0 then Min(|kept|, cfg.maxEntries) else |kept|
  }

  /** With the series of the key in the map, and counted. */
  function Found(s: Shared, key: string): Shared {
    if key in s.series then s else Stored(s, key).(count := s.count + 1)
  }

  ghost predicate Held(cfg: Config, sh: Shared, key: string, now: int, s: Shared, series: nat, s1: Shared) {
    Passed(cfg, sh, now, s1) && s == Found(s1, key) && key in s.series && series == s.series[key]
  }

  ghost predicate OnTheWay(cfg: Config, sh: Shared, key: string, now: int, c: Caller, s: Shared) {
    match c
    case Idle => false
    case Loading(p, t) => p == key && t == now && s == sh && cfg.interval > 0
    case Swapping(p, t, last) => p == key && t == now && s == sh && last == sh.gate.last && Due(cfg, sh, now)
    case Sweeping(p, t) => p == key && t == now && Sweeps(cfg, sh, now, s, 0)
    case Inspecting(p, t, victim, series) =>
      p == key && t == now && Sweeps(cfg, sh, now, s, 0) && victim in s.series && s.series[victim] == series
    case Expiring(p, t, victim) =>
      p == key && t == now && Sweeps(cfg, sh, now, s, 0) && victim in s.series
      && Stale(cfg, sh, sh.series[victim], now)
    case Expired(p, t) => p == key && t == now && Sweeps(cfg, sh, now, s, 1)
    case Measuring(p, t) => p == key && t == now && Trims(cfg, sh, now, s, 0) && s.series.Keys == Kept(cfg, sh, now)
    case Evicting(p, t, excess) =>
      p == key && t == now && Trims(cfg, sh, now, s, 0) && excess == |s.series| - cfg.maxEntries
    case Removing(p, t, excess, victim) =>
      p == key && t == now && Trims(cfg, sh, now, s, 0) && excess == |s.series| - cfg.maxEntries > 0
      && victim in s.series
    case Removed(p, t, excess) =>
      p == key && t == now && Trims(cfg, sh, now, s, 1) && excess == |s.series| + 1 - cfg.maxEntries
    case Looking(p, t) => p == key && t == now && Passed(cfg, sh, now, s)
    case Storing(p, t) => p == key && t == now && Passed(cfg, sh, now, s) && key !in s.series
    case Counting(series, t) =>
      t == now && exists s1 :: Passed(cfg, sh, now, s1) && key !in s1.series && s == Stored(s1, key)
                               && series == |s1.lastSeen|
    case Touching(series, t) => t == now && exists s1 :: Held(cfg, sh, key, now, s, series, s1)
  }

  ghost predicate Over(cfg: Config, sh: Shared, key: string, now: int, s: Shared) {
    exists s1, s2, series: nat ::
      Held(cfg, sh, key, now, s2, series, s1)
      && s == if series < |s2.lastSeen| then s2.(lastSeen := s2.lastSeen[series := now]) else s2
  }

  // ----- step by step -----

  ghost predicate Onward(cfg: Config, sh: Shared, key: string, now: int, m: Moved) {
    if m.caller.Idle? then Over(cfg, sh, key, now, m.shared) else OnTheWay(cfg, sh, key, now, m.caller, m.shared)
  }

  lemma KeptIsThere(cfg: Config, sh: Shared, now: int)
    ensures Kept(cfg, sh, now) <= sh.series.Keys
    ensures cfg.entryTTL <= 0 ==> Kept(cfg, sh, now) == sh.series.Keys
    ensures cfg.entryTTL > 0 ==>
              forall k :: k in sh.series ==> (k in Kept(cfg, sh, now) <==> !Stale(cfg, sh, sh.series[k], now))
  {
  }

  lemma WonReduces(sh: Shared, now: int)
    requires WellMade(sh)
    ensures Reduced(sh, now, sh.(gate := Gate.Gate(now, sh.gate.passes + [now])), 0)
  {
  }

  lemma GateStep(cfg: Config, sh: Shared, key: string, now: int, c: Caller, s: Shared, step: Step)
    requires WellMade(sh) && OnTheWay(cfg, sh, key, now, c, s) && (c.Loading? || c.Swapping?)
    ensures Onward(cfg, sh, key, now, Do(cfg, s, c, step))
  {
    hide Stale, Kept, Reduced, WellMade;
    KeptIsThere(cfg, sh, now);
    WonReduces(sh, now);
    SizesOfKept(cfg, sh, now);
  }

  lemma SizesOfKept(cfg: Config, sh: Shared, now: int)
    ensures |Kept(cfg, sh, now)| <= |sh.series| == |sh.series.Keys|
  {
    KeptIsThere(cfg, sh, now);
    SubsetSize(Kept(cfg, sh, now), sh.series.Keys);
    assert |sh.series| == |sh.series.Keys|;
  }

  lemma DeletedIs(s: Shared, victim: string)
    requires victim in s.series
    ensures
      var s' := Deleted(s, victim);
      && s'.series == s.series - {victim} && s'.series.Keys == s.series.Keys - {victim}
      && |s'.series| == |s.series| - 1
      && s'.lastSeen == s.lastSeen && s'.gate == s.gate && s'.count == s.count
  {
    OneFewer2(s.series, victim);
  }

  lemma OneFewer2(m: map<string, nat>, k: string)
    requires k in m
    ensures |m - {k}| == |m| - 1 && (m - {k}).Keys == m.Keys - {k}
  {
    assert (m - {k}).Keys == m.Keys - {k};
  }

  lemma VisitStep(cfg: Config, sh: Shared, key: string, now: int, c: Caller, s: Shared, step: Step)
    requires OnTheWay(cfg, sh, key, now, c, s) && (c.Sweeping? || c.Inspecting?)
    requires !(c.Sweeping? && step.EndSweep?)
    ensures Onward(cfg, sh, key, now, Do(cfg, s, c, step))
  {
    hide Kept, Due;
  }

  lemma EndOfSweep(cfg: Config, sh: Shared, key: string, now: int, s: Shared)
    requires OnTheWay(cfg, sh, key, now, Sweeping(key, now), s)
    requires forall k :: k in s.series ==> !Stale(cfg, s, s.series[k], now)
    ensures OnTheWay(cfg, sh, key, now, AfterSweep(cfg, key, now), s)
  {
    hide Kept, Due, Stale;
    KeptIsThere(cfg, sh, now);
    SameStale(cfg, sh, s, now);
    assert s.series.Keys == Kept(cfg, sh, now);
    assert |s.series| == |s.series.Keys|;
  }

  lemma SameStale(cfg: Config, sh: Shared, s: Shared, now: int)
    requires s.lastSeen == sh.lastSeen
    ensures forall i: nat :: Stale(cfg, s, i, now) <==> Stale(cfg, sh, i, now)
  {
  }

  /** A series taken away has yet to be counted down. */
  lemma TakenAway(cfg: Config, sh: Shared, now: int, s: Shared, victim: string)
    requires victim in s.series && Reduced(sh, now, s, 0)
    ensures
      var s' := Deleted(s, victim);
      && Reduced(sh, now, s', 1) && Reduced(sh, now, s'.(count := s'.count - 1), 0)
      && s'.series.Keys == s.series.Keys - {victim} && |s'.series| == |s.series| - 1
  {
    hide Deleted;
    DeletedIs(s, victim);
  }

  lemma CountedDown(sh: Shared, now: int, s: Shared)
    requires Reduced(sh, now, s, 1)
    ensures Reduced(sh, now, s.(count := s.count - 1), 0)
  {
  }

  lemma ExpireStep(cfg: Config, sh: Shared, key: string, now: int, c: Caller, s: Shared, step: Step)
    requires OnTheWay(cfg, sh, key, now, c, s) && (c.Expiring? || c.Expired?)
    ensures Onward(cfg, sh, key, now, Do(cfg, s, c, step))
  {
    hide Kept, Due, Stale, Deleted, Reduced;
    KeptIsThere(cfg, sh, now);
    if c.Expiring? {
      SweptSeries(cfg, sh, now, s, c.victim);
      TakenAway(cfg, sh, now, s, c.victim);
    } else {
      CountedDown(sh, now, s);
    }
  }

  lemma SweptSeries(cfg: Config, sh: Shared, now: int, s: Shared, victim: string)
    requires victim in s.series && Reduced(sh, now, s, 0)
    ensures victim in sh.series && s.series[victim] == sh.series[victim]
  {
  }

  lemma SweepStep(cfg: Config, sh: Shared, key: string, now: int, c: Caller, s: Shared, step: Step)
    requires OnTheWay(cfg, sh, key, now, c, s)
    requires c.Sweeping? || c.Inspecting? || c.Expiring? || c.Expired?
    requires Complete(cfg, Moved(c, s), step, now)
    ensures Onward(cfg, sh, key, now, Do(cfg, s, c, step))
  {
    hide Sweeps, Stale;
    if c.Expiring? || c.Expired? {
      ExpireStep(cfg, sh, key, now, c, s, step);
    } else if c.Sweeping? && step.EndSweep? {
      EndOfSweep(cfg, sh, key, now, s);
    } else {
      VisitStep(cfg, sh, key, now, c, s, step);
    }
  }

  lemma MeasureStep(cfg: Config, sh: Shared, key: string, now: int, c: Caller, s: Shared, step: Step)
    requires OnTheWay(cfg, sh, key, now, c, s) && (c.Measuring? || c.Evicting?)
    requires Complete(cfg, Moved(c, s), step, now)
    ensures Onward(cfg, sh, key, now, Do(cfg, s, c, step))
  {
    hide Kept, Stale, Reduced;
    CountIs(sh, now, s, 0);
    if c.Evicting? && step.EndEvict? {
      SubsetSize(s.series.Keys, Kept(cfg, sh, now));
    }
  }

  lemma CountIs(sh: Shared, now: int, s: Shared, pending: int)
    ensures Reduced(sh, now, s, pending) ==> s.count == |s.series| + pending && |s.series| == |s.series.Keys|
  {
    assert |s.series| == |s.series.Keys|;
  }

  lemma RemoveStep(cfg: Config, sh: Shared, key: string, now: int, c: Caller, s: Shared, step: Step)
    requires OnTheWay(cfg, sh, key, now, c, s) && (c.Removing? || c.Removed?)
    ensures Onward(cfg, sh, key, now, Do(cfg, s, c, step))
  {
    hide Trims, Deleted;
    if c.Removing? {
      TrimmedOne(cfg, sh, now, s, c.victim);
    } else {
      TrimCounted(cfg, sh, now, s);
    }
  }

  lemma TrimmedOne(cfg: Config, sh: Shared, now: int, s: Shared, victim: string)
    requires Trims(cfg, sh, now, s, 0) && victim in s.series && |s.series| > cfg.maxEntries
    ensures Trims(cfg, sh, now, Deleted(s, victim), 1) && |Deleted(s, victim).series| == |s.series| - 1
  {
    hide Kept, Deleted, Due, Reduced;
    TakenAway(cfg, sh, now, s, victim);
  }

  lemma TrimCounted(cfg: Config, sh: Shared, now: int, s: Shared)
    requires Trims(cfg, sh, now, s, 1)
    ensures Trims(cfg, sh, now, s.(count := s.count - 1), 0)
  {
    hide Kept, Due, Reduced;
    CountedDown(sh, now, s);
  }

  lemma LookStep(cfg: Config, sh: Shared, key: string, now: int, c: Caller, s: Shared, step: Step)
    requires OnTheWay(cfg, sh, key, now, c, s) && (c.Looking? || c.Storing?)
    ensures Onward(cfg, sh, key, now, Do(cfg, s, c, step))
  {
    hide Passed, Stored;
    var m := Do(cfg, s, c, step);
    if m.caller.Touching? {
      assert Held(cfg, sh, key, now, s, m.caller.series, s);
    } else if m.caller.Counting? {
      assert m.shared == Stored(s, key) && m.caller.series == |s.lastSeen|;
    }
  }

  lemma CountStep(cfg: Config, sh: Shared, key: string, now: int, series: nat, s: Shared, step: Step)
    requires OnTheWay(cfg, sh, key, now, Counting(series, now), s)
    ensures Onward(cfg, sh, key, now, Do(cfg, s, Counting(series, now), step))
  {
    hide Passed;
    var m := Do(cfg, s, Counting(series, now), step);
    if m.caller.Touching? {
      var s1 :| Passed(cfg, sh, now, s1) && key !in s1.series && s == Stored(s1, key) && series == |s1.lastSeen|;
      assert m.shared == Found(s1, key);
      assert Held(cfg, sh, key, now, m.shared, series, s1);
    }
  }

  lemma TouchStep(cfg: Config, sh: Shared, key: string, now: int, series: nat, s: Shared, step: Step)
    requires OnTheWay(cfg, sh, key, now, Touching(series, now), s)
    ensures Onward(cfg, sh, key, now, Do(cfg, s, Touching(series, now), step))
  {
    hide Held;
  }

  lemma CallStep(cfg: Config, sh: Shared, key: string, now: int, step: Step)
    requires step.Call? && step.key == key && step.now == now && key != "" && now > 0
    ensures
      var m := Do(cfg, sh, Idle, step);
      !m.caller.Idle? && OnTheWay(cfg, sh, key, now, m.caller, m.shared)
  {
    hide Stale, Kept;
  }

  lemma SameTime(cfg: Config, sh: Shared, key: string, now: int, c: Caller, s: Shared)
    requires OnTheWay(cfg, sh, key, now, c, s) && (c.Counting? || c.Touching?)
    ensures c.now == now
  {
  }

  lemma {:induction false} ScriptProgresses(cfg: Config, sh: Shared, key: string, now: int, script: seq<Step>, k: nat)
    requires WellMade(sh) && Solo(cfg, sh, key, now, script) && 0 < k <= |script| && key != "" && now > 0
    ensures Onward(cfg, sh, key, now, Acted(cfg, sh, Idle, script, k))
  {
    hide OnTheWay, Over, Do, WellMade, Complete;
    if k == 1 {
      assert Acted(cfg, sh, Idle, script, 0) == Moved(Idle, sh);
      CallStep(cfg, sh, key, now, script[0]);
    } else {
      ScriptProgresses(cfg, sh, key, now, script, k - 1);
      var m := Acted(cfg, sh, Idle, script, k - 1);
      assert Complete(cfg, m, script[k - 1], now);
      if m.caller.Loading? || m.caller.Swapping? {
        GateStep(cfg, sh, key, now, m.caller, m.shared, script[k - 1]);
      } else if m.caller.Sweeping? || m.caller.Inspecting? || m.caller.Expiring? || m.caller.Expired? {
        SweepStep(cfg, sh, key, now, m.caller, m.shared, script[k - 1]);
      } else if m.caller.Measuring? || m.caller.Evicting? {
        MeasureStep(cfg, sh, key, now, m.caller, m.shared, script[k - 1]);
      } else if m.caller.Removing? || m.caller.Removed? {
        RemoveStep(cfg, sh, key, now, m.caller, m.shared, script[k - 1]);
      } else if m.caller.Looking? || m.caller.Storing? {
        LookStep(cfg, sh, key, now, m.caller, m.shared, script[k - 1]);
      } else {
        SameTime(cfg, sh, key, now, m.caller, m.shared);
        if m.caller.Counting? {
          CountStep(cfg, sh, key, now, m.caller.series, m.shared, script[k - 1]);
        } else {
          TouchStep(cfg, sh, key, now, m.caller.series, m.shared, script[k - 1]);
        }
      }
    }
  }

  // ----- what it comes to -----

  /** The cache that a pass has left. */
  function After(c: SeriesCache.Cache, s: Shared): SeriesCache.Cache {
    SeriesCache.Cache(map k | k in c.series && k in s.series :: c.series[k], s.count, s.gate.last)
  }

  lemma StaleAreSwept(cfg: Config, rc: Series.RateConfig, sh: Shared, c: SeriesCache.Cache, now: int)
    requires Alike(cfg, rc) && Shows(sh, c)
    ensures SeriesCache.Swept(rc, c.series, now).Keys == Kept(cfg, sh, now)
    ensures forall k :: k in SeriesCache.Swept(rc, c.series, now) ==>
              k in c.series && SeriesCache.Swept(rc, c.series, now)[k] == c.series[k]
  {
  }

  lemma ShownSizes(sh: Shared, c: SeriesCache.Cache)
    requires Shows(sh, c)
    ensures sh.series.Keys == c.series.Keys && WellMade(sh) && sh.count == c.count == |c.series|
    ensures sh.gate.last == c.lastCleanup
  {
    assert |sh.series| == |sh.series.Keys| && |c.series| == |c.series.Keys|;
  }

  lemma PassIsCleaning(cfg: Config, rc: Series.RateConfig, sh: Shared, c: SeriesCache.Cache, now: int, s: Shared)
    requires Alike(cfg, rc) && Shows(sh, c) && Passed(cfg, sh, now, s)
    ensures SeriesCache.Cleaned(rc, c, now, After(c, s))
    ensures After(c, s).series.Keys == s.series.Keys && s.lastSeen == sh.lastSeen && s.count == |s.series|
    ensures forall k :: k in s.series ==> k in sh.series && s.series[k] == sh.series[k]
  {
    hide Kept, SeriesCache.Swept, Shows, WellMade;
    var mid := After(c, s);
    ShownSizes(sh, c);
    WellMadeCount(sh);
    assert mid.series.Keys == s.series.Keys;
    assert |mid.series| == |mid.series.Keys| && |s.series| == |s.series.Keys|;
    StaleAreSwept(cfg, rc, sh, c, now);
    var kept := SeriesCache.Swept(rc, c.series, now);
    assert |kept| == |kept.Keys|;
    if !Due(cfg, sh, now) {
      assert mid.series == c.series;
    }
  }

  lemma WellMadeCount(sh: Shared)
    requires WellMade(sh)
    ensures sh.count == |sh.series|
  {
  }

  /** The series found is seen now, and no other is seen again. */
  lemma FoundIs(sh: Shared, s1: Shared, key: string, now: int, series: nat, s: Shared)
    requires WellMade(sh) && s1.lastSeen == sh.lastSeen && s1.count == |s1.series|
    requires forall k :: k in s1.series ==> k in sh.series && s1.series[k] == sh.series[k]
    requires
      var s2 := Found(s1, key);
      && key in s2.series && series == s2.series[key]
      && s == if series < |s2.lastSeen| then s2.(lastSeen := s2.lastSeen[series := now]) else s2
    ensures s.series == s1.series[key := series] && s.gate == s1.gate && s.count == |s.series|
    ensures series == if key in s1.series then sh.series[key] else |sh.lastSeen|
    ensures |s.lastSeen| >= |sh.lastSeen| && series < |s.lastSeen| && s.lastSeen[series] == now
    ensures forall i :: 0 <= i < |sh.lastSeen| && i != series ==> s.lastSeen[i] == sh.lastSeen[i]
  {
    hide WellMade;
    SeriesIs(sh, s1.series);
    MoreKeys(s1.series, key, |s1.lastSeen|);
    assert key in s1.series ==> s1.series[key := s1.series[key]] == s1.series;
  }

  lemma SeriesIs(sh: Shared, m: map<string, nat>)
    requires WellMade(sh) && forall k :: k in m ==> k in sh.series && m[k] == sh.series[k]
    ensures forall k :: k in m ==> m[k] < |sh.lastSeen|
  {
  }

  lemma FoundIsLeft(sh: Shared, c: SeriesCache.Cache, s1: Shared, mid: SeriesCache.Cache, key: string, now: int,
                    series: nat, s: Shared)
    requires Shows(sh, c) && s1.lastSeen == sh.lastSeen && s1.count == |s1.series|
    requires mid.series.Keys == s1.series.Keys && mid.lastCleanup == s1.gate.last
    requires forall k :: k in s1.series ==> k in sh.series && s1.series[k] == sh.series[k]
    requires forall k :: k in mid.series ==> k in c.series && mid.series[k] == c.series[k]
    requires
      var s2 := Found(s1, key);
      && key in s2.series && series == s2.series[key]
      && s == if series < |s2.lastSeen| then s2.(lastSeen := s2.lastSeen[series := now]) else s2
    ensures Left(sh, s, mid, key, now)
  {
    hide *;
    ShownSizes(sh, c);
    FoundIs(sh, s1, key, now, series, s);
    StillWellMade(sh, s1.series, key, series, s);
    OwnAge(s, key, now);
    OldAges(sh, c, s1, mid, key, series, s);
    SameKeys(s1.series, key, series, mid.series.Keys);
    LeftBy(sh, s, mid, key, now);
  }

  lemma LeftBy(sh: Shared, s: Shared, mid: SeriesCache.Cache, key: string, now: int)
    requires s.gate.last == mid.lastCleanup && WellMade(s)
    requires s.series.Keys == mid.series.Keys + {key} && AgeOf(s, key) == now
    requires key !in mid.series ==> s.series[key] == |sh.lastSeen|
    requires forall k :: k in mid.series ==>
               k in sh.series && s.series[k] == sh.series[k] && (k != key ==> AgeOf(s, k) == mid.series[k].lastSeen)
    ensures Left(sh, s, mid, key, now)
  {
    hide AgeOf, WellMade;
  }

  lemma OldAges(sh: Shared, c: SeriesCache.Cache, s1: Shared, mid: SeriesCache.Cache, key: string, series: nat,
                s: Shared)
    requires Shows(sh, c) && WellMade(sh)
    requires mid.series.Keys == s1.series.Keys
    requires forall k :: k in s1.series ==> k in sh.series && s1.series[k] == sh.series[k]
    requires forall k :: k in mid.series ==> k in c.series && mid.series[k] == c.series[k]
    requires s.series == s1.series[key := series]
    requires series == if key in s1.series then sh.series[key] else |sh.lastSeen|
    requires |s.lastSeen| >= |sh.lastSeen|
    requires forall i :: 0 <= i < |sh.lastSeen| && i != series ==> s.lastSeen[i] == sh.lastSeen[i]
    ensures forall k :: k in mid.series ==>
              k in sh.series && k in s.series && s.series[k] == sh.series[k]
              && (k != key ==> AgeOf(s, k) == mid.series[k].lastSeen)
  {
    hide WellMade, AgeOf, Shows;
    forall k | k in mid.series
      ensures k in sh.series && s.series[k] == sh.series[k] && (k != key ==> AgeOf(s, k) == mid.series[k].lastSeen)
    {
      ShownAge(sh, c, k);
      if k != key {
        OtherAge(sh, s1.series, key, series, s, k);
      }
    }
  }

  lemma SameKeys(m: map<string, nat>, key: string, series: nat, keys: set<string>)
    requires keys == m.Keys
    ensures m[key := series].Keys == keys + {key}
  {
  }

  lemma ShownAge(sh: Shared, c: SeriesCache.Cache, k: string)
    requires Shows(sh, c) && k in c.series
    ensures AgeOf(sh, k) == c.series[k].lastSeen
  {
  }

  lemma StillWellMade(sh: Shared, m: map<string, nat>, key: string, series: nat, s: Shared)
    requires WellMade(sh) && forall k :: k in m ==> k in sh.series && m[k] == sh.series[k]
    requires s.series == m[key := series] && s.count == |s.series|
    requires series == if key in m then sh.series[key] else |sh.lastSeen|
    requires |s.lastSeen| >= |sh.lastSeen| && series < |s.lastSeen|
    ensures WellMade(s)
  {
  }

  lemma OwnAge(s: Shared, key: string, now: int)
    requires key in s.series && s.series[key] < |s.lastSeen| && s.lastSeen[s.series[key]] == now
    ensures AgeOf(s, key) == now
  {
  }

  lemma OtherAge(sh: Shared, m: map<string, nat>, key: string, series: nat, s: Shared, k: string)
    requires WellMade(sh) && forall k :: k in m ==> k in sh.series && m[k] == sh.series[k]
    requires s.series == m[key := series] && k in m && k != key
    requires series == if key in m then sh.series[key] else |sh.lastSeen|
    requires |s.lastSeen| >= |sh.lastSeen|
    requires forall i :: 0 <= i < |sh.lastSeen| && i != series ==> s.lastSeen[i] == sh.lastSeen[i]
    ensures AgeOf(s, k) == AgeOf(sh, k)
  {
  }

  lemma MoreKeys(m: map<string, nat>, key: string, v: nat)
    ensures |m[key := v]| == if key in m then |m| else |m| + 1
  {
    assert m[key := v].Keys == m.Keys + {key};
    assert key in m ==> m[key := v].Keys == m.Keys;
    assert |m| == |m.Keys| && |m[key := v]| == |m[key := v].Keys|;
  }

  /** A call that nobody interrupts is a call of the manager under one caller at a time. */
  lemma SoloIsSequential(cfg: Config, rc: Series.RateConfig, sh: Shared, c: SeriesCache.Cache, key: string, now: int,
                         script: seq<Step>) returns (mid: SeriesCache.Cache)
    requires Alike(cfg, rc) && Shows(sh, c) && key != "" && now > 0
    requires Solo(cfg, sh, key, now, script)
    ensures SeriesCache.Cleaned(rc, c, now, mid)
    ensures Left(sh, Acted(cfg, sh, Idle, script, |script|).shared, mid, key, now)
  {
    hide Passed, Acted, SeriesCache.Cleaned, Left, Shows, Found, WellMade, Complete;
    ShownSizes(sh, c);
    ScriptProgresses(cfg, sh, key, now, script, |script|);
    var s := Acted(cfg, sh, Idle, script, |script|).shared;
    var s1, s2, series: nat :| Held(cfg, sh, key, now, s2, series, s1)
      && s == if series < |s2.lastSeen| then s2.(lastSeen := s2.lastSeen[series := now]) else s2;
    mid := After(c, s1);
    PassIsCleaning(cfg, rc, sh, c, now, s1);
    FoundIsLeft(sh, c, s1, mid, key, now, series, s);
  }

  // ----- and the other way round -----

  /** The script takes one caller, which is busy all the while, from here to there. */
  ghost predicate Leads(cfg: Config, w: nat, now: int, from: Moved, script: seq<Step>, to: Moved) {
    && Acted(cfg, from.shared, from.caller, script, |script|) == to
    && forall k :: 0 <= k < |script| ==>
         && script[k].w == w && !script[k].Call?
         && !Acted(cfg, from.shared, from.caller, script, k).caller.Idle?
         && Complete(cfg, Acted(cfg, from.shared, from.caller, script, k), script[k], now)
  }

  lemma {:induction false} ActedOfJoin(cfg: Config, from: Moved, one: seq<Step>, two: seq<Step>, k: nat)
    requires k <= |one| + |two|
    ensures
      var mid := Acted(cfg, from.shared, from.caller, one, |one|);
      Acted(cfg, from.shared, from.caller, one + two, k)
        == if k <= |one| then Acted(cfg, from.shared, from.caller, one, k)
           else Acted(cfg, mid.shared, mid.caller, two, k - |one|)
  {
    hide Do;
    if k > 0 {
      ActedOfJoin(cfg, from, one, two, k - 1);
      var mid := Acted(cfg, from.shared, from.caller, one, |one|);
      assert k - 1 == |one| ==> Acted(cfg, mid.shared, mid.caller, two, 0) == mid;
    }
  }

  lemma Joined(cfg: Config, w: nat, now: int, from: Moved, one: seq<Step>, mid: Moved, two: seq<Step>, to: Moved)
    requires Leads(cfg, w, now, from, one, mid) && Leads(cfg, w, now, mid, two, to)
    ensures Leads(cfg, w, now, from, one + two, to)
  {
    hide Acted, Complete;
    var all := one + two;
    ActedOfJoin(cfg, from, one, two, |all|);
    SomeEnd(cfg, mid, two);
    forall k | 0 <= k < |all|
      ensures
        && all[k].w == w && !all[k].Call?
        && !Acted(cfg, from.shared, from.caller, all, k).caller.Idle?
        && Complete(cfg, Acted(cfg, from.shared, from.caller, all, k), all[k], now)
    {
      ActedOfJoin(cfg, from, one, two, k);
      if k >= |one| {
        assert all[k] == two[k - |one|];
      }
    }
  }

  lemma SomeEnd(cfg: Config, from: Moved, script: seq<Step>)
    ensures Acted(cfg, from.shared, from.caller, script, 0) == from
  {
  }

  lemma Still(cfg: Config, w: nat, now: int, from: Moved)
    ensures Leads(cfg, w, now, from, [], from)
  {
  }

  /** One step more. */
  lemma Stepped(cfg: Config, w: nat, now: int, from: Moved, script: seq<Step>, mid: Moved, step: Step)
      returns (more: seq<Step>)
    requires Leads(cfg, w, now, from, script, mid) && step.w == w && !step.Call? && !mid.caller.Idle?
    requires Complete(cfg, mid, step, now)
    ensures Leads(cfg, w, now, from, more, Do(cfg, mid.shared, mid.caller, step))
  {
    hide Do, Complete;
    more := script + [step];
    OneStep(cfg, w, now, mid, step);
    Joined(cfg, w, now, from, script, mid, [step], Do(cfg, mid.shared, mid.caller, step));
  }

  lemma OneStep(cfg: Config, w: nat, now: int, from: Moved, step: Step)
    requires step.w == w && !step.Call? && !from.caller.Idle? && Complete(cfg, from, step, now)
    ensures Leads(cfg, w, now, from, [step], Do(cfg, from.shared, from.caller, step))
  {
    hide Do, Complete;
    SomeEnd(cfg, from, [step]);
    assert Acted(cfg, from.shared, from.caller, [step], 1) == Do(cfg, from.shared, from.caller, step);
  }

  /** The map without some keys, and counted down. */
  function Without(s: Shared, victims: set<string>): Shared {
    s.(series := s.series - victims, count := s.count - |victims|)
  }

  lemma WithoutOneMore(s: Shared, victims: set<string>, v: string)
    requires v in victims
    ensures Without(Without(s, {v}), victims - {v}) == Without(s, victims)
  {
    assert s.series - {v} - (victims - {v}) == s.series - victims;
    assert |victims - {v}| == |victims| - 1;
  }

  /** A sweep can take any stale series away. */
  lemma {:induction false} SweepsAway(cfg: Config, w: nat, key: string, now: int, s: Shared, victims: set<string>)
      returns (script: seq<Step>)
    requires forall v :: v in victims ==> v in s.series && Stale(cfg, s, s.series[v], now)
    ensures Leads(cfg, w, now, Moved(Sweeping(key, now), s), script, Moved(Sweeping(key, now), Without(s, victims)))
    decreases victims
  {
    hide Leads, Stale;
    if victims == {} {
      script := [];
      assert Without(s, victims) == s by { assert s.series - victims == s.series; }
      Still(cfg, w, now, Moved(Sweeping(key, now), s));
    } else {
      var v :| v in victims;
      var one := SweepsOne(cfg, w, key, now, s, v);
      SameStaleWithout(cfg, s, v, now);
      var rest := SweepsAway(cfg, w, key, now, Without(s, {v}), victims - {v});
      WithoutOneMore(s, victims, v);
      Joined(cfg, w, now, Moved(Sweeping(key, now), s), one, Moved(Sweeping(key, now), Without(s, {v})), rest,
        Moved(Sweeping(key, now), Without(s, victims)));
      script := one + rest;
    }
  }

  lemma SameStaleWithout(cfg: Config, s: Shared, v: string, now: int)
    ensures forall i: nat :: Stale(cfg, Without(s, {v}), i, now) <==> Stale(cfg, s, i, now)
  {
  }

  lemma DeletedOne(s: Shared, v: string)
    requires v in s.series
    ensures Deleted(s, v).(count := s.count - 1) == Without(s, {v})
    ensures Deleted(s, v).count == s.count
  {
    assert |{v}| == 1;
  }

  lemma SweepsOne(cfg: Config, w: nat, key: string, now: int, s: Shared, v: string) returns (script: seq<Step>)
    requires v in s.series && Stale(cfg, s, s.series[v], now)
    ensures Leads(cfg, w, now, Moved(Sweeping(key, now), s), script, Moved(Sweeping(key, now), Without(s, {v})))
  {
    hide Leads, Stale, Deleted, Without;
    var from := Moved(Sweeping(key, now), s);
    DeletedOne(s, v);
    Still(cfg, w, now, from);
    script := Stepped(cfg, w, now, from, [], from, Visit(w, v));
    script := Stepped(cfg, w, now, from, script, Moved(Inspecting(key, now, v, s.series[v]), s), LoadSeen(w));
    script := Stepped(cfg, w, now, from, script, Moved(Expiring(key, now, v), s), Delete(w));
    script := Stepped(cfg, w, now, from, script, Moved(Expired(key, now), Deleted(s, v)), CountDown(w));
  }

  /** An eviction can take any series away, as many as the excess. */
  lemma {:induction false} EvictsAway(cfg: Config, w: nat, key: string, now: int, s: Shared, victims: set<string>,
                                      excess: int) returns (script: seq<Step>)
    requires (forall v :: v in victims ==> v in s.series) && |victims| <= excess
    ensures Leads(cfg, w, now, Moved(Evicting(key, now, excess), s), script,
              Moved(Evicting(key, now, excess - |victims|), Without(s, victims)))
    decreases victims
  {
    hide Leads;
    var from := Moved(Evicting(key, now, excess), s);
    if victims == {} {
      script := [];
      assert Without(s, victims) == s by { assert s.series - victims == s.series; }
      Still(cfg, w, now, from);
    } else {
      var v :| v in victims;
      var one := EvictsOne(cfg, w, key, now, s, v, excess);
      assert |victims - {v}| == |victims| - 1;
      var rest := EvictsAway(cfg, w, key, now, Without(s, {v}), victims - {v}, excess - 1);
      WithoutOneMore(s, victims, v);
      Joined(cfg, w, now, from, one, Moved(Evicting(key, now, excess - 1), Without(s, {v})), rest,
        Moved(Evicting(key, now, excess - |victims|), Without(s, victims)));
      script := one + rest;
    }
  }

  lemma EvictsOne(cfg: Config, w: nat, key: string, now: int, s: Shared, v: string, excess: int)
      returns (script: seq<Step>)
    requires v in s.series && excess > 0
    ensures Leads(cfg, w, now, Moved(Evicting(key, now, excess), s), script,
              Moved(Evicting(key, now, excess - 1), Without(s, {v})))
  {
    hide Leads, Stale, Deleted, Without;
    var from := Moved(Evicting(key, now, excess), s);
    DeletedOne(s, v);
    Still(cfg, w, now, from);
    script := Stepped(cfg, w, now, from, [], from, VisitExcess(w, v));
    script := Stepped(cfg, w, now, from, script, Moved(Removing(key, now, excess, v), s), Delete(w));
    script := Stepped(cfg, w, now, from, script, Moved(Removed(key, now, excess), Deleted(s, v)), CountDown(w));
  }

  /** From past the pass to rest: the series of the key is found or made, counted if it is new, and seen. */
  lemma Looks(cfg: Config, w: nat, key: string, now: int, s: Shared) returns (script: seq<Step>)
    ensures
      var found := Found(s, key);
      && key in found.series
      && Leads(cfg, w, now, Moved(Looking(key, now), s), script,
           Moved(Idle, if found.series[key] < |found.lastSeen|
                       then found.(lastSeen := found.lastSeen[found.series[key] := now]) else found))
  {
    hide Leads;
    var from := Moved(Looking(key, now), s);
    Still(cfg, w, now, from);
    script := Stepped(cfg, w, now, from, [], from, Load(w));
    if key !in s.series {
      script := Stepped(cfg, w, now, from, script, Moved(Storing(key, now), s), LoadOrStore(w));
      script := Stepped(cfg, w, now, from, script, Moved(Counting(|s.lastSeen|, now), Stored(s, key)), CountUp(w));
    }
    var found := Found(s, key);
    script := Stepped(cfg, w, now, from, script, Moved(Touching(found.series[key], now), found), Touch(w));
  }

  function Won(sh: Shared, now: int): Shared {
    sh.(gate := Gate.Gate(now, sh.gate.passes + [now]))
  }

  /** A due pass can take all stale series and any excess away. */
  lemma PassLeads(cfg: Config, w: nat, key: string, now: int, sh: Shared, extra: set<string>)
      returns (script: seq<Step>)
    requires Due(cfg, sh, now) && WellMade(sh) && extra <= Kept(cfg, sh, now)
    requires |extra| == if cfg.maxEntries > 0 && |Kept(cfg, sh, now)| > cfg.maxEntries
                        then |Kept(cfg, sh, now)| - cfg.maxEntries else 0
    ensures Leads(cfg, w, now, Moved(Loading(key, now), sh), script,
              Moved(Looking(key, now),
                Without(Without(Won(sh, now), sh.series.Keys - Kept(cfg, sh, now)), extra)))
  {
    hide Leads, Stale, Kept, Without, WellMade;
    DueIs(cfg, sh, now);
    var from, won, stale := Moved(Loading(key, now), sh), Won(sh, now), sh.series.Keys - Kept(cfg, sh, now);
    Still(cfg, w, now, from);
    script := Stepped(cfg, w, now, from, [], from, LoadLast(w));
    script := Stepped(cfg, w, now, from, script, Moved(Swapping(key, now, sh.gate.last), sh), Swap(w));
    var swept := Without(won, stale);
    KeptIsThere(cfg, sh, now);
    SweptIs(cfg, sh, now);
    if cfg.entryTTL > 0 {
      NoneStaleLeft(cfg, sh, now);
      var sweep := SweepsAway(cfg, w, key, now, won, stale);
      Joined(cfg, w, now, from, script, Moved(Sweeping(key, now), won), sweep, Moved(Sweeping(key, now), swept));
      script := Stepped(cfg, w, now, from, script + sweep, Moved(Sweeping(key, now), swept), EndSweep(w));
    }
    if cfg.maxEntries > 0 {
      var excess := swept.count - cfg.maxEntries;
      script := Stepped(cfg, w, now, from, script, Moved(Measuring(key, now), swept), LoadCount(w));
      var evicting := Moved(Evicting(key, now, excess), swept);
      var evicted := Moved(Evicting(key, now, excess - |extra|), Without(swept, extra));
      if extra != {} {
        var evict := EvictsAway(cfg, w, key, now, swept, extra, excess);
        Joined(cfg, w, now, from, script, evicting, evict, evicted);
        script := script + evict;
      }
      NothingExtra(swept, extra);
      script := Stepped(cfg, w, now, from, script, evicted, EndEvict(w));
    }
    NothingExtra(swept, extra);
  }

  lemma NothingExtra(s: Shared, victims: set<string>)
    ensures victims == {} ==> Without(s, victims) == s
  {
    assert victims == {} ==> s.series - victims == s.series;
  }

  /** A whole sweep leaves the keys that are not stale, and counts them. */
  lemma SweptIs(cfg: Config, sh: Shared, now: int)
    requires WellMade(sh)
    ensures
      var kept := Kept(cfg, sh, now);
      var stale := sh.series.Keys - kept;
      var swept := Without(Won(sh, now), stale);
      && swept.series.Keys == kept && swept.count == |kept| && swept.lastSeen == sh.lastSeen
      && swept.gate.last == now
      && (forall k :: k in swept.series ==> swept.series[k] == sh.series[k])
      && (cfg.entryTTL <= 0 ==> swept == Won(sh, now))
  {
    hide Stale, Kept;
    var kept := Kept(cfg, sh, now);
    var stale := sh.series.Keys - kept;
    KeptIsThere(cfg, sh, now);
    assert |sh.series| == |sh.series.Keys|;
    assert sh.series.Keys == kept + stale;
    if cfg.entryTTL <= 0 {
      assert stale == {};
      NothingExtra(Won(sh, now), stale);
    }
  }

  lemma NoneStaleLeft(cfg: Config, sh: Shared, now: int)
    requires WellMade(sh) && cfg.entryTTL > 0
    ensures
      var swept := Without(Won(sh, now), sh.series.Keys - Kept(cfg, sh, now));
      forall k :: k in swept.series ==> !Stale(cfg, swept, swept.series[k], now)
    ensures forall k :: k in sh.series.Keys - Kept(cfg, sh, now) ==> Stale(cfg, Won(sh, now), sh.series[k], now)
  {
    hide Stale, Kept;
    var swept := Without(Won(sh, now), sh.series.Keys - Kept(cfg, sh, now));
    SweptIs(cfg, sh, now);
    KeptIsThere(cfg, sh, now);
    SameStale(cfg, sh, swept, now);
    SameStale(cfg, sh, Won(sh, now), now);
  }

  /** Whatever the manager may do under one caller, a call that nobody interrupts may do. */
  lemma SequentialIsSolo(cfg: Config, rc: Series.RateConfig, sh: Shared, c: SeriesCache.Cache, key: string, now: int,
                         mid: SeriesCache.Cache, w: nat) returns (script: seq<Step>)
    requires Alike(cfg, rc) && Shows(sh, c) && key != "" && now > 0
    requires SeriesCache.Cleaned(rc, c, now, mid)
    ensures Solo(cfg, sh, key, now, script) && forall i :: 0 <= i < |script| ==> script[i].w == w
    ensures Left(sh, Acted(cfg, sh, Idle, script, |script|).shared, mid, key, now)
  {
    hide Leads, Stale, Kept, Without, WellMade, SeriesCache.Cleaned, Left, Solo, Found, Shows, Due;
    ShownSizes(sh, c);
    var called := Moved(if cfg.interval <= 0 then Looking(key, now) else Loading(key, now), sh);
    var extra := Kept(cfg, sh, now) - mid.series.Keys;
    var s := if Due(cfg, sh, now) then Without(Without(Won(sh, now), sh.series.Keys - Kept(cfg, sh, now)), extra)
      else sh;
    CleaningIsPass(cfg, rc, sh, c, now, mid, extra, s);
    var pass: seq<Step>;
    if cfg.interval <= 0 {
      DueIs(cfg, sh, now);
      pass := [];
      Still(cfg, w, now, called);
    } else if Due(cfg, sh, now) {
      pass := PassLeads(cfg, w, key, now, sh, extra);
    } else {
      DueIs(cfg, sh, now);
      pass := [LoadLast(w)];
      OneStep(cfg, w, now, called, LoadLast(w));
    }
    var look := Looks(cfg, w, key, now, s);
    var found := Found(s, key);
    var series := found.series[key];
    var end := Moved(Idle, if series < |found.lastSeen| then found.(lastSeen := found.lastSeen[series := now])
                     else found);
    Joined(cfg, w, now, called, pass, Moved(Looking(key, now), s), look, end);
    script := [Call(w, key, now)] + (pass + look);
    CalledIsSolo(cfg, sh, w, key, now, called, pass + look, end);
    FoundIsLeft(sh, c, s, mid, key, now, series, end.shared);
  }

  lemma DueIs(cfg: Config, sh: Shared, now: int)
    ensures Due(cfg, sh, now) ==> cfg.interval > 0
    ensures cfg.interval > 0 ==> (Due(cfg, sh, now) <==> Gate.LooksDue(cfg.interval, sh.gate.last, now))
  {
  }

  lemma CalledIsSolo(cfg: Config, sh: Shared, w: nat, key: string, now: int, called: Moved, rest: seq<Step>, end: Moved)
    requires key != "" && now > 0 && called == Do(cfg, sh, Idle, Call(w, key, now))
    requires Leads(cfg, w, now, called, rest, end) && end.caller == Idle
    ensures
      var script := [Call(w, key, now)] + rest;
      && Solo(cfg, sh, key, now, script) && (forall i :: 0 <= i < |script| ==> script[i].w == w)
      && Acted(cfg, sh, Idle, script, |script|) == end
  {
    hide Acted, Do, Complete;
    var call, from := [Call(w, key, now)], Moved(Idle, sh);
    var script := call + rest;
    SomeEnd(cfg, from, call);
    ActedOneMore(cfg, sh, Idle, call, 0, from);
    SomeEnd(cfg, called, rest);
    SomeEnd(cfg, from, script);
    ActedOfJoin(cfg, from, call, rest, |script|);
    CallIsComplete(cfg, from, script[0], now);
    forall k | 0 < k < |script|
      ensures !Acted(cfg, sh, Idle, script, k).caller.Idle? && script[k].w == w
              && Complete(cfg, Acted(cfg, sh, Idle, script, k), script[k], now)
    {
      ActedOfJoin(cfg, from, call, rest, k);
      assert script[k] == rest[k - 1];
    }
  }

  lemma CallIsComplete(cfg: Config, m: Moved, step: Step, now: int)
    requires step.Call?
    ensures Complete(cfg, m, step, now)
  {
  }

  lemma CleaningIsPass(cfg: Config, rc: Series.RateConfig, sh: Shared, c: SeriesCache.Cache, now: int,
                       mid: SeriesCache.Cache, extra: set<string>, s: Shared)
    requires Alike(cfg, rc) && Shows(sh, c) && SeriesCache.Cleaned(rc, c, now, mid)
    requires extra == Kept(cfg, sh, now) - mid.series.Keys
    requires s == if Due(cfg, sh, now)
                  then Without(Without(Won(sh, now), sh.series.Keys - Kept(cfg, sh, now)), extra) else sh
    ensures Due(cfg, sh, now) ==>
              |extra| == if cfg.maxEntries > 0 && |Kept(cfg, sh, now)| > cfg.maxEntries
                         then |Kept(cfg, sh, now)| - cfg.maxEntries else 0
    ensures s.series.Keys == mid.series.Keys && s.lastSeen == sh.lastSeen && s.gate.last == mid.lastCleanup
    ensures s.count == |s.series|
    ensures forall k :: k in s.series ==> k in sh.series && s.series[k] == sh.series[k]
    ensures forall k :: k in mid.series ==> k in c.series && mid.series[k] == c.series[k]
  {
    hide Stale, Kept, Shows, WellMade, Without, Due, SeriesCache.Cleaned;
    ShownSizes(sh, c);
    WellMadeCount(sh);
    CleanedIs(cfg, rc, sh, c, now, mid);
    if Due(cfg, sh, now) {
      SweptIs(cfg, sh, now);
      var swept := Without(Won(sh, now), sh.series.Keys - Kept(cfg, sh, now));
      SizesFit(Kept(cfg, sh, now), mid.series, extra, cfg.maxEntries);
      ExtraIsGone(swept, Kept(cfg, sh, now), mid.series.Keys, extra);
    }
  }

  lemma CleanedIs(cfg: Config, rc: Series.RateConfig, sh: Shared, c: SeriesCache.Cache, now: int,
                  mid: SeriesCache.Cache)
    requires Alike(cfg, rc) && Shows(sh, c) && SeriesCache.Cleaned(rc, c, now, mid)
    ensures !Due(cfg, sh, now) ==> mid == c
    ensures Due(cfg, sh, now) ==>
              && mid.lastCleanup == now && mid.series.Keys <= Kept(cfg, sh, now)
              && |mid.series| == if cfg.maxEntries > 0 then Min(|Kept(cfg, sh, now)|, cfg.maxEntries)
                                 else |Kept(cfg, sh, now)|
    ensures forall k :: k in mid.series ==> k in c.series && mid.series[k] == c.series[k]
  {
    hide Stale, Kept, Shows, WellMade, SeriesCache.Swept;
    ShownSizes(sh, c);
    StaleAreSwept(cfg, rc, sh, c, now);
    assert |SeriesCache.Swept(rc, c.series, now)| == |SeriesCache.Swept(rc, c.series, now).Keys|;
  }

  lemma SizesFit(kept: set<string>, left: map<string, Series.SeriesState>, extra: set<string>, cap: int)
    requires left.Keys <= kept && extra == kept - left.Keys
    requires |left| == if cap > 0 then Min(|kept|, cap) else |kept|
    ensures |extra| == if cap > 0 && |kept| > cap then |kept| - cap else 0
    ensures |kept| == |left.Keys| + |extra|
  {
    assert kept == left.Keys + extra;
    assert |left| == |left.Keys|;
  }

  lemma ExtraIsGone(swept: Shared, kept: set<string>, left: set<string>, extra: set<string>)
    requires swept.series.Keys == kept && swept.count == |kept| && left <= kept && extra == kept - left
    requires |kept| == |left| + |extra|
    ensures
      var s := Without(swept, extra);
      && s.series.Keys == left && s.count == |s.series| && s.lastSeen == swept.lastSeen && s.gate == swept.gate
      && forall k :: k in s.series ==> s.series[k] == swept.series[k]
  {
    var s := Without(swept, extra);
    assert s.series.Keys == left;
    assert |s.series| == |s.series.Keys|;
  }
}
