/** The keyed store of reputations (stats/reputation.go): entries made on demand, moved in place, swept
    by age and cut down to a cap. */
module ReputationManager {
  import opened Common
  import opened Anomaly
  import opened Evaluator
  import opened Reputation

  datatype Snapshot = Snapshot(
    score: real,
    stableFor: int,
    anomalyCount: nat,
    remediationCount: nat,
    conflictCount: nat
  )

  const NO_SNAPSHOT: Snapshot := Snapshot(0.0, 0, 0, 0, 0)

  datatype EntryState = EntryState(
    lastSeen: int,
    rep: Standing,
    stableSince: Moment,
    anomalyCount: nat,
    remediationCount: nat,
    conflictCount: nat
  )

  function FreshEntry(cfg: ReputationConfig, now: int): EntryState {
    EntryState(now, Standing(cfg.initialScore, At(now)), At(now), 0, 0, 0)
  }

  function Queried(cfg: ReputationConfig, q: real, e: EntryState, now: int): EntryState {
    e.(lastSeen := now, rep := Scored(cfg, q, e.rep, now))
  }

  function Bump(n: nat, applies: bool): nat {
    if applies then n + 1 else n
  }

  function Reported(cfg: ReputationConfig, q: real, e: EntryState, now: int, upd: ReputationUpdate): EntryState {
    EntryState(
      now,
      Judged(cfg, q, e.rep, now, upd),
      if e.stableSince == Never || !IsStable(upd) then At(now) else e.stableSince,
      Bump(e.anomalyCount, upd.anomalySeverity == High || upd.anomalySeverity == Medium),
      Bump(e.remediationCount, upd.finalAction == Remediate),
      Bump(e.conflictCount, upd.conflictDetected)
    )
  }

  function SnapshotOf(e: EntryState, now: int): Snapshot {
    Snapshot(e.rep.score, if e.stableSince.At? then now - e.stableSince.time else 0,
      e.anomalyCount, e.remediationCount, e.conflictCount)
  }

  /** One entry; every operation moves its fields in place. */
  class ReputationEntry {
    var lastSeen: int
    var score: real
    var lastUpdated: Moment
    var stableSince: Moment
    var anomalyCount: nat
    var remediationCount: nat
    var conflictCount: nat

    constructor (cfg: ReputationConfig, now: int)
      ensures Abstract() == FreshEntry(cfg, now)
    {
      lastSeen, score, lastUpdated, stableSince := now, cfg.initialScore, At(now), At(now);
      anomalyCount, remediationCount, conflictCount := 0, 0, 0;
    }

    ghost function Abstract(): EntryState
      reads this
    {
      EntryState(lastSeen, Standing(score, lastUpdated), stableSince, anomalyCount, remediationCount, conflictCount)
    }

    method Decay(config: ReputationConfig, q: real, now: int)
      modifies this`score, this`lastUpdated
      ensures Standing(score, lastUpdated) == Decayed(config, q, old(Standing(score, lastUpdated)), now)
    {
      hide Power, Reputation.WithDefaults;
      var cfg := Reputation.WithDefaults(config);
      if lastUpdated == Never {
        lastUpdated := At(now);
        return;
      }
      if now < lastUpdated.time {
        return;
      }
      var dt := now - lastUpdated.time;
      if dt <= 0 {
        return;
      }
      var factor := Power(q, dt);
      score := cfg.neutralScore + (score - cfg.neutralScore) * factor;
      lastUpdated := At(now);
    }

    method Increase(delta: real, config: ReputationConfig, q: real, now: int)
      modifies this`score, this`lastUpdated
      ensures Standing(score, lastUpdated) == Increased(config, q, old(Standing(score, lastUpdated)), delta, now)
    {
      hide Decayed;
      var cfg := Reputation.WithDefaults(config);
      Decay(cfg, q, now);
      score := score + delta;
      if score > cfg.maxScore {
        score := cfg.maxScore;
      }
      if score < cfg.minScore {
        score := cfg.minScore;
      }
      lastUpdated := At(now);
    }

    method Decrease(delta: real, config: ReputationConfig, q: real, now: int)
      modifies this`score, this`lastUpdated
      ensures Standing(score, lastUpdated) == Decreased(config, q, old(Standing(score, lastUpdated)), delta, now)
    {
      hide Decayed;
      var cfg := Reputation.WithDefaults(config);
      Decay(cfg, q, now);
      score := score - delta;
      if score < cfg.minScore {
        score := cfg.minScore;
      }
      if score > cfg.maxScore {
        score := cfg.maxScore;
      }
      lastUpdated := At(now);
    }

    method GetScore(config: ReputationConfig, q: real, now: int) returns (r: real)
      modifies this`score, this`lastUpdated
      ensures Standing(score, lastUpdated) == Scored(config, q, old(Standing(score, lastUpdated)), now)
      ensures r == score
    {
      hide Decayed;
      var cfg := Reputation.WithDefaults(config);
      Decay(cfg, q, now);
      if score < cfg.minScore {
        score := cfg.minScore;
      }
      if score > cfg.maxScore {
        score := cfg.maxScore;
      }
      r := score;
    }

    method Query(cfg: ReputationConfig, q: real, now: int) returns (r: Snapshot)
      modifies this
      ensures Abstract() == Queried(cfg, q, old(Abstract()), now)
      ensures r == SnapshotOf(Abstract(), now)
    {
      hide Scored;
      lastSeen := now;
      var current := GetScore(cfg, q, now);
      var stableFor := 0;
      if stableSince != Never {
        stableFor := now - stableSince.time;
      }
      r := Snapshot(current, stableFor, anomalyCount, remediationCount, conflictCount);
    }

    method Report(cfg: ReputationConfig, q: real, now: int, upd: ReputationUpdate) returns (r: Snapshot)
      modifies this
      ensures Abstract() == Reported(cfg, q, old(Abstract()), now, upd)
      ensures r == SnapshotOf(Abstract(), now)
    {
      hide Scored, Increased, PenalizedForOutcome, PenalizedForSignals;
      lastSeen := now;
      var scoreBefore := GetScore(cfg, q, now);
      var stableEvent := !upd.wasDrift && upd.anomalySeverity != High && upd.burstSeverity != High;
      if stableSince == Never {
        stableSince := At(now);
      }
      if !stableEvent {
        stableSince := At(now);
      }
      if stableEvent {
        Increase(cfg.rewardStable, cfg, q, now);
      }
      PenalizeOutcome(cfg, q, now, upd);
      PenalizeSignals(cfg, q, now, upd);
      var current := GetScore(cfg, q, now);
      var stableFor := 0;
      if stableSince != Never {
        stableFor := now - stableSince.time;
      }
      r := Snapshot(current, stableFor, anomalyCount, remediationCount, conflictCount);
    }

    /** The penalties for what happened, each applied and clamped on its own. */
    method PenalizeOutcome(cfg: ReputationConfig, q: real, now: int, upd: ReputationUpdate)
      modifies this`score, this`lastUpdated, this`remediationCount, this`conflictCount
      ensures Standing(score, lastUpdated) == PenalizedForOutcome(cfg, q, old(Standing(score, lastUpdated)), now, upd)
      ensures remediationCount == Bump(old(remediationCount), upd.finalAction == Remediate)
      ensures conflictCount == Bump(old(conflictCount), upd.conflictDetected)
    {
      hide Decreased;
      if upd.wasDrift {
        Decrease(cfg.penaltyDrift, cfg, q, now);
      }
      match upd.finalAction {
        case Alert =>
          Decrease(cfg.penaltyAlert, cfg, q, now);
        case Remediate =>
          Decrease(cfg.penaltyRemed, cfg, q, now);
          remediationCount := remediationCount + 1;
        case Allow =>
      }
      if upd.cooldownApplied {
        Decrease(cfg.penaltyCooldown, cfg, q, now);
      }
      if upd.conflictDetected {
        Decrease(cfg.penaltyConflict, cfg, q, now);
        conflictCount := conflictCount + 1;
      }
    }

    /** The penalties for the behavioural signals. */
    method PenalizeSignals(cfg: ReputationConfig, q: real, now: int, upd: ReputationUpdate)
      modifies this`score, this`lastUpdated, this`anomalyCount
      ensures Standing(score, lastUpdated) == PenalizedForSignals(cfg, q, old(Standing(score, lastUpdated)), now, upd)
      ensures anomalyCount == Bump(old(anomalyCount), upd.anomalySeverity == High || upd.anomalySeverity == Medium)
    {
      hide Decreased;
      match upd.anomalySeverity {
        case High =>
          anomalyCount := anomalyCount + 1;
          Decrease(cfg.penaltyAnomalyHigh, cfg, q, now);
        case Medium =>
          anomalyCount := anomalyCount + 1;
          Decrease(cfg.penaltyAnomalyMedium, cfg, q, now);
        case _ =>
      }
      match upd.burstSeverity {
        case High =>
          Decrease(cfg.penaltyBurstHigh, cfg, q, now);
        case Medium =>
          Decrease(cfg.penaltyBurstMedium, cfg, q, now);
        case _ =>
      }
    }
  }

  // ----- cleanup and creation -----

  type Entries = map<string, EntryState>

  predicate Due(cfg: ReputationConfig, lastCleanup: int, now: int) {
    lastCleanup == 0 || now - lastCleanup >= cfg.cleanupInterval
  }

  /** The entries seen within the time to live. */
  function Recent(cfg: ReputationConfig, entries: Entries, now: int): Entries {
    map k | k in entries && entries[k].lastSeen >= now - cfg.entryTTL :: entries[k]
  }

  /** A possible outcome of a pass: exactly the stale entries go, then exactly the excess, whichever
      entries that hits; what stays is untouched. */
  ghost predicate Cleaned(cfg: ReputationConfig, entries: Entries, lastCleanup: int, now: int, entries': Entries,
                          lastCleanup': int) {
    if !Due(cfg, lastCleanup, now) then entries' == entries && lastCleanup' == lastCleanup
    else
      var kept := Recent(cfg, entries, now);
      && lastCleanup' == now
      && entries'.Keys <= kept.Keys
      && (forall k :: k in entries' ==> entries'[k] == kept[k])
      && |entries'| == Min(|kept|, cfg.maxEntries)
  }

  function EntryFor(cfg: ReputationConfig, entries: Entries, process: string, now: int): EntryState {
    if process in entries then entries[process] else FreshEntry(cfg, now)
  }

  /** A possible outcome of `Get`. */
  ghost predicate Gets(cfg: ReputationConfig, q: real, entries: Entries, lastCleanup: int, process: string, now: int,
                       entries': Entries, lastCleanup': int, r: Snapshot) {
    if process == "" then entries' == entries && lastCleanup' == lastCleanup && r == NO_SNAPSHOT
    else exists mid :: Cleaned(cfg, entries, lastCleanup, now, mid, lastCleanup')
                       && var e := Queried(cfg, q, EntryFor(cfg, mid, process, now), now);
                          entries' == mid[process := e] && r == SnapshotOf(e, now)
  }

  /** A possible outcome of `Update`. */
  ghost predicate Updates(cfg: ReputationConfig, q: real, entries: Entries, lastCleanup: int, process: string, now: int,
                          upd: ReputationUpdate, entries': Entries, lastCleanup': int, r: Snapshot) {
    if process == "" then entries' == entries && lastCleanup' == lastCleanup && r == NO_SNAPSHOT
    else exists mid :: Cleaned(cfg, entries, lastCleanup, now, mid, lastCleanup')
                       && var e := Reported(cfg, q, EntryFor(cfg, mid, process, now), now, upd);
                          entries' == mid[process := e] && r == SnapshotOf(e, now)
  }

  /** A process without a name is answered with nothing, and leaves no trace. */
  lemma NamelessIsNothing(cfg: ReputationConfig, q: real, entries: Entries, last: int, now: int, upd: ReputationUpdate,
                          entries': Entries, last': int, r: Snapshot)
    requires Gets(cfg, q, entries, last, "", now, entries', last', r)
             || Updates(cfg, q, entries, last, "", now, upd, entries', last', r)
    ensures entries' == entries && last' == last
    ensures r.score == 0.0 && r.stableFor == r.anomalyCount == r.remediationCount == r.conflictCount == 0
  {
  }

  /** What a pass does: nothing, unless it is due, one cleanup interval after the last; then the entries not
      seen for longer than the time to live go, the others stay if they fit under the cap, and no more than the
      cap are left. */
  lemma PassExactly(cfg: ReputationConfig, entries: Entries, last: int, now: int, entries': Entries, last': int,
                    process: string)
    requires Cleaned(cfg, entries, last, now, entries', last')
    ensures
      var due := last == 0 || now - last >= cfg.cleanupInterval;
      var silent := process in entries && now - entries[process].lastSeen > cfg.entryTTL;
      && last' == (if due then now else last)
      && (process in entries' ==> process in entries && entries'[process] == entries[process] && !(due && silent))
      && (process in entries && process !in entries' ==> due && (silent || cfg.maxEntries < |entries|))
      && (due ==> |entries'| <= cfg.maxEntries)
      && (process in entries && process !in entries' && !silent ==> |entries'| == cfg.maxEntries)
  {
    var kept := Recent(cfg, entries, now);
    if Due(cfg, last, now) && |kept| <= cfg.maxEntries {
      SubsetSize(kept.Keys, entries.Keys);
      assert |kept.Keys| == |kept| && |entries'.Keys| == |entries'| && |entries.Keys| == |entries|;
      SameSize(entries'.Keys, kept.Keys);
    } else {
      SubsetSize(kept.Keys, entries.Keys);
      assert |kept.Keys| == |kept| && |entries.Keys| == |entries|;
    }
  }

  /** The values of all entries. */
  ghost function States(entries: map<string, ReputationEntry>): Entries
    reads entries.Values
  {
    map k | k in entries :: entries[k].Abstract()
  }

  /** Entries are not shared between processes, and every score is in range. */
  ghost predicate Sane(cfg: ReputationConfig, entries: map<string, ReputationEntry>)
    reads entries.Values
  {
    && (forall j, k :: j in entries && k in entries && entries[j] == entries[k] ==> j == k)
    && (forall k :: k in entries ==> InRange(cfg, entries[k].Abstract().rep))
  }

  lemma FewerAreSane(cfg: ReputationConfig, all: map<string, ReputationEntry>, some: map<string, ReputationEntry>)
    requires Sane(cfg, all) && some.Keys <= all.Keys && forall k :: k in some ==> some[k] == all[k]
    ensures Sane(cfg, some)
  {
  }

  lemma OneMoreIsSane(cfg: ReputationConfig, entries: map<string, ReputationEntry>, process: string,
                      entry: ReputationEntry)
    requires Sane(cfg, entries) && entry !in entries.Values && InRange(cfg, entry.Abstract().rep)
    ensures Sane(cfg, entries[process := entry])
    ensures States(entries[process := entry]) == States(entries)[process := entry.Abstract()]
  {
    hide InRange;
  }

  lemma SweptAreRecent(cfg: ReputationConfig, all: map<string, ReputationEntry>, kept: map<string, ReputationEntry>,
                       now: int)
    requires kept == map k | k in all && all[k].lastSeen >= now - cfg.entryTTL :: all[k]
    ensures States(kept) == Recent(cfg, States(all), now)
  {
  }

  lemma FewerAreUntouched(all: map<string, ReputationEntry>, some: map<string, ReputationEntry>)
    requires some.Keys <= all.Keys && forall k :: k in some ==> some[k] == all[k]
    ensures States(some).Keys <= States(all).Keys && forall k :: k in States(some) ==> States(some)[k] == States(all)[k]
    ensures |States(some)| == |some| && |States(all)| == |all|
  {
    assert States(some).Keys == some.Keys && States(all).Keys == all.Keys;
  }

  lemma NoPass(cfg: ReputationConfig, entries: Entries, last: int, now: int)
    requires !Due(cfg, last, now)
    ensures Cleaned(cfg, entries, last, now, entries, last)
  {
  }

  lemma PassCleans(cfg: ReputationConfig, all: Entries, last: int, now: int, left: Entries)
    requires Due(cfg, last, now)
    requires left.Keys <= Recent(cfg, all, now).Keys && forall k :: k in left ==> left[k] == Recent(cfg, all, now)[k]
    requires |left| == Min(|Recent(cfg, all, now)|, cfg.maxEntries)
    ensures Cleaned(cfg, all, last, now, left, now)
  {
    hide Recent;
  }

  lemma ProperHasRoom(cfg: ReputationConfig)
    requires Proper(cfg)
    ensures cfg.maxEntries > 0
  {
  }

  lemma MidUpdate(mid: Entries, process: string, e: EntryState, e': EntryState)
    ensures mid[process := e][process := e'] == mid[process := e']
  {
  }

  class ReputationManager {
    const cfg: ReputationConfig
    const q: real
    var entries: map<string, ReputationEntry>
    var lastCleanup: int

    constructor (config: ReputationConfig, fraction: real)
      requires Fraction(fraction)
      ensures Valid() && cfg == Reputation.WithDefaults(config) && q == fraction
      ensures Abstract() == map[] && lastCleanup == 0 && Objects() == {this}
    {
      DefaultsAreProper(config);
      cfg, q := Reputation.WithDefaults(config), fraction;
      entries, lastCleanup := map[], 0;
    }

    /** The manager and its entries. */
    ghost function Objects(): set<object>
      reads this
    {
      {this} + entries.Values
    }

    ghost predicate Valid()
      reads Objects()
    {
      Proper(cfg) && Fraction(q) && Sane(cfg, entries)
    }

    ghost function Abstract(): Entries
      reads Objects()
    {
      States(entries)
    }

    method Get(process: string, now: int) returns (r: Snapshot)
      requires Valid()
      modifies Objects()
      ensures Valid()
      ensures Gets(cfg, q, old(Abstract()), old(lastCleanup), process, now, Abstract(), lastCleanup, r)
      ensures fresh(Objects() - old(Objects()))
    {
      hide Queried, SnapshotOf, Cleaned, FreshEntry;
      if process == "" {
        return NO_SNAPSHOT;
      }
      ghost var mid, entry := GetOrCreate(process, now);
      var found := entries[process];
      ghost var e := EntryFor(cfg, mid, process, now);
      assert found.Abstract() == Abstract()[process] == e;
      r := QueryIn(found, process, now);
      MidUpdate(mid, process, e, Queried(cfg, q, e, now));
      assert Cleaned(cfg, old(Abstract()), old(lastCleanup), now, mid, lastCleanup);
    }

    method Update(process: string, now: int, upd: ReputationUpdate) returns (r: Snapshot)
      requires Valid()
      modifies Objects()
      ensures Valid()
      ensures Updates(cfg, q, old(Abstract()), old(lastCleanup), process, now, upd, Abstract(), lastCleanup, r)
      ensures fresh(Objects() - old(Objects()))
    {
      hide Reported, SnapshotOf, Cleaned, FreshEntry;
      if process == "" {
        return NO_SNAPSHOT;
      }
      ghost var mid, entry := GetOrCreate(process, now);
      var found := entries[process];
      ghost var e := EntryFor(cfg, mid, process, now);
      assert found.Abstract() == Abstract()[process] == e;
      r := ReportIn(found, process, now, upd);
      MidUpdate(mid, process, e, Reported(cfg, q, e, now, upd));
      assert Cleaned(cfg, old(Abstract()), old(lastCleanup), now, mid, lastCleanup);
    }

    method QueryIn(entry: ReputationEntry, process: string, now: int) returns (r: Snapshot)
      requires Valid() && process in entries && entries[process] == entry
      modifies entry
      ensures Valid()
      ensures Abstract() == old(Abstract())[process := Queried(cfg, q, old(entry.Abstract()), now)]
      ensures r == SnapshotOf(Queried(cfg, q, old(entry.Abstract()), now), now)
    {
      hide Queried, SnapshotOf;
      QueriedInRange(cfg, q, entry.Abstract(), now);
      r := entry.Query(cfg, q, now);
    }

    method ReportIn(entry: ReputationEntry, process: string, now: int, upd: ReputationUpdate) returns (r: Snapshot)
      requires Valid() && process in entries && entries[process] == entry
      modifies entry
      ensures Valid()
      ensures Abstract() == old(Abstract())[process := Reported(cfg, q, old(entry.Abstract()), now, upd)]
      ensures r == SnapshotOf(Reported(cfg, q, old(entry.Abstract()), now, upd), now)
    {
      hide Reported, SnapshotOf;
      ReportedInRange(cfg, q, entry.Abstract(), now, upd);
      r := entry.Report(cfg, q, now, upd);
    }

    /** The entry of the process, new if there is none, after a pass if one is due. */
    method GetOrCreate(process: string, now: int) returns (ghost mid: Entries, entry: ReputationEntry)
      requires Valid()
      modifies this
      ensures Valid()
      ensures process in entries && entries[process] == entry
      ensures entries.Values <= old(entries.Values) + {entry} && (entry in old(entries.Values) || fresh(entry))
      ensures Cleaned(cfg, old(Abstract()), old(lastCleanup), now, mid, lastCleanup)
      ensures Abstract() == mid[process := EntryFor(cfg, mid, process, now)]
    {
      hide Cleaned, InRange, FreshEntry, Proper, Sane;
      MaybeCleanup(now);
      FreshInRange(cfg, now);
      mid := Abstract();
      if process in entries {
        entry := entries[process];
        assert mid[process := mid[process]] == mid;
      } else {
        entry := new ReputationEntry(cfg, now);
        OneMoreIsSane(cfg, entries, process, entry);
        entries := entries[process := entry];
      }
    }

    method MaybeCleanup(now: int)
      requires Valid()
      modifies this
      ensures Valid()
      ensures entries.Keys <= old(entries).Keys && forall k :: k in entries ==> entries[k] == old(entries)[k]
      ensures Cleaned(cfg, old(Abstract()), old(lastCleanup), now, Abstract(), lastCleanup)
    {
      hide InRange, Proper, Sane, Cleaned, States, Recent;
      var last := lastCleanup;
      if last != 0 {
        if now - last < cfg.cleanupInterval {
          NoPass(cfg, Abstract(), last, now);
          return;
        }
      }
      lastCleanup := now;
      ghost var all := entries;
      SweepOld(now - cfg.entryTTL);
      SweptAreRecent(cfg, all, entries, now);
      ghost var kept := entries;
      ProperHasRoom(cfg);
      EvictExcess();
      FewerAreUntouched(kept, entries);
      PassCleans(cfg, States(all), last, now, States(entries));
      FewerAreSane(cfg, all, entries);
    }

    method SweepOld(cutoff: int)
      modifies this`entries
      ensures entries == map k | k in old(entries) && old(entries)[k].lastSeen >= cutoff :: old(entries)[k]
    {
      var todo := entries.Keys;
      while todo != {}
        invariant todo <= entries.Keys <= old(entries).Keys
        invariant forall k :: k in entries ==> entries[k] == old(entries)[k]
        invariant forall k :: k in old(entries) ==> (k in entries <==> k in todo || old(entries)[k].lastSeen >= cutoff)
        decreases todo
      {
        var k :| k in todo;
        todo := todo - {k};
        if entries[k].lastSeen < cutoff {
          entries := entries - {k};
        }
      }
    }

    method EvictExcess()
      requires cfg.maxEntries > 0
      modifies this`entries
      ensures entries.Keys <= old(entries).Keys && forall k :: k in entries ==> entries[k] == old(entries)[k]
      ensures |entries| == Min(|old(entries)|, cfg.maxEntries)
    {
      if |entries| > cfg.maxEntries {
        var excess := |entries| - cfg.maxEntries;
        var todo := entries.Keys;
        while todo != {}
          invariant todo == entries.Keys <= old(entries).Keys
          invariant forall k :: k in entries ==> entries[k] == old(entries)[k]
          invariant 0 < excess == |entries| - cfg.maxEntries
          decreases todo
        {
          var k :| k in todo;
          todo := todo - {k};
          entries := entries - {k};
          excess := excess - 1;
          if excess <= 0 {
            break;
          }
        }
      }
    }
  }

  lemma FreshInRange(cfg: ReputationConfig, now: int)
    requires Proper(cfg)
    ensures InRange(cfg, FreshEntry(cfg, now).rep)
  {
  }

  lemma QueriedInRange(cfg: ReputationConfig, q: real, e: EntryState, now: int)
    requires Proper(cfg) && Fraction(q) && InRange(cfg, e.rep)
    ensures InRange(cfg, Queried(cfg, q, e, now).rep)
  {
    hide Scored, Proper;
    DecayStaysInRange(cfg, q, e.rep, now);
  }

  lemma ReportedInRange(cfg: ReputationConfig, q: real, e: EntryState, now: int, upd: ReputationUpdate)
    requires Proper(cfg) && Fraction(q) && InRange(cfg, e.rep)
    ensures InRange(cfg, Reported(cfg, q, e, now, upd).rep)
  {
    hide Judged, Proper;
    CascadeFuses(cfg, q, e.rep, now, upd);
  }
}
