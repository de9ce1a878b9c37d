/** What the engine knows after an event, and what it has said about it (agent/worker.go, stats/engine.go). */
module Learning {
  import opened Series
  import opened SeriesCache
  import opened Evaluator
  import opened Pipeline
  import opened EventSpec
  import Engine
  import Reputation
  import ReputationManager

  /** One series has seen an event, and the others are as they were, or gone. */
  ghost predicate Fed(c: Cache, key: string, now: int, c': Cache) {
    && key in c'.series && c'.series[key].lastSeen == now
    && forall other :: other in c'.series && other != key ==>
         other in c.series && c'.series[other] == c.series[other]
  }

  /** One entry has been seen, and the others are as they were, or gone. */
  ghost predicate Noted(entries: ReputationManager.Entries, process: string, now: int,
                        entries': ReputationManager.Entries) {
    && process in entries' && entries'[process].lastSeen == now
    && forall other :: other in entries' && other != process ==>
         other in entries && entries'[other] == entries[other]
  }

  lemma ObservedIsFed(cfg: RateConfig, sqrt: real -> real, c: Cache, key: string, now: int, c': Cache, r: RateMetrics)
    requires Sound(cfg) && key != "" && Observes(cfg, sqrt, c, key, now, c', r)
    ensures Fed(c, key, now, c')
    ensures !Due(cfg, c.lastCleanup, now) ==> r == Metrics(cfg, sqrt, StateOf(cfg, c, key), now)
  {
    hide Metrics, Observed, FreshSeries;
    var mid :| Cleaned(cfg, c, now, mid) && c' == AfterEvent(cfg, mid, key, now)
               && r == Metrics(cfg, sqrt, StateOf(cfg, mid, key), now);
    SeenNow(cfg, StateOf(cfg, mid, key), now);
    forall other | other in c'.series && other != key
      ensures other in c.series && c'.series[other] == c.series[other]
    {
      PassExactly(cfg, sqrt, c, key, now, c', r, other);
    }
  }

  lemma PassNotes(cfg: Reputation.ReputationConfig, entries: ReputationManager.Entries, last: int, process: string,
                  now: int, mid: ReputationManager.Entries, last': int, s: ReputationManager.EntryState)
    requires ReputationManager.Cleaned(cfg, entries, last, now, mid, last') && s.lastSeen == now
    ensures Noted(entries, process, now, mid[process := s])
  {
    hide ReputationManager.Cleaned;
    forall other | other in mid ensures other in entries && mid[other] == entries[other] {
      ReputationManager.PassExactly(cfg, entries, last, now, mid, last', other);
    }
  }

  lemma GivenIsNoted(e: Engine.Setup, k: Engine.Knowledge, process: string, now: int, k': Engine.Knowledge, score: real)
    requires process != "" && Engine.ReputationGiven(e, k, process, now, k', score)
    ensures Noted(k.entries, process, now, k'.entries) && k' == k.(entries := k'.entries, lastCleanup := k'.lastCleanup)
    ensures !ReputationManager.Due(e.reputation, k.lastCleanup, now) ==>
              score == Reputation.Scored(e.reputation, e.q,
                         ReputationManager.EntryFor(e.reputation, k.entries, process, now).rep, now).score
  {
    hide Reputation.Scored, ReputationManager.Recent, ReputationManager.EntryFor, Noted;
    var r: ReputationManager.Snapshot :| r.score == score
      && ReputationManager.Gets(e.reputation, e.q, k.entries, k.lastCleanup, process, now, k'.entries, k'.lastCleanup,
                                r);
    var mid :| ReputationManager.Cleaned(e.reputation, k.entries, k.lastCleanup, now, mid, k'.lastCleanup)
      && var s := ReputationManager.Queried(e.reputation, e.q,
                    ReputationManager.EntryFor(e.reputation, mid, process, now), now);
         k'.entries == mid[process := s] && r == ReputationManager.SnapshotOf(s, now);
    var s := ReputationManager.Queried(e.reputation, e.q,
               ReputationManager.EntryFor(e.reputation, mid, process, now), now);
    PassNotes(e.reputation, k.entries, k.lastCleanup, process, now, mid, k'.lastCleanup, s);
  }

  lemma UpdatedIsNoted(e: Engine.Setup, k: Engine.Knowledge, process: string, now: int,
                       upd: Reputation.ReputationUpdate, k': Engine.Knowledge)
    requires process != "" && Engine.ReputationUpdated(e, k, process, now, upd, k')
    ensures Noted(k.entries, process, now, k'.entries) && k' == k.(entries := k'.entries, lastCleanup := k'.lastCleanup)
  {
    hide Reputation.Judged, ReputationManager.Cleaned, ReputationManager.EntryFor, Noted;
    var r: ReputationManager.Snapshot :|
      ReputationManager.Updates(e.reputation, e.q, k.entries, k.lastCleanup, process, now, upd, k'.entries,
                                k'.lastCleanup, r);
    var mid :| ReputationManager.Cleaned(e.reputation, k.entries, k.lastCleanup, now, mid, k'.lastCleanup)
      && var s := ReputationManager.Reported(e.reputation, e.q,
                    ReputationManager.EntryFor(e.reputation, mid, process, now), now, upd);
         k'.entries == mid[process := s] && r == ReputationManager.SnapshotOf(s, now);
    var s := ReputationManager.Reported(e.reputation, e.q,
               ReputationManager.EntryFor(e.reputation, mid, process, now), now, upd);
    PassNotes(e.reputation, k.entries, k.lastCleanup, process, now, mid, k'.lastCleanup, s);
  }

  lemma NotedTwice(a: ReputationManager.Entries, b: ReputationManager.Entries, c: ReputationManager.Entries,
                   process: string, before: int, now: int)
    requires Noted(a, process, before, b) && Noted(b, process, now, c)
    ensures Noted(a, process, now, c)
  {
  }

  /** A write feeds the series of its process, a drift also that of its parameter, and a remediation also the one
      of remediations; each has seen the time at which it happened, and nothing else has. What the statistics say
      was asked about that process and that parameter, and the reputation before anything was charged. */
  lemma WhatIsLearned(policy: Policy, e: Engine.Setup, k: Engine.Knowledge, ev: Event, world: World,
                      outcome: Outcome, intel: EventIntel, k': Engine.Knowledge)
    requires Relevant(policy, ev) && ev.process != "" && Engine.SoundSetup(e)
    requires Learned(policy, e, k, ev, world, Charged(outcome), intel, k')
    ensures Fed(k.writes, ev.process, world.now, k'.writes)
    ensures if outcome.wasDrift then Fed(k.drifts, ev.param, world.now, k'.drifts) else k'.drifts == k.drifts
    ensures if outcome.wasDrift && outcome.action == Remediate
            then Fed(k.remediations, "__global__", world.observed, k'.remediations)
            else k'.remediations == k.remediations
    ensures Noted(k.entries, ev.process, if outcome.wasDrift then world.settled else world.now, k'.entries)
    ensures !Due(e.writes, k.writes.lastCleanup, world.now) ==>
              intel.processWrite == Metrics(e.writes, e.sqrt, StateOf(e.writes, k.writes, ev.process), world.now)
    ensures outcome.wasDrift && !Due(e.drifts, k.drifts.lastCleanup, world.now) ==>
              intel.paramDrift == Metrics(e.drifts, e.sqrt, StateOf(e.drifts, k.drifts, ev.param), world.now)
    ensures !ReputationManager.Due(e.reputation, k.lastCleanup, world.now) ==>
              intel.reputation == Reputation.Scored(e.reputation, e.q,
                ReputationManager.EntryFor(e.reputation, k.entries, ev.process, world.now).rep, world.now).score
  {
    hide Observes, Metrics, Fed, Noted, Due, StateOf, Engine.Intel, UpdateFor, Engine.ReputationGiven,
      Engine.ReputationUpdated, Reputation.Scored, ReputationManager.Due, ReputationManager.EntryFor;
    var written, asked :| Steps(e, k, ev, world, Charged(outcome), intel, written, asked, k');
    ObservedIsFed(e.writes, e.sqrt, k.writes, ev.process, world.now, written.writes, intel.processWrite);
    GivenIsNoted(e, written, ev.process, world.now, asked, intel.reputation);
    if outcome.wasDrift {
      DriftIsLearned(e, asked, ev, world, outcome, intel, k');
      NotedTwice(k.entries, asked.entries, k'.entries, ev.process, world.now, world.settled);
    } else {
      UpdatedIsNoted(e, asked, ev.process, world.now,
        UpdateFor(outcome, intel.processWrite.anomaly.severity, intel.processWrite.burst.severity), k');
      NotedTwice(k.entries, asked.entries, k'.entries, ev.process, world.now, world.now);
    }
  }

  lemma DriftIsLearned(e: Engine.Setup, asked: Engine.Knowledge, ev: Event, world: World, outcome: Outcome,
                       intel: EventIntel, k': Engine.Knowledge)
    requires Engine.SoundSetup(e) && ev.process != "" && ev.param != ""
    requires DriftLearned(e, asked, ev, world, outcome, intel, k')
    ensures k'.writes == asked.writes && Fed(asked.drifts, ev.param, world.now, k'.drifts)
    ensures if outcome.action == Remediate
            then Fed(asked.remediations, "__global__", world.observed, k'.remediations)
            else k'.remediations == asked.remediations
    ensures Noted(asked.entries, ev.process, world.settled, k'.entries)
    ensures !Due(e.drifts, asked.drifts.lastCleanup, world.now) ==>
              intel.paramDrift == Metrics(e.drifts, e.sqrt, StateOf(e.drifts, asked.drifts, ev.param), world.now)
  {
    hide Observes, Metrics, Fed, Noted, Due, StateOf, Engine.Intel, UpdateFor, Engine.ReputationUpdated;
    var seen, fed :| DriftSteps(e, asked, ev, world, outcome, intel, seen, fed, k');
    ObservedIsFed(e.drifts, e.sqrt, asked.drifts, ev.param, world.now, seen.drifts, intel.paramDrift);
    UpdatedIsNoted(e, fed, ev.process, world.settled, UpdateFor(outcome, intel.severity, intel.burst.severity), k');
    if outcome.action == Remediate {
      var r :| Engine.RemediationObserved(e, seen, world.observed, fed, r);
      ObservedIsFed(e.remediations, e.sqrt, seen.remediations, "__global__", world.observed, fed.remediations, r);
    }
  }
}
