/** What the processing of one event comes to, said directly (agent/worker.go): what is learned from it, in
    order, and what it does to the logs, the stamps and the parameters. */
module EventSpec {
  import opened Anomaly
  import opened Evaluator
  import opened Pipeline
  import Conflict
  import Cooldown
  import Engine
  import Reputation

  /** What comes from outside while one event is processed: the readings of the clock, in the order in
      which they are taken, and whether the system calls succeed. */
  datatype World = World(now: int, recorded: int, cooldownAt: int, conflictAt: int, stamped: int, observed: int,
                         settled: int, readOk: bool, writeOk: bool, verifyOk: bool)

  ghost predicate InOrder(world: World, clock: int) {
    clock <= world.now <= world.recorded <= world.cooldownAt <= world.conflictAt <= world.stamped <= world.observed
      <= world.settled
  }

  datatype Verdict = Dropped | Charged(outcome: Outcome)

  /** What is reported to the reputation of the process. */
  function UpdateFor(o: Outcome, anomaly: Severity, burst: Severity): Reputation.ReputationUpdate {
    Reputation.ReputationUpdate(o.wasDrift, o.action, o.cooldownApplied, o.conflictDetected, anomaly, burst)
  }

  /** What the pipeline charges to a process is of the kind the reputation results speak of. */
  lemma ReportIsSent(policy: Policy, o: Outcome, anomaly: Severity, burst: Severity)
    requires Honest(policy, o)
    ensures Reputation.Sent(UpdateFor(o, anomaly, burst))
  {
  }

  /** What such a report costs a process: a penalty for each thing that happened, and by severity. */
  lemma ReportCosts(cfg: Reputation.ReputationConfig, o: Outcome, anomaly: Severity, burst: Severity)
    ensures Reputation.OutcomePenalties(cfg, UpdateFor(o, anomaly, burst))
         == (if o.wasDrift then cfg.penaltyDrift else 0.0)
            + (if o.action == Alert then cfg.penaltyAlert else if o.action == Remediate then cfg.penaltyRemed else 0.0)
            + (if o.cooldownApplied then cfg.penaltyCooldown else 0.0)
            + (if o.conflictDetected then cfg.penaltyConflict else 0.0)
    ensures Reputation.SignalPenalties(cfg, UpdateFor(o, anomaly, burst))
         == (if anomaly == High then cfg.penaltyAnomalyHigh else if anomaly == Medium then cfg.penaltyAnomalyMedium
             else 0.0)
            + (if burst == High then cfg.penaltyBurstHigh else if burst == Medium then cfg.penaltyBurstMedium else 0.0)
    ensures Reputation.Reward(cfg, UpdateFor(o, anomaly, burst))
         == if o.wasDrift || anomaly == High || burst == High then 0.0 else cfg.rewardStable
  {
  }

  /** What the engine goes through once a drift is seen. */
  ghost predicate DriftLearned(e: Engine.Setup, k: Engine.Knowledge, ev: Event, world: World,
                               outcome: Outcome, intel: EventIntel, k': Engine.Knowledge)
  {
    exists seen, fed :: DriftSteps(e, k, ev, world, outcome, intel, seen, fed, k')
  }

  ghost predicate DriftSteps(e: Engine.Setup, k: Engine.Knowledge, ev: Event, world: World,
                             outcome: Outcome, intel: EventIntel, seen: Engine.Knowledge, fed: Engine.Knowledge,
                             k': Engine.Knowledge)
  {
    && Engine.SoundSetup(e)
    && Engine.DriftObserved(e, k, ev.param, world.now, seen, intel.paramDrift)
    && intel == Engine.Intel(intel.processWrite, intel.paramDrift, intel.reputation)
    && (if outcome.action == Remediate then exists r :: Engine.RemediationObserved(e, seen, world.observed, fed, r)
        else fed == seen)
    && Engine.ReputationUpdated(e, fed, ev.process, world.settled,
                                UpdateFor(outcome, intel.severity, intel.burst.severity), k')
  }

  /** What the engine goes through for an event, in order. */
  ghost predicate Learned(policy: Policy, e: Engine.Setup, k: Engine.Knowledge, ev: Event, world: World,
                          verdict: Verdict, intel: EventIntel, k': Engine.Knowledge)
  {
    if !Relevant(policy, ev) then k' == k
    else exists written, asked :: Steps(e, k, ev, world, verdict, intel, written, asked, k')
  }

  ghost predicate Steps(e: Engine.Setup, k: Engine.Knowledge, ev: Event, world: World,
                        verdict: Verdict, intel: EventIntel, written: Engine.Knowledge, asked: Engine.Knowledge,
                        k': Engine.Knowledge)
  {
    && Engine.SoundSetup(e)
    && Engine.WriteObserved(e, k, ev.process, world.now, written, intel.processWrite)
    && Engine.ReputationGiven(e, written, ev.process, world.now, asked, intel.reputation)
    && Concluded(e, asked, ev, world, verdict, intel, k')
  }

  ghost predicate Concluded(e: Engine.Setup, asked: Engine.Knowledge, ev: Event, world: World,
                            verdict: Verdict, intel: EventIntel, k': Engine.Knowledge)
  {
    match verdict
    case Dropped => k' == asked
    case Charged(o) =>
      if o.wasDrift then DriftLearned(e, asked, ev, world, o, intel, k')
      else Engine.ReputationUpdated(e, asked, ev.process, world.now,
             UpdateFor(o, intel.processWrite.anomaly.severity, intel.processWrite.burst.severity), k')
  }

  lemma DriftLearnedBy(e: Engine.Setup, k: Engine.Knowledge, ev: Event, world: World, outcome: Outcome,
                       intel: EventIntel, seen: Engine.Knowledge, fed: Engine.Knowledge, k': Engine.Knowledge)
    requires Engine.SoundSetup(e)
    requires Engine.DriftObserved(e, k, ev.param, world.now, seen, intel.paramDrift)
    requires intel == Engine.Intel(intel.processWrite, intel.paramDrift, intel.reputation)
    requires if outcome.action == Remediate then exists r :: Engine.RemediationObserved(e, seen, world.observed, fed, r)
             else fed == seen
    requires Engine.ReputationUpdated(e, fed, ev.process, world.settled,
                                      UpdateFor(outcome, intel.severity, intel.burst.severity), k')
    ensures DriftLearned(e, k, ev, world, outcome, intel, k')
  {
    hide Engine.DriftObserved, Engine.RemediationObserved, Engine.ReputationUpdated, Engine.Intel, UpdateFor;
    assert DriftSteps(e, k, ev, world, outcome, intel, seen, fed, k');
  }

  lemma LearnedBy(policy: Policy, e: Engine.Setup, k: Engine.Knowledge, ev: Event, world: World, verdict: Verdict,
                  intel: EventIntel, written: Engine.Knowledge, asked: Engine.Knowledge, k': Engine.Knowledge)
    requires Engine.SoundSetup(e) && Relevant(policy, ev)
    requires Engine.WriteObserved(e, k, ev.process, world.now, written, intel.processWrite)
    requires Engine.ReputationGiven(e, written, ev.process, world.now, asked, intel.reputation)
    requires Concluded(e, asked, ev, world, verdict, intel, k')
    ensures Learned(policy, e, k, ev, world, verdict, intel, k')
  {
    hide Engine.WriteObserved, Engine.ReputationGiven, Concluded;
    assert Steps(e, k, ev, world, verdict, intel, written, asked, k');
  }

  lemma SparedConcludes(e: Engine.Setup, asked: Engine.Knowledge, ev: Event, world: World, o: Outcome,
                        intel: EventIntel, k': Engine.Knowledge)
    requires !o.wasDrift
    requires Engine.ReputationUpdated(e, asked, ev.process, world.now,
               UpdateFor(o, intel.processWrite.anomaly.severity, intel.processWrite.burst.severity), k')
    ensures Concluded(e, asked, ev, world, Charged(o), intel, k')
  {
    hide Engine.ReputationUpdated;
  }

  lemma DroppedConcludes(e: Engine.Setup, asked: Engine.Knowledge, ev: Event, world: World, intel: EventIntel)
    ensures Concluded(e, asked, ev, world, Dropped, intel, asked)
  {
  }

  lemma DriftConcludes(e: Engine.Setup, asked: Engine.Knowledge, ev: Event, world: World, o: Outcome,
                       intel: EventIntel, k': Engine.Knowledge)
    requires o.wasDrift && DriftLearned(e, asked, ev, world, o, intel, k')
    ensures Concluded(e, asked, ev, world, Charged(o), intel, k')
  {
    hide DriftLearned;
  }

  lemma NothingLearned(policy: Policy, e: Engine.Setup, k: Engine.Knowledge, ev: Event, world: World, intel: EventIntel)
    requires !Relevant(policy, ev)
    ensures Learned(policy, e, k, ev, world, Dropped, intel, k)
  {
  }

  // ----- what an event comes to -----

  /** What the worker acts on: the drift log, the last remediations and the parameters. */
  datatype Scene = Scene(events: Conflict.Events, lastRemediated: map<string, int>, values: map<string, string>)

  /** The outcome of a drift, said directly: remediated exactly when the decision says so, no cooldown is
      running, the drift makes no conflict with those before it, and the write takes effect. */
  function OutcomeOf(policy: Policy, s: Scene, ev: Event, intel: EventIntel, world: World): Outcome
    requires Relevant(policy, ev)
  {
    var decided := Pipeline.Decide(policy, ev, intel);
    var cooled := decided == Remediate
      && Cooldown.Cooling(s.lastRemediated, ev.param, world.cooldownAt, CooldownOf(policy, ev.param));
    var events := Conflict.Recorded(s.events, ev.param, world.recorded);
    var conflict := Conflict.Conflicting(events, ev.param, world.conflictAt, CONFLICT_WINDOW, CONFLICT_THRESHOLD);
    if decided != Remediate then Outcome(ev, true, decided, false, conflict)
    else if cooled || conflict then Outcome(ev, true, Alert, cooled, conflict)
    else Outcome(ev, true, if world.writeOk && world.verifyOk then Remediate else Alert, false, false)
  }

  /** The scene after a drift: the log has the drift and is pruned, a remediation is stamped only if it was
      verified, and the parameter is restored if a remediation got as far as writing it. */
  function SceneAfter(policy: Policy, s: Scene, ev: Event, intel: EventIntel, world: World): Scene
    requires Relevant(policy, ev)
  {
    var o := OutcomeOf(policy, s, ev, intel, world);
    var attempted := Pipeline.Decide(policy, ev, intel) == Remediate && !o.cooldownApplied && !o.conflictDetected;
    Scene(
      Conflict.Pruned(Conflict.Recorded(s.events, ev.param, world.recorded), ev.param,
                      world.conflictAt - CONFLICT_WINDOW),
      if o.action == Remediate then s.lastRemediated[ev.param := world.stamped] else s.lastRemediated,
      if attempted && world.writeOk then s.values[ev.param := Expected(policy, ev.param)] else s.values)
  }

  /** What a whole event comes to: only a drift changes the scene. */
  ghost predicate Comes(policy: Policy, s: Scene, ev: Event, world: World, verdict: Verdict, intel: EventIntel,
                        s': Scene) {
    if Relevant(policy, ev) && world.readOk && ev.param in s.values then
      if Off(policy, s.values, ev.param) then
        verdict == Charged(OutcomeOf(policy, s, ev, intel, world)) && s' == SceneAfter(policy, s, ev, intel, world)
      else verdict == Charged(Outcome(ev, false, Allow, false, false)) && s' == s
    else verdict == Dropped && s' == s
  }

  /** How many of the drifts logged so far are less than ten seconds old. */
  ghost function Earlier(s: Scene, param: string, now: int): nat {
    var ts := Conflict.Timestamps(s.events, param);
    |set i: nat | i < |ts| && now - ts[i] < 10_000_000_000|
  }

  /** Whether the drift itself is, when it is checked; a clock that jumps may have made it older. */
  function Own(world: World): nat {
    if world.conflictAt - world.recorded < 10_000_000_000 then 1 else 0
  }

  lemma ConflictIsCounted(s: Scene, param: string, world: World)
    ensures
      Conflict.Conflicting(Conflict.Recorded(s.events, param, world.recorded), param, world.conflictAt,
        CONFLICT_WINDOW, CONFLICT_THRESHOLD)
      <==> Earlier(s, param, world.conflictAt) + Own(world) >= 3
  {
    hide Conflict.After;
    Conflict.CountIsExact(s.events, param, world.conflictAt, 10_000_000_000, 3);
    Conflict.AfterGrows(Conflict.Timestamps(s.events, param), world.recorded, world.conflictAt - CONFLICT_WINDOW);
  }

  /** Exactly when a drift ends in a remediation, down to the scores, the stamps and the log: the policy
      and the score ask for it, the last remediation is a cooldown old (that of the parameter, or the global
      one if it has none), at most two drifts with this one are less than ten seconds old, and the write is
      verified. */
  lemma RemediatedExactlyWhen(policy: Policy, s: Scene, ev: Event, intel: EventIntel, world: World)
    requires Relevant(policy, ev)
    ensures
      var entry := policy.sysctl[ev.param];
      var ctx := Context(entry.category, entry.criticality, ev.trusted, ev.allowed, true, intel);
      OutcomeOf(policy, s, ev, intel, world).action == Remediate <==>
        && !ev.allowed && entry.remediation != "alert"
        && EvaluateDecision(ctx, entry, policy.global).score
           >= (if policy.global.remediateThreshold > 0 then policy.global.remediateThreshold else 8)
        && (ev.param in s.lastRemediated ==>
              world.cooldownAt - s.lastRemediated[ev.param]
              >= if entry.cooldown != 0 then entry.cooldown else policy.global.defaultCooldown)
        && Earlier(s, ev.param, world.conflictAt) + Own(world) <= 2
        && world.writeOk && world.verifyOk
  {
    hide EvaluateDecision, Conflict.Conflicting, Conflict.Recorded, Earlier, Own;
    var entry := policy.sysctl[ev.param];
    RemediatesIff(Context(entry.category, entry.criticality, ev.trusted, ev.allowed, true, intel), entry,
                  policy.global);
    ConflictIsCounted(s, ev.param, world);
  }

  /** Exactly when a drift is charged with a conflict, and never remediated: two earlier ones and itself, or
      three earlier ones, are less than ten seconds old. And exactly when with a cooldown: it was to be remediated,
      and the last remediation is not a cooldown old. */
  lemma ChargedExactlyWhen(policy: Policy, s: Scene, ev: Event, intel: EventIntel, world: World)
    requires Relevant(policy, ev)
    ensures
      var o, entry := OutcomeOf(policy, s, ev, intel, world), policy.sysctl[ev.param];
      && (o.conflictDetected <==> Earlier(s, ev.param, world.conflictAt) + Own(world) >= 3)
      && (o.cooldownApplied <==>
            && Pipeline.Decide(policy, ev, intel) == Remediate && ev.param in s.lastRemediated
            && world.cooldownAt - s.lastRemediated[ev.param]
               < if entry.cooldown != 0 then entry.cooldown else policy.global.defaultCooldown)
      && (o.conflictDetected || o.cooldownApplied ==> o.action != Remediate)
      && (Pipeline.Decide(policy, ev, intel) == Remediate && o.action != Remediate ==> o.action == Alert)
      && (Pipeline.Decide(policy, ev, intel) != Remediate ==> o.action == Pipeline.Decide(policy, ev, intel))
  {
    hide Pipeline.Decide, Conflict.Conflicting, Conflict.Recorded, Earlier, Own;
    ConflictIsCounted(s, ev.param, world);
  }

  /** What a drift leaves behind: the parameter is set to what is expected exactly if it was to be remediated, was
      neither in cooldown nor in conflict, and could be written; it is stamped exactly if that was verified; and
      no question about the last ten seconds is answered otherwise than with the drift logged and nothing
      pruned. */
  lemma SceneExactly(policy: Policy, s: Scene, ev: Event, intel: EventIntel, world: World, p: string, now: int,
                     threshold: int)
    requires Relevant(policy, ev) && ev.param in s.values && now >= world.conflictAt && threshold >= 1
    ensures
      var o, s' := OutcomeOf(policy, s, ev, intel, world), SceneAfter(policy, s, ev, intel, world);
      var logged := s.events[ev.param := Conflict.Timestamps(s.events, ev.param) + [world.recorded]];
      var written := Pipeline.Decide(policy, ev, intel) == Remediate && !o.cooldownApplied && !o.conflictDetected
                     && world.writeOk;
      && s'.values == (if written then s.values[ev.param := policy.sysctl[ev.param].expected] else s.values)
      && s'.lastRemediated == (if o.action == Remediate then s.lastRemediated[ev.param := world.stamped]
                               else s.lastRemediated)
      && (Conflict.Conflicting(s'.events, p, now, 10_000_000_000, threshold)
          <==> Conflict.Conflicting(logged, p, now, 10_000_000_000, threshold))
  {
    hide Pipeline.Decide, Conflict.After, Cooldown.Cooling, OutcomeOf;
    var events := Conflict.Recorded(s.events, ev.param, world.recorded);
    var ts, cutoff := Conflict.Timestamps(events, ev.param), world.conflictAt - CONFLICT_WINDOW;
    Conflict.AfterAfter(ts, |ts|, cutoff, now - CONFLICT_WINDOW);
    Conflict.AfterOfNothing(now - CONFLICT_WINDOW);
  }

  lemma DriftIsCharged(policy: Policy, s: Scene, ev: Event, intel: EventIntel, world: World)
    requires Relevant(policy, ev)
    ensures OutcomeOf(policy, s, ev, intel, world).ev == ev && OutcomeOf(policy, s, ev, intel, world).wasDrift
  {
    hide Pipeline.Decide, CooldownOf, Conflict.Recorded, Conflict.Conflicting, Cooldown.Cooling;
  }

  lemma ChargeComes(policy: Policy, s: Scene, ev: Event, world: World, outcome: Outcome, intel: EventIntel, s': Scene,
                    drifted: bool)
    requires Relevant(policy, ev) && world.readOk && ev.param in s.values
             && (drifted <==> Off(policy, s.values, ev.param))
    requires drifted ==>
               outcome == OutcomeOf(policy, s, ev, intel, world) && s' == SceneAfter(policy, s, ev, intel, world)
    requires !drifted ==> outcome == Outcome(ev, false, Allow, false, false) && s' == s
    ensures Comes(policy, s, ev, world, Charged(outcome), intel, s')
  {
    hide OutcomeOf, SceneAfter;
  }

  /** An event is charged exactly if it is a write by another program to a parameter the policy covers, which can
      be read; and as a drift exactly if the parameter is not set as expected. Nothing else changes anything. */
  lemma ChargedIff(policy: Policy, s: Scene, ev: Event, world: World, verdict: Verdict, intel: EventIntel, s': Scene)
    requires Comes(policy, s, ev, world, verdict, intel, s')
    ensures
      && (verdict.Charged? <==>
            && !ev.own && ev.access == "WRITE" && ev.param != "" && ev.param in policy.sysctl
            && world.readOk && ev.param in s.values)
      && (verdict.Charged? ==>
            && verdict.outcome.ev == ev
            && (verdict.outcome.wasDrift <==> s.values[ev.param] != policy.sysctl[ev.param].expected)
            && (!verdict.outcome.wasDrift ==>
                  verdict.outcome.action == Allow && !verdict.outcome.cooldownApplied
                  && !verdict.outcome.conflictDetected))
      && (verdict.Dropped? || !verdict.outcome.wasDrift ==> s' == s)
  {
    hide OutcomeOf, SceneAfter;
    if Relevant(policy, ev) {
      DriftIsCharged(policy, s, ev, intel, world);
    }
  }

  lemma DropComes(policy: Policy, s: Scene, ev: Event, world: World, intel: EventIntel)
    requires !(Relevant(policy, ev) && world.readOk && ev.param in s.values)
    ensures Comes(policy, s, ev, world, Dropped, intel, s)
  {
    hide OutcomeOf, SceneAfter;
  }
}
