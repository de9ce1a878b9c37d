/** One worker on its own (agent/worker.go, agent/remediation.go): `processEvent` over the real managers,
    as a passage through the pipeline. */
module Worker {
  import opened Series
  import opened SeriesCache
  import opened Evaluator
  import opened Pipeline
  import opened EventSpec
  import opened Escalation
  import Conflict
  import Cooldown
  import Engine
  import Reputation
  import RemediationRate
  import ClosedLoop

  // ----- one passage through the pipeline -----

  function Entry(ev: Event, world: World, intel: EventIntel): seq<Step> {
    [Tick(world.now), Work(0, Take(ev)), Work(0, ReadValue(world.readOk)), Work(0, Evaluate(intel))]
  }

  function Checks(world: World): seq<Step> {
    [Tick(world.recorded), Work(0, RecordDrift), Tick(world.cooldownAt), Work(0, CheckCooldown),
     Tick(world.conflictAt), Work(0, CheckConflict)]
  }

  function Remedy(world: World): seq<Step> {
    [Work(0, WriteValue(world.writeOk)), Work(0, Verify(world.verifyOk)), Tick(world.stamped),
     Work(0, RecordRemediation)]
  }

  function Closing(world: World): seq<Step> {
    [Tick(world.settled), Work(0, Settle)]
  }

  /** All steps of one event, in the order of the source; those its branches skip are not enabled. */
  function Passage(ev: Event, world: World, intel: EventIntel): seq<Step> {
    Entry(ev, world, intel) + Checks(world) + Remedy(world) + Closing(world)
  }

  lemma PassageParts(steps: seq<Step>, ev: Event, world: World, intel: EventIntel)
    ensures Passage(ev, world, intel)
         == [Tick(world.now), Work(0, Take(ev))] + [Work(0, ReadValue(world.readOk)), Work(0, Evaluate(intel))]
            + Checks(world) + Remedy(world) + Closing(world)
    ensures steps + Passage(ev, world, intel)
         == steps + [Tick(world.now), Work(0, Take(ev))] + [Work(0, ReadValue(world.readOk)), Work(0, Evaluate(intel))]
            + Checks(world) + Remedy(world) + Closing(world)
         == steps + [Tick(world.now), Work(0, Take(ev))] + [Work(0, ReadValue(world.readOk))]
            + [Work(0, Evaluate(intel))] + Checks(world) + Remedy(world) + Closing(world)
  {
    hide Checks, Remedy, Closing;
  }

  lemma Resume(world: World, clock: int)
    requires InOrder(world, clock)
    ensures clock <= world.now && InOrder(world, world.now)
  {
  }

  lemma SequentialOneMore(start: Start, steps: seq<Step>, step: Step)
    requires ClosedLoop.Sequential(start, steps)
    requires step.External? ==> |Run(start, steps, |steps|).workers| == 1 && Run(start, steps, |steps|).workers[0].Idle?
    ensures ClosedLoop.Sequential(start, steps + [step])
  {
    hide Run;
    forall i | 0 <= i <= |steps| ensures Run(start, steps + [step], i) == Run(start, steps, i) {
      RunOfPrefix(start, steps, [step], i);
    }
  }

  /** A step that finds a resting worker not ready for it. */
  predicate Idles(c: Pipeline.Worker, step: Step) {
    step.Tick? || (step.Work? && step.w == 0 && ((c.Idle? && !step.act.Take?) || (c.Settling? && !step.act.Settle?)))
  }

  lemma IdlesThrough(policy: Policy, c: Pipeline.Worker, sh: Shared, step: Step)
    requires Idles(c, step)
    ensures !step.External?
    ensures
      var s := Next(policy, State([c], sh), step);
      s.workers == [c] && s.shared == sh.(clock := if step.Tick? && step.now >= sh.clock then step.now else sh.clock)
  {
    hide Decide, DoRead, DoWrite, DoVerify, DoRecordDrift, DoCheckCooldown, DoCheckConflict, DoRecordRemediation;
  }

  lemma SoleStep(policy: Policy, c: Pipeline.Worker, sh: Shared, act: Act)
    requires Covered(policy, c)
    ensures Next(policy, State([c], sh), Work(0, act)) == var m := Do(policy, sh, 0, c, act);
            State([m.worker], m.shared)
  {
    hide Do;
  }

  /** What the conflict check does, by its answer. */
  lemma ConflictOutcome(policy: Policy, sh: Shared, c: Pipeline.Worker)
    requires c.Checking? && Covered(policy, c)
    ensures
      var m := DoCheckConflict(sh, c);
      var yes := Conflict.Conflicting(sh.events, c.ev.param, sh.clock, CONFLICT_WINDOW, CONFLICT_THRESHOLD);
      && Do(policy, sh, 0, c, CheckConflict) == m
      && m.shared == sh.(events := Conflict.Pruned(sh.events, c.ev.param, sh.clock - CONFLICT_WINDOW),
                         passes := m.shared.passes)
      && m.worker == (if c.action == Remediate && !yes then Writing(c.ev, c.clearance)
                      else Settling(Outcome(c.ev, true, if c.action == Remediate then Alert
                                            else c.action, c.cooled, yes)))
  {
    hide Conflict.Pruned, Conflict.Conflicting, Of;
  }

  lemma InitialOutcome(start: Start)
    requires start.workers == 1
    ensures Run(start, [], 0) == Initial(start) && ClosedLoop.Sequential(start, [])
    ensures
      var s := Initial(start);
      && s.workers == [Idle] && s.shared.events == map[] && s.shared.lastRemediated == map[]
         && s.shared.values == start.values
  {
  }

  lemma ExternalOutcome(policy: Policy, s: State, param: string, value: string)
    ensures
      var s' := Next(policy, s, External(param, value));
      && s'.workers == s.workers
      && s'.shared == s.shared.(values := s.shared.values[param := value], externalDrifts := s'.shared.externalDrifts)
  {
    hide Off;
  }

  /** The three steps of a remediation. */
  lemma WriteOutcome(policy: Policy, sh: Shared, c: Pipeline.Worker, ok: bool)
    requires c.Writing? && Covered(policy, c)
    ensures
      var done := ok && c.ev.param in sh.values;
      Do(policy, sh, 0, c, WriteValue(ok))
        == Moved(if done then Verifying(c.ev, c.clearance) else Failed(c.ev),
             sh.(values := if done then sh.values[c.ev.param := Expected(policy, c.ev.param)] else sh.values))
  {
    hide Decide, DoRead, DoVerify, DoRecordDrift, DoCheckCooldown, DoCheckConflict, DoRecordRemediation;
  }

  lemma VerifyOutcome(policy: Policy, sh: Shared, c: Pipeline.Worker, ok: bool)
    requires Covered(policy, c)
    requires (c.Verifying? && c.ev.param in sh.values && sh.values[c.ev.param] == Expected(policy, c.ev.param))
             || c.Settling?
    ensures Do(policy, sh, 0, c, Verify(ok))
              == Moved(if c.Settling? then c else if ok then Stamping(c.ev, c.clearance) else Failed(c.ev), sh)
  {
    hide Decide, DoRead, DoWrite, DoRecordDrift, DoCheckCooldown, DoCheckConflict, DoRecordRemediation;
  }

  lemma RecordOutcome(policy: Policy, sh: Shared, c: Pipeline.Worker)
    requires (c.Stamping? || c.Settling?) && Covered(policy, c)
    ensures
      var m := Do(policy, sh, 0, c, RecordRemediation);
      if c.Settling? then m == Moved(c, sh)
      else m.worker == Settling(Outcome(c.ev, true, Remediate, false, false))
           && m.shared == sh.(lastRemediated := sh.lastRemediated[c.ev.param := sh.clock], stamps := m.shared.stamps)
  {
    hide Decide, DoRead, DoWrite, DoVerify, DoRecordDrift, DoCheckCooldown, DoCheckConflict, Of;
  }

  // ----- the worker in place -----

  class WorkerContext {
    const policy: Policy
    const cooldowns: Cooldown.CooldownManager
    const conflicts: Conflict.ConflictManager
    const engine: Engine.Engine
    var values: map<string, string>        // the system's parameters
    ghost const start: Start
    ghost var steps: seq<Step>             // the pipeline run so far
    ghost var machine: State               // and the state it leads to

    constructor (policy: Policy, engine: Engine.Engine, values: map<string, string>, clock: int)
      requires engine.Valid()
      ensures Valid() && this.policy == policy && this.values == values && this.engine == engine
      ensures start == Start(policy, 1, values, clock) && steps == []
      ensures fresh(cooldowns) && fresh(conflicts)
    {
      hide *;
      engine.Allocated();
      this.policy, this.engine, this.values := policy, engine, values;
      cooldowns := new Cooldown.CooldownManager();
      conflicts := new Conflict.ConflictManager();
      start, steps := Start(policy, 1, values, clock), [];
      machine := Initial(Start(policy, 1, values, clock));
      new;
      InitialOutcome(start);
      SyncedIs();
      ReadyIs();
    }

    /** The machine is where the run so far leads, and has the one worker. */
    ghost predicate Ran()
      reads this`steps, this`machine
    {
      && start.policy == policy && ClosedLoop.Sequential(start, steps)
      && machine == Run(start, steps, |steps|) && |machine.workers| == 1
    }

    /** The managers and the system are as the machine says. */
    ghost predicate Synced()
      reads this, cooldowns, conflicts
    {
      && Ran() && |machine.workers| == 1
      && conflicts.events == machine.shared.events
      && cooldowns.lastRemediated == machine.shared.lastRemediated
      && values == machine.shared.values
    }

    ghost predicate Valid()
      reads this, cooldowns, conflicts, engine.processWrites, engine.paramDrifts, engine.remediations,
            engine.reputation, engine.Objects()
    {
      Synced() && machine.workers[0].Idle? && Ready()
    }

    /** The engine is usable and has nothing in common with the rest. */
    ghost predicate Ready()
      reads engine.processWrites, engine.paramDrifts, engine.remediations, engine.reputation, engine.Objects()
    {
      engine.Valid() && Clear()
    }

    ghost predicate Clear()
      reads engine.processWrites, engine.paramDrifts, engine.remediations, engine.reputation
    {
      this !in engine.Objects() && cooldowns !in engine.Objects() && conflicts !in engine.Objects()
    }

    lemma SyncedIs()
      ensures Synced() <==>
        && Ran() && |machine.workers| == 1
        && conflicts.events == machine.shared.events && cooldowns.lastRemediated == machine.shared.lastRemediated
        && values == machine.shared.values
      ensures Ran() <==>
              start.policy == policy && ClosedLoop.Sequential(start, steps)
              && machine == Run(start, steps, |steps|) && |machine.workers| == 1
    {
    }

    lemma ReadyIs()
      ensures Ready() <==>
              engine.Valid() && this !in engine.Objects() && cooldowns !in engine.Objects()
              && conflicts !in engine.Objects()
      ensures Valid() <==> Synced() && machine.workers[0].Idle? && Ready()
      ensures forall o :: o in engine.Objects() ==> allocated(o)
    {
      engine.Allocated();
    }

    ghost function Seen(): Scene
      reads this`values, cooldowns, conflicts
    {
      Scene(conflicts.events, cooldowns.lastRemediated, values)
    }

    // ----- ghost steps -----

    ghost method Extend(step: Step)
      requires Ran() && (step.External? ==> machine.workers[0].Idle?)
      modifies this`steps, this`machine
      ensures machine == Next(policy, old(machine), step) && steps == old(steps) + [step]
      ensures machine == Run(start, steps, |steps|) && ClosedLoop.Sequential(start, steps)
    {
      hide Next, Run, ClosedLoop.Sequential;
      RunOneMore(start, steps, step);
      SequentialOneMore(start, steps, step);
      machine := Next(policy, machine, step);
      steps := steps + [step];
    }

    ghost method At(now: int)
      requires Ran() && now >= machine.shared.clock
      modifies this`steps, this`machine
      ensures Ran() && steps == old(steps) + [Tick(now)]
      ensures machine == State(old(machine).workers, old(machine).shared.(clock := now))
    {
      hide Run;
      Extend(Tick(now));
    }

    ghost method Go(act: Act)
      requires Ran() && Covered(policy, machine.workers[0])
      modifies this`steps, this`machine
      ensures Ran() && steps == old(steps) + [Work(0, act)]
      ensures var m := Do(policy, old(machine).shared, 0, old(machine).workers[0], act);
              machine == State([m.worker], m.shared)
    {
      hide Run, Do, Next;
      assert machine == State([machine.workers[0]], machine.shared);
      SoleStep(policy, machine.workers[0], machine.shared, act);
      Extend(Work(0, act));
    }

    /** The worker rests through steps it is not ready for. */
    ghost method Rest(more: seq<Step>, until: int)
      requires Ran() && machine.shared.clock <= until
      requires forall i :: 0 <= i < |more| ==>
                 Idles(machine.workers[0], more[i]) && (more[i].Tick? ==> more[i].now <= until)
      modifies this`steps, this`machine
      ensures Ran() && steps == old(steps) + more
      ensures machine == State(old(machine).workers, old(machine).shared.(clock := machine.shared.clock))
      ensures machine.shared.clock <= until
    {
      hide Run, Next, Idles;
      for k := 0 to |more|
        invariant Ran() && steps == old(steps) + more[..k]
        invariant machine == State(old(machine).workers, old(machine).shared.(clock := machine.shared.clock))
        invariant machine.shared.clock <= until
      {
        assert machine == State([machine.workers[0]], machine.shared);
        IdlesThrough(policy, machine.workers[0], machine.shared, more[k]);
        Extend(more[k]);
        assert more[..k + 1] == more[..k] + [more[k]];
      }
      assert more[..|more|] == more;
    }

    // ----- the pipeline of one event -----

    /** The current value of a parameter, if it can be read. */
    method ReadSysctlValue(param: string, ok: bool) returns (found: bool, actual: string)
      ensures found <==> ok && param in values
      ensures found ==> actual == values[param]
    {
      if ok && param in values {
        return true, values[param];
      }
      return false, "";
    }

    /** Restores the expected value and reads it back. */
    method ApplyRemediation(param: string, expected: string, writeOk: bool, verifyOk: bool) returns (ok: bool)
      modifies this`values
      ensures values == if writeOk && param in old(values) then old(values)[param := expected] else old(values)
      ensures ok <==> writeOk && verifyOk && param in old(values)
    {
      if !writeOk || param !in values {
        return false;
      }
      values := values[param := expected];
      var found, actual := ReadSysctlValue(param, verifyOk);
      return found && actual == expected;
    }

    method TrackDrift(ev: Event, decided: Action, now: int)
      requires Synced() && machine.workers == [Recording(ev, decided)] && Relevant(policy, ev)
      requires machine.shared.clock <= now
      modifies this`steps, this`machine, conflicts
      ensures Synced() && steps == old(steps) + [Tick(now), Work(0, RecordDrift)]
      ensures machine.shared.clock == now && machine.shared.outcomes == old(machine).shared.outcomes
      ensures CoolsNext(machine.workers[0], ev, decided)
      ensures conflicts.events == Conflict.Recorded(old(conflicts.events), ev.param, now)
    {
      hide Run, Conflict.Recorded;
      At(now);
      conflicts.Record(ev.param, now);
      Go(RecordDrift);
    }

    /** A worker that has recorded the drift: to be cooled down if it is to remediate. */
    static ghost predicate CoolsNext(c: Pipeline.Worker, ev: Event, decided: Action) {
      if decided == Remediate then c.Cooling? && c.ev == ev
      else c.Checking? && c.ev == ev && c.action == decided && !c.cooled
    }

    /** A remediation that comes too soon after the last one becomes an alert. */
    method ApplyCooldown(ev: Event, decided: Action, now: int) returns (action: Action, cooldownApplied: bool)
      requires Synced() && Relevant(policy, ev) && machine.shared.clock <= now
      requires CoolsNext(machine.workers[0], ev, decided)
      modifies this`steps, this`machine
      ensures Synced() && steps == old(steps) + [Tick(now), Work(0, CheckCooldown)]
      ensures machine.shared.clock == now && machine.shared.outcomes == old(machine).shared.outcomes
      ensures var c := machine.workers[0];
              c.Checking? && c.ev == ev && c.action == action && c.cooled == cooldownApplied
      ensures cooldownApplied <==>
        decided == Remediate
        && Cooldown.Cooling(cooldowns.lastRemediated, ev.param, now,
             if policy.sysctl[ev.param].cooldown != 0 then policy.sysctl[ev.param].cooldown
             else policy.global.defaultCooldown)
      ensures action == if cooldownApplied then Alert else decided
    {
      hide Run, Cooldown.Cooling;
      action, cooldownApplied := decided, false;
      At(now);
      if action == Remediate {
        var cooldown := policy.sysctl[ev.param].cooldown;
        if cooldown == 0 {
          cooldown := policy.global.defaultCooldown;
        }
        var cooling := cooldowns.InCooldown(ev.param, now, cooldown);
        if cooling {
          action, cooldownApplied := Alert, true;
        }
      }
      Go(CheckCooldown);
    }

    ghost method GoCheck(now: int)
      requires Ran() && |machine.workers| == 1 && machine.shared.clock <= now
      requires machine.workers[0].Checking? && Covered(policy, machine.workers[0])
      modifies this`steps, this`machine
      ensures Ran() && |machine.workers| == 1 && steps == old(steps) + [Tick(now), Work(0, CheckConflict)]
      ensures
        var c, sh := old(machine).workers[0], old(machine).shared;
        var yes := Conflict.Conflicting(sh.events, c.ev.param, now, CONFLICT_WINDOW, CONFLICT_THRESHOLD);
        && machine.workers[0] == (if c.action == Remediate && !yes then Writing(c.ev, c.clearance)
             else Settling(Outcome(c.ev, true, if c.action == Remediate then Alert else c.action, c.cooled, yes)))
        && machine.shared == sh.(clock := now, events := Conflict.Pruned(sh.events, c.ev.param, now - CONFLICT_WINDOW),
                                 passes := machine.shared.passes)
    {
      hide Run, Ran, Do, DoCheckConflict, Conflict.Pruned, Conflict.Conflicting, Covered;
      At(now);
      ConflictOutcome(policy, machine.shared, machine.workers[0]);
      Go(CheckConflict);
    }

    /** A remediation of a parameter in conflict becomes an alert. */
    method ApplyConflict(ev: Event, decided: Action, cooldownApplied: bool, now: int)
      returns (action: Action, conflictDetected: bool)
      requires Synced() && Relevant(policy, ev) && machine.shared.clock <= now
      requires var c := machine.workers[0];
               c.Checking? && c.ev == ev && c.action == decided && c.cooled == cooldownApplied
      modifies this`steps, this`machine, conflicts
      ensures Synced() && steps == old(steps) + [Tick(now), Work(0, CheckConflict)]
      ensures machine.shared.clock == now && machine.shared.outcomes == old(machine).shared.outcomes
      ensures conflictDetected <==> Conflict.Conflicting(old(conflicts.events), ev.param, now, 10_000_000_000, 3)
      ensures conflicts.events == Conflict.Pruned(old(conflicts.events), ev.param, now - 10_000_000_000)
      ensures action == if conflictDetected && decided == Remediate then Alert else decided
      ensures action == Remediate ==> machine.workers[0].Writing? && machine.workers[0].ev == ev
      ensures action != Remediate
              ==> machine.workers[0] == Settling(Outcome(ev, true, action, cooldownApplied, conflictDetected))
    {
      hide Run, Ran, Conflict.Pruned, Conflict.Conflicting;
      GoCheck(now);
      conflictDetected := conflicts.IsConflicting(ev.param, now, CONFLICT_WINDOW, CONFLICT_THRESHOLD);
      action := decided;
      if conflictDetected && action == Remediate {
        action := Alert;
      }
    }

    /** Restores the parameter and, if that succeeded, starts its cooldown. */
    method Restore(ev: Event, world: World) returns (succeeded: bool)
      requires Synced() && Relevant(policy, ev) && machine.shared.clock <= world.stamped
      requires machine.workers[0].Writing? && machine.workers[0].ev == ev
      modifies this`steps, this`machine, this`values, cooldowns
      ensures Synced() && steps == old(steps) + Remedy(world)
      ensures machine.shared.outcomes == old(machine).shared.outcomes && machine.shared.clock == world.stamped
      ensures machine.workers == [Settling(Outcome(ev, true, if succeeded then Remediate else Alert, false, false))]
      ensures succeeded <==> world.writeOk && world.verifyOk && ev.param in old(values)
      ensures values == if world.writeOk && ev.param in old(values)
                        then old(values)[ev.param := Expected(policy, ev.param)] else old(values)
      ensures cooldowns.lastRemediated
           == if succeeded then old(cooldowns.lastRemediated)[ev.param := world.stamped]
              else old(cooldowns.lastRemediated)
    {
      hide Run, Do;
      succeeded := ApplyRemediation(ev.param, policy.sysctl[ev.param].expected, world.writeOk, world.verifyOk);
      WriteOutcome(policy, machine.shared, machine.workers[0], world.writeOk);
      Go(WriteValue(world.writeOk));
      VerifyOutcome(policy, machine.shared, machine.workers[0], world.verifyOk);
      Go(Verify(world.verifyOk));
      At(world.stamped);
      RecordOutcome(policy, machine.shared, machine.workers[0]);
      if succeeded {
        cooldowns.Record(ev.param, world.stamped);
      }
      Go(RecordRemediation);
    }

    method Decide(ev: Event, intel: EventIntel) returns (action: Action)
      requires Synced() && Relevant(policy, ev) && machine.workers[0] == Deciding(ev)
      modifies this`steps, this`machine
      ensures Synced() && steps == old(steps) + [Work(0, Evaluate(intel))]
      ensures machine == State([Recording(ev, action)], old(machine).shared)
      ensures action == Pipeline.Decide(policy, ev, intel)
    {
      hide Run, EvaluateDecision, DoRead, DoWrite, DoVerify, DoRecordDrift, DoCheckCooldown, DoCheckConflict,
        DoRecordRemediation;
      var entry := policy.sysctl[ev.param];
      var ctx := Context(entry.category, entry.criticality, ev.trusted, ev.allowed, true, intel);
      var decision := EvaluateDecision(ctx, entry, policy.global);
      action := decision.action;
      Go(Evaluate(intel));
    }

    /** Carries out what the layers have left of the decision. */
    method Execute(ev: Event, action: Action, cooldownApplied: bool, conflictDetected: bool, world: World)
      returns (outcome: Outcome)
      requires Synced() && Relevant(policy, ev) && machine.shared.clock <= world.stamped
      requires if action == Remediate then machine.workers[0].Writing? && machine.workers[0].ev == ev
               else machine.workers[0] == Settling(Outcome(ev, true, action, cooldownApplied, conflictDetected))
      modifies this`steps, this`machine, this`values, cooldowns
      ensures Synced() && steps == old(steps) + Remedy(world)
      ensures machine.shared.outcomes == old(machine).shared.outcomes && machine.shared.clock <= world.stamped
      ensures machine.workers[0] == Settling(outcome)
      ensures
        var succeeded := action == Remediate && world.writeOk && world.verifyOk && ev.param in old(values);
        && outcome == (if action == Remediate
                       then Outcome(ev, true, if succeeded then Remediate else Alert, false, false)
                       else Outcome(ev, true, action, cooldownApplied, conflictDetected))
        && values == (if action == Remediate && world.writeOk && ev.param in old(values)
                      then old(values)[ev.param := Expected(policy, ev.param)] else old(values))
        && cooldowns.lastRemediated
           == (if succeeded then old(cooldowns.lastRemediated)[ev.param := world.stamped]
               else old(cooldowns.lastRemediated))
    {
      hide Run;
      if action == Remediate {
        var succeeded := Restore(ev, world);
        outcome := Outcome(ev, true, if succeeded then Remediate else Alert, false, false);
      } else {
        outcome := Outcome(ev, true, action, cooldownApplied, conflictDetected);
        Rest(Remedy(world), world.stamped);
      }
    }

    /** The outcome has been reported. */
    ghost method Close(outcome: Outcome, world: World)
      requires Synced() && machine.workers[0] == Settling(outcome) && machine.shared.clock <= world.settled
      modifies this`steps, this`machine
      ensures Synced() && steps == old(steps) + Closing(world) && machine.workers[0].Idle?
      ensures machine.shared.outcomes == old(machine).shared.outcomes + [outcome]
    {
      hide Run, DoRead, DoWrite, DoVerify, DoRecordDrift, DoCheckCooldown, DoCheckConflict, DoRecordRemediation,
        Pipeline.Decide;
      At(world.settled);
      Go(Settle);
    }

    /** The drift is logged, and the layers after the decision have their say. */
    method Overrule(ev: Event, decided: Action, world: World)
      returns (action: Action, cooldownApplied: bool, conflictDetected: bool)
      requires Synced() && Relevant(policy, ev) && InOrder(world, machine.shared.clock)
      requires machine.workers == [Recording(ev, decided)]
      modifies this`steps, this`machine, conflicts
      ensures Synced() && steps == old(steps) + Checks(world)
      ensures machine.shared.clock == world.conflictAt && machine.shared.outcomes == old(machine).shared.outcomes
      ensures cooldownApplied <==>
        decided == Remediate
        && Cooldown.Cooling(cooldowns.lastRemediated, ev.param, world.cooldownAt, CooldownOf(policy, ev.param))
      ensures
        var events := Conflict.Recorded(old(conflicts.events), ev.param, world.recorded);
        && conflicts.events == Conflict.Pruned(events, ev.param, world.conflictAt - CONFLICT_WINDOW)
        && (conflictDetected <==>
              Conflict.Conflicting(events, ev.param, world.conflictAt, CONFLICT_WINDOW, CONFLICT_THRESHOLD))
      ensures action == if cooldownApplied || (conflictDetected && decided == Remediate) then Alert else decided
      ensures if action == Remediate then machine.workers[0].Writing? && machine.workers[0].ev == ev
              else machine.workers[0] == Settling(Outcome(ev, true, action, cooldownApplied, conflictDetected))
    {
      hide Run, Ran, CooldownOf, Conflict.Recorded, Conflict.Pruned, Conflict.Conflicting, Cooldown.Cooling;
      CooldownIs(policy, ev.param);
      TrackDrift(ev, decided, world.recorded);
      var cooled, applied := ApplyCooldown(ev, decided, world.cooldownAt);
      cooldownApplied := applied;
      action, conflictDetected := ApplyConflict(ev, cooled, applied, world.conflictAt);
    }

    /** A drift with its intelligence: the decision, the layers that may overrule it, and the action. */
    method Respond(ev: Event, intel: EventIntel, world: World) returns (outcome: Outcome)
      requires Synced() && Relevant(policy, ev) && InOrder(world, machine.shared.clock)
      requires machine.workers[0] == Deciding(ev) && ev.param in values
      modifies this`steps, this`machine, this`values, cooldowns, conflicts
      ensures Synced() && machine.workers[0].Idle?
      ensures steps == old(steps) + [Work(0, Evaluate(intel))] + Checks(world) + Remedy(world) + Closing(world)
      ensures machine.shared.outcomes == old(machine).shared.outcomes + [outcome]
      ensures outcome == OutcomeOf(policy, old(Seen()), ev, intel, world)
      ensures Seen() == SceneAfter(policy, old(Seen()), ev, intel, world)
    {
      hide Run, Checks, Remedy, Closing, Pipeline.Decide, CooldownOf, Conflict.Recorded, Conflict.Pruned,
        Conflict.Conflicting, Cooldown.Cooling;
      var decided := Decide(ev, intel);
      var action, cooldownApplied, conflictDetected := Overrule(ev, decided, world);
      outcome := Execute(ev, action, cooldownApplied, conflictDetected, world);
      Close(outcome, world);
    }

    /** What the statistics learn and say about a drift, around the response to it. */
    method ProcessDrift(ev: Event, processWrite: RateMetrics, reputation: real, world: World)
        returns (outcome: Outcome, ghost intel: EventIntel)
      requires Synced() && Ready() && Relevant(policy, ev) && InOrder(world, machine.shared.clock)
      requires machine.workers[0] == Deciding(ev) && ev.param in values
      modifies this`steps, this`machine, this`values, cooldowns, conflicts, engine.Objects()
      ensures Valid() && fresh(engine.Objects() - old(engine.Objects()))
      ensures steps == old(steps) + [Work(0, Evaluate(intel))] + Checks(world) + Remedy(world) + Closing(world)
      ensures machine.shared.outcomes == old(machine).shared.outcomes + [outcome]
      ensures outcome == OutcomeOf(policy, old(Seen()), ev, intel, world)
      ensures Seen() == SceneAfter(policy, old(Seen()), ev, intel, world)
      ensures intel.processWrite == processWrite && intel.reputation == reputation
      ensures DriftLearned(engine.Settings(), old(engine.Abstract()), ev, world, outcome, intel, engine.Abstract())
    {
      hide *;
      ReadyIs();
      engine.SettingsAreSound();
      var paramDrift := engine.ObserveParamDrift(ev.param, world.now);
      ReadyIs();
      ghost var seen := engine.Abstract();
      var collected := Engine.Intel(processWrite, paramDrift, reputation);
      intel := collected;
      Engine.IntelKeeps(processWrite, paramDrift, reputation);
      outcome := Respond(ev, collected, world);
      ghost var fed := engine.Conclude(ev.process, outcome.action == Remediate, world.observed, world.settled,
        UpdateFor(outcome, collected.severity, collected.burst.severity));
      ReadyIs();
      DriftIsCharged(policy, old(Seen()), ev, intel, world);
      DriftLearnedBy(engine.Settings(), old(engine.Abstract()), ev, world, outcome, intel, seen, fed,
                     engine.Abstract());
      ReadyIs();
    }

    ghost method Enter(ev: Event, now: int)
      requires Synced() && machine.workers[0].Idle? && machine.shared.clock <= now
      modifies this`steps, this`machine
      ensures Synced() && steps == old(steps) + [Tick(now), Work(0, Take(ev))]
      ensures machine == State([if Relevant(policy, ev) then Reading(ev) else Idle], old(machine).shared.(clock := now))
    {
      hide Run, Pipeline.Decide, DoRead, DoWrite, DoVerify, DoRecordDrift, DoCheckCooldown, DoCheckConflict,
        DoRecordRemediation;
      At(now);
      Go(Take(ev));
    }

    /** Looks for a drift. */
    method Look(ev: Event, ok: bool) returns (found: bool, drifted: bool)
      requires Synced() && Relevant(policy, ev) && machine.workers[0] == Reading(ev)
      modifies this`steps, this`machine
      ensures Synced() && steps == old(steps) + [Work(0, ReadValue(ok))]
      ensures found <==> ok && ev.param in values
      ensures found ==> (drifted <==> Off(policy, values, ev.param))
      ensures machine == State([if !found then Idle
                                else if !drifted then Settling(Outcome(ev, false, Allow, false, false))
                                else Deciding(ev)], old(machine).shared)
    {
      hide Run, Pipeline.Decide, DoWrite, DoVerify, DoRecordDrift, DoCheckCooldown, DoCheckConflict,
        DoRecordRemediation;
      var actual;
      found, actual := ReadSysctlValue(ev.param, ok);
      drifted := actual != policy.sysctl[ev.param].expected;
      Go(ReadValue(ok));
    }

    /** The steps that an event dropped at once does not take. */
    ghost method SkipAll(world: World, intel: EventIntel)
      requires Synced() && machine.workers[0].Idle? && InOrder(world, machine.shared.clock)
      modifies this`steps, this`machine
      ensures Synced()
      ensures steps == old(steps) + [Work(0, ReadValue(world.readOk)), Work(0, Evaluate(intel))]
                       + Checks(world) + Remedy(world) + Closing(world)
      ensures machine.workers == old(machine).workers && machine.shared.outcomes == old(machine).shared.outcomes
    {
      hide Run;
      Rest([Work(0, ReadValue(world.readOk)), Work(0, Evaluate(intel))] + Checks(world) + Remedy(world)
           + Closing(world), world.settled);
    }

    /** The steps that an unreadable parameter leaves out. */
    ghost method SkipRest(world: World, intel: EventIntel)
      requires Synced() && machine.workers[0].Idle? && InOrder(world, machine.shared.clock)
      modifies this`steps, this`machine
      ensures Synced()
      ensures steps == old(steps) + [Work(0, Evaluate(intel))] + Checks(world) + Remedy(world) + Closing(world)
      ensures machine.workers == old(machine).workers && machine.shared.outcomes == old(machine).shared.outcomes
    {
      hide Run;
      Rest([Work(0, Evaluate(intel))] + Checks(world) + Remedy(world) + Closing(world), world.settled);
    }

    /** The steps of an event that drifted nothing. */
    ghost method Spare(outcome: Outcome, world: World, intel: EventIntel)
      requires Synced() && machine.workers[0] == Settling(outcome) && InOrder(world, machine.shared.clock)
      modifies this`steps, this`machine
      ensures Synced() && machine.workers[0].Idle?
      ensures steps == old(steps) + [Work(0, Evaluate(intel))] + Checks(world) + Remedy(world) + Closing(world)
      ensures machine.shared.outcomes == old(machine).shared.outcomes + [outcome]
    {
      hide Run, Closing;
      Rest([Work(0, Evaluate(intel))] + Checks(world) + Remedy(world), world.stamped);
      Close(outcome, world);
    }

    method Concerns(ev: Event) returns (r: bool)
      ensures r <==> Relevant(policy, ev)
    {
      if ev.own {
        return false;
      }
      if ev.access != "WRITE" {
        return false;
      }
      if ev.param == "" {
        return false;
      }
      return ev.param in policy.sysctl;
    }

    /** The whole pipeline of one event. The run is extended by exactly one passage, so that the worker
        ends where the machine does; and the statistics are fed and asked as the outcome requires. */
    method ProcessEvent(ev: Event, world: World) returns (verdict: Verdict, ghost intel: EventIntel)
      requires Valid() && InOrder(world, machine.shared.clock)
      modifies this`steps, this`machine, this`values, cooldowns, conflicts, engine.Objects()
      ensures Valid() && fresh(engine.Objects() - old(engine.Objects()))
      ensures steps == old(steps) + Passage(ev, world, intel)
      ensures machine.shared.outcomes
              == old(machine).shared.outcomes + if verdict.Charged? then [verdict.outcome] else []
      ensures Comes(policy, old(Seen()), ev, world, verdict, intel, Seen())
      ensures 0.0 <= intel.reputation <= engine.cfg.reputation.maxScore || verdict.Dropped?
      ensures verdict.Charged? && verdict.outcome.wasDrift && !CanWeaken(engine.Settings())
              ==> Escalates(policy, ev, intel)
      ensures Learned(policy, engine.Settings(), old(engine.Abstract()), ev, world, verdict, intel, engine.Abstract())
    {
      hide *;
      ReadyIs();
      engine.Facts();
      ghost var k := engine.Abstract();
      ghost var unheard := Engine.Intel(NO_METRICS, NO_METRICS, 0.0);
      var admitted := Admit(ev, world, unheard);
      if admitted {
        verdict, intel := ProcessRelevant(ev, world);
        PassageParts(old(steps), ev, world, intel);
        if verdict.Charged? && verdict.outcome.wasDrift && !CanWeaken(engine.Settings()) {
          ReadyIs();
          LearnedEscalates(policy, engine.Settings(), k, ev, world, verdict.outcome, intel, engine.Abstract());
        }
      } else {
        ReadyIs();
        verdict, intel := Dropped, unheard;
        DropComes(policy, old(Seen()), ev, world, intel);
        NothingLearned(policy, engine.Settings(), engine.Abstract(), ev, world, intel);
      }
      ReadyIs();
    }

    /** Takes the event, or lets it pass if it does not concern the policy. */
    method Admit(ev: Event, world: World, ghost unheard: EventIntel) returns (admitted: bool)
      requires Synced() && machine.workers[0].Idle? && InOrder(world, machine.shared.clock)
      modifies this`steps, this`machine
      ensures Synced() && (admitted <==> Relevant(policy, ev))
      ensures machine.shared.outcomes == old(machine).shared.outcomes
      ensures admitted ==> machine.workers[0] == Reading(ev) && InOrder(world, machine.shared.clock)
                           && steps == old(steps) + [Tick(world.now), Work(0, Take(ev))]
      ensures !admitted ==> machine.workers[0].Idle? && steps == old(steps) + Passage(ev, world, unheard)
    {
      hide *;
      Resume(world, machine.shared.clock);
      Enter(ev, world.now);
      admitted := Concerns(ev);
      if !admitted {
        SkipAll(world, unheard);
        PassageParts(old(steps), ev, world, unheard);
      }
    }

    method ProcessRelevant(ev: Event, world: World) returns (verdict: Verdict, ghost intel: EventIntel)
      requires Synced() && Ready() && Relevant(policy, ev) && InOrder(world, machine.shared.clock)
      requires machine.workers[0] == Reading(ev)
      modifies this`steps, this`machine, this`values, cooldowns, conflicts, engine.Objects()
      ensures Valid() && fresh(engine.Objects() - old(engine.Objects()))
      ensures steps == old(steps) + [Work(0, ReadValue(world.readOk))] + [Work(0, Evaluate(intel))]
                       + Checks(world) + Remedy(world) + Closing(world)
      ensures machine.shared.outcomes
              == old(machine).shared.outcomes + if verdict.Charged? then [verdict.outcome] else []
      ensures Comes(policy, old(Seen()), ev, world, verdict, intel, Seen())
      ensures 0.0 <= intel.reputation <= engine.cfg.reputation.maxScore
      ensures Learned(policy, engine.Settings(), old(engine.Abstract()), ev, world, verdict, intel, engine.Abstract())
    {
      hide *;
      ReadyIs();
      engine.SettingsAreSound();
      ghost var k := engine.Abstract();
      ghost var written;
      var processWrite, score;
      processWrite, score, written := engine.Consult(ev.process, world.now);
      ReadyIs();
      ghost var asked := engine.Abstract();
      verdict, intel := Handle(ev, processWrite, score, world);
      ReadyIs();
      LearnedBy(policy, engine.Settings(), k, ev, world, verdict, intel, written, asked, engine.Abstract());
      ReadyIs();
    }

    /** Reads the parameter, and charges a drift, or its absence, to the process. */
    method Handle(ev: Event, processWrite: RateMetrics, reputation: real, world: World)
      returns (verdict: Verdict, ghost intel: EventIntel)
      requires Synced() && Ready() && Relevant(policy, ev) && InOrder(world, machine.shared.clock)
      requires machine.workers[0] == Reading(ev)
      modifies this`steps, this`machine, this`values, cooldowns, conflicts, engine.Objects()
      ensures Valid() && fresh(engine.Objects() - old(engine.Objects()))
      ensures steps == old(steps) + [Work(0, ReadValue(world.readOk))] + [Work(0, Evaluate(intel))]
                       + Checks(world) + Remedy(world) + Closing(world)
      ensures machine.shared.outcomes
              == old(machine).shared.outcomes + if verdict.Charged? then [verdict.outcome] else []
      ensures Comes(policy, old(Seen()), ev, world, verdict, intel, Seen())
      ensures intel.processWrite == processWrite && intel.reputation == reputation
      ensures Concluded(engine.Settings(), old(engine.Abstract()), ev, world, verdict, intel, engine.Abstract())
    {
      hide *;
      ReadyIs();
      Scenery();
      engine.SettingsAreSound();
      intel := Engine.Intel(processWrite, NO_METRICS, reputation);
      Engine.IntelKeeps(processWrite, NO_METRICS, reputation);
      var found, drifted := Look(ev, world.readOk);
      if found {
        var outcome;
        outcome, intel := Report(ev, drifted, processWrite, reputation, world, intel);
        ChargeComes(policy, old(Seen()), ev, world, outcome, intel, Seen(), drifted);
        verdict := Charged(outcome);
      } else {
        verdict := GiveUp(ev, world, intel);
      }
      ReadyIs();
    }

    /** The parameter could not be read. */
    method GiveUp(ev: Event, world: World, ghost intel: EventIntel) returns (verdict: Verdict)
      requires Synced() && machine.workers[0].Idle? && Ready() && InOrder(world, machine.shared.clock)
      requires !(world.readOk && ev.param in values)
      modifies this`steps, this`machine
      ensures Valid() && verdict == Dropped
      ensures steps == old(steps) + [Work(0, Evaluate(intel))] + Checks(world) + Remedy(world) + Closing(world)
      ensures machine.shared.outcomes == old(machine).shared.outcomes
      ensures Comes(policy, old(Seen()), ev, world, Dropped, intel, Seen())
      ensures Concluded(engine.Settings(), old(engine.Abstract()), ev, world, Dropped, intel, engine.Abstract())
    {
      hide *;
      ReadyIs();
      Scenery();
      SkipRest(world, intel);
      DroppedConcludes(engine.Settings(), engine.Abstract(), ev, world, intel);
      DropComes(policy, Seen(), ev, world, intel);
      ReadyIs();
      verdict := Dropped;
    }

    method Report(ev: Event, drifted: bool, processWrite: RateMetrics, reputation: real, world: World,
                  ghost unheard: EventIntel)
        returns (outcome: Outcome, ghost intel: EventIntel)
      requires Synced() && Ready() && Relevant(policy, ev) && InOrder(world, machine.shared.clock)
      requires machine.workers[0] == if drifted then Deciding(ev) else Settling(Outcome(ev, false, Allow, false, false))
      requires ev.param in values
      requires unheard.processWrite == processWrite && unheard.reputation == reputation
      modifies this`steps, this`machine, this`values, cooldowns, conflicts, engine.Objects()
      ensures Valid() && fresh(engine.Objects() - old(engine.Objects()))
      ensures steps == old(steps) + [Work(0, Evaluate(intel))] + Checks(world) + Remedy(world) + Closing(world)
      ensures machine.shared.outcomes == old(machine).shared.outcomes + [outcome]
      ensures drifted ==>
                outcome == OutcomeOf(policy, old(Seen()), ev, intel, world)
                && Seen() == SceneAfter(policy, old(Seen()), ev, intel, world)
      ensures !drifted ==> outcome == Outcome(ev, false, Allow, false, false) && Seen() == old(Seen())
      ensures intel.processWrite == processWrite && intel.reputation == reputation
      ensures Concluded(engine.Settings(), old(engine.Abstract()), ev, world, Charged(outcome), intel,
                        engine.Abstract())
    {
      hide *;
      ReadyIs();
      engine.SettingsAreSound();
      if drifted {
        outcome, intel := ProcessDrift(ev, processWrite, reputation, world);
        ReadyIs();
        DriftIsCharged(policy, old(Seen()), ev, intel, world);
        DriftConcludes(engine.Settings(), old(engine.Abstract()), ev, world, outcome, intel, engine.Abstract());
      } else {
        intel := unheard;
        outcome := ReportClean(ev, processWrite, world, intel);
        ReadyIs();
        SparedConcludes(engine.Settings(), old(engine.Abstract()), ev, world, outcome, intel, engine.Abstract());
      }
      ReadyIs();
    }

    /** A write that left the parameter as expected. */
    method ReportClean(ev: Event, processWrite: RateMetrics, world: World, ghost intel: EventIntel)
      returns (outcome: Outcome)
      requires Synced() && Ready() && InOrder(world, machine.shared.clock)
      requires machine.workers[0] == Settling(Outcome(ev, false, Allow, false, false))
      modifies this`steps, this`machine, engine.Objects()
      ensures Valid() && fresh(engine.Objects() - old(engine.Objects()))
      ensures steps == old(steps) + [Work(0, Evaluate(intel))] + Checks(world) + Remedy(world) + Closing(world)
      ensures machine.shared.outcomes == old(machine).shared.outcomes + [outcome]
              && outcome == Outcome(ev, false, Allow, false, false)
      ensures Engine.ReputationUpdated(engine.Settings(), old(engine.Abstract()), ev.process, world.now,
                UpdateFor(outcome, processWrite.anomaly.severity, processWrite.burst.severity), engine.Abstract())
    {
      hide *;
      ReadyIs();
      outcome := Outcome(ev, false, Allow, false, false);
      Spare(outcome, world, intel);
      var _ := engine.UpdateReputation(ev.process, world.now,
        UpdateFor(outcome, processWrite.anomaly.severity, processWrite.burst.severity));
      ReadyIs();
    }

    /** Somebody else sets a parameter. */
    method WriteFromOutside(param: string, value: string)
      requires Valid()
      modifies this`steps, this`machine, this`values
      ensures Valid() && values == old(values)[param := value]
      ensures steps == old(steps) + [External(param, value)]
      ensures engine.Abstract() == old(engine.Abstract())
    {
      hide *;
      ReadyIs();
      SyncedIs();
      values := values[param := value];
      ExternalOutcome(policy, machine, param, value);
      Extend(External(param, value));
      SyncedIs();
      ReadyIs();
    }

    /** What the runs of the pipeline guarantee holds of this worker at any time: no more remediations of a
        parameter within an interval than cooldowns begin in it; no more than outside writes have left it
        off its expected value, and one if it started off; and such a write strictly between any two. */
    lemma Guarantees(p: string, t: int, length: nat, chosen: set<nat>)
      requires Valid() && p in policy.sysctl
      requires
        var stamps := Of(machine.shared.stamps, p);
        forall i :: i in chosen ==> i < |stamps| && t <= stamps[i].time <= t + length
      ensures policy.sysctl[p].cooldown > 0 ==> |chosen| <= length / policy.sysctl[p].cooldown + 1
      ensures policy.sysctl[p].cooldown == 0 && policy.global.defaultCooldown > 0 ==>
                |chosen| <= length / policy.global.defaultCooldown + 1
      ensures |Of(machine.shared.stamps, p)|
              <= ExternalDrifts(machine.shared, p) + if Off(policy, start.values, p) then 1 else 0
      ensures
        forall a: nat, b: nat ::
          a < b < |steps| && ClosedLoop.Remediates(start, steps, a, p, 0)
            && ClosedLoop.Remediates(start, steps, b, p, 0)
          ==> exists i :: a < i < b && ClosedLoop.LeavesOff(start, steps, i, p)
    {
      hide Run, CooldownOf, Off, ExternalDrifts, ClosedLoop.Remediates, ClosedLoop.LeavesOff;
      RemediationRate.RemediationRate(start, steps, |steps|, p, t, length, chosen);
      ClosedLoop.RemediationsSinceStart(start, steps, |steps|, p);
      forall a: nat, b: nat | a < b < |steps| && ClosedLoop.Remediates(start, steps, a, p, 0)
        && ClosedLoop.Remediates(start, steps, b, p, 0)
        ensures exists i :: a < i < b && ClosedLoop.LeavesOff(start, steps, i, p)
      {
        ClosedLoop.SequentialDriftBetween(start, steps, a, b, p);
      }
    }

    lemma Scenery()
      ensures Seen() == Scene(conflicts.events, cooldowns.lastRemediated, values)
    {
    }
  }

  /** The worker of a pool of one, with managers of its own. */
  method StartWorker(policy: Policy, config: Engine.Config, values: map<string, string>, clock: int,
                     root: real -> real, fraction: real) returns (ctx: WorkerContext)
    requires Reputation.Fraction(fraction)
    ensures fresh(ctx) && ctx.Valid() && ctx.policy == policy && ctx.values == values
    ensures ctx.start == Start(policy, 1, values, clock) && ctx.steps == []
    ensures ctx.engine.cfg == Engine.WithDefaults(config) && Engine.ConfiguredBy(ctx.engine.Settings(), config)
    ensures ctx.engine.Abstract() == Engine.Knowledge(EMPTY, EMPTY, EMPTY, map[], 0)
  {
    hide *;
    var engine := Engine.NewEngine(config, root, fraction);
    engine.Allocated();
    ctx := new WorkerContext(policy, engine, values, clock);
    ctx.ReadyIs();
  }
}
