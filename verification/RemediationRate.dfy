/** What cooldowns guarantee in every interleaving (agent/worker.go, agent/cooldown.go). */
module RemediationRate {
  import opened Evaluator
  import opened Pipeline
  import Conflict

  function Stamps(sh: Shared, p: string): seq<Stamp> {
    Of(sh.stamps, p)
  }

  /** The worker has passed the cooldown check of the parameter and may still remediate it. */
  predicate Cleared(c: Worker, p: string) {
    ((c.Checking? && c.action == Remediate) || c.Writing? || c.Verifying? || c.Stamping?) && c.ev.param == p
  }

  /** Every remediation the check saw was a whole cooldown old. */
  ghost predicate Rested(stamps: seq<Stamp>, cl: Clearance, cooldown: int) {
    cl.seen <= |stamps| && forall i :: 0 <= i < cl.seen ==> stamps[i].time + cooldown <= cl.checked
  }

  ghost predicate StampSound(sh: Shared, p: string, cooldown: int, j: nat)
    requires j < |Stamps(sh, p)|
  {
    var stamps, st := Stamps(sh, p), Stamps(sh, p)[j];
    && st.clearance.seen <= j
    && Rested(stamps, st.clearance, cooldown)
    && st.clearance.checked <= st.time <= sh.clock
    && forall i :: 0 <= i < j ==> stamps[i].time <= st.time && (stamps[i].worker == st.worker ==> i < st.clearance.seen)
  }

  ghost predicate StampsSound(sh: Shared, p: string, cooldown: int, n: nat) {
    var stamps := Stamps(sh, p);
    && (forall j :: 0 <= j < |stamps| ==> StampSound(sh, p, cooldown, j) && stamps[j].worker < n)
    && (p in sh.lastRemediated <==> stamps != [])
    && (stamps != [] ==> sh.lastRemediated[p] == stamps[|stamps| - 1].time)
  }

  ghost predicate WorkerSound(sh: Shared, p: string, cooldown: int, w: nat, c: Worker) {
    Cleared(c, p) ==>
      && Rested(Stamps(sh, p), c.clearance, cooldown)
      && c.clearance.checked <= sh.clock
      && forall i :: 0 <= i < |Stamps(sh, p)| && Stamps(sh, p)[i].worker == w ==> i < c.clearance.seen
  }

  ghost predicate Invariant(s: State, p: string, cooldown: int) {
    && StampsSound(s.shared, p, cooldown, |s.workers|)
    && forall w :: 0 <= w < |s.workers| ==> WorkerSound(s.shared, p, cooldown, w, s.workers[w])
  }

  // ----- one step -----

  lemma RecordKeeps(sh: Shared, w: nat, ev: Event, cl: Clearance, p: string, cooldown: int, n: nat)
    requires StampsSound(sh, p, cooldown, n) && w < n
    requires WorkerSound(sh, p, cooldown, w, Stamping(ev, cl))
    ensures
      var m := DoRecordRemediation(sh, w, ev, cl);
      && StampsSound(m.shared, p, cooldown, n)
      && (forall v, c :: v != w && WorkerSound(sh, p, cooldown, v, c) ==> WorkerSound(m.shared, p, cooldown, v, c))
  {
    var m := DoRecordRemediation(sh, w, ev, cl);
    var stamps, stamps' := Stamps(sh, p), Stamps(m.shared, p);
    if ev.param == p {
      assert stamps' == stamps + [Stamp(w, ev, cl, sh.clock)];
      forall j | 0 <= j < |stamps'| ensures StampSound(m.shared, p, cooldown, j) && stamps'[j].worker < n {
        if j < |stamps| {
          assert StampSound(sh, p, cooldown, j);
        } else {
          forall i | 0 <= i < j ensures stamps'[i].time <= sh.clock {
            assert StampSound(sh, p, cooldown, i);
          }
        }
      }
    } else {
      SameStamps(sh, m.shared, p, cooldown, n);
    }
  }

  lemma SameStamps(sh: Shared, sh': Shared, p: string, cooldown: int, n: nat)
    requires StampsSound(sh, p, cooldown, n)
    requires Stamps(sh', p) == Stamps(sh, p) && sh'.clock >= sh.clock
    requires p in sh.lastRemediated <==> p in sh'.lastRemediated
    requires p in sh.lastRemediated ==> sh'.lastRemediated[p] == sh.lastRemediated[p]
    ensures StampsSound(sh', p, cooldown, n)
    ensures forall w, c :: WorkerSound(sh, p, cooldown, w, c) ==> WorkerSound(sh', p, cooldown, w, c)
  {
    forall j | 0 <= j < |Stamps(sh, p)| ensures StampSound(sh', p, cooldown, j) {
      assert StampSound(sh, p, cooldown, j);
    }
  }

  /** Passing the cooldown check: the last remediation is a cooldown old, and so are all before it. */
  lemma ClearanceIsSound(policy: Policy, sh: Shared, w: nat, ev: Event, ticket: Ticket, p: string, n: nat)
    requires ev.param in policy.sysctl && p in policy.sysctl
    requires StampsSound(sh, p, CooldownOf(policy, p), n)
    ensures WorkerSound(sh, p, CooldownOf(policy, p), w, DoCheckCooldown(policy, sh, ev, ticket).worker)
  {
    var stamps := Stamps(sh, p);
    if ev.param == p && stamps != [] {
      assert StampSound(sh, p, CooldownOf(policy, p), |stamps| - 1);
    }
  }

  /** A step that leaves the remediations alone and clears nobody. */
  ghost predicate ClearsNobody(sh: Shared, c: Worker, m: Moved, p: string) {
    && m.shared.clock == sh.clock && m.shared.stamps == sh.stamps && m.shared.lastRemediated == sh.lastRemediated
    && (Cleared(m.worker, p) ==> Cleared(c, p) && m.worker.clearance == c.clearance)
  }

  lemma SystemCallsClearNobody(policy: Policy, sh: Shared, c: Worker, ok: bool, p: string)
    requires Covered(policy, c)
    ensures c.Reading? ==> ClearsNobody(sh, c, DoRead(policy, sh, c.ev, ok), p)
    ensures c.Writing? ==> ClearsNobody(sh, c, DoWrite(policy, sh, c.ev, c.clearance, ok), p)
    ensures c.Verifying? ==> ClearsNobody(sh, c, DoVerify(policy, sh, c.ev, c.clearance, ok), p)
  {
  }

  lemma LogsClearNobody(sh: Shared, c: Worker, p: string)
    ensures c.Recording? ==> ClearsNobody(sh, c, DoRecordDrift(sh, c.ev, c.action), p)
    ensures c.Checking? ==> ClearsNobody(sh, c, DoCheckConflict(sh, c), p)
  {
    hide *;
    if c.Recording? {
      DriftClearsNobody(sh, c, p);
    }
    if c.Checking? {
      ConflictClearsNobody(sh, c, p);
    }
  }

  lemma DriftClearsNobody(sh: Shared, c: Worker, p: string)
    requires c.Recording?
    ensures ClearsNobody(sh, c, DoRecordDrift(sh, c.ev, c.action), p)
  {
    hide Of, Conflict.Recorded;
  }

  lemma ConflictClearsNobody(sh: Shared, c: Worker, p: string)
    requires c.Checking?
    ensures ClearsNobody(sh, c, DoCheckConflict(sh, c), p)
  {
    hide Of, Conflict.Pruned, Conflict.Conflicting, Conflict.Timestamps;
  }

  lemma RestClearsNobody(sh: Shared, c: Worker, p: string)
    ensures ClearsNobody(sh, c, Moved(c, sh), p)
  {
  }

  /** Every other step leaves the remediations alone and clears nobody. */
  lemma OthersKeep(policy: Policy, sh: Shared, w: nat, c: Worker, act: Act, p: string)
    requires Covered(policy, c)
    requires !(act.CheckCooldown? && c.Cooling?) && !(act.RecordRemediation? && c.Stamping?)
    ensures ClearsNobody(sh, c, Do(policy, sh, w, c, act), p)
  {
    hide Decide, ClearsNobody, DoRead, DoRecordDrift, DoCheckCooldown, DoCheckConflict, DoWrite, DoVerify,
      DoRecordRemediation;
    RestClearsNobody(sh, c, p);
    match act
    case ReadValue(ok) =>
      SystemCallsClearNobody(policy, sh, c, ok, p);
    case WriteValue(ok) =>
      SystemCallsClearNobody(policy, sh, c, ok, p);
    case Verify(ok) =>
      SystemCallsClearNobody(policy, sh, c, ok, p);
    case RecordDrift =>
      LogsClearNobody(sh, c, p);
    case CheckConflict =>
      LogsClearNobody(sh, c, p);
    case _ =>
      SmallStepsClearNobody(policy, sh, w, c, act, p);
  }

  lemma SmallStepsClearNobody(policy: Policy, sh: Shared, w: nat, c: Worker, act: Act, p: string)
    requires Covered(policy, c)
    requires act.Take? || act.Evaluate? || act.Settle? || (act.CheckCooldown? && !c.Cooling?)
             || (act.RecordRemediation? && !c.Stamping?)
    ensures ClearsNobody(sh, c, Do(policy, sh, w, c, act), p)
  {
    hide Decide, DoRead, DoRecordDrift, DoCheckCooldown, DoCheckConflict, DoWrite, DoVerify, DoRecordRemediation;
  }

  lemma WorkKeeps(policy: Policy, s: State, w: nat, act: Act, p: string)
    requires p in policy.sysctl && Invariant(s, p, CooldownOf(policy, p))
    requires w < |s.workers| && Covered(policy, s.workers[w])
    ensures Invariant(Next(policy, s, Work(w, act)), p, CooldownOf(policy, p))
  {
    hide StampsSound, WorkerSound, CooldownOf;
    var c := s.workers[w];
    var m := Do(policy, s.shared, w, c, act);
    var cooldown := CooldownOf(policy, p);
    assert WorkerSound(s.shared, p, cooldown, w, c);
    if act.CheckCooldown? && c.Cooling? {
      ClearanceIsSound(policy, s.shared, w, c.ev, c.ticket, p, |s.workers|);
    } else if act.RecordRemediation? && c.Stamping? {
      RecordKeeps(s.shared, w, c.ev, c.clearance, p, cooldown, |s.workers|);
      NotCleared(m.shared, p, cooldown, w, m.worker);
    } else {
      OthersKeep(policy, s.shared, w, c, act, p);
      SameStamps(s.shared, m.shared, p, cooldown, |s.workers|);
      StillCleared(m.shared, p, cooldown, w, c, m.worker);
    }
  }

  lemma NotCleared(sh: Shared, p: string, cooldown: int, w: nat, c: Worker)
    requires !Cleared(c, p)
    ensures WorkerSound(sh, p, cooldown, w, c)
  {
  }

  lemma StillCleared(sh: Shared, p: string, cooldown: int, w: nat, c: Worker, c': Worker)
    requires WorkerSound(sh, p, cooldown, w, c)
    requires Cleared(c', p) ==> Cleared(c, p) && c'.clearance == c.clearance
    ensures WorkerSound(sh, p, cooldown, w, c')
  {
  }

  lemma StepKeeps(policy: Policy, s: State, step: Step, p: string)
    requires p in policy.sysctl && Invariant(s, p, CooldownOf(policy, p))
    ensures Invariant(Next(policy, s, step), p, CooldownOf(policy, p))
  {
    hide Do, StampsSound, WorkerSound, CooldownOf;
    if step.Work? && step.w < |s.workers| && Covered(policy, s.workers[step.w]) {
      WorkKeeps(policy, s, step.w, step.act, p);
    } else {
      SameStamps(s.shared, Next(policy, s, step).shared, p, CooldownOf(policy, p), |s.workers|);
    }
  }

  lemma {:induction false} RunKeeps(start: Start, steps: seq<Step>, k: nat, p: string)
    requires k <= |steps| && p in start.policy.sysctl
    ensures Invariant(Run(start, steps, k), p, CooldownOf(start.policy, p))
  {
    hide Next, Invariant, CooldownOf;
    if k == 0 {
      InitialHolds(start, p);
    } else {
      RunKeeps(start, steps, k - 1, p);
      StepKeeps(start.policy, Run(start, steps, k - 1), steps[k - 1], p);
    }
  }

  lemma InitialHolds(start: Start, p: string)
    requires p in start.policy.sysctl
    ensures Invariant(Initial(start), p, CooldownOf(start.policy, p))
  {
  }

  // ----- what follows -----

  /** A remediation is recorded only by a worker that, when it checked the cooldown, found every
      remediation recorded until then at least a whole cooldown old. Hence of two remediations of a
      parameter the later either waited out the cooldown or had passed its check before the earlier one
      was recorded. */
  lemma CooldownIsWaitedOut(start: Start, steps: seq<Step>, k: nat, p: string, i: nat, j: nat)
    requires k <= |steps| && p in start.policy.sysctl
    requires i < j < |Of(Run(start, steps, k).shared.stamps, p)|
    ensures
      var stamps, entry := Of(Run(start, steps, k).shared.stamps, p), start.policy.sysctl[p];
      var cooldown := if entry.cooldown != 0 then entry.cooldown else start.policy.global.defaultCooldown;
      && stamps[i].time <= stamps[j].time
      && (stamps[j].clearance.seen <= i
          || stamps[i].time + cooldown <= stamps[j].clearance.checked <= stamps[j].time)
      && (stamps[i].worker == stamps[j].worker ==>
            stamps[i].time + cooldown <= stamps[j].clearance.checked <= stamps[j].time)
  {
    hide Run, CooldownOf;
    RunKeeps(start, steps, k, p);
    CooldownIs(start.policy, p);
    assert StampSound(Run(start, steps, k).shared, p, CooldownOf(start.policy, p), j);
  }

  lemma StampsAreByWorkers(start: Start, steps: seq<Step>, k: nat, p: string, i: nat)
    requires k <= |steps| && p in start.policy.sysctl && i < |Of(Run(start, steps, k).shared.stamps, p)|
    ensures Of(Run(start, steps, k).shared.stamps, p)[i].worker < start.workers
  {
    hide Run, CooldownOf;
    RunKeeps(start, steps, k, p);
    WorkersAreFixed(start, steps, k);
    assert StampSound(Run(start, steps, k).shared, p, CooldownOf(start.policy, p), i);
  }

  lemma {:induction false} Earliest(s: set<nat>) returns (m: nat)
    requires s != {}
    ensures m in s && forall i :: i in s ==> m <= i
  {
    var x :| x in s;
    m := x;
    if s != {x} {
      var rest := Earliest(s - {x});
      if rest < x {
        m := rest;
      }
      forall i | i in s ensures m <= i {
        assert i == x || i in s - {x};
      }
    }
  }

  /** Remediations by different workers are at most as many as the workers. */
  lemma {:induction false} DistinctWorkers(stamps: seq<Stamp>, chosen: set<nat>, workers: set<nat>)
    requires forall i :: i in chosen ==> i < |stamps| && stamps[i].worker in workers
    requires forall i, j :: i in chosen && j in chosen && i < j ==> stamps[i].worker != stamps[j].worker
    ensures |chosen| <= |workers|
  {
    if chosen != {} {
      var x :| x in chosen;
      var w := stamps[x].worker;
      DistinctWorkers(stamps, chosen - {x}, workers - {w});
      assert |chosen - {x}| == |chosen| - 1 && |workers - {w}| == |workers| - 1;
    }
  }

  lemma {:induction false} FirstNumbers(n: nat) returns (s: set<nat>)
    ensures |s| == n && forall i: nat :: i in s <==> i < n
  {
    if n == 0 {
      s := {};
    } else {
      s := FirstNumbers(n - 1);
      s := s + {n - 1};
    }
  }

  /** In every interleaving of n workers a parameter is remediated at most n times within any stretch
      shorter than its cooldown. */
  lemma OnePerWorkerPerCooldown(start: Start, steps: seq<Step>, k: nat, p: string, t: int, chosen: set<nat>)
    requires k <= |steps| && p in start.policy.sysctl
    requires
      var stamps, entry := Of(Run(start, steps, k).shared.stamps, p), start.policy.sysctl[p];
      var cooldown := if entry.cooldown != 0 then entry.cooldown else start.policy.global.defaultCooldown;
      forall i :: i in chosen ==> i < |stamps| && t <= stamps[i].time < t + cooldown
    ensures |chosen| <= start.workers
  {
    hide Run, CooldownOf;
    CooldownIs(start.policy, p);
    if chosen != {} {
      var sh := Run(start, steps, k).shared;
      RunKeeps(start, steps, k, p);
      WorkersAreFixed(start, steps, k);
      var e := Earliest(chosen);
      var stamps := Stamps(sh, p);
      forall i, j | i in chosen && j in chosen && i < j ensures stamps[i].worker != stamps[j].worker {
        assert StampSound(sh, p, CooldownOf(start.policy, p), j);
        assert e < j && e >= stamps[j].clearance.seen;
      }
      var all := FirstNumbers(start.workers);
      DistinctWorkers(stamps, chosen, all);
    }
  }

  lemma {:induction false} OverCooldowns(start: Start, steps: seq<Step>, k: nat, p: string, cooldown: int, t: int,
                                         m: nat, chosen: set<nat>)
    requires k <= |steps| && p in start.policy.sysctl && CooldownOf(start.policy, p) == cooldown
    requires
      var stamps := Of(Run(start, steps, k).shared.stamps, p);
      forall i :: i in chosen ==> i < |stamps| && t <= stamps[i].time < t + m * cooldown
    ensures |chosen| <= start.workers * m
    decreases m
  {
    hide Run, CooldownOf;
    var stamps := Of(Run(start, steps, k).shared.stamps, p);
    if m == 0 {
      assert chosen == {};
    } else {
      var early := set i | i in chosen && stamps[i].time < t + cooldown;
      var late := chosen - early;
      OneMoreTime(m, cooldown);
      OneMoreTime(m, start.workers);
      OneCooldown(start, steps, k, p, cooldown, t, early);
      OverCooldowns(start, steps, k, p, cooldown, t + cooldown, m - 1, late);
      assert chosen == early + late;
    }
  }

  lemma OneMoreTime(m: int, x: int)
    ensures m * x == x + (m - 1) * x == x * m && x * m == x + x * (m - 1)
  {
  }

  lemma OneCooldown(start: Start, steps: seq<Step>, k: nat, p: string, cooldown: int, t: int, chosen: set<nat>)
    requires k <= |steps| && p in start.policy.sysctl && CooldownOf(start.policy, p) == cooldown
    requires
      var stamps := Of(Run(start, steps, k).shared.stamps, p);
      forall i :: i in chosen ==> i < |stamps| && t <= stamps[i].time < t + cooldown
    ensures |chosen| <= start.workers
  {
    hide Run, CooldownOf;
    CooldownIs(start.policy, p);
    OnePerWorkerPerCooldown(start, steps, k, p, t, chosen);
  }

  /** Over m cooldowns: at most n times m. */
  lemma RateOverCooldowns(start: Start, steps: seq<Step>, k: nat, p: string, t: int, m: nat, chosen: set<nat>)
    requires k <= |steps| && p in start.policy.sysctl
    requires
      var stamps, entry := Of(Run(start, steps, k).shared.stamps, p), start.policy.sysctl[p];
      var cooldown := if entry.cooldown != 0 then entry.cooldown else start.policy.global.defaultCooldown;
      forall i :: i in chosen ==> i < |stamps| && t <= stamps[i].time < t + m * cooldown
    ensures |chosen| <= start.workers * m
  {
    hide Run, CooldownOf;
    CooldownIs(start.policy, p);
    OverCooldowns(start, steps, k, p, CooldownOf(start.policy, p), t, m, chosen);
  }

  /** In every interleaving of n workers: at most n * (length / cooldown + 1) remediations of a parameter
      fall in any interval of that length, for its own cooldown, or for the global one if it has none; with one
      worker this is the sequential bound. */
  lemma RemediationRate(start: Start, steps: seq<Step>, k: nat, p: string, t: int, length: nat, chosen: set<nat>)
    requires k <= |steps| && p in start.policy.sysctl
    requires
      var stamps := Of(Run(start, steps, k).shared.stamps, p);
      forall i :: i in chosen ==> i < |stamps| && t <= stamps[i].time <= t + length
    ensures
      var own, global := start.policy.sysctl[p].cooldown, start.policy.global.defaultCooldown;
      && (own > 0 ==> |chosen| <= start.workers * (length / own + 1))
      && (own == 0 && global > 0 ==> |chosen| <= start.workers * (length / global + 1))
  {
    hide Run, CooldownOf;
    CooldownIs(start.policy, p);
    if CooldownOf(start.policy, p) > 0 {
      RateOf(start, steps, k, p, t, length, chosen);
    }
  }

  lemma RateOf(start: Start, steps: seq<Step>, k: nat, p: string, t: int, length: nat, chosen: set<nat>)
    requires k <= |steps| && p in start.policy.sysctl && CooldownOf(start.policy, p) > 0
    requires
      var stamps := Of(Run(start, steps, k).shared.stamps, p);
      forall i :: i in chosen ==> i < |stamps| && t <= stamps[i].time <= t + length
    ensures |chosen| <= start.workers * (length / CooldownOf(start.policy, p) + 1)
  {
    hide Run, CooldownOf;
    var cd := CooldownOf(start.policy, p);
    var m := length / cd + 1;
    DivisionCovers(length, cd, m);
    OverCooldowns(start, steps, k, p, cd, t, m, chosen);
  }

  lemma DivisionCovers(length: nat, cd: int, m: int)
    requires cd > 0 && m == length / cd + 1
    ensures length < m * cd && m > 0
  {
    assert length == length / cd * cd + length % cd;
    assert m * cd == length / cd * cd + cd;
  }
}
