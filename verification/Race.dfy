/** Why the remediation rate is a rate per worker: n workers can remediate one parameter n times at one
    instant, whatever its cooldown (agent/worker.go, agent/cooldown.go). The check of the cooldown and the
    record of a remediation are separate lock sections, so all workers can pass the one, each far enough
    from the others not to meet them in the conflict window, before any of them reaches the other. */
module Race {
  import opened Evaluator
  import opened Pipeline
  import Conflict
  import RemediationRate

  /** What a worker does until its checks are passed. */
  function Clearing(ev: Event, intel: EventIntel): seq<Act> {
    [Take(ev), ReadValue(true), Evaluate(intel), RecordDrift, CheckCooldown, CheckConflict]
  }

  const RESTORING: seq<Act> := [WriteValue(true), Verify(true)]
  const STAMPING: seq<Act> := [RecordRemediation]

  /** A worker and the shared state after the first `k` of its steps. */
  function Acted(policy: Policy, sh: Shared, w: nat, c: Worker, acts: seq<Act>, k: nat): Moved
    requires k <= |acts|
  {
    if k == 0 then Moved(c, sh)
    else
      var m := Acted(policy, sh, w, c, acts, k - 1);
      if Covered(policy, m.worker) then Do(policy, m.shared, w, m.worker, acts[k - 1]) else m
  }

  /** The run goes on with the steps of one worker. */
  lemma {:induction false} Proceed(start: Start, steps: seq<Step>, s: State, w: nat, acts: seq<Act>, k: nat)
    returns (more: seq<Step>)
    requires s == Run(start, steps, |steps|) && w < |s.workers| && k <= |acts|
    ensures
      var m := Acted(start.policy, s.shared, w, s.workers[w], acts, k);
      Run(start, more, |more|) == State(s.workers[w := m.worker], m.shared)
  {
    hide Run, Do;
    if k == 0 {
      more := steps;
      assert s.workers[w := s.workers[w]] == s.workers;
    } else {
      var before := Proceed(start, steps, s, w, acts, k - 1);
      var m := Acted(start.policy, s.shared, w, s.workers[w], acts, k - 1);
      more := before + [Work(w, acts[k - 1])];
      RunOneMore(start, before, Work(w, acts[k - 1]));
      assert s.workers[w := m.worker][w] == m.worker;
    }
  }

  // ----- a start from which all workers are free to race -----

  /** An event that is to be remediated. */
  ghost predicate Ripe(start: Start, ev: Event, intel: EventIntel) {
    && Relevant(start.policy, ev) && Decide(start.policy, ev, intel) == Remediate
    && Off(start.policy, start.values, ev.param)
  }

  /** Nothing has been written or stamped yet, and all drift records are at most from `now`. */
  ghost predicate Untouched(start: Start, sh: Shared, p: string, now: int) {
    && sh.values == start.values && p !in sh.lastRemediated && Of(sh.stamps, p) == []
    && Conflict.AllUpTo(Conflict.Timestamps(sh.events, p), now)
  }

  /** A record a whole window after all others is alone when it is checked. */
  lemma AloneInTheWindow(events: Conflict.Events, p: string, now: int)
    requires Conflict.AllUpTo(Conflict.Timestamps(events, p), now - CONFLICT_WINDOW)
    ensures
      var recorded := Conflict.Recorded(events, p, now);
      && !Conflict.Conflicting(recorded, p, now, CONFLICT_WINDOW, CONFLICT_THRESHOLD)
      && Conflict.AllUpTo(Conflict.Timestamps(Conflict.Pruned(recorded, p, now - CONFLICT_WINDOW), p), now)
  {
    var ts := Conflict.Timestamps(events, p);
    Conflict.NoneAfter(ts, |ts|, now - CONFLICT_WINDOW);
    Conflict.AfterGrows(ts, now, now - CONFLICT_WINDOW);
    hide Conflict.After;
    assert Conflict.After(ts + [now], |ts| + 1, now - CONFLICT_WINDOW) == [now];
  }

  /** A worker alone in its window passes all checks, and changes only the logs. */
  lemma WorkerClears(start: Start, sh: Shared, w: nat, ev: Event, intel: EventIntel)
    requires Ripe(start, ev, intel) && Untouched(start, sh, ev.param, sh.clock - CONFLICT_WINDOW)
    ensures
      var m := Acted(start.policy, sh, w, Idle, Clearing(ev, intel), 6);
      && m.worker.Writing? && m.worker.ev == ev
      && m.shared.clock == sh.clock && Untouched(start, m.shared, ev.param, sh.clock)
  {
    hide Conflict.Recorded, Conflict.Pruned, Conflict.Conflicting, Decide;
    var policy, acts := start.policy, Clearing(ev, intel);
    var m3 := Acted(policy, sh, w, Idle, acts, 3);
    assert m3 == Moved(Recording(ev, Remediate), sh) by { WorkerDecides(start, sh, w, ev, intel); }
    var m4 := Acted(policy, sh, w, Idle, acts, 4);
    assert m4 == DoRecordDrift(sh, ev, Remediate);
    var m5 := Acted(policy, sh, w, Idle, acts, 5);
    assert m5 == DoCheckCooldown(policy, m4.shared, ev, m4.worker.ticket);
    assert m5.worker.Checking? && m5.worker.action == Remediate && m5.worker.ev == ev;
    assert Acted(policy, sh, w, Idle, acts, 6) == DoCheckConflict(m5.shared, m5.worker);
    AloneInTheWindow(sh.events, ev.param, sh.clock);
  }

  lemma WorkerDecides(start: Start, sh: Shared, w: nat, ev: Event, intel: EventIntel)
    requires Ripe(start, ev, intel) && sh.values == start.values
    ensures Acted(start.policy, sh, w, Idle, Clearing(ev, intel), 3) == Moved(Recording(ev, Remediate), sh)
  {
    hide Decide;
    var policy, acts := start.policy, Clearing(ev, intel);
    assert Acted(policy, sh, w, Idle, acts, 0) == Moved(Idle, sh);
    assert Acted(policy, sh, w, Idle, acts, 1) == Moved(Reading(ev), sh);
    assert Acted(policy, sh, w, Idle, acts, 2) == Moved(Deciding(ev), sh);
  }

  lemma WorkerRestores(policy: Policy, sh: Shared, w: nat, c: Worker)
    requires c.Writing? && Relevant(policy, c.ev) && c.ev.param in sh.values
    ensures
      var m := Acted(policy, sh, w, c, RESTORING, 2);
      && m.worker == Stamping(c.ev, c.clearance)
      && m.shared == sh.(values := sh.values[c.ev.param := Expected(policy, c.ev.param)])
  {
    assert Acted(policy, sh, w, c, RESTORING, 0) == Moved(c, sh);
    assert Acted(policy, sh, w, c, RESTORING, 1)
        == Moved(Verifying(c.ev, c.clearance), sh.(values := sh.values[c.ev.param := Expected(policy, c.ev.param)]));
  }

  lemma WorkerStamps(policy: Policy, sh: Shared, w: nat, c: Worker)
    requires c.Stamping? && Relevant(policy, c.ev)
    ensures Acted(policy, sh, w, c, STAMPING, 1) == DoRecordRemediation(sh, w, c.ev, c.clearance)
  {
    assert Acted(policy, sh, w, c, STAMPING, 0) == Moved(c, sh);
  }

  // ----- all workers, one after the other -----

  /** The first `m` workers have passed their checks, and the others are idle. */
  ghost predicate Cleared(start: Start, s: State, ev: Event, m: nat) {
    && |s.workers| == start.workers
    && (forall w :: 0 <= w < |s.workers| ==>
          if w < m then s.workers[w].Writing? && s.workers[w].ev == ev else s.workers[w].Idle?)
    && Untouched(start, s.shared, ev.param, s.shared.clock)
  }

  lemma {:induction false} AllClear(start: Start, ev: Event, intel: EventIntel, m: nat) returns (steps: seq<Step>)
    requires Ripe(start, ev, intel) && m <= start.workers
    ensures Cleared(start, Run(start, steps, |steps|), ev, m)
  {
    hide Run, Acted, Ripe;
    if m == 0 {
      steps := [];
      StartIsClear(start, ev);
    } else {
      var before := AllClear(start, ev, intel, m - 1);
      var s := Run(start, before, |before|);
      var later := s.shared.clock + CONFLICT_WINDOW;
      var ticked := before + [Tick(later)];
      RunOneMore(start, before, Tick(later));
      var s' := State(s.workers, s.shared.(clock := later));
      steps := Proceed(start, ticked, s', m - 1, Clearing(ev, intel), 6);
      WorkerClears(start, s'.shared, m - 1, ev, intel);
    }
  }

  lemma StartIsClear(start: Start, ev: Event)
    ensures Cleared(start, Run(start, [], 0), ev, 0)
  {
  }

  /** The first `m` workers have restored the parameter, and the others are about to. */
  ghost predicate Restored(start: Start, s: State, ev: Event, m: nat) {
    && |s.workers| == start.workers
    && (forall w :: 0 <= w < |s.workers| ==>
          (if w < m then s.workers[w].Stamping? else s.workers[w].Writing?) && s.workers[w].ev == ev)
    && ev.param in s.shared.values && Of(s.shared.stamps, ev.param) == []
  }

  lemma {:induction false} AllRestore(start: Start, ev: Event, intel: EventIntel, m: nat) returns (steps: seq<Step>)
    requires Ripe(start, ev, intel) && m <= start.workers
    ensures Restored(start, Run(start, steps, |steps|), ev, m)
  {
    hide Run, Acted, Decide;
    if m == 0 {
      steps := AllClear(start, ev, intel, start.workers);
    } else {
      var before := AllRestore(start, ev, intel, m - 1);
      var s := Run(start, before, |before|);
      steps := Proceed(start, before, s, m - 1, RESTORING, 2);
      WorkerRestores(start.policy, s.shared, m - 1, s.workers[m - 1]);
    }
  }

  /** The first `m` workers have recorded their remediations, all now, and the others are about to. */
  ghost predicate Stamped(start: Start, s: State, ev: Event, m: nat) {
    var stamps := Of(s.shared.stamps, ev.param);
    && |s.workers| == start.workers
    && (forall w :: m <= w < |s.workers| ==> s.workers[w].Stamping? && s.workers[w].ev == ev)
    && |stamps| == m && forall i :: 0 <= i < m ==> stamps[i].time == s.shared.clock
  }

  /** From any start and for any event that is to be remediated, whatever the cooldown, there is a run in
      which every worker remediates its parameter, all at the same instant. */
  lemma {:induction false} AllRemediateAtOnce(start: Start, ev: Event, intel: EventIntel, m: nat)
    returns (steps: seq<Step>)
    requires Ripe(start, ev, intel) && m <= start.workers
    ensures Stamped(start, Run(start, steps, |steps|), ev, m)
  {
    hide Run, Acted, Decide;
    if m == 0 {
      steps := AllRestore(start, ev, intel, start.workers);
    } else {
      var before := AllRemediateAtOnce(start, ev, intel, m - 1);
      var s := Run(start, before, |before|);
      steps := Proceed(start, before, s, m - 1, STAMPING, 1);
      WorkerStamps(start.policy, s.shared, m - 1, s.workers[m - 1]);
    }
  }

  /** In every run from the start, any two remediations of the parameter are a cooldown apart. */
  ghost predicate CooldownHolds(start: Start, p: string)
    requires p in start.policy.sysctl
  {
    forall steps: seq<Step>, i: nat, j: nat ::
      var stamps, entry := Of(Run(start, steps, |steps|).shared.stamps, p), start.policy.sysctl[p];
      var cooldown := if entry.cooldown != 0 then entry.cooldown else start.policy.global.defaultCooldown;
      i < j < |stamps| ==> stamps[i].time + cooldown <= stamps[j].time
  }

  /** A cooldown holds for a parameter that is to be remediated exactly if there is at most one worker. */
  lemma CooldownHoldsIff(start: Start, ev: Event, intel: EventIntel)
    requires Ripe(start, ev, intel)
    requires
      var entry := start.policy.sysctl[ev.param];
      (if entry.cooldown != 0 then entry.cooldown else start.policy.global.defaultCooldown) > 0
    ensures CooldownHolds(start, ev.param) <==> start.workers <= 1
  {
    hide Run, CooldownOf, Decide;
    var p := ev.param;
    if start.workers <= 1 {
      forall steps: seq<Step>, i: nat, j: nat | i < j < |Of(Run(start, steps, |steps|).shared.stamps, p)|
        ensures
          var stamps, entry := Of(Run(start, steps, |steps|).shared.stamps, p), start.policy.sysctl[p];
          var cooldown := if entry.cooldown != 0 then entry.cooldown else start.policy.global.defaultCooldown;
          stamps[i].time + cooldown <= stamps[j].time
      {
        RemediationRate.CooldownIsWaitedOut(start, steps, |steps|, p, i, j);
        RemediationRate.StampsAreByWorkers(start, steps, |steps|, p, i);
        RemediationRate.StampsAreByWorkers(start, steps, |steps|, p, j);
      }
    } else {
      var steps := AllRemediateAtOnce(start, ev, intel, start.workers);
      var stamps := Of(Run(start, steps, |steps|).shared.stamps, p);
      assert 0 < 1 < |stamps| && stamps[0].time == stamps[1].time;
    }
  }
}
