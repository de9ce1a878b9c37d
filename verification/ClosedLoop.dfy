/** The agent does not feed itself: remediations are paid for by outside writes, in every interleaving
    (agent/worker.go, agent/remediation.go). */
module ClosedLoop {
  import opened Pipeline
  import Conflict
  import Cooldown

  /** How many of the first `n` recorded remediations are this worker's. */
  function CountBy(stamps: seq<Stamp>, n: nat, w: nat): nat
    requires n <= |stamps|
  {
    if n == 0 then 0 else CountBy(stamps, n - 1, w) + if stamps[n - 1].worker == w then 1 else 0
  }

  function DoneBy(sh: Shared, p: string, w: nat): nat {
    CountBy(Of(sh.stamps, p), |Of(sh.stamps, p)|, w)
  }

  /** The worker has seen the parameter off its expected value and may still remediate it. */
  predicate SawDrift(c: Worker, p: string) {
    (c.Deciding? || c.Recording? || c.Cooling? || c.Checking? || c.Writing? || c.Verifying?) && c.ev.param == p
  }

  function One(b: bool): nat {
    if b then 1 else 0
  }

  /** How many more remediations a worker can complete without another outside write. */
  function Credit(policy: Policy, sh: Shared, p: string, c: Worker): nat {
    if c.Stamping? && c.ev.param == p then 1 + One(Off(policy, sh.values, p))
    else One(SawDrift(c, p) || Off(policy, sh.values, p))
  }

  /** What a worker has done and can still do is covered by the outside writes and an opening balance. */
  ghost predicate Paid(policy: Policy, sh: Shared, p: string, w: nat, c: Worker, opening: int) {
    DoneBy(sh, p, w) + Credit(policy, sh, p, c) <= ExternalDrifts(sh, p) + opening
  }

  lemma {:induction false} CountAfterAppend(stamps: seq<Stamp>, st: Stamp, n: nat, w: nat)
    requires n <= |stamps|
    ensures CountBy(stamps + [st], n, w) == CountBy(stamps, n, w)
  {
    if n > 0 {
      CountAfterAppend(stamps, st, n - 1, w);
    }
  }

  lemma DoneAfterRecord(sh: Shared, w: nat, ev: Event, cl: Clearance, p: string, v: nat)
    ensures DoneBy(DoRecordRemediation(sh, w, ev, cl).shared, p, v) == DoneBy(sh, p, v) + One(ev.param == p && v == w)
  {
    if ev.param == p {
      CountAfterAppend(Of(sh.stamps, p), Stamp(w, ev, cl, sh.clock), |Of(sh.stamps, p)|, v);
    }
  }

  /** A step that leaves the remediations alone, restores no value but an expected one, and lets no
      worker have seen a drift that is not there. */
  ghost predicate Restores(policy: Policy, sh: Shared, c: Worker, m: Moved, p: string) {
    && m.shared.stamps == sh.stamps && m.shared.externalDrifts == sh.externalDrifts
    && (Off(policy, m.shared.values, p) ==> Off(policy, sh.values, p))
    && (Off(policy, sh.values, p) && !Off(policy, m.shared.values, p) ==> SawDrift(c, p))
    && (SawDrift(m.worker, p) ==> SawDrift(c, p) || Off(policy, sh.values, p))
    && (m.worker.Stamping? && m.worker.ev.param == p ==>
          m.worker == c || (SawDrift(c, p) && !Off(policy, m.shared.values, p)))
  }

  lemma ReadRestores(policy: Policy, sh: Shared, c: Worker, ok: bool, p: string)
    requires c.Reading? && c.ev.param in policy.sysctl
    ensures Restores(policy, sh, c, DoRead(policy, sh, c.ev, ok), p)
  {
  }

  lemma WriteRestores(policy: Policy, sh: Shared, c: Worker, ok: bool, p: string)
    requires c.Writing? && c.ev.param in policy.sysctl
    ensures Restores(policy, sh, c, DoWrite(policy, sh, c.ev, c.clearance, ok), p)
  {
  }

  lemma VerifyRestores(policy: Policy, sh: Shared, c: Worker, ok: bool, p: string)
    requires c.Verifying? && c.ev.param in policy.sysctl
    ensures Restores(policy, sh, c, DoVerify(policy, sh, c.ev, c.clearance, ok), p)
  {
  }

  lemma ChecksRestore(policy: Policy, sh: Shared, c: Worker, p: string)
    requires (c.Recording? || c.Cooling? || c.Checking?) && c.ev.param in policy.sysctl
    ensures c.Recording? ==> Restores(policy, sh, c, DoRecordDrift(sh, c.ev, c.action), p)
    ensures c.Cooling? ==> Restores(policy, sh, c, DoCheckCooldown(policy, sh, c.ev, c.ticket), p)
    ensures c.Checking? ==> Restores(policy, sh, c, DoCheckConflict(sh, c), p)
  {
    hide Off, CooldownOf, Conflict.Recorded, Conflict.Pruned, Conflict.Conflicting, Conflict.Timestamps,
      Cooldown.Cooling, Of;
  }

  lemma OthersRestore(policy: Policy, sh: Shared, w: nat, c: Worker, act: Act, p: string)
    requires Covered(policy, c) && !(act.RecordRemediation? && c.Stamping?)
    ensures Restores(policy, sh, c, Do(policy, sh, w, c, act), p)
  {
    hide Decide, Off, DoRead, DoWrite, DoVerify, DoRecordDrift, DoCheckCooldown, DoCheckConflict, DoRecordRemediation,
      Restores;
    IdlingRestores(policy, sh, c, p);
    match act
    case ReadValue(ok) =>
      if c.Reading? {
        ReadRestores(policy, sh, c, ok, p);
      }
    case WriteValue(ok) =>
      if c.Writing? {
        WriteRestores(policy, sh, c, ok, p);
      }
    case Verify(ok) =>
      if c.Verifying? {
        VerifyRestores(policy, sh, c, ok, p);
      }
    case RecordDrift =>
      if c.Recording? {
        ChecksRestore(policy, sh, c, p);
      }
    case CheckCooldown =>
      if c.Cooling? {
        ChecksRestore(policy, sh, c, p);
      }
    case CheckConflict =>
      if c.Checking? {
        ChecksRestore(policy, sh, c, p);
      }
    case _ =>
      SmallStepsRestore(policy, sh, w, c, act, p);
  }

  lemma IdlingRestores(policy: Policy, sh: Shared, c: Worker, p: string)
    ensures Restores(policy, sh, c, Moved(c, sh), p)
  {
    hide Off;
  }

  lemma SmallStepsRestore(policy: Policy, sh: Shared, w: nat, c: Worker, act: Act, p: string)
    requires Covered(policy, c)
             && (act.Take? || act.Evaluate? || act.Settle? || (act.RecordRemediation? && !c.Stamping?))
    ensures Restores(policy, sh, c, Do(policy, sh, w, c, act), p)
  {
    hide Decide, Off, DoRead, DoWrite, DoVerify, DoRecordDrift, DoCheckCooldown, DoCheckConflict, DoRecordRemediation;
  }

  lemma DoneUnchanged(sh: Shared, sh': Shared, p: string, v: nat)
    requires sh'.stamps == sh.stamps && sh'.externalDrifts == sh.externalDrifts
    ensures DoneBy(sh', p, v) == DoneBy(sh, p, v) && ExternalDrifts(sh', p) == ExternalDrifts(sh, p)
  {
  }

  /** The mover's account: its step spends at most what it has. */
  lemma MoverPays(policy: Policy, sh: Shared, w: nat, c: Worker, act: Act, p: string, opening: int)
    requires Covered(policy, c) && Paid(policy, sh, p, w, c, opening)
    ensures Paid(policy, Do(policy, sh, w, c, act).shared, p, w, Do(policy, sh, w, c, act).worker, opening)
  {
    hide Do, Off, DoneBy, ExternalDrifts;
    var m := Do(policy, sh, w, c, act);
    if act.RecordRemediation? && c.Stamping? {
      RecordSpends(policy, sh, w, c.ev, c.clearance, p, w);
    } else {
      OthersRestore(policy, sh, w, c, act, p);
      DoneUnchanged(sh, m.shared, p, w);
    }
  }

  lemma RecordSpends(policy: Policy, sh: Shared, w: nat, ev: Event, cl: Clearance, p: string, v: nat)
    ensures
      var m := DoRecordRemediation(sh, w, ev, cl);
      && m.worker.Settling? && m.shared.values == sh.values
      && ExternalDrifts(m.shared, p) == ExternalDrifts(sh, p)
      && DoneBy(m.shared, p, v) == DoneBy(sh, p, v) + One(ev.param == p && v == w)
    ensures forall c: Worker :: c.Stamping? && c.ev == ev && c.clearance == cl && Covered(policy, c) ==>
      Do(policy, sh, w, c, RecordRemediation) == DoRecordRemediation(sh, w, ev, cl)
  {
    hide CountBy;
    DoneAfterRecord(sh, w, ev, cl, p, v);
  }

  /** Nobody else's account suffers: a worker only ever restores expected values. */
  lemma OthersStayPaid(policy: Policy, sh: Shared, w: nat, c: Worker, act: Act, p: string, v: nat, d: Worker,
                       opening: int)
    requires Covered(policy, c) && v != w && Paid(policy, sh, p, v, d, opening)
    ensures Paid(policy, Do(policy, sh, w, c, act).shared, p, v, d, opening)
  {
    hide Do, Off, DoneBy, ExternalDrifts;
    var m := Do(policy, sh, w, c, act);
    if act.RecordRemediation? && c.Stamping? {
      RecordSpends(policy, sh, w, c.ev, c.clearance, p, v);
    } else {
      OthersRestore(policy, sh, w, c, act, p);
      DoneUnchanged(sh, m.shared, p, v);
    }
  }

  lemma ExternalPays(policy: Policy, sh: Shared, param: string, value: string, p: string, v: nat, d: Worker,
                     opening: int)
    requires Paid(policy, sh, p, v, d, opening)
    ensures Paid(policy, DoExternal(policy, sh, param, value), p, v, d, opening)
  {
    hide CountBy;
  }

  lemma StepPays(policy: Policy, s: State, step: Step, p: string, v: nat, opening: int)
    requires v < |s.workers| && Paid(policy, s.shared, p, v, s.workers[v], opening)
    ensures
      var s' := Next(policy, s, step);
      |s'.workers| == |s.workers| && Paid(policy, s'.shared, p, v, s'.workers[v], opening)
  {
    hide Do, Paid, DoExternal;
    match step
    case Tick(now) =>
      ClockIsFree(policy, s.shared, Next(policy, s, step).shared, p, v, s.workers[v], opening);
    case External(param, value) =>
      ExternalPays(policy, s.shared, param, value, p, v, s.workers[v], opening);
    case Work(w, act) =>
      if w < |s.workers| && Covered(policy, s.workers[w]) {
        if v == w {
          MoverPays(policy, s.shared, w, s.workers[w], act, p, opening);
        } else {
          OthersStayPaid(policy, s.shared, w, s.workers[w], act, p, v, s.workers[v], opening);
        }
      }
  }

  lemma ClockIsFree(policy: Policy, sh: Shared, sh': Shared, p: string, w: nat, c: Worker, opening: int)
    requires Paid(policy, sh, p, w, c, opening)
    requires sh' == sh.(clock := sh'.clock)
    ensures Paid(policy, sh', p, w, c, opening)
  {
    hide CountBy;
  }

  lemma {:induction false} RunPays(start: Start, steps: seq<Step>, j: nat, k: nat, p: string, w: nat, opening: int)
    requires j <= k <= |steps| && w < |Run(start, steps, j).workers|
    requires Paid(start.policy, Run(start, steps, j).shared, p, w, Run(start, steps, j).workers[w], opening)
    ensures w < |Run(start, steps, k).workers|
    ensures Paid(start.policy, Run(start, steps, k).shared, p, w, Run(start, steps, k).workers[w], opening)
  {
    hide Next, Paid;
    if j < k {
      RunPays(start, steps, j, k - 1, p, w, opening);
      StepPays(start.policy, Run(start, steps, k - 1), steps[k - 1], p, w, opening);
    }
  }

  /** Over any stretch of any interleaving a worker completes no more remediations of a parameter than
      outside writes left it off its expected value within that stretch, and those it had credit for when
      the stretch began: one if it had seen a drift or one was there to see, and one if it had verified
      a remediation and not recorded it yet. */
  lemma RemediationsWithin(start: Start, steps: seq<Step>, j: nat, k: nat, p: string, w: nat)
    requires j <= k <= |steps| && w < start.workers
    ensures
      var a, b := Run(start, steps, j), Run(start, steps, k);
      && |a.workers| == start.workers
      && DoneBy(b.shared, p, w) - DoneBy(a.shared, p, w)
         <= ExternalDrifts(b.shared, p) - ExternalDrifts(a.shared, p) + Credit(start.policy, a.shared, p, a.workers[w])
  {
    hide Run, DoneBy, Credit, ExternalDrifts;
    WorkersAreFixed(start, steps, j);
    var a := Run(start, steps, j);
    RunPays(start, steps, j, k, p, w,
            DoneBy(a.shared, p, w) + Credit(start.policy, a.shared, p, a.workers[w]) - ExternalDrifts(a.shared, p));
  }

  // ----- between two remediations -----

  /** Step `i` is an outside write that leaves the parameter off its expected value. */
  ghost predicate LeavesOff(start: Start, steps: seq<Step>, i: nat, p: string)
    requires i < |steps|
  {
    && steps[i].External? && steps[i].param == p
    && p in start.policy.sysctl && steps[i].value != start.policy.sysctl[p].expected
  }

  /** Step `i` is the one in which worker `w` records a remediation of the parameter. */
  ghost predicate Remediates(start: Start, steps: seq<Step>, i: nat, p: string, w: nat)
    requires i < |steps|
  {
    var s := Run(start, steps, i);
    steps[i] == Work(w, RecordRemediation) && w < |s.workers| && s.workers[w].Stamping? && s.workers[w].ev.param == p
  }

  /** Step `i` is the one in which worker `w` finds a remediation of the parameter in effect. */
  ghost predicate Verifies(start: Start, steps: seq<Step>, i: nat, p: string, w: nat)
    requires i < |steps|
  {
    var s, s' := Run(start, steps, i), Run(start, steps, i + 1);
    && steps[i].Work? && steps[i].w == w && w < |s.workers| && s.workers[w].Verifying?
    && w < |s'.workers| && s'.workers[w].Stamping? && s'.workers[w].ev.param == p
  }

  lemma DriftStep(start: Start, steps: seq<Step>, i: nat, p: string)
    requires i < |steps|
    ensures ExternalDrifts(Run(start, steps, i + 1).shared, p)
         == ExternalDrifts(Run(start, steps, i).shared, p) + One(LeavesOff(start, steps, i, p))
  {
    hide Do;
    var s, step := Run(start, steps, i), steps[i];
    if step.Work? && step.w < |s.workers| && Covered(start.policy, s.workers[step.w]) {
      WorkLeavesDrifts(start.policy, s.shared, step.w, s.workers[step.w], step.act, p);
    }
  }

  lemma WorkLeavesDrifts(policy: Policy, sh: Shared, w: nat, c: Worker, act: Act, p: string)
    requires Covered(policy, c)
    ensures Do(policy, sh, w, c, act).shared.externalDrifts == sh.externalDrifts
  {
    if act.RecordRemediation? && c.Stamping? {
      hide Of;
    } else {
      hide Do;
      OthersRestore(policy, sh, w, c, act, p);
    }
  }

  /** The outside drifts of a parameter grow exactly when one happens. */
  lemma {:induction false} DriftsGrowIff(start: Start, steps: seq<Step>, j: nat, k: nat, p: string)
    requires j <= k <= |steps|
    ensures ExternalDrifts(Run(start, steps, j).shared, p) <= ExternalDrifts(Run(start, steps, k).shared, p)
    ensures ExternalDrifts(Run(start, steps, j).shared, p) < ExternalDrifts(Run(start, steps, k).shared, p)
            <==> exists i :: j <= i < k && LeavesOff(start, steps, i, p)
  {
    hide Run, ExternalDrifts, LeavesOff;
    if j < k {
      DriftsGrowIff(start, steps, j, k - 1, p);
      DriftStep(start, steps, k - 1, p);
      if LeavesOff(start, steps, k - 1, p) {
        assert j <= k - 1 < k;
      }
    }
  }

  /** A step completes a remediation exactly when it records one. */
  lemma DoneStep(start: Start, steps: seq<Step>, i: nat, p: string, w: nat)
    requires i < |steps|
    ensures DoneBy(Run(start, steps, i + 1).shared, p, w)
         == DoneBy(Run(start, steps, i).shared, p, w) + One(Remediates(start, steps, i, p, w))
  {
    hide Do, DoneBy, Lawful, Honest;
    var s, step := Run(start, steps, i), steps[i];
    RunIsLawful(start, steps, i);
    match step
    case Tick(now) =>
      DoneReads(Run(start, steps, i + 1).shared, s.shared, p, w);
    case External(param, value) =>
      DoneReads(Run(start, steps, i + 1).shared, s.shared, p, w);
    case Work(v, act) =>
      if v < |s.workers| {
        assert Lawful(start.policy, s.workers[v]);
        LawfulIsCovered(start.policy, s.workers[v]);
        DoneByWork(start.policy, s.shared, v, s.workers[v], act, p, w);
      }
  }

  lemma DoneReads(sh: Shared, sh': Shared, p: string, w: nat)
    requires sh.stamps == sh'.stamps
    ensures DoneBy(sh, p, w) == DoneBy(sh', p, w)
  {
  }

  lemma LawfulIsCovered(policy: Policy, c: Worker)
    requires Lawful(policy, c)
    ensures Covered(policy, c)
  {
  }

  lemma DoneByWork(policy: Policy, sh: Shared, v: nat, c: Worker, act: Act, p: string, w: nat)
    requires Covered(policy, c)
    ensures DoneBy(Do(policy, sh, v, c, act).shared, p, w)
         == DoneBy(sh, p, w) + One(v == w && act.RecordRemediation? && c.Stamping? && c.ev.param == p)
  {
    hide Do, DoneBy;
    if act.RecordRemediation? && c.Stamping? {
      RecordSpends(policy, sh, v, c.ev, c.clearance, p, w);
    } else {
      OthersRestore(policy, sh, v, c, act, p);
      DoneReads(sh, Do(policy, sh, v, c, act).shared, p, w);
    }
  }

  lemma NoneAtFirst(start: Start, steps: seq<Step>, p: string, w: nat)
    ensures ExternalDrifts(Run(start, steps, 0).shared, p) == 0 && DoneBy(Run(start, steps, 0).shared, p, w) == 0
  {
  }

  /** Drifting outside writes are counted one by one. */
  lemma {:induction false} DriftsAreCounted(start: Start, steps: seq<Step>, k: nat, p: string)
    requires k <= |steps|
    ensures ExternalDrifts(Run(start, steps, k).shared, p) == |set i: nat | i < k && LeavesOff(start, steps, i, p)|
  {
    hide LeavesOff, Run, ExternalDrifts;
    var drifts := set i: nat | i < k && LeavesOff(start, steps, i, p);
    if k == 0 {
      NoneAtFirst(start, steps, p, 0);
      assert drifts == {};
    } else {
      DriftsAreCounted(start, steps, k - 1, p);
      DriftStep(start, steps, k - 1, p);
      var before := set i: nat | i < k - 1 && LeavesOff(start, steps, i, p);
      assert drifts == before + if LeavesOff(start, steps, k - 1, p) then {k - 1} else {};
    }
  }

  /** And so are the remediations of a worker. */
  lemma {:induction false} RemediationsAreCounted(start: Start, steps: seq<Step>, k: nat, p: string, w: nat)
    requires k <= |steps|
    ensures DoneBy(Run(start, steps, k).shared, p, w) == |set i: nat | i < k && Remediates(start, steps, i, p, w)|
  {
    hide Remediates, Run, DoneBy;
    var done := set i: nat | i < k && Remediates(start, steps, i, p, w);
    if k == 0 {
      NoneAtFirst(start, steps, p, w);
      assert done == {};
    } else {
      RemediationsAreCounted(start, steps, k - 1, p, w);
      DoneStep(start, steps, k - 1, p, w);
      var before := set i: nat | i < k - 1 && Remediates(start, steps, i, p, w);
      assert done == before + if Remediates(start, steps, k - 1, p, w) then {k - 1} else {};
    }
  }

  lemma {:induction false} DoneGrows(start: Start, steps: seq<Step>, j: nat, k: nat, p: string, w: nat)
    requires j <= k <= |steps|
    ensures DoneBy(Run(start, steps, j).shared, p, w) <= DoneBy(Run(start, steps, k).shared, p, w)
  {
    hide Run, DoneBy, Remediates;
    if j < k {
      DoneGrows(start, steps, j, k - 1, p, w);
      DoneStep(start, steps, k - 1, p, w);
    }
  }

  /** Two remediations recorded from step `v` on, with the parameter as expected at `v` and only the first
      of them verified by then: an outside write came in between. */
  lemma DriftAmong(start: Start, steps: seq<Step>, v: nat, a: nat, b: nat, p: string, w: nat)
    requires v <= a < b < |steps| && w < start.workers
    requires !Off(start.policy, Run(start, steps, v).shared.values, p)
    requires w < |Run(start, steps, v).workers| && Run(start, steps, v).workers[w].Stamping?
    requires Remediates(start, steps, a, p, w) && Remediates(start, steps, b, p, w)
    ensures exists i :: v <= i < b && LeavesOff(start, steps, i, p)
  {
    hide Run, DoneBy, ExternalDrifts, Off, Remediates;
    RemediationsWithin(start, steps, v, b + 1, p, w);
    DoneGrows(start, steps, v, a, p, w);
    DoneStep(start, steps, a, p, w);
    DoneGrows(start, steps, a + 1, b, p, w);
    DoneStep(start, steps, b, p, w);
    DriftsGrowIff(start, steps, v, b + 1, p);
    var i :| v <= i < b + 1 && LeavesOff(start, steps, i, p);
    assert steps[b].Work? by { RecordingIsWork(start, steps, b, p, w); }
  }

  lemma RecordingIsWork(start: Start, steps: seq<Step>, i: nat, p: string, w: nat)
    requires i < |steps| && Remediates(start, steps, i, p, w)
    ensures steps[i].Work?
  {
  }

  /** The agent does not feed itself. In every interleaving, between the verification of one remediation
      and a worker's next remediation of the same parameter, some outside write left the parameter off
      its expected value. */
  lemma DriftBetweenRemediations(start: Start, steps: seq<Step>, v: nat, a: nat, b: nat, p: string, w: nat)
    requires v < a < b < |steps| && w < start.workers
    requires Verifies(start, steps, v, p, w)
    requires Remediates(start, steps, a, p, w) && Remediates(start, steps, b, p, w)
    ensures exists i :: v < i < b && LeavesOff(start, steps, i, p)
  {
    hide Run, Remediates, LeavesOff, Off;
    VerifiedIsRestored(start, steps, v, p, w);
    DriftAmong(start, steps, v + 1, a, b, p, w);
    var i :| v + 1 <= i < b && LeavesOff(start, steps, i, p);
  }

  lemma VerifiedIsRestored(start: Start, steps: seq<Step>, v: nat, p: string, w: nat)
    requires v < |steps| && Verifies(start, steps, v, p, w)
    ensures !Off(start.policy, Run(start, steps, v + 1).shared.values, p)
    ensures w < |Run(start, steps, v + 1).workers| && Run(start, steps, v + 1).workers[w].Stamping?
  {
    hide Do, Off;
    var s, act := Run(start, steps, v), steps[v].act;
    if Covered(start.policy, s.workers[w]) {
      if act.Verify? {
        VerifiedValue(start.policy, s.shared, w, s.workers[w], act.ok, p);
      } else {
        OthersRestore(start.policy, s.shared, w, s.workers[w], act, p);
      }
    }
  }

  lemma VerifiedValue(policy: Policy, sh: Shared, w: nat, c: Worker, ok: bool, p: string)
    requires Covered(policy, c) && c.Verifying?
    requires Do(policy, sh, w, c, Verify(ok)).worker.Stamping? && Do(policy, sh, w, c, Verify(ok)).worker.ev.param == p
    ensures !Off(policy, Do(policy, sh, w, c, Verify(ok)).shared.values, p)
  {
  }

  // ----- one worker, with outside writes between its events -----

  /** A sequential run: one worker, and nobody else writes while it processes an event. */
  ghost predicate Sequential(start: Start, steps: seq<Step>) {
    && start.workers == 1
    && forall i :: 0 <= i < |steps| && steps[i].External? ==>
         |Run(start, steps, i).workers| == 1 && Run(start, steps, i).workers[0].Idle?
  }

  ghost predicate RestoredWhenVerified(policy: Policy, s: State) {
    |s.workers| == 1 && (s.workers[0].Stamping? ==> !Off(policy, s.shared.values, s.workers[0].ev.param))
  }

  lemma {:induction false} SequentialRunRestores(start: Start, steps: seq<Step>, k: nat)
    requires Sequential(start, steps) && k <= |steps|
    ensures RestoredWhenVerified(start.policy, Run(start, steps, k))
  {
    hide Do, Off;
    if k > 0 {
      SequentialRunRestores(start, steps, k - 1);
      var s, step := Run(start, steps, k - 1), steps[k - 1];
      if step.Work? && step.w == 0 && Covered(start.policy, s.workers[0]) {
        var c := s.workers[0];
        if step.act.RecordRemediation? && c.Stamping? {
          RecordSpends(start.policy, s.shared, 0, c.ev, c.clearance, c.ev.param, 0);
        } else {
          var m := Do(start.policy, s.shared, 0, c, step.act);
          if m.worker.Stamping? {
            OthersRestore(start.policy, s.shared, 0, c, step.act, m.worker.ev.param);
          }
        }
      }
    }
  }

  /** Sequentially, an outside write lies strictly between any two remediations of a parameter. */
  lemma SequentialDriftBetween(start: Start, steps: seq<Step>, a: nat, b: nat, p: string)
    requires Sequential(start, steps) && a < b < |steps|
    requires Remediates(start, steps, a, p, 0) && Remediates(start, steps, b, p, 0)
    ensures exists i :: a < i < b && LeavesOff(start, steps, i, p)
  {
    hide Run, Off;
    SequentialRunRestores(start, steps, a);
    DriftAmong(start, steps, a, a, b, p, 0);
    var i :| a <= i < b && LeavesOff(start, steps, i, p);
  }

  // ----- all workers together -----

  /** How many of the first `n` remediations are by the first `m` workers. */
  function CountBelow(stamps: seq<Stamp>, n: nat, m: nat): nat
    requires n <= |stamps|
  {
    if m == 0 then 0 else CountBelow(stamps, n, m - 1) + CountBy(stamps, n, m - 1)
  }

  lemma {:induction false} EveryStampIsSomeones(stamps: seq<Stamp>, n: nat, m: nat)
    requires n <= |stamps| && forall i :: 0 <= i < n ==> stamps[i].worker < m
    ensures CountBelow(stamps, n, m) == n
  {
    if n == 0 {
      NothingToCount(stamps, m);
    } else {
      EveryStampIsSomeones(stamps, n - 1, m);
      OneMore(stamps, n, m);
    }
  }

  lemma {:induction false} NothingToCount(stamps: seq<Stamp>, m: nat)
    ensures CountBelow(stamps, 0, m) == 0
  {
    if m > 0 {
      NothingToCount(stamps, m - 1);
    }
  }

  lemma {:induction false} OneMore(stamps: seq<Stamp>, n: nat, m: nat)
    requires 0 < n <= |stamps|
    ensures CountBelow(stamps, n, m) == CountBelow(stamps, n - 1, m) + One(stamps[n - 1].worker < m)
  {
    if m > 0 {
      OneMore(stamps, n, m - 1);
    }
  }

  /** The credit of the first `m` workers. */
  function TotalCredit(policy: Policy, s: State, p: string, m: nat): nat
    requires m <= |s.workers|
  {
    if m == 0 then 0 else TotalCredit(policy, s, p, m - 1) + Credit(policy, s.shared, p, s.workers[m - 1])
  }

  lemma {:induction false} BoundedTogether(policy: Policy, s: State, p: string, before: seq<Stamp>, after: seq<Stamp>,
                                           m: nat, drifts: nat)
    requires m <= |s.workers|
    requires forall w: nat :: w < m ==>
      CountBy(after, |after|, w) <= CountBy(before, |before|, w) + drifts + Credit(policy, s.shared, p, s.workers[w])
    ensures CountBelow(after, |after|, m) <= CountBelow(before, |before|, m) + m * drifts + TotalCredit(policy, s, p, m)
  {
    hide CountBy, Credit;
    if m > 0 {
      BoundedTogether(policy, s, p, before, after, m - 1, drifts);
      assert m * drifts == (m - 1) * drifts + drifts;
    }
  }

  ghost predicate AllNamed(stamps: map<string, seq<Stamp>>, n: nat) {
    forall p, i :: p in stamps && 0 <= i < |stamps[p]| ==> stamps[p][i].worker < n
  }

  ghost predicate WorkersNamed(s: State) {
    AllNamed(s.shared.stamps, |s.workers|)
  }

  function Appended(stamps: map<string, seq<Stamp>>, p: string, st: Stamp): map<string, seq<Stamp>> {
    stamps[p := Of(stamps, p) + [st]]
  }

  lemma StampsChange(policy: Policy, sh: Shared, w: nat, c: Worker, act: Act)
    requires Covered(policy, c)
    ensures
      var m := Do(policy, sh, w, c, act);
      m.shared.stamps == sh.stamps
      || (c.Stamping? && m.shared.stamps == Appended(sh.stamps, c.ev.param, Stamp(w, c.ev, c.clearance, sh.clock)))
  {
    hide Of, Off;
    if act.RecordRemediation? && c.Stamping? {
      RecordSpends(policy, sh, w, c.ev, c.clearance, c.ev.param, w);
    } else {
      hide Do;
      OthersRestore(policy, sh, w, c, act, "");
    }
  }

  lemma StepKeepsNamed(policy: Policy, s: State, step: Step)
    requires WorkersNamed(s)
    ensures WorkersNamed(Next(policy, s, step))
  {
    hide Do, Of;
    if step.Work? && step.w < |s.workers| && Covered(policy, s.workers[step.w]) {
      var c := s.workers[step.w];
      StampsChange(policy, s.shared, step.w, c, step.act);
      StampedIsNamed(s.shared.stamps, Do(policy, s.shared, step.w, c, step.act).shared.stamps, c, step.w, |s.workers|);
    }
  }

  lemma StampedIsNamed(stamps: map<string, seq<Stamp>>, stamps': map<string, seq<Stamp>>, c: Worker, w: nat, n: nat)
    requires w < n && AllNamed(stamps, n)
    requires stamps' == stamps
             || (c.Stamping? && exists st: Stamp :: st.worker == w && stamps' == Appended(stamps, c.ev.param, st))
    ensures AllNamed(stamps', n)
  {
  }

  lemma {:induction false} WorkersAreNamed(start: Start, steps: seq<Step>, k: nat)
    requires k <= |steps|
    ensures WorkersNamed(Run(start, steps, k))
  {
    hide Next, WorkersNamed;
    if k == 0 {
      NobodyIsNamed(start);
    } else {
      WorkersAreNamed(start, steps, k - 1);
      StepKeepsNamed(start.policy, Run(start, steps, k - 1), steps[k - 1]);
    }
  }

  lemma NobodyIsNamed(start: Start)
    ensures WorkersNamed(Initial(start))
  {
  }

  /** All workers together, over any stretch: at most n remediations per drifting outside write, and what
      the workers had credit for. */
  lemma RemediationsArePaidFor(start: Start, steps: seq<Step>, j: nat, k: nat, p: string)
    requires j <= k <= |steps|
    ensures
      var a, b := Run(start, steps, j), Run(start, steps, k);
      && |a.workers| == start.workers
      && |Of(b.shared.stamps, p)| - |Of(a.shared.stamps, p)|
         <= start.workers * (ExternalDrifts(b.shared, p) - ExternalDrifts(a.shared, p))
           + TotalCredit(start.policy, a, p, start.workers)
  {
    hide Run, Off, CountBy, CountBelow, Credit, TotalCredit, ExternalDrifts;
    var a, b, n := Run(start, steps, j), Run(start, steps, k), start.workers;
    var before, after := Of(a.shared.stamps, p), Of(b.shared.stamps, p);
    WorkersAreFixed(start, steps, j);
    WorkersAreFixed(start, steps, k);
    WorkersAreNamed(start, steps, j);
    WorkersAreNamed(start, steps, k);
    EveryStampIsSomeones(before, |before|, n);
    EveryStampIsSomeones(after, |after|, n);
    DriftsGrowIff(start, steps, j, k, p);
    var drifts: nat := ExternalDrifts(b.shared, p) - ExternalDrifts(a.shared, p);
    forall w: nat | w < n
      ensures CountBy(after, |after|, w)
              <= CountBy(before, |before|, w) + drifts + Credit(start.policy, a.shared, p, a.workers[w])
    {
      RemediationsWithin(start, steps, j, k, p, w);
    }
    BoundedTogether(start.policy, a, p, before, after, n, drifts);
  }

  /** From the start: each worker completes at most one remediation per drifting outside write, and one
      more if the parameter started off. */
  lemma RemediationsSinceStart(start: Start, steps: seq<Step>, k: nat, p: string)
    requires k <= |steps|
    ensures
      var sh := Run(start, steps, k).shared;
      |Of(sh.stamps, p)| <= start.workers * (ExternalDrifts(sh, p) + One(Off(start.policy, start.values, p)))
  {
    hide Off, Next;
    RemediationsArePaidFor(start, steps, 0, k, p);
    IdleCredit(start.policy, Initial(start), p, start.workers);
    var d, o := ExternalDrifts(Run(start, steps, k).shared, p), One(Off(start.policy, start.values, p));
    assert start.workers * (d + o) == start.workers * d + start.workers * o;
  }

  lemma {:induction false} IdleCredit(policy: Policy, s: State, p: string, m: nat)
    requires m <= |s.workers| && forall w :: 0 <= w < m ==> s.workers[w].Idle?
    ensures TotalCredit(policy, s, p, m) == m * One(Off(policy, s.shared.values, p))
  {
    hide Off;
    if m > 0 {
      IdleCredit(policy, s, p, m - 1);
      var o := One(Off(policy, s.shared.values, p));
      assert m * o == (m - 1) * o + o;
    }
  }
}
