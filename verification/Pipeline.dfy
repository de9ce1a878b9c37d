/** The decision pipeline under concurrency (agent/worker.go): any number of workers take events and run
    `processEvent` over the shared managers. Every section under a lock, every system call and every
    clock reading is one step; a run is any sequence of steps, those that are not enabled having no
    effect. The clock never goes back. */
module Pipeline {
  import opened Common
  import opened Evaluator
  import Conflict
  import Cooldown

  const CONFLICT_WINDOW: int := 10 * SECOND
  const CONFLICT_THRESHOLD: int := 3

  datatype Policy = Policy(sysctl: map<string, SysctlPolicy>, global: GlobalConfig)

  /** A queued event; `param` is the resolved name, empty if the path is not a sysctl, and the last two
      fields are what matching the process against the policy's lists yields. */
  datatype Event = Event(own: bool, access: string, param: string, process: string, trusted: bool, allowed: bool)

  /** The events the pipeline does not drop at once. */
  predicate Relevant(policy: Policy, ev: Event) {
    !ev.own && ev.access == "WRITE" && ev.param != "" && ev.param in policy.sysctl
  }

  function Expected(policy: Policy, param: string): string
    requires param in policy.sysctl
  {
    policy.sysctl[param].expected
  }

  /** The cooldown of a parameter: its own, or the global one when it has none. */
  function CooldownOf(policy: Policy, param: string): int
    requires param in policy.sysctl
  {
    if policy.sysctl[param].cooldown == 0 then policy.global.defaultCooldown else policy.sysctl[param].cooldown
  }

  lemma CooldownIs(policy: Policy, param: string)
    requires param in policy.sysctl
    ensures policy.sysctl[param].cooldown != 0 ==> CooldownOf(policy, param) == policy.sysctl[param].cooldown
    ensures policy.sysctl[param].cooldown == 0 ==> CooldownOf(policy, param) == policy.global.defaultCooldown
  {
  }

  function Decide(policy: Policy, ev: Event, intel: EventIntel): Action
    requires ev.param in policy.sysctl
  {
    var entry := policy.sysctl[ev.param];
    var ctx := Context(entry.category, entry.criticality, ev.trusted, ev.allowed, true, intel);
    EvaluateDecision(ctx, entry, policy.global).action
  }

  /** The drift record a worker made: its place in the history of its parameter, and its time. */
  datatype Ticket = Ticket(index: nat, recorded: int)

  /** A cooldown check that was passed: how many remediations of the parameter it saw, and its time. */
  datatype Clearance = Clearance(seen: nat, checked: int)

  /** What is reported to the reputation of the process. */
  datatype Outcome = Outcome(ev: Event, wasDrift: bool, action: Action, cooldownApplied: bool, conflictDetected: bool)

  /** Where a worker stands, with the local variables it still needs. */
  datatype Worker =
    | Idle
    | Reading(ev: Event)
    | Deciding(ev: Event)
    | Recording(ev: Event, action: Action)
    | Cooling(ev: Event, ticket: Ticket)                    // decided to remediate; about to check the cooldown
    | Checking(ev: Event, ticket: Ticket, action: Action, cooled: bool, clearance: Clearance)
    | Writing(ev: Event, clearance: Clearance)
    | Verifying(ev: Event, clearance: Clearance)
    | Stamping(ev: Event, clearance: Clearance)              // verified; about to record the remediation
    | Settling(outcome: Outcome)

  /** An event that came out of the conflict check still to be remediated. */
  datatype Pass = Pass(ticket: Ticket, checked: int, seen: nat)

  /** A recorded remediation. */
  datatype Stamp = Stamp(worker: nat, ev: Event, clearance: Clearance, time: int)

  /** What the workers share, with the histories of what they did. */
  datatype Shared = Shared(
    clock: int,
    events: Conflict.Events,               // the conflict manager
    lastRemediated: map<string, int>,      // the cooldown manager
    values: map<string, string>,           // the system's parameters
    drifts: Conflict.Events,               // all drift records ever made
    passes: map<string, seq<Pass>>,
    stamps: map<string, seq<Stamp>>,       // all remediations ever recorded
    externalDrifts: map<string, nat>,      // outside writes of an unexpected value
    outcomes: seq<Outcome>
  )

  datatype State = State(workers: seq<Worker>, shared: Shared)

  datatype Step =
    | Tick(now: int)
    | External(param: string, value: string)
    | Work(w: nat, act: Act)

  /** One step of one worker, with what comes from outside: the event it takes, whether a system call
      succeeds, and what the statistics say. */
  datatype Act =
    | Take(ev: Event)
    | ReadValue(ok: bool)
    | Evaluate(intel: EventIntel)
    | RecordDrift
    | CheckCooldown
    | CheckConflict
    | WriteValue(ok: bool)
    | Verify(ok: bool)
    | RecordRemediation
    | Settle

  function Of<T>(m: map<string, seq<T>>, param: string): seq<T> {
    if param in m then m[param] else []
  }

  function ExternalDrifts(sh: Shared, param: string): nat {
    if param in sh.externalDrifts then sh.externalDrifts[param] else 0
  }

  /** The parameter is set to something it should not be. */
  predicate Off(policy: Policy, values: map<string, string>, param: string) {
    param in policy.sysctl && param in values && values[param] != Expected(policy, param)
  }

  /** A worker past the first filter has an event the policy covers. */
  predicate Covered(policy: Policy, c: Worker) {
    !c.Idle? && !c.Settling? ==> Relevant(policy, c.ev)
  }

  /** A worker and the shared state after one step of it. */
  datatype Moved = Moved(worker: Worker, shared: Shared)

  function DoRead(policy: Policy, sh: Shared, ev: Event, ok: bool): Moved
    requires ev.param in policy.sysctl
  {
    if !ok || ev.param !in sh.values then Moved(Idle, sh)
    else if sh.values[ev.param] == Expected(policy, ev.param) then
      Moved(Settling(Outcome(ev, false, Allow, false, false)), sh)
    else Moved(Deciding(ev), sh)
  }

  function DoRecordDrift(sh: Shared, ev: Event, action: Action): Moved {
    var ticket := Ticket(|Conflict.Timestamps(sh.drifts, ev.param)|, sh.clock);
    Moved(
      if action == Remediate then Cooling(ev, ticket) else Checking(ev, ticket, action, false, Clearance(0, sh.clock)),
      sh.(events := Conflict.Recorded(sh.events, ev.param, sh.clock),
          drifts := Conflict.Recorded(sh.drifts, ev.param, sh.clock)))
  }

  function DoCheckCooldown(policy: Policy, sh: Shared, ev: Event, ticket: Ticket): Moved
    requires ev.param in policy.sysctl
  {
    var clearance := Clearance(|Of(sh.stamps, ev.param)|, sh.clock);
    var cooled := Cooldown.Cooling(sh.lastRemediated, ev.param, sh.clock, CooldownOf(policy, ev.param));
    Moved(Checking(ev, ticket, if cooled then Alert else Remediate, cooled, clearance), sh)
  }

  function DoCheckConflict(sh: Shared, c: Worker): Moved
    requires c.Checking?
  {
    var param := c.ev.param;
    var conflicting := Conflict.Conflicting(sh.events, param, sh.clock, CONFLICT_WINDOW, CONFLICT_THRESHOLD);
    var pruned := Conflict.Pruned(sh.events, param, sh.clock - CONFLICT_WINDOW);
    if c.action == Remediate && !conflicting then
      var pass := Pass(c.ticket, sh.clock, |Conflict.Timestamps(sh.drifts, param)|);
      Moved(Writing(c.ev, c.clearance),
            sh.(events := pruned, passes := sh.passes[param := Of(sh.passes, param) + [pass]]))
    else
      Moved(Settling(Outcome(c.ev, true, if c.action == Remediate then Alert else c.action, c.cooled, conflicting)),
        sh.(events := pruned))
  }

  function Failed(ev: Event): Worker {
    Settling(Outcome(ev, true, Alert, false, false))
  }

  /** A failed command leaves the value alone. */
  function DoWrite(policy: Policy, sh: Shared, ev: Event, clearance: Clearance, ok: bool): Moved
    requires ev.param in policy.sysctl
  {
    if ok && ev.param in sh.values then
      Moved(Verifying(ev, clearance), sh.(values := sh.values[ev.param := Expected(policy, ev.param)]))
    else Moved(Failed(ev), sh)
  }

  function DoVerify(policy: Policy, sh: Shared, ev: Event, clearance: Clearance, ok: bool): Moved
    requires ev.param in policy.sysctl
  {
    if ok && ev.param in sh.values && sh.values[ev.param] == Expected(policy, ev.param) then
      Moved(Stamping(ev, clearance), sh)
    else Moved(Failed(ev), sh)
  }

  function DoRecordRemediation(sh: Shared, w: nat, ev: Event, clearance: Clearance): Moved {
    Moved(Settling(Outcome(ev, true, Remediate, false, false)),
      sh.(lastRemediated := sh.lastRemediated[ev.param := sh.clock],
          stamps := sh.stamps[ev.param := Of(sh.stamps, ev.param) + [Stamp(w, ev, clearance, sh.clock)]]))
  }

  /** The step of worker `w`, which stands at `c`. */
  function Do(policy: Policy, sh: Shared, w: nat, c: Worker, act: Act): Moved
    requires Covered(policy, c)
  {
    match act
    case Take(ev) => if c.Idle? && Relevant(policy, ev) then Moved(Reading(ev), sh) else Moved(c, sh)
    case ReadValue(ok) => if c.Reading? then DoRead(policy, sh, c.ev, ok) else Moved(c, sh)
    case Evaluate(intel) =>
      if c.Deciding? then Moved(Recording(c.ev, Decide(policy, c.ev, intel)), sh) else Moved(c, sh)
    case RecordDrift => if c.Recording? then DoRecordDrift(sh, c.ev, c.action) else Moved(c, sh)
    case CheckCooldown => if c.Cooling? then DoCheckCooldown(policy, sh, c.ev, c.ticket) else Moved(c, sh)
    case CheckConflict => if c.Checking? then DoCheckConflict(sh, c) else Moved(c, sh)
    case WriteValue(ok) => if c.Writing? then DoWrite(policy, sh, c.ev, c.clearance, ok) else Moved(c, sh)
    case Verify(ok) => if c.Verifying? then DoVerify(policy, sh, c.ev, c.clearance, ok) else Moved(c, sh)
    case RecordRemediation => if c.Stamping? then DoRecordRemediation(sh, w, c.ev, c.clearance) else Moved(c, sh)
    case Settle => if c.Settling? then Moved(Idle, sh.(outcomes := sh.outcomes + [c.outcome])) else Moved(c, sh)
  }

  function DoExternal(policy: Policy, sh: Shared, param: string, value: string): Shared {
    var values := sh.values[param := value];
    sh.(values := values,
        externalDrifts := if Off(policy, values, param) then sh.externalDrifts[param := ExternalDrifts(sh, param) + 1]
                          else sh.externalDrifts)
  }

  function Next(policy: Policy, s: State, step: Step): State {
    match step
    case Tick(now) => if now >= s.shared.clock then s.(shared := s.shared.(clock := now)) else s
    case External(param, value) => s.(shared := DoExternal(policy, s.shared, param, value))
    case Work(w, act) =>
      if w < |s.workers| && Covered(policy, s.workers[w]) then
        var m := Do(policy, s.shared, w, s.workers[w], act);
        State(s.workers[w := m.worker], m.shared)
      else s
  }

  /** What every run starts from. */
  datatype Start = Start(policy: Policy, workers: nat, values: map<string, string>, clock: int)

  function Initial(start: Start): State {
    State(seq(start.workers, _ => Idle),
      Shared(start.clock, map[], map[], start.values, map[], map[], map[], map[], []))
  }

  /** The state after the first `k` steps of a schedule. */
  function Run(start: Start, steps: seq<Step>, k: nat): State
    requires k <= |steps|
  {
    if k == 0 then Initial(start) else Next(start.policy, Run(start, steps, k - 1), steps[k - 1])
  }

  lemma {:induction false} RunOfPrefix(start: Start, steps: seq<Step>, more: seq<Step>, k: nat)
    requires k <= |steps|
    ensures Run(start, steps + more, k) == Run(start, steps, k)
  {
    hide Next;
    if k > 0 {
      RunOfPrefix(start, steps, more, k - 1);
    }
  }

  lemma RunOneMore(start: Start, steps: seq<Step>, step: Step)
    ensures Run(start, steps + [step], |steps| + 1) == Next(start.policy, Run(start, steps, |steps|), step)
  {
    hide Next;
    RunOfPrefix(start, steps, [step], |steps|);
  }

  lemma {:induction false} WorkersAreFixed(start: Start, steps: seq<Step>, k: nat)
    requires k <= |steps|
    ensures |Run(start, steps, k).workers| == start.workers
  {
    hide Do;
    if k > 0 {
      WorkersAreFixed(start, steps, k - 1);
    }
  }

  // ----- what no step can do -----

  /** A remediation that the policy and the evaluator allow. */
  ghost predicate Authorized(policy: Policy, ev: Event) {
    Relevant(policy, ev) && !ev.allowed && policy.sysctl[ev.param].remediation != "alert"
  }

  ghost predicate Lawful(policy: Policy, c: Worker) {
    && Covered(policy, c)
    && (c.Recording? && c.action == Remediate ==> Authorized(policy, c.ev))
    && (c.Cooling? ==> Authorized(policy, c.ev))
    && (c.Checking? && c.action == Remediate ==> Authorized(policy, c.ev) && !c.cooled)
    && (c.Checking? && c.cooled ==> c.action == Alert)
    && (c.Writing? || c.Verifying? || c.Stamping? ==> Authorized(policy, c.ev))
    && (c.Settling? ==> Honest(policy, c.outcome))
  }

  /** What is charged to a process: a remediation only if it was authorized and neither in cooldown nor
      in conflict, nothing but `Allow` without drift, and cooldowns only as alerts. */
  ghost predicate Honest(policy: Policy, o: Outcome) {
    && Relevant(policy, o.ev)
    && (o.action == Remediate ==> o.wasDrift && Authorized(policy, o.ev) && !o.cooldownApplied && !o.conflictDetected)
    && (!o.wasDrift ==> o.action == Allow && !o.cooldownApplied && !o.conflictDetected)
    && (o.cooldownApplied ==> o.action == Alert)
  }

  ghost predicate AllLawful(policy: Policy, s: State) {
    && (forall w :: 0 <= w < |s.workers| ==> Lawful(policy, s.workers[w]))
    && (forall i :: 0 <= i < |s.shared.outcomes| ==> Honest(policy, s.shared.outcomes[i]))
  }

  lemma DecisionIsAuthorized(policy: Policy, ev: Event, intel: EventIntel)
    requires Relevant(policy, ev) && Decide(policy, ev, intel) == Remediate
    ensures Authorized(policy, ev)
  {
    hide EvaluateDecision;
    var entry := policy.sysctl[ev.param];
    RemediatesIff(Context(entry.category, entry.criticality, ev.trusted, ev.allowed, true, intel), entry,
                  policy.global);
  }

  lemma MoverIsLawful(policy: Policy, sh: Shared, w: nat, c: Worker, act: Act)
    requires Lawful(policy, c)
    ensures Lawful(policy, Do(policy, sh, w, c, act).worker)
    ensures
      var outcomes := Do(policy, sh, w, c, act).shared.outcomes;
      outcomes == sh.outcomes || (c.Settling? && outcomes == sh.outcomes + [c.outcome])
  {
    hide Decide, Expected, Conflict.Recorded, Conflict.Pruned, Conflict.Conflicting, Cooldown.Cooling, CooldownOf, Of;
    if act.Evaluate? && c.Deciding? && Decide(policy, c.ev, act.intel) == Remediate {
      DecisionIsAuthorized(policy, c.ev, act.intel);
    }
  }

  lemma StepIsLawful(policy: Policy, s: State, step: Step)
    requires AllLawful(policy, s)
    ensures AllLawful(policy, Next(policy, s, step))
  {
    hide Do, Honest;
    if step.Work? && step.w < |s.workers| {
      assert Lawful(policy, s.workers[step.w]);
      MoverIsLawful(policy, s.shared, step.w, s.workers[step.w], step.act);
    }
  }

  /** In every run: whatever is charged to a process was earned, and no parameter is ever written that
      the policy reserves for alerts, that an allowed process changed, or that it does not cover. */
  lemma {:induction false} RunIsLawful(start: Start, steps: seq<Step>, k: nat)
    requires k <= |steps|
    ensures AllLawful(start.policy, Run(start, steps, k))
  {
    hide Next, AllLawful;
    if k == 0 {
      InitiallyLawful(start);
    } else {
      RunIsLawful(start, steps, k - 1);
      StepIsLawful(start.policy, Run(start, steps, k - 1), steps[k - 1]);
    }
  }

  lemma InitiallyLawful(start: Start)
    ensures AllLawful(start.policy, Initial(start))
  {
  }
}
