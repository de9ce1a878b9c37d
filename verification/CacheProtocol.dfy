/** The series cache under concurrency (stats/engine.go): the compare-and-swap gate before a cleanup
    pass, the ages of the series, and the atomic counter beside the concurrent map. Every atomic operation
    and every map operation is one step; a run is any sequence of steps, those that are not enabled having
    no effect. Which present key a pass visits next is left open. */
module CacheProtocol {
  import Gate

  /** Where a caller of `Observe` stands. A series is named by its identity, because a caller may hold one
      that is no longer in the map. */
  datatype Caller =
    | Idle
    | Loading(key: string, now: int)                 // about to load lastCleanup
    | Swapping(key: string, now: int, last: int)     // a pass looked due; about to compare and swap
    | Sweeping(key: string, now: int)                // ranging over the map by age
    | Inspecting(key: string, now: int, victim: string, series: nat)   // about to load the age of a series
    | Expiring(key: string, now: int, victim: string)   // about to delete a stale key
    | Expired(key: string, now: int)                 // deleted; about to count down
    | Measuring(key: string, now: int)               // about to load the counter for the cap
    | Evicting(key: string, now: int, excess: int)   // ranging over the map by number
    | Removing(key: string, now: int, excess: int, victim: string)
    | Removed(key: string, now: int, excess: int)    // deleted; about to count down
    | Looking(key: string, now: int)                 // about to load the series
    | Storing(key: string, now: int)                 // absent; about to load or store
    | Counting(series: nat, now: int)                // stored; about to count up
    | Touching(series: nat, now: int)                // about to store the time it was last seen

  datatype Shared = Shared(
    series: map<string, nat>,
    lastSeen: seq<int>,  // of every series ever made, by identity
    count: int,
    gate: Gate.Gate,
    phantoms: nat        // deletions that found their key already gone
  )

  datatype State = State(callers: seq<Caller>, shared: Shared)

  datatype Step =
    | Call(w: nat, key: string, now: int)
    | LoadLast(w: nat)
    | Swap(w: nat)
    | Visit(w: nat, victim: string)
    | LoadSeen(w: nat)
    | EndSweep(w: nat)
    | LoadCount(w: nat)
    | VisitExcess(w: nat, victim: string)
    | EndEvict(w: nat)
    | Delete(w: nat)
    | CountDown(w: nat)
    | Load(w: nat)
    | LoadOrStore(w: nat)
    | CountUp(w: nat)
    | Touch(w: nat)

  datatype Config = Config(interval: int, maxEntries: int, entryTTL: int)

  function Initial(n: nat): State {
    State(seq(n, _ => Idle), Shared(map[], [], 0, Gate.UNUSED, 0))
  }

  /** The series is older than the time to live of a pass at `now`. */
  predicate Stale(cfg: Config, sh: Shared, series: nat, now: int) {
    series < |sh.lastSeen| && sh.lastSeen[series] < now - cfg.entryTTL
  }

  function AfterSweep(cfg: Config, key: string, now: int): Caller {
    if cfg.maxEntries > 0 then Measuring(key, now) else Looking(key, now)
  }

  /** A caller and what all share after one step of it. */
  datatype Moved = Moved(caller: Caller, shared: Shared)

  /** What a caller at `c` does next, if it is at the step named. */
  function Do(cfg: Config, sh: Shared, c: Caller, step: Step): Moved {
    match step
    case Call(_, key, now) =>
      Moved(if c.Idle? && key != "" && now > 0 then
              if cfg.interval <= 0 then Looking(key, now) else Loading(key, now)
            else c, sh)
    case LoadLast(_) =>
      Moved(if !c.Loading? then c
            else if Gate.LooksDue(cfg.interval, sh.gate.last, c.now) then Swapping(c.key, c.now, sh.gate.last)
            else Looking(c.key, c.now), sh)
    case Swap(_) =>
      if c.Swapping? then
        Moved(if !Gate.Wins(sh.gate, c.last) then Looking(c.key, c.now)
              else if cfg.entryTTL > 0 then Sweeping(c.key, c.now)
              else AfterSweep(cfg, c.key, c.now),
          sh.(gate := Gate.Swapped(sh.gate, c.last, c.now)))
      else Moved(c, sh)
    case Visit(_, victim) =>
      Moved(if c.Sweeping? && victim in sh.series then Inspecting(c.key, c.now, victim, sh.series[victim]) else c, sh)
    case LoadSeen(_) =>
      Moved(if !c.Inspecting? then c
            else if Stale(cfg, sh, c.series, c.now) then Expiring(c.key, c.now, c.victim)
            else Sweeping(c.key, c.now), sh)
    case EndSweep(_) =>
      Moved(if c.Sweeping? then AfterSweep(cfg, c.key, c.now) else c, sh)
    case LoadCount(_) =>
      Moved(if c.Measuring? then Evicting(c.key, c.now, sh.count - cfg.maxEntries) else c, sh)
    case VisitExcess(_, victim) =>
      Moved(if c.Evicting? && c.excess > 0 && victim in sh.series then Removing(c.key, c.now, c.excess, victim)
            else c, sh)
    case EndEvict(_) =>
      Moved(if c.Evicting? then Looking(c.key, c.now) else c, sh)
    case Delete(_) =>
      if c.Expiring? then Moved(Expired(c.key, c.now), Deleted(sh, c.victim))
      else if c.Removing? then Moved(Removed(c.key, c.now, c.excess), Deleted(sh, c.victim))
      else Moved(c, sh)
    case CountDown(_) =>
      if c.Expired? then Moved(Sweeping(c.key, c.now), sh.(count := sh.count - 1))
      else if c.Removed? then Moved(Evicting(c.key, c.now, c.excess - 1), sh.(count := sh.count - 1))
      else Moved(c, sh)
    case Load(_) =>
      Moved(if !c.Looking? then c
            else if c.key in sh.series then Touching(sh.series[c.key], c.now)
            else Storing(c.key, c.now), sh)
    case LoadOrStore(_) =>
      if !c.Storing? then Moved(c, sh)
      else if c.key in sh.series then Moved(Touching(sh.series[c.key], c.now), sh)
      else Moved(Counting(|sh.lastSeen|, c.now), Stored(sh, c.key))
    case CountUp(_) =>
      if c.Counting? then Moved(Touching(c.series, c.now), sh.(count := sh.count + 1)) else Moved(c, sh)
    case Touch(_) =>
      if c.Touching? then
        Moved(Idle, if c.series < |sh.lastSeen| then sh.(lastSeen := sh.lastSeen[c.series := c.now]) else sh)
      else Moved(c, sh)
  }

  function Deleted(sh: Shared, victim: string): Shared {
    sh.(series := sh.series - {victim}, phantoms := if victim in sh.series then sh.phantoms else sh.phantoms + 1)
  }

  /** A new series, not seen yet. */
  function Stored(sh: Shared, key: string): Shared {
    sh.(series := sh.series[key := |sh.lastSeen|], lastSeen := sh.lastSeen + [0])
  }

  function Next(cfg: Config, s: State, step: Step): State {
    if step.w >= |s.callers| then s
    else
      var m := Do(cfg, s.shared, s.callers[step.w], step);
      State(s.callers[step.w := m.caller], m.shared)
  }

  function Run(cfg: Config, n: nat, steps: seq<Step>, k: nat): State
    requires k <= |steps|
  {
    if k == 0 then Initial(n) else Next(cfg, Run(cfg, n, steps, k - 1), steps[k - 1])
  }

  // ----- the counter -----

  /** What a caller still owes the counter. */
  function Owed(c: Caller): int {
    if c.Counting? then 1 else if c.Expired? || c.Removed? then -1 else 0
  }

  function TotalOwed(callers: seq<Caller>, n: nat): int
    requires n <= |callers|
  {
    if n == 0 then 0 else TotalOwed(callers, n - 1) + Owed(callers[n - 1])
  }

  lemma {:induction false} OwedAfter(callers: seq<Caller>, w: nat, c: Caller, n: nat)
    requires w < |callers| && n <= |callers|
    ensures TotalOwed(callers[w := c], n) == TotalOwed(callers, n) + if w < n then Owed(c) - Owed(callers[w]) else 0
  {
    if n > 0 {
      OwedAfter(callers, w, c, n - 1);
    }
  }

  lemma {:induction false} NothingOwed(callers: seq<Caller>, n: nat)
    requires n <= |callers| && forall i :: 0 <= i < n ==> Owed(callers[i]) == 0
    ensures TotalOwed(callers, n) == 0
  {
    if n > 0 {
      NothingOwed(callers, n - 1);
    }
  }

  /** The counter, corrected by what is owed to it, is the number of keys less the phantom deletions. */
  ghost predicate Balanced(s: State) {
    s.shared.count + TotalOwed(s.callers, |s.callers|) == |s.shared.series| - s.shared.phantoms
  }

  function Ledger(sh: Shared, c: Caller): int {
    sh.count + Owed(c) - |sh.series| + sh.phantoms
  }

  /** A step only shifts between the counter, what its caller owes it, and the keys. */
  lemma LedgerStep(cfg: Config, sh: Shared, c: Caller, step: Step)
    ensures Ledger(Do(cfg, sh, c, step).shared, Do(cfg, sh, c, step).caller) == Ledger(sh, c)
  {
    hide Ledger, Deleted, Stored, Stale, Gate.LooksDue, Gate.Swapped, Gate.Wins;
    var m := Do(cfg, sh, c, step);
    if step.Delete? && (c.Expiring? || c.Removing?) {
      DeletionShifts(sh, c, m.caller, c.victim);
    } else if step.LoadOrStore? && c.Storing? && c.key !in sh.series {
      StoreShifts(sh, c, m.caller, c.key);
    } else {
      OtherShifts(cfg, sh, c, step);
    }
  }

  lemma DeletionShifts(sh: Shared, c: Caller, c': Caller, victim: string)
    requires Owed(c') == Owed(c) - 1
    ensures Ledger(Deleted(sh, victim), c') == Ledger(sh, c)
  {
    hide Owed;
    Sizes(sh.series, victim, 0);
  }

  lemma StoreShifts(sh: Shared, c: Caller, c': Caller, key: string)
    requires Owed(c') == Owed(c) + 1 && key !in sh.series
    ensures Ledger(Stored(sh, key), c') == Ledger(sh, c)
  {
    hide Owed;
    Sizes(sh.series, key, |sh.lastSeen|);
  }

  lemma OtherShifts(cfg: Config, sh: Shared, c: Caller, step: Step)
    requires !(step.Delete? && (c.Expiring? || c.Removing?))
    requires !(step.LoadOrStore? && c.Storing? && c.key !in sh.series)
    ensures Ledger(Do(cfg, sh, c, step).shared, Do(cfg, sh, c, step).caller) == Ledger(sh, c)
  {
    hide Do, Owed;
    OtherStep(cfg, sh, c, step);
  }

  lemma OtherStep(cfg: Config, sh: Shared, c: Caller, step: Step)
    requires !(step.Delete? && (c.Expiring? || c.Removing?))
    requires !(step.LoadOrStore? && c.Storing? && c.key !in sh.series)
    ensures
      var m := Do(cfg, sh, c, step);
      m.shared.series == sh.series && m.shared.phantoms == sh.phantoms
        && m.shared.count + Owed(m.caller) == sh.count + Owed(c)
  {
    hide Stale, Gate.LooksDue, Gate.Swapped, Gate.Wins, Deleted, Stored;
  }

  lemma Sizes(m: map<string, nat>, k: string, v: nat)
    ensures |m - {k}| == if k in m then |m| - 1 else |m|
    ensures |m[k := v]| == if k in m then |m| else |m| + 1
  {
    assert (m - {k}).Keys == m.Keys - {k} && m[k := v].Keys == m.Keys + {k};
    assert k !in m ==> m.Keys - {k} == m.Keys;
    assert k in m ==> m.Keys + {k} == m.Keys;
  }

  lemma StepKeepsBalance(cfg: Config, s: State, step: Step)
    requires Balanced(s)
    ensures Balanced(Next(cfg, s, step))
  {
    hide Do, TotalOwed, Owed;
    if step.w < |s.callers| {
      LedgerStep(cfg, s.shared, s.callers[step.w], step);
      OwedAfter(s.callers, step.w, Do(cfg, s.shared, s.callers[step.w], step).caller, |s.callers|);
    }
  }

  /** Conservation in every interleaving, overlapping passes included. */
  lemma {:induction false} CounterIsConserved(cfg: Config, n: nat, steps: seq<Step>, k: nat)
    requires k <= |steps|
    ensures
      var s := Run(cfg, n, steps, k);
      s.shared.count + TotalOwed(s.callers, |s.callers|) == |s.shared.series| - s.shared.phantoms
  {
    hide Next;
    if k == 0 {
      NothingOwed(Initial(n).callers, n);
    } else {
      CounterIsConserved(cfg, n, steps, k - 1);
      StepKeepsBalance(cfg, Run(cfg, n, steps, k - 1), steps[k - 1]);
    }
  }

  ghost predicate Quiescent(s: State) {
    forall i :: 0 <= i < |s.callers| ==> s.callers[i].Idle?
  }

  /** At rest the counter never exceeds the number of series, and equals it exactly when no deletion
      ever found its key already gone. */
  lemma CountAtRest(cfg: Config, n: nat, steps: seq<Step>, k: nat)
    requires k <= |steps| && Quiescent(Run(cfg, n, steps, k))
    ensures
      var s := Run(cfg, n, steps, k);
      s.shared.count <= |s.shared.series| && (s.shared.count == |s.shared.series| <==> s.shared.phantoms == 0)
  {
    hide Run;
    var s := Run(cfg, n, steps, k);
    CounterIsConserved(cfg, n, steps, k);
    NothingOwed(s.callers, |s.callers|);
  }

  // ----- one pass at a time -----

  predicate InPass(c: Caller) {
    c.Sweeping? || c.Inspecting? || c.Expiring? || c.Expired? || c.Measuring? || c.Evicting? || c.Removing?
      || c.Removed?
  }

  ghost predicate OnePass(s: State) {
    forall i, j :: 0 <= i < |s.callers| && 0 <= j < |s.callers| && InPass(s.callers[i]) && InPass(s.callers[j])
      ==> i == j
  }

  ghost predicate VictimsPresent(s: State) {
    && s.shared.phantoms == 0
    && forall i, key :: 0 <= i < |s.callers| && Targets(s.callers[i], key) ==> key in s.shared.series
  }

  /** Whom the pass is about to judge or delete. */
  predicate Targets(c: Caller, key: string) {
    (c.Inspecting? || c.Expiring? || c.Removing?) && c.victim == key
  }

  /** A step deletes only the target of its caller, misses it only if it is gone, and picks only targets
      that are there. */
  lemma TargetStep(cfg: Config, sh: Shared, c: Caller, step: Step, key: string)
    requires sh.phantoms == 0 && (Targets(c, key) ==> key in sh.series)
    requires forall k :: Targets(c, k) ==> k in sh.series
    ensures
      var m := Do(cfg, sh, c, step);
      && m.shared.phantoms == 0
      && (Targets(m.caller, key) ==> key in m.shared.series)
      && (key in sh.series && !Targets(c, key) ==> key in m.shared.series)
      && (key in sh.series && key !in m.shared.series ==> InPass(c))
  {
    hide Stale, Gate.LooksDue, Gate.Swapped, Gate.Wins;
    if c.Expiring? || c.Removing? {
      assert Targets(c, c.victim);
    }
  }

  lemma StepKeepsVictims(cfg: Config, s: State, step: Step)
    requires VictimsPresent(s) && OnePass(s)
    ensures VictimsPresent(Next(cfg, s, step))
  {
    hide Do;
    if step.w < |s.callers| {
      var c, s' := s.callers[step.w], Next(cfg, s, step);
      TargetStep(cfg, s.shared, c, step, "");
      forall i, key | 0 <= i < |s'.callers| && Targets(s'.callers[i], key) ensures key in s'.shared.series {
        TargetStep(cfg, s.shared, c, step, key);
        if i != step.w {
          assert InPass(s.callers[i]);
        }
      }
    }
  }

  /** While at most one pass is active at a time, no deletion misses, so the counter is exact at rest. */
  lemma {:induction false} OnePassCountsExactly(cfg: Config, n: nat, steps: seq<Step>, k: nat)
    requires k <= |steps|
    requires forall j :: 0 <= j < k ==> OnePass(Run(cfg, n, steps, j))
    ensures VictimsPresent(Run(cfg, n, steps, k))
    ensures Quiescent(Run(cfg, n, steps, k))
            ==> Run(cfg, n, steps, k).shared.count == |Run(cfg, n, steps, k).shared.series|
  {
    hide Next;
    if k > 0 {
      OnePassCountsExactly(cfg, n, steps, k - 1);
      assert OnePass(Run(cfg, n, steps, k - 1));
      StepKeepsVictims(cfg, Run(cfg, n, steps, k - 1), steps[k - 1]);
    }
    if Quiescent(Run(cfg, n, steps, k)) {
      CountAtRest(cfg, n, steps, k);
    }
  }

  // ----- two passes at a time -----

  /** A caller and what all share after the first `k` steps of a script. */
  function Acted(cfg: Config, sh: Shared, c: Caller, script: seq<Step>, k: nat): Moved
    requires k <= |script|
  {
    if k == 0 then Moved(c, sh)
    else var m := Acted(cfg, sh, c, script, k - 1); Do(cfg, m.shared, m.caller, script[k - 1])
  }

  lemma {:induction false} RunOfPrefix(cfg: Config, n: nat, steps: seq<Step>, more: seq<Step>, k: nat)
    requires k <= |steps|
    ensures Run(cfg, n, steps + more, k) == Run(cfg, n, steps, k)
  {
    hide Next;
    if k > 0 {
      RunOfPrefix(cfg, n, steps, more, k - 1);
    }
  }

  /** A run goes on with the script of one caller. */
  lemma {:induction false} Proceed(cfg: Config, n: nat, steps: seq<Step>, s: State, w: nat, script: seq<Step>, k: nat)
      returns (more: seq<Step>)
    requires s == Run(cfg, n, steps, |steps|) && w < |s.callers| && k <= |script|
    requires forall i :: 0 <= i < |script| ==> script[i].w == w
    ensures
      var m := Acted(cfg, s.shared, s.callers[w], script, k);
      Run(cfg, n, more, |more|) == State(s.callers[w := m.caller], m.shared)
  {
    hide Run, Do;
    if k == 0 {
      more := steps;
      assert s.callers[w := s.callers[w]] == s.callers;
    } else {
      var before := Proceed(cfg, n, steps, s, w, script, k - 1);
      more := before + [script[k - 1]];
      OneMoreStep(cfg, n, before, script[k - 1]);
    }
  }

  lemma OneMoreStep(cfg: Config, n: nat, steps: seq<Step>, step: Step)
    ensures Run(cfg, n, steps + [step], |steps| + 1) == Next(cfg, Run(cfg, n, steps, |steps|), step)
  {
    hide Next;
    RunOfPrefix(cfg, n, steps, [step], |steps|);
  }

  /** A call comes and asks for a pass. */
  function Arriving(w: nat, key: string, now: int): seq<Step> {
    [Call(w, key, now), LoadLast(w), Swap(w)]
  }

  /** What is left of a pass, and then of the call; steps that are not enabled do nothing. */
  function Finishing(w: nat): seq<Step> {
    [EndSweep(w), LoadCount(w), EndEvict(w), Load(w), LoadOrStore(w), CountUp(w), Touch(w)]
  }

  predicate Resting(c: Caller) {
    c.Sweeping? || c.Measuring? || c.Evicting? || c.Looking?
  }

  /** A caller that is done with its pass leaves the series of its key behind, and counts it if it is new. */
  lemma Finishes(cfg: Config, sh: Shared, c: Caller, w: nat)
    requires Resting(c)
    ensures
      var m := Acted(cfg, sh, c, Finishing(w), 7);
      && m.caller == Idle && m.shared.gate == sh.gate && m.shared.phantoms == sh.phantoms
      && m.shared.series == (if c.key in sh.series then sh.series else sh.series[c.key := |sh.lastSeen|])
      && m.shared.count == (if c.key in sh.series then sh.count else sh.count + 1)
      && (c.key !in sh.series ==> m.shared.lastSeen == sh.lastSeen + [c.now])
  {
    hide Acted;
    PassEnds(cfg, sh, c, w);
    if c.key in sh.series {
      FindsSeries(cfg, sh, c, w);
    } else {
      MakesSeries(cfg, sh, c, w);
    }
  }

  lemma FindsSeries(cfg: Config, sh: Shared, c: Caller, w: nat)
    requires Resting(c) && c.key in sh.series
    requires Acted(cfg, sh, c, Finishing(w), 3) == Moved(Looking(c.key, c.now), sh)
    ensures
      var m := Acted(cfg, sh, c, Finishing(w), 7);
      m.caller == Idle && m.shared == sh.(lastSeen := m.shared.lastSeen)
  {
    hide Do;
    var script, touching := Finishing(w), Moved(Touching(sh.series[c.key], c.now), sh);
    LookStep(cfg, sh, c.key, c.now, w);
    assert Acted(cfg, sh, c, script, 4) == touching;
    TouchSteps(cfg, sh, touching.caller, w);
    assert Acted(cfg, sh, c, script, 5) == touching;
    assert Acted(cfg, sh, c, script, 6) == touching;
  }

  lemma ActedOneMore(cfg: Config, sh: Shared, c: Caller, script: seq<Step>, k: nat, m: Moved)
    requires k < |script| && Acted(cfg, sh, c, script, k) == m
    ensures Acted(cfg, sh, c, script, k + 1) == Do(cfg, m.shared, m.caller, script[k])
  {
    hide Do;
  }

  lemma MakesSeries(cfg: Config, sh: Shared, c: Caller, w: nat)
    requires Resting(c) && c.key !in sh.series
    requires Acted(cfg, sh, c, Finishing(w), 3) == Moved(Looking(c.key, c.now), sh)
    ensures
      var m := Acted(cfg, sh, c, Finishing(w), 7);
      m == Moved(Idle, Stored(sh, c.key).(count := sh.count + 1, lastSeen := sh.lastSeen + [c.now]))
  {
    hide Do, Acted, Stored;
    var script, made := Finishing(w), Stored(sh, c.key);
    StoredIs(sh, c.key);
    ActedOneMore(cfg, sh, c, script, 3, Moved(Looking(c.key, c.now), sh));
    LookStep(cfg, sh, c.key, c.now, w);
    ActedOneMore(cfg, sh, c, script, 4, Moved(Storing(c.key, c.now), sh));
    StoreSteps(cfg, sh, c.key, c.now, w);
    ActedOneMore(cfg, sh, c, script, 5, Moved(Counting(|sh.lastSeen|, c.now), made));
    var counted := made.(count := sh.count + 1);
    ActedOneMore(cfg, sh, c, script, 6, Moved(Touching(|sh.lastSeen|, c.now), counted));
    TouchSteps(cfg, counted, Touching(|sh.lastSeen|, c.now), w);
    assert counted.lastSeen[|sh.lastSeen| := c.now] == sh.lastSeen + [c.now];
  }

  lemma StoredIs(sh: Shared, key: string)
    ensures Stored(sh, key).lastSeen == sh.lastSeen + [0] && Stored(sh, key).count == sh.count
  {
  }

  lemma LookStep(cfg: Config, sh: Shared, key: string, now: int, w: nat)
    ensures Do(cfg, sh, Looking(key, now), Load(w))
         == Moved(if key in sh.series then Touching(sh.series[key], now) else Storing(key, now), sh)
  {
  }

  lemma StoreSteps(cfg: Config, sh: Shared, key: string, now: int, w: nat)
    requires key !in sh.series
    ensures Do(cfg, sh, Storing(key, now), LoadOrStore(w)) == Moved(Counting(|sh.lastSeen|, now), Stored(sh, key))
    ensures forall sh': Shared, i: nat ::
              Do(cfg, sh', Counting(i, now), CountUp(w)) == Moved(Touching(i, now), sh'.(count := sh'.count + 1))
  {
  }

  lemma TouchSteps(cfg: Config, sh: Shared, c: Caller, w: nat)
    requires c.Touching?
    ensures Do(cfg, sh, c, LoadOrStore(w)) == Moved(c, sh) && Do(cfg, sh, c, CountUp(w)) == Moved(c, sh)
    ensures
      var m := Do(cfg, sh, c, Touch(w));
      && m.caller == Idle
      && m.shared == if c.series < |sh.lastSeen| then sh.(lastSeen := sh.lastSeen[c.series := c.now]) else sh
  {
  }

  lemma PassEnds(cfg: Config, sh: Shared, c: Caller, w: nat)
    requires Resting(c)
    ensures Acted(cfg, sh, c, Finishing(w), 3) == Moved(Looking(c.key, c.now), sh)
  {
    hide Stale, Gate.LooksDue, Gate.Swapped, Gate.Wins, Deleted, Stored;
    var script := Finishing(w);
    assert Acted(cfg, sh, c, script, 0) == Moved(c, sh);
    var m1 := Acted(cfg, sh, c, script, 1);
    assert m1.shared == sh && Resting(m1.caller) && !m1.caller.Sweeping? && m1.caller.key == c.key
           && m1.caller.now == c.now;
    var m2 := Acted(cfg, sh, c, script, 2);
    assert m2.shared == sh && (m2.caller.Evicting? || m2.caller.Looking?) && m2.caller.key == c.key
           && m2.caller.now == c.now;
  }

  /** A call that arrives when a pass is due starts one; else it goes on to look. */
  lemma Arrives(cfg: Config, sh: Shared, w: nat, key: string, now: int)
    requires key != "" && now > 0 && cfg.interval > 0
    ensures
      var due, m := Gate.LooksDue(cfg.interval, sh.gate.last, now), Acted(cfg, sh, Idle, Arriving(w, key, now), 3);
      && m.shared == (if due then sh.(gate := Gate.Swapped(sh.gate, sh.gate.last, now)) else sh)
      && m.caller == (if !due then Looking(key, now) else if cfg.entryTTL > 0 then Sweeping(key, now)
                      else AfterSweep(cfg, key, now))
  {
    hide Stale, Gate.LooksDue, Deleted, Stored, AfterSweep;
    var script := Arriving(w, key, now);
    assert Acted(cfg, sh, Idle, script, 0) == Moved(Idle, sh);
    assert Acted(cfg, sh, Idle, script, 1) == Moved(Loading(key, now), sh);
  }

  function Key(i: nat): string {
    seq(i + 1, _ => 'a')
  }

  /** The counter is right, and the last pass was at 1, when all series were last seen. */
  ghost predicate Filled(sh: Shared, m: nat) {
    && sh.gate.last == (if m == 0 then 0 else 1)
    && sh.series.Keys == (set i | 0 <= i < m :: Key(i))
    && (forall k :: k in sh.series ==> sh.series[k] < |sh.lastSeen|)
    && (forall i :: 0 <= i < |sh.lastSeen| ==> sh.lastSeen[i] == 1)
    && sh.count == |sh.series| == m
  }

  lemma OneMoreFilled(sh: Shared, sh': Shared, m: nat)
    requires Filled(sh, m) && sh'.gate.last == 1
    requires sh'.series == sh.series[Key(m) := |sh.lastSeen|] && sh'.lastSeen == sh.lastSeen + [1] && sh'.count == m + 1
    ensures Filled(sh', m + 1)
  {
    KeyIsNew(sh, m);
    Sizes(sh.series, Key(m), |sh.lastSeen|);
  }

  lemma KeyIsNew(sh: Shared, m: nat)
    requires Filled(sh, m)
    ensures Key(m) !in sh.series
  {
    forall i | 0 <= i < m ensures Key(i) != Key(m) {
      assert |Key(i)| != |Key(m)|;
    }
  }

  /** One caller makes as many series as one likes. */
  lemma {:induction false} Fill(cfg: Config, n: nat, m: nat) returns (steps: seq<Step>)
    requires n > 0 && cfg.interval > 0
    ensures
      var s := Run(cfg, n, steps, |steps|);
      |s.callers| == n && Quiescent(s) && Filled(s.shared, m)
  {
    hide Run, Acted, Gate.LooksDue, Filled, Key;
    if m == 0 {
      steps := [];
      StartIsFilled(cfg, n);
    } else {
      var before := Fill(cfg, n, m - 1);
      var s, key := Run(cfg, n, before, |before|), Key(m - 1);
      var arrived := Proceed(cfg, n, before, s, 0, Arriving(0, key, 1), 3);
      assert key != "" by { KeyIsNamed(m - 1); }
      Arrives(cfg, s.shared, 0, key, 1);
      var s1 := Run(cfg, n, arrived, |arrived|);
      FilledGate(s.shared, m - 1);
      GateAtOne(cfg, s.shared.gate);
      steps := Proceed(cfg, n, arrived, s1, 0, Finishing(0), 7);
      KeyIsNew(s.shared, m - 1);
      Finishes(cfg, s1.shared, s1.callers[0], 0);
      OneMoreFilled(s.shared, Run(cfg, n, steps, |steps|).shared, m - 1);
    }
  }

  lemma KeyIsNamed(i: nat)
    ensures Key(i) != ""
  {
    assert |Key(i)| > 0;
  }

  lemma FilledGate(sh: Shared, m: nat)
    requires Filled(sh, m)
    ensures (sh.gate.last == 0 || sh.gate.last == 1) && sh.count == m
  {
  }

  lemma GateAtOne(cfg: Config, g: Gate.Gate)
    requires g.last == 0 || g.last == 1
    requires cfg.interval > 0
    ensures (if Gate.LooksDue(cfg.interval, g.last, 1) then Gate.Swapped(g, g.last, 1) else g).last == 1
  {
  }

  lemma StartIsFilled(cfg: Config, n: nat)
    ensures Run(cfg, n, [], 0) == Initial(n) && |Initial(n).callers| == n && Quiescent(Initial(n))
            && Filled(Initial(n).shared, 0)
  {
  }

  /** About to delete the key it was called with. */
  predicate Deletes(c: Caller, key: string) {
    (c.Expiring? || c.Removing?) && c.victim == key && c.key == key
  }

  /** What a pass does until it is about to delete: by age if there is a time to live, and by number else. */
  function Choosing(cfg: Config, w: nat, key: string): seq<Step> {
    if cfg.entryTTL > 0 then [Visit(w, key), LoadSeen(w)] else [LoadCount(w), VisitExcess(w, key)]
  }

  lemma Chooses(cfg: Config, sh: Shared, w: nat, key: string, now: int)
    requires key in sh.series
    requires if cfg.entryTTL > 0 then Stale(cfg, sh, sh.series[key], now)
             else cfg.maxEntries > 0 && sh.count > cfg.maxEntries
    ensures
      var c := if cfg.entryTTL > 0 then Sweeping(key, now) else AfterSweep(cfg, key, now);
      var m := Acted(cfg, sh, c, Choosing(cfg, w, key), 2);
      m.shared == sh && Deletes(m.caller, key)
  {
    hide Stale, Gate.LooksDue, Gate.Swapped, Gate.Wins, Deleted, Stored;
    var c := if cfg.entryTTL > 0 then Sweeping(key, now) else AfterSweep(cfg, key, now);
    var script := Choosing(cfg, w, key);
    assert Acted(cfg, sh, c, script, 0) == Moved(c, sh);
  }

  /** One caller gets to where its pass is about to delete the key. */
  lemma Threaten(cfg: Config, n: nat, steps: seq<Step>, w: nat, key: string, now: int) returns (more: seq<Step>)
    requires cfg.interval > 0 && key != "" && now > 0
    requires
      var s := Run(cfg, n, steps, |steps|);
      && w < |s.callers| && s.callers[w].Idle? && key in s.shared.series
      && Gate.LooksDue(cfg.interval, s.shared.gate.last, now)
      && if cfg.entryTTL > 0 then Stale(cfg, s.shared, s.shared.series[key], now)
         else cfg.maxEntries > 0 && s.shared.count > cfg.maxEntries
    ensures
      var s, s' := Run(cfg, n, steps, |steps|), Run(cfg, n, more, |more|);
      && |s'.callers| == |s.callers| && s'.callers == s.callers[w := s'.callers[w]] && Deletes(s'.callers[w], key)
      && s'.shared == s.shared.(gate := s'.shared.gate) && s'.shared.gate.last == now
  {
    hide Run, Acted, Gate.LooksDue, AfterSweep;
    var s := Run(cfg, n, steps, |steps|);
    var arrived := Proceed(cfg, n, steps, s, w, Arriving(w, key, now), 3);
    Arrives(cfg, s.shared, w, key, now);
    var s1 := Run(cfg, n, arrived, |arrived|);
    SameAge(cfg, s.shared, s1.shared, s.shared.series[key], now);
    more := Proceed(cfg, n, arrived, s1, w, Choosing(cfg, w, key), 2);
    Chooses(cfg, s1.shared, w, key, now);
  }

  lemma SameAge(cfg: Config, sh: Shared, sh': Shared, series: nat, now: int)
    requires sh'.lastSeen == sh.lastSeen
    ensures Stale(cfg, sh, series, now) <==> Stale(cfg, sh', series, now)
  {
  }

  /** Has deleted the key it was called with, and is about to count it down. */
  predicate Owes(c: Caller, key: string) {
    (c.Expired? || c.Removed?) && c.key == key
  }

  lemma DeletesOne(cfg: Config, sh: Shared, c: Caller, w: nat, key: string)
    requires Deletes(c, key)
    ensures Do(cfg, sh, c, Delete(w)).shared == Deleted(sh, key) && Owes(Do(cfg, sh, c, Delete(w)).caller, key)
  {
    hide Stale, Gate.LooksDue, Gate.Swapped, Gate.Wins, Deleted, Stored;
  }

  lemma CountsOne(cfg: Config, sh: Shared, c: Caller, w: nat, key: string)
    requires Owes(c, key)
    ensures
      var m := Do(cfg, sh, c, CountDown(w));
      m.shared == sh.(count := sh.count - 1) && Resting(m.caller) && m.caller.key == key
  {
    hide Stale, Gate.LooksDue, Gate.Swapped, Gate.Wins, Deleted, Stored;
  }

  /** All but the first two callers are idle. */
  ghost predicate OnlyTwo(s: State) {
    |s.callers| >= 2 && forall w :: 2 <= w < |s.callers| ==> s.callers[w].Idle?
  }

  lemma BothAreGone(cfg: Config, n: nat, steps: seq<Step>, key: string)
    requires
      var s := Run(cfg, n, steps, |steps|);
      OnlyTwo(s) && Deletes(s.callers[0], key) && Deletes(s.callers[1], key)
    ensures
      var s, s' := Run(cfg, n, steps, |steps|), Run(cfg, n, steps + [Delete(0)] + [Delete(1)], |steps| + 2);
      && OnlyTwo(s') && Owes(s'.callers[0], key) && Owes(s'.callers[1], key)
      && s'.shared == Deleted(Deleted(s.shared, key), key)
  {
    hide Run, Do, Deletes, Owes, Deleted;
    var s, steps1 := Run(cfg, n, steps, |steps|), steps + [Delete(0)];
    DeletesOne(cfg, s.shared, s.callers[0], 0, key);
    OneMoreStep(cfg, n, steps, Delete(0));
    DeletesOne(cfg, Deleted(s.shared, key), s.callers[1], 1, key);
    OneMoreStep(cfg, n, steps1, Delete(1));
  }

  lemma BothAreCounted(cfg: Config, n: nat, steps: seq<Step>, key: string)
    requires
      var s := Run(cfg, n, steps, |steps|);
      OnlyTwo(s) && Owes(s.callers[0], key) && Owes(s.callers[1], key)
    ensures
      var s, s' := Run(cfg, n, steps, |steps|), Run(cfg, n, steps + [CountDown(0)] + [CountDown(1)], |steps| + 2);
      && OnlyTwo(s') && Resting(s'.callers[0]) && Resting(s'.callers[1])
      && s'.callers[0].key == key && s'.callers[1].key == key
      && s'.shared == s.shared.(count := s.shared.count - 2)
  {
    hide Run, Do, Owes, Resting;
    var s, steps1 := Run(cfg, n, steps, |steps|), steps + [CountDown(0)];
    CountsOne(cfg, s.shared, s.callers[0], 0, key);
    OneMoreStep(cfg, n, steps, CountDown(0));
    CountsOne(cfg, s.shared.(count := s.shared.count - 1), s.callers[1], 1, key);
    OneMoreStep(cfg, n, steps1, CountDown(1));
  }

  /** Both callers come to rest, and one of them makes the key again. */
  lemma BothFinish(cfg: Config, n: nat, steps: seq<Step>, key: string) returns (more: seq<Step>)
    requires
      var s := Run(cfg, n, steps, |steps|);
      && OnlyTwo(s) && Resting(s.callers[0]) && Resting(s.callers[1])
      && s.callers[0].key == key && s.callers[1].key == key && key !in s.shared.series
    ensures
      var s, s' := Run(cfg, n, steps, |steps|), Run(cfg, n, more, |more|);
      && Quiescent(s') && s'.shared.series.Keys == s.shared.series.Keys + {key}
      && s'.shared.count == s.shared.count + 1
  {
    hide Run, Acted, Resting;
    var s := Run(cfg, n, steps, |steps|);
    var steps1 := Proceed(cfg, n, steps, s, 0, Finishing(0), 7);
    Finishes(cfg, s.shared, s.callers[0], 0);
    var s1 := Run(cfg, n, steps1, |steps1|);
    more := Proceed(cfg, n, steps1, s1, 1, Finishing(1), 7);
    Finishes(cfg, s1.shared, s1.callers[1], 1);
  }

  /** From two passes that are about to delete one key to rest: both delete it and count it down, and only
      one of the callers makes it again. */
  lemma BothDelete(cfg: Config, n: nat, steps: seq<Step>, key: string) returns (more: seq<Step>)
    requires
      var s := Run(cfg, n, steps, |steps|);
      OnlyTwo(s) && Deletes(s.callers[0], key) && Deletes(s.callers[1], key) && key in s.shared.series
    ensures
      var s, s' := Run(cfg, n, steps, |steps|), Run(cfg, n, more, |more|);
      && Quiescent(s') && s'.shared.series.Keys == s.shared.series.Keys
      && s'.shared.count == s.shared.count - 1
  {
    hide Run, Deletes, Owes, Resting, OnlyTwo, Quiescent;
    BothAreGone(cfg, n, steps, key);
    var deleted := steps + [Delete(0)] + [Delete(1)];
    BothAreCounted(cfg, n, deleted, key);
    more := BothFinish(cfg, n, deleted + [CountDown(0)] + [CountDown(1)], key);
  }

  /** The premise is needed: with two callers or more, and passes that delete, there is a run of two
      overlapping passes after which the counter is below the number of series, and stays there. */
  lemma OverlappingPassesUndercount(cfg: Config, n: nat) returns (steps: seq<Step>)
    requires n >= 2 && cfg.interval > 0 && (cfg.entryTTL > 0 || cfg.maxEntries > 0)
    ensures
      var s := Run(cfg, n, steps, |steps|);
      Quiescent(s) && s.shared.count == |s.shared.series| - 1
  {
    hide Run;
    var m := if cfg.entryTTL > 0 then 1 else cfg.maxEntries + 1;
    var key := Key(0);
    KeyIsNamed(0);
    var filled := Fill(cfg, n, m);
    var s := Run(cfg, n, filled, |filled|);
    assert key in s.shared.series;
    var late := 2 + cfg.interval + if cfg.entryTTL > 0 then cfg.entryTTL else 0;
    var once := Threaten(cfg, n, filled, 0, key, late);
    var twice := Threaten(cfg, n, once, 1, key, late + cfg.interval);
    steps := BothDelete(cfg, n, twice, key);
    var s' := Run(cfg, n, steps, |steps|);
    assert |s'.shared.series| == |s'.shared.series.Keys| == |s.shared.series.Keys| == |s.shared.series|;
  }

  // ----- exactly when the counter can be trusted -----

  /** In every run, the counter is right whenever nobody is active. */
  ghost predicate CountsExactly(cfg: Config, n: nat) {
    forall steps: seq<Step> ::
      Quiescent(Run(cfg, n, steps, |steps|)) ==>
        Run(cfg, n, steps, |steps|).shared.count == |Run(cfg, n, steps, |steps|).shared.series|
  }

  /** No pass ever deletes anything. */
  predicate NothingDeletes(cfg: Config) {
    cfg.interval <= 0 || (cfg.entryTTL <= 0 && cfg.maxEntries <= 0)
  }

  ghost predicate NobodyInPass(cfg: Config, s: State) {
    forall w :: 0 <= w < |s.callers| ==>
      !InPass(s.callers[w]) && (cfg.interval <= 0 ==> !s.callers[w].Loading? && !s.callers[w].Swapping?)
  }

  lemma StaysOutOfPass(cfg: Config, sh: Shared, c: Caller, step: Step)
    requires NothingDeletes(cfg) && !InPass(c) && (cfg.interval <= 0 ==> !c.Loading? && !c.Swapping?)
    ensures
      var c' := Do(cfg, sh, c, step).caller;
      !InPass(c') && (cfg.interval <= 0 ==> !c'.Loading? && !c'.Swapping?)
  {
    hide Stale, Gate.LooksDue, Gate.Swapped, Gate.Wins, Deleted, Stored;
  }

  lemma {:induction false} NobodyEverInPass(cfg: Config, n: nat, steps: seq<Step>, k: nat)
    requires k <= |steps| && NothingDeletes(cfg)
    ensures NobodyInPass(cfg, Run(cfg, n, steps, k))
  {
    hide Do;
    if k > 0 {
      NobodyEverInPass(cfg, n, steps, k - 1);
      var s, step := Run(cfg, n, steps, k - 1), steps[k - 1];
      if step.w < |s.callers| {
        StaysOutOfPass(cfg, s.shared, s.callers[step.w], step);
      }
    }
  }

  lemma {:induction false} CallersAreFixed(cfg: Config, n: nat, steps: seq<Step>, k: nat)
    requires k <= |steps|
    ensures |Run(cfg, n, steps, k).callers| == n
  {
    hide Do;
    if k > 0 {
      CallersAreFixed(cfg, n, steps, k - 1);
    }
  }

  /** The counter can be trusted in every run exactly if there is at most one caller, or nothing is ever
      deleted: a condition on the configuration. */
  lemma CountIsExactIff(cfg: Config, n: nat)
    ensures CountsExactly(cfg, n) <==> n <= 1 || NothingDeletes(cfg)
  {
    hide Run;
    if n <= 1 || NothingDeletes(cfg) {
      forall steps: seq<Step> | Quiescent(Run(cfg, n, steps, |steps|))
        ensures Run(cfg, n, steps, |steps|).shared.count == |Run(cfg, n, steps, |steps|).shared.series|
      {
        forall j | 0 <= j < |steps| ensures OnePass(Run(cfg, n, steps, j)) {
          CallersAreFixed(cfg, n, steps, j);
          if n > 1 {
            NobodyEverInPass(cfg, n, steps, j);
          }
        }
        OnePassCountsExactly(cfg, n, steps, |steps|);
      }
    } else {
      var steps := OverlappingPassesUndercount(cfg, n);
      assert Quiescent(Run(cfg, n, steps, |steps|));
    }
  }

  // ----- the gate -----

  /** Where a caller stands towards the gate. */
  function Asks(c: Caller): Gate.Asker {
    match c
    case Loading(_, now) => Gate.Loading(now)
    case Swapping(_, now, last) => Gate.Swapping(now, last)
    case _ => Gate.Away
  }

  function AtGate(s: State): Gate.State {
    Gate.State(seq(|s.callers|, w requires 0 <= w < |s.callers| => Asks(s.callers[w])), s.shared.gate)
  }

  lemma StepMoves(cfg: Config, sh: Shared, c: Caller, step: Step)
    ensures
      var m := Do(cfg, sh, c, step);
      Gate.Moves(cfg.interval, sh.gate, Asks(c), m.shared.gate, Asks(m.caller))
  {
    hide Gate.Swapped, Stale;
  }

  lemma NextSteps(cfg: Config, s: State, step: Step)
    ensures Gate.Steps(cfg.interval, AtGate(s), AtGate(Next(cfg, s, step)))
  {
    hide Do, Gate.Moves, Asks;
    if step.w < |s.callers| {
      StepMoves(cfg, s.shared, s.callers[step.w], step);
      var left, right := AtGate(s), AtGate(Next(cfg, s, step));
      assert right.askers == left.askers[step.w := right.askers[step.w]];
    }
  }

  /** Every run is a run of the gate, so passes start at most once per interval. */
  lemma RunIsGated(cfg: Config, n: nat, steps: seq<Step>)
    ensures
      Gate.Execution(cfg.interval, seq(|steps| + 1, k requires 0 <= k <= |steps| => AtGate(Run(cfg, n, steps, k))))
  {
    hide Gate.Steps, Next;
    var states := seq(|steps| + 1, k requires 0 <= k <= |steps| => AtGate(Run(cfg, n, steps, k)));
    forall i | 0 <= i < |states| - 1 ensures Gate.Steps(cfg.interval, states[i], states[i + 1]) {
      NextSteps(cfg, Run(cfg, n, steps, i), steps[i]);
    }
  }
}
