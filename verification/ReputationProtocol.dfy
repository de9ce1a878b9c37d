/** The reputation store under concurrency (stats/reputation.go): the compare-and-swap gate before a
    pass, the pass under the write lock, the double-checked creation of entries, and the locks of the
    entries themselves. Each section under a lock and each atomic operation is one step; a run is any
    sequence of steps, those that are not enabled having no effect. */
module ReputationProtocol {
  import Gate

  /** A pointer to an entry, with the number of times its process had been evicted when it was returned. */
  datatype Handout = Handout(process: string, entry: nat, evictions: nat)

  /** Where a caller of `Get` or `Update` stands. */
  datatype Caller =
    | Idle
    | Loading(process: string, now: int)               // about to load lastCleanup
    | Swapping(process: string, now: int, last: int)   // a pass looked due; about to compare and swap
    | Sweeping(process: string, now: int)              // won; about to take the write lock for the pass
    | Reading(process: string, now: int)               // about to look under the read lock
    | Locking(process: string, now: int)               // found nothing; about to look again under the write lock
    | Touching(handout: Handout, now: int)             // about to store the time the entry was last seen
    | Entering(handout: Handout, now: int)             // about to take the lock of the entry

  /** A call that moved an entry: how often the process had been evicted by then, and whether the entry
      was still the one that later calls for the process find. */
  datatype Applied = Applied(handout: Handout, evictions: nat, kept: bool)

  datatype Shared = Shared(
    gate: Gate.Gate,
    entries: map<string, nat>,
    lastSeen: seq<int>,             // of every entry ever made, by identity
    evicted: map<string, nat>,
    handed: seq<Handout>,
    applied: seq<Applied>
  )

  datatype State = State(callers: seq<Caller>, shared: Shared)

  datatype Step =
    | Call(w: nat, process: string, now: int)
    | LoadLast(w: nat)
    | Swap(w: nat)
    | Sweep(w: nat, extra: set<string>)   // the stale entries go, and `extra` for the cap
    | Read(w: nat)
    | LookAgain(w: nat)
    | Touch(w: nat)
    | Enter(w: nat)

  datatype Config = Config(interval: int, maxEntries: int, entryTTL: int)

  function Initial(n: nat): State {
    State(seq(n, _ => Idle), Shared(Gate.UNUSED, map[], [], map[], [], []))
  }

  function Evictions(sh: Shared, process: string): nat {
    if process in sh.evicted then sh.evicted[process] else 0
  }

  function SeenAt(sh: Shared, entry: nat): int {
    if entry < |sh.lastSeen| then sh.lastSeen[entry] else 0
  }

  function Stale(cfg: Config, sh: Shared, now: int): set<string> {
    set p | p in sh.entries && SeenAt(sh, sh.entries[p]) < now - cfg.entryTTL
  }

  function Capped(cfg: Config, n: nat): nat {
    if cfg.maxEntries > 0 && n > cfg.maxEntries then cfg.maxEntries else n
  }

  /** What a pass may remove beside the stale entries: exactly the excess over the cap. */
  predicate Excess(cfg: Config, sh: Shared, now: int, extra: set<string>) {
    var kept := sh.entries.Keys - Stale(cfg, sh, now);
    extra <= kept && |kept - extra| == Capped(cfg, |kept|)
  }

  function Evicted(sh: Shared, victims: set<string>): Shared {
    sh.(entries := sh.entries - victims,
        evicted := sh.evicted + map p | p in victims && p in sh.entries :: Evictions(sh, p) + 1)
  }

  function Created(sh: Shared, process: string, now: int): Shared {
    sh.(entries := sh.entries[process := |sh.lastSeen|], lastSeen := sh.lastSeen + [now])
  }

  /** The entry the map has for a process. */
  function HandoutOf(sh: Shared, process: string): Handout
    requires process in sh.entries
  {
    Handout(process, sh.entries[process], Evictions(sh, process))
  }

  predicate Current(sh: Shared, h: Handout) {
    h.process in sh.entries && sh.entries[h.process] == h.entry
  }

  /** A caller and what all share after one step of it. */
  datatype Moved = Moved(caller: Caller, shared: Shared)

  function HandOut(sh: Shared, process: string, now: int): Moved
    requires process in sh.entries
  {
    Moved(Touching(HandoutOf(sh, process), now), sh.(handed := sh.handed + [HandoutOf(sh, process)]))
  }

  function Entered(sh: Shared, h: Handout): Shared {
    sh.(applied := sh.applied + [Applied(h, Evictions(sh, h.process), Current(sh, h))])
  }

  function Touched(sh: Shared, entry: nat, now: int): Shared {
    if entry < |sh.lastSeen| then sh.(lastSeen := sh.lastSeen[entry := now]) else sh
  }

  /** What a caller at `c` does next, if it is at the step named. */
  function Do(cfg: Config, sh: Shared, c: Caller, step: Step): Moved {
    match step
    case Call(_, process, now) =>
      Moved(if c.Idle? && process != "" && now > 0 then Loading(process, now) else c, sh)
    case LoadLast(_) =>
      Moved(if !c.Loading? then c
            else if Gate.LooksDue(cfg.interval, sh.gate.last, c.now) then Swapping(c.process, c.now, sh.gate.last)
            else Reading(c.process, c.now), sh)
    case Swap(_) =>
      if c.Swapping? then
        Moved(if Gate.Wins(sh.gate, c.last) then Sweeping(c.process, c.now) else Reading(c.process, c.now),
          sh.(gate := Gate.Swapped(sh.gate, c.last, c.now)))
      else Moved(c, sh)
    case Sweep(_, extra) =>
      if c.Sweeping? && Excess(cfg, sh, c.now, extra) then
        Moved(Reading(c.process, c.now), Evicted(sh, Stale(cfg, sh, c.now) + extra))
      else Moved(c, sh)
    case Read(_) =>
      if !c.Reading? then Moved(c, sh)
      else if c.process in sh.entries then HandOut(sh, c.process, c.now)
      else Moved(Locking(c.process, c.now), sh)
    case LookAgain(_) =>
      if !c.Locking? then Moved(c, sh)
      else if c.process in sh.entries then HandOut(sh, c.process, c.now)
      else HandOut(Created(sh, c.process, c.now), c.process, c.now)
    case Touch(_) =>
      if c.Touching? then Moved(Entering(c.handout, c.now), Touched(sh, c.handout.entry, c.now)) else Moved(c, sh)
    case Enter(_) =>
      if c.Entering? then Moved(Idle, Entered(sh, c.handout)) else Moved(c, sh)
  }

  function Next(cfg: Config, s: State, step: Step): State {
    if step.w >= |s.callers| then s
    else
      var m := Do(cfg, s.shared, s.callers[step.w], step);
      State(s.callers[step.w := m.caller], m.shared)
  }

  function Run(cfg: Config, n: nat, steps: seq<Step>, k: nat): State
    requires k <= |steps|
  {
    if k == 0 then Initial(n) else Next(cfg, Run(cfg, n, steps, k - 1), steps[k - 1])
  }

  // ----- entries and handouts -----

  /** Two handouts are the same entry just when they are for one process between the same evictions. */
  ghost predicate Coherent(a: Handout, b: Handout) {
    a.entry == b.entry <==> a.process == b.process && a.evictions == b.evictions
  }

  ghost predicate Distinct(sh: Shared) {
    && (forall p :: p in sh.entries ==> sh.entries[p] < |sh.lastSeen|)
    && (forall p, p' :: p in sh.entries && p' in sh.entries && sh.entries[p] == sh.entries[p'] ==> p == p')
  }

  ghost predicate Traced(sh: Shared, h: Handout) {
    && h.entry < |sh.lastSeen| && h.evictions <= Evictions(sh, h.process)
    && (h.evictions == Evictions(sh, h.process) <==> Current(sh, h))
    && (forall p :: p in sh.entries && sh.entries[p] == h.entry ==> p == h.process)
  }

  ghost predicate Invariant(sh: Shared) {
    && Distinct(sh)
    && (forall h :: h in sh.handed ==> Traced(sh, h))
    && (forall a, b :: a in sh.handed && b in sh.handed ==> Coherent(a, b))
  }

  lemma HandOutKeeps(sh: Shared, process: string, now: int)
    requires Invariant(sh) && process in sh.entries
    ensures Invariant(HandOut(sh, process, now).shared)
  {
    var sh' := HandOut(sh, process, now).shared;
    var latest := HandoutOf(sh, process);
    forall h | h in sh'.handed ensures Traced(sh', h) {
      assert h in sh.handed || h == latest;
      assert h in sh.handed ==> Traced(sh, h);
    }
    forall a, b | a in sh'.handed && b in sh'.handed ensures Coherent(a, b) {
      assert a in sh.handed ==> Traced(sh, a);
      assert b in sh.handed ==> Traced(sh, b);
      assert (a in sh.handed || a == latest) && (b in sh.handed || b == latest);
    }
  }

  lemma EvictionKeeps(sh: Shared, victims: set<string>)
    requires Invariant(sh)
    ensures Invariant(Evicted(sh, victims))
  {
    var sh' := Evicted(sh, victims);
    forall p ensures Evictions(sh', p)
      == if p in victims && p in sh.entries then Evictions(sh, p) + 1 else Evictions(sh, p) {
    }
    forall h | h in sh'.handed ensures Traced(sh', h) {
      assert Traced(sh, h);
    }
  }

  lemma CreationKeeps(sh: Shared, process: string, now: int)
    requires Invariant(sh) && process !in sh.entries
    ensures Invariant(Created(sh, process, now))
  {
    var sh' := Created(sh, process, now);
    forall h | h in sh'.handed ensures Traced(sh', h) {
      assert Traced(sh, h);
      assert Evictions(sh', h.process) == Evictions(sh, h.process);
    }
  }

  /** What leaves the map, the evictions and the number of entries alone breaks no promise. */
  lemma SameMapKeeps(sh: Shared, sh': Shared)
    requires Invariant(sh)
    requires sh'.entries == sh.entries && sh'.evicted == sh.evicted && sh'.handed == sh.handed
             && |sh'.lastSeen| == |sh.lastSeen|
    ensures Invariant(sh')
  {
    forall h | h in sh'.handed ensures Traced(sh', h) {
      assert Traced(sh, h);
    }
  }

  lemma StepKeeps(cfg: Config, sh: Shared, c: Caller, step: Step)
    requires Invariant(sh)
    ensures Invariant(Do(cfg, sh, c, step).shared)
  {
    hide Invariant, Stale, Excess, Evicted, Created, HandOut, Gate.LooksDue, Gate.Swapped, Gate.Wins;
    match step
    case Sweep(_, extra) =>
      if c.Sweeping? {
        EvictionKeeps(sh, Stale(cfg, sh, c.now) + extra);
      }
    case Read(_) =>
      if c.Reading? && c.process in sh.entries {
        HandOutKeeps(sh, c.process, c.now);
      }
    case LookAgain(_) =>
      if c.Locking? {
        if c.process in sh.entries {
          HandOutKeeps(sh, c.process, c.now);
        } else {
          CreationKeeps(sh, c.process, c.now);
          CreatedIsThere(sh, c.process, c.now);
          HandOutKeeps(Created(sh, c.process, c.now), c.process, c.now);
        }
      }
    case _ =>
      SameMapKeeps(sh, Do(cfg, sh, c, step).shared);
  }

  lemma CreatedIsThere(sh: Shared, process: string, now: int)
    ensures process in Created(sh, process, now).entries
  {
  }

  /** The pointer that a caller holds. */
  predicate Holds(c: Caller, h: Handout) {
    (c.Touching? || c.Entering?) && c.handout == h
  }

  /** Whether a call had an effect on later ones is a matter of evictions only. */
  ghost predicate Judged(a: Applied) {
    a.kept <==> a.evictions == a.handout.evictions
  }

  ghost predicate AllSound(s: State) {
    && Invariant(s.shared)
    && (forall i, h :: 0 <= i < |s.callers| && Holds(s.callers[i], h) ==> h in s.shared.handed)
    && (forall a :: a in s.shared.applied ==> Judged(a))
  }

  /** A step only adds to what was handed out and applied. */
  lemma HistoryGrows(cfg: Config, sh: Shared, c: Caller, step: Step)
    requires Invariant(sh) && forall h :: Holds(c, h) ==> h in sh.handed
    ensures
      var m := Do(cfg, sh, c, step);
      && (forall h :: h in sh.handed ==> h in m.shared.handed)
      && (forall h :: Holds(m.caller, h) ==> h in m.shared.handed)
      && (forall a :: a in m.shared.applied ==> a in sh.applied || Judged(a))
  {
    hide Invariant, Stale, Excess, Gate.LooksDue, Gate.Swapped, Gate.Wins, Evictions, SeenAt;
    if step.Enter? && c.Entering? {
      assert Holds(c, c.handout);
      HandedIsTraced(sh, c.handout);
    }
  }

  lemma HandedIsTraced(sh: Shared, h: Handout)
    requires Invariant(sh) && h in sh.handed
    ensures Judged(Applied(h, Evictions(sh, h.process), Current(sh, h)))
  {
    assert Traced(sh, h);
  }

  lemma NextKeeps(cfg: Config, s: State, step: Step)
    requires AllSound(s)
    ensures AllSound(Next(cfg, s, step))
  {
    hide Do, Invariant, Judged;
    if step.w < |s.callers| {
      StepKeeps(cfg, s.shared, s.callers[step.w], step);
      HistoryGrows(cfg, s.shared, s.callers[step.w], step);
    }
  }

  lemma {:induction false} RunKeeps(cfg: Config, n: nat, steps: seq<Step>, k: nat)
    requires k <= |steps|
    ensures AllSound(Run(cfg, n, steps, k))
  {
    hide AllSound, Next;
    if k == 0 {
      InitialHolds(n);
    } else {
      RunKeeps(cfg, n, steps, k - 1);
      NextKeeps(cfg, Run(cfg, n, steps, k - 1), steps[k - 1]);
    }
  }

  lemma InitialHolds(n: nat)
    ensures AllSound(Initial(n))
  {
  }

  /** Creation is unique: in every interleaving of any number of callers and passes, two calls for one
      process return the same entry exactly when no pass evicted the process between them; entries of
      different processes are never the same. */
  lemma CreationIsUnique(cfg: Config, n: nat, steps: seq<Step>, k: nat, i: nat, j: nat)
    requires k <= |steps|
    requires i < |Run(cfg, n, steps, k).shared.handed| && j < |Run(cfg, n, steps, k).shared.handed|
    ensures
      var a, b := Run(cfg, n, steps, k).shared.handed[i], Run(cfg, n, steps, k).shared.handed[j];
      a.entry == b.entry <==> a.process == b.process && a.evictions == b.evictions
  {
    hide Run;
    RunKeeps(cfg, n, steps, k);
    var sh := Run(cfg, n, steps, k).shared;
    assert sh.handed[i] in sh.handed && sh.handed[j] in sh.handed;
    assert Coherent(sh.handed[i], sh.handed[j]);
  }

  /** What a call does to an entry reaches later calls for the process exactly when no pass evicted the
      process between the return of the entry and the taking of its lock. */
  lemma CallIsLostIff(cfg: Config, n: nat, steps: seq<Step>, k: nat, i: nat)
    requires k <= |steps| && i < |Run(cfg, n, steps, k).shared.applied|
    ensures
      var a := Run(cfg, n, steps, k).shared.applied[i];
      !a.kept <==> a.evictions != a.handout.evictions
  {
    hide Run, Invariant;
    RunKeeps(cfg, n, steps, k);
    var sh := Run(cfg, n, steps, k).shared;
    assert sh.applied[i] in sh.applied;
  }

  // ----- a call that is lost -----

  /** One caller has its entry; before it takes the lock another, later by more than the time to live,
      sweeps the entry and makes a new one. */
  const LATE: seq<Step> := [
    Call(0, "a", 1), LoadLast(0), Swap(0), Sweep(0, {}), Read(0), LookAgain(0),
    Call(1, "a", 3), LoadLast(1), Swap(1), Sweep(1, {}), Read(1), LookAgain(1),
    Touch(0), Enter(0)
  ]

  const SHORT_LIVED: Config := Config(1, 8, 1)

  lemma Advance(k: nat, s: State, step: Step, s': State)
    requires k < |LATE| && LATE[k] == step
    requires Run(SHORT_LIVED, 2, LATE, k) == s && Next(SHORT_LIVED, s, step) == s'
    ensures Run(SHORT_LIVED, 2, LATE, k + 1) == s'
  {
  }

  lemma FirstSwap()
    ensures Run(SHORT_LIVED, 2, LATE, 3)
            == State([Sweeping("a", 1), Idle], Shared(Gate.Gate(1, [1]), map[], [], map[], [], []))
  {
    hide Run, Stale, Excess, Evicted;
    var empty := Shared(Gate.UNUSED, map[], [], map[], [], []);
    StartIs();
    Advance(0, State([Idle, Idle], empty), Call(0, "a", 1), State([Loading("a", 1), Idle], empty));
    Advance(1, State([Loading("a", 1), Idle], empty), LoadLast(0), State([Swapping("a", 1, 0), Idle], empty));
    Advance(2, State([Swapping("a", 1, 0), Idle], empty), Swap(0),
      State([Sweeping("a", 1), Idle], Shared(Gate.Gate(1, [1]), map[], [], map[], [], [])));
  }

  lemma FirstPass()
    ensures Run(SHORT_LIVED, 2, LATE, 4)
            == State([Reading("a", 1), Idle], Shared(Gate.Gate(1, [1]), map[], [], map[], [], []))
  {
    hide Run, Stale, Excess, Evicted;
    FirstSwap();
    var sh := Shared(Gate.Gate(1, [1]), map[], [], map[], [], []);
    SweepOfNothing(sh, 1);
    Advance(3, State([Sweeping("a", 1), Idle], sh), Sweep(0, {}), State([Reading("a", 1), Idle], sh));
  }

  lemma FirstEntry()
    requires Run(SHORT_LIVED, 2, LATE, 4)
             == State([Reading("a", 1), Idle], Shared(Gate.Gate(1, [1]), map[], [], map[], [], []))
    ensures Run(SHORT_LIVED, 2, LATE, 6)
         == State([Touching(Handout("a", 0, 0), 1), Idle],
              Shared(Gate.Gate(1, [1]), map["a" := 0], [1], map[], [Handout("a", 0, 0)], []))
  {
    hide Run, Stale, Excess, Evicted;
    var s4 := State([Reading("a", 1), Idle], Shared(Gate.Gate(1, [1]), map[], [], map[], [], []));
    var s5 := s4.(callers := [Locking("a", 1), Idle]);
    Advance(4, s4, Read(0), s5);
    var s6 := State([Touching(Handout("a", 0, 0), 1), Idle],
                Shared(Gate.Gate(1, [1]), map["a" := 0], [1], map[], [Handout("a", 0, 0)], []));
    Advance(5, s5, LookAgain(0), s6);
  }

  lemma StartIs()
    ensures Run(SHORT_LIVED, 2, LATE, 0) == State([Idle, Idle], Shared(Gate.UNUSED, map[], [], map[], [], []))
  {
    assert Initial(2).callers == [Idle, Idle];
  }

  lemma SweepOfNothing(sh: Shared, now: int)
    requires sh.entries == map[] && sh.evicted == map[]
    ensures Excess(SHORT_LIVED, sh, now, {}) && Evicted(sh, Stale(SHORT_LIVED, sh, now) + {}) == sh
  {
    assert sh.entries.Keys - Stale(SHORT_LIVED, sh, now) - {} == {};
    assert Evicted(sh, Stale(SHORT_LIVED, sh, now) + {}).entries == map[];
  }

  lemma SweepOfOne(sh: Shared)
    requires sh.entries == map["a" := 0] && sh.evicted == map[] && sh.lastSeen == [1]
    ensures Excess(SHORT_LIVED, sh, 3, {})
    ensures Evicted(sh, Stale(SHORT_LIVED, sh, 3) + {}) == sh.(entries := map[], evicted := map["a" := 1])
  {
    OnlyOneIsStale(sh);
    hide Stale;
    assert sh.entries.Keys - {"a"} - {} == {};
    var victims := Stale(SHORT_LIVED, sh, 3) + {};
    assert victims == {"a"};
    assert sh.entries - victims == map[];
    assert Evicted(sh, victims).evicted == map["a" := 1];
  }

  lemma OnlyOneIsStale(sh: Shared)
    requires sh.entries == map["a" := 0] && sh.lastSeen == [1]
    ensures Stale(SHORT_LIVED, sh, 3) == {"a"}
  {
  }

  lemma SecondPass()
    requires Run(SHORT_LIVED, 2, LATE, 6)
          == State([Touching(Handout("a", 0, 0), 1), Idle],
               Shared(Gate.Gate(1, [1]), map["a" := 0], [1], map[], [Handout("a", 0, 0)], []))
    ensures Run(SHORT_LIVED, 2, LATE, 10)
         == State([Touching(Handout("a", 0, 0), 1), Reading("a", 3)],
              Shared(Gate.Gate(3, [1, 3]), map[], [1], map["a" := 1], [Handout("a", 0, 0)], []))
  {
    hide Run, Stale, Excess, Evicted;
    var mine := Handout("a", 0, 0);
    var c := Touching(mine, 1);
    var s6 := State([c, Idle], Shared(Gate.Gate(1, [1]), map["a" := 0], [1], map[], [mine], []));
    var s7 := s6.(callers := [c, Loading("a", 3)]);
    Advance(6, s6, Call(1, "a", 3), s7);
    var s8 := s6.(callers := [c, Swapping("a", 3, 1)]);
    Advance(7, s7, LoadLast(1), s8);
    var s9 := State([c, Sweeping("a", 3)], s6.shared.(gate := Gate.Gate(3, [1, 3])));
    Advance(8, s8, Swap(1), s9);
    SweepOfOne(s9.shared);
    Advance(9, s9, Sweep(1, {}), State([c, Reading("a", 3)], s9.shared.(entries := map[], evicted := map["a" := 1])));
  }

  lemma SecondEntry()
    requires Run(SHORT_LIVED, 2, LATE, 10)
          == State([Touching(Handout("a", 0, 0), 1), Reading("a", 3)],
               Shared(Gate.Gate(3, [1, 3]), map[], [1], map["a" := 1], [Handout("a", 0, 0)], []))
    ensures Run(SHORT_LIVED, 2, LATE, 12)
         == State([Touching(Handout("a", 0, 0), 1), Touching(Handout("a", 1, 1), 3)],
              Shared(Gate.Gate(3, [1, 3]), map["a" := 1], [1, 3], map["a" := 1],
                     [Handout("a", 0, 0), Handout("a", 1, 1)], []))
  {
    hide Run, Stale, Excess, Evicted;
    var mine, late := Handout("a", 0, 0), Handout("a", 1, 1);
    var c := Touching(mine, 1);
    var s10 := State([c, Reading("a", 3)], Shared(Gate.Gate(3, [1, 3]), map[], [1], map["a" := 1], [mine], []));
    var s11 := s10.(callers := [c, Locking("a", 3)]);
    Advance(10, s10, Read(1), s11);
    Advance(11, s11, LookAgain(1),
      State([c, Touching(late, 3)],
            Shared(Gate.Gate(3, [1, 3]), map["a" := 1], [1, 3], map["a" := 1], [mine, late], [])));
  }

  /** Calls do get lost: an update of the first entry is applied after the process has a second one. */
  lemma LateCallIsLost()
    ensures
      var sh := Run(SHORT_LIVED, 2, LATE, |LATE|).shared;
      sh.entries == map["a" := 1] && sh.applied == [Applied(Handout("a", 0, 0), 1, false)]
  {
    hide Run, Stale, Excess, Evicted;
    FirstPass();
    FirstEntry();
    SecondPass();
    SecondEntry();
    var mine, late := Handout("a", 0, 0), Handout("a", 1, 1);
    var s12 := State([Touching(mine, 1), Touching(late, 3)],
                 Shared(Gate.Gate(3, [1, 3]), map["a" := 1], [1, 3], map["a" := 1], [mine, late], []));
    var s13 := s12.(callers := [Entering(mine, 1), Touching(late, 3)]);
    Advance(12, s12, Touch(0), s13);
    Advance(13, s13, Enter(0), State([Idle, Touching(late, 3)], s12.shared.(applied := [Applied(mine, 1, false)])));
  }

  // ----- the gate and the pass -----

  /** Where a caller stands towards the gate. */
  function Asks(c: Caller): Gate.Asker {
    match c
    case Loading(_, now) => Gate.Loading(now)
    case Swapping(_, now, last) => Gate.Swapping(now, last)
    case _ => Gate.Away
  }

  function AtGate(s: State): Gate.State {
    Gate.State(seq(|s.callers|, w requires 0 <= w < |s.callers| => Asks(s.callers[w])), s.shared.gate)
  }

  lemma StepMoves(cfg: Config, sh: Shared, c: Caller, step: Step)
    ensures
      var m := Do(cfg, sh, c, step);
      Gate.Moves(cfg.interval, sh.gate, Asks(c), m.shared.gate, Asks(m.caller))
  {
    hide Gate.Swapped, Stale, Excess, Evictions, SeenAt, Current;
  }

  lemma NextSteps(cfg: Config, s: State, step: Step)
    ensures Gate.Steps(cfg.interval, AtGate(s), AtGate(Next(cfg, s, step)))
  {
    hide Do, Gate.Moves, Asks;
    if step.w < |s.callers| {
      StepMoves(cfg, s.shared, s.callers[step.w], step);
      var left, right := AtGate(s), AtGate(Next(cfg, s, step));
      assert right.askers == left.askers[step.w := right.askers[step.w]];
    }
  }

  /** Every run is a run of the gate, so passes start at most once per interval. */
  lemma RunIsGated(cfg: Config, n: nat, steps: seq<Step>)
    ensures
      Gate.Execution(cfg.interval, seq(|steps| + 1, k requires 0 <= k <= |steps| => AtGate(Run(cfg, n, steps, k))))
  {
    hide Gate.Steps, Next;
    var states := seq(|steps| + 1, k requires 0 <= k <= |steps| => AtGate(Run(cfg, n, steps, k)));
    forall i | 0 <= i < |states| - 1 ensures Gate.Steps(cfg.interval, states[i], states[i + 1]) {
      NextSteps(cfg, Run(cfg, n, steps, i), steps[i]);
    }
  }
}
