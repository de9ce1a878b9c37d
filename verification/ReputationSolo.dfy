/** What the protocol of the reputation store has to do with the store itself (stats/reputation.go): a call that
    nobody interrupts does what the manager does under one caller at a time, to the same entries. */
module ReputationSolo {
  import opened Common
  import opened ReputationProtocol
  import Gate
  import Reputation
  import ReputationManager

  predicate Alike(cfg: Config, rc: Reputation.ReputationConfig) {
    cfg.interval == rc.cleanupInterval && cfg.maxEntries == rc.maxEntries > 0 && cfg.entryTTL == rc.entryTTL
  }

  /** The map has the entries of the manager, seen when they were. */
  ghost predicate Shows(sh: Shared, entries: ReputationManager.Entries) {
    && sh.entries.Keys == entries.Keys
    && forall p :: p in entries ==> SeenAt(sh, sh.entries[p]) == entries[p].lastSeen
  }

  /** A caller and what all share after the first `k` steps of a script. */
  function Acted(cfg: Config, sh: Shared, c: Caller, script: seq<Step>, k: nat): Moved
    requires k <= |script|
  {
    if k == 0 then Moved(c, sh)
    else var m := Acted(cfg, sh, c, script, k - 1); Do(cfg, m.shared, m.caller, script[k - 1])
  }

  /** The script is one whole call, in which nobody else moves. */
  ghost predicate Solo(cfg: Config, sh: Shared, process: string, now: int, script: seq<Step>) {
    && script != [] && script[0].Call? && script[0].process == process && script[0].now == now
    && (forall k :: 0 < k < |script| ==> !Acted(cfg, sh, Idle, script, k).caller.Idle?)
    && Acted(cfg, sh, Idle, script, |script|).caller.Idle?
  }

  /** What a call of the manager leaves, after a pass that leaves `mid`: those entries, the ones they were, and
      that of the process, new if the pass left none, and seen now. */
  ghost predicate Left(sh: Shared, sh': Shared, mid: ReputationManager.Entries, process: string, now: int, last: int) {
    && sh'.gate.last == last
    && sh'.entries.Keys == mid.Keys + {process} && SeenAt(sh', sh'.entries[process]) == now
    && (process !in mid ==> sh'.entries[process] == |sh.lastSeen|)
    && forall p :: p in mid ==>
         && p in sh.entries && sh'.entries[p] == sh.entries[p]
         && (p != process ==> SeenAt(sh', sh'.entries[p]) == mid[p].lastSeen)
  }

  // ----- what a call goes through -----

  predicate Due(cfg: Config, sh: Shared, now: int) {
    sh.gate.last == 0 || now - sh.gate.last >= cfg.interval
  }

  function Won(sh: Shared, now: int): Shared {
    sh.(gate := Gate.Gate(now, sh.gate.passes + [now]))
  }

  /** Past the pass, if one is due. */
  ghost predicate Passed(cfg: Config, sh: Shared, now: int, s: Shared) {
    if !Due(cfg, sh, now) then s == sh
    else exists extra :: Excess(cfg, sh, now, extra) && s == Evicted(Won(sh, now), Stale(cfg, sh, now) + extra)
  }

  /** With the entry of the process in the map and handed out. */
  function Found(s: Shared, process: string, now: int): Shared {
    if process in s.entries then HandOut(s, process, now).shared
    else CreatedIsThere(s, process, now); HandOut(Created(s, process, now), process, now).shared
  }

  ghost predicate Held(cfg: Config, sh: Shared, process: string, now: int, s: Shared, h: Handout, s1: Shared) {
    && Passed(cfg, sh, now, s1) && s == Found(s1, process, now)
    && process in s.entries && h.process == process && h.entry == s.entries[process]
  }

  ghost predicate OnTheWay(cfg: Config, sh: Shared, process: string, now: int, c: Caller, s: Shared) {
    match c
    case Idle => false
    case Loading(p, t) => p == process && t == now && s == sh
    case Swapping(p, t, last) => p == process && t == now && s == sh && last == sh.gate.last && Due(cfg, sh, now)
    case Sweeping(p, t) => p == process && t == now && s == Won(sh, now) && Due(cfg, sh, now)
    case Reading(p, t) => p == process && t == now && Passed(cfg, sh, now, s)
    case Locking(p, t) => p == process && t == now && Passed(cfg, sh, now, s) && process !in s.entries
    case Touching(h, t) => t == now && exists s1 :: Held(cfg, sh, process, now, s, h, s1)
    case Entering(h, t) =>
      t == now && exists s1, s2 :: Held(cfg, sh, process, now, s2, h, s1) && s == Touched(s2, h.entry, now)
  }

  ghost predicate Over(cfg: Config, sh: Shared, process: string, now: int, s: Shared) {
    exists h, s1, s2 :: Held(cfg, sh, process, now, s2, h, s1) && s == Entered(Touched(s2, h.entry, now), h)
  }

  lemma EarlyStep(cfg: Config, sh: Shared, process: string, now: int, c: Caller, s: Shared, step: Step)
    requires OnTheWay(cfg, sh, process, now, c, s) && (c.Loading? || c.Swapping? || c.Sweeping?)
    ensures
      var m := Do(cfg, s, c, step);
      !m.caller.Idle? && OnTheWay(cfg, sh, process, now, m.caller, m.shared)
  {
    hide Evicted, Excess, Stale;
    if c.Sweeping? && step.Sweep? {
      SameForPass(cfg, sh, now, step.extra);
    }
  }

  lemma SameForPass(cfg: Config, sh: Shared, now: int, extra: set<string>)
    ensures Stale(cfg, Won(sh, now), now) == Stale(cfg, sh, now)
    ensures Excess(cfg, Won(sh, now), now, extra) <==> Excess(cfg, sh, now, extra)
  {
    assert Stale(cfg, Won(sh, now), now) == Stale(cfg, sh, now);
  }

  lemma LookStep(cfg: Config, sh: Shared, process: string, now: int, c: Caller, s: Shared, step: Step)
    requires OnTheWay(cfg, sh, process, now, c, s) && (c.Reading? || c.Locking?)
    ensures
      var m := Do(cfg, s, c, step);
      !m.caller.Idle? && OnTheWay(cfg, sh, process, now, m.caller, m.shared)
  {
    hide Passed, Created;
    var m := Do(cfg, s, c, step);
    if m.caller.Touching? {
      CreatedIsThere(s, process, now);
      assert Held(cfg, sh, process, now, m.shared, m.caller.handout, s);
    }
  }

  lemma LateStep(cfg: Config, sh: Shared, process: string, now: int, c: Caller, s: Shared, step: Step)
    requires OnTheWay(cfg, sh, process, now, c, s) && (c.Touching? || c.Entering?)
    ensures
      var m := Do(cfg, s, c, step);
      if m.caller.Idle? then Over(cfg, sh, process, now, m.shared)
      else OnTheWay(cfg, sh, process, now, m.caller, m.shared)
  {
    hide Held, Touched, Entered;
  }

  lemma {:induction false} ScriptProgresses(cfg: Config, sh: Shared, process: string, now: int, script: seq<Step>,
                                            k: nat)
    requires Solo(cfg, sh, process, now, script) && 0 < k <= |script| && process != "" && now > 0
    ensures
      var m := Acted(cfg, sh, Idle, script, k);
      if m.caller.Idle? then Over(cfg, sh, process, now, m.shared)
      else OnTheWay(cfg, sh, process, now, m.caller, m.shared)
  {
    hide OnTheWay, Over, Do;
    if k == 1 {
      assert Acted(cfg, sh, Idle, script, 0) == Moved(Idle, sh);
      CallStep(cfg, sh, process, now, script[0]);
    } else {
      ScriptProgresses(cfg, sh, process, now, script, k - 1);
      var m := Acted(cfg, sh, Idle, script, k - 1);
      if m.caller.Loading? || m.caller.Swapping? || m.caller.Sweeping? {
        EarlyStep(cfg, sh, process, now, m.caller, m.shared, script[k - 1]);
      } else if m.caller.Reading? || m.caller.Locking? {
        LookStep(cfg, sh, process, now, m.caller, m.shared, script[k - 1]);
      } else {
        LateStep(cfg, sh, process, now, m.caller, m.shared, script[k - 1]);
      }
    }
  }

  lemma CallStep(cfg: Config, sh: Shared, process: string, now: int, step: Step)
    requires step.Call? && step.process == process && step.now == now && process != "" && now > 0
    ensures
      var m := Do(cfg, sh, Idle, step);
      !m.caller.Idle? && OnTheWay(cfg, sh, process, now, m.caller, m.shared)
  {
  }

  // ----- what it comes to -----

  /** The entries that a pass has left. */
  function Kept(entries: ReputationManager.Entries, s: Shared): ReputationManager.Entries {
    map p | p in entries && p in s.entries :: entries[p]
  }

  lemma StaleAreNotRecent(cfg: Config, rc: Reputation.ReputationConfig, sh: Shared, entries: ReputationManager.Entries,
                          now: int)
    requires Alike(cfg, rc) && Shows(sh, entries)
    ensures ReputationManager.Recent(rc, entries, now).Keys == sh.entries.Keys - Stale(cfg, sh, now)
    ensures forall n: nat :: Capped(cfg, n) == Min(n, rc.maxEntries)
  {
  }

  lemma PassIsCleaning(cfg: Config, rc: Reputation.ReputationConfig, sh: Shared, entries: ReputationManager.Entries,
                       now: int, s: Shared)
    requires Alike(cfg, rc) && Shows(sh, entries) && Passed(cfg, sh, now, s)
    ensures ReputationManager.Cleaned(rc, entries, sh.gate.last, now, Kept(entries, s), s.gate.last)
    ensures Kept(entries, s).Keys == s.entries.Keys && s.lastSeen == sh.lastSeen
    ensures forall p :: p in s.entries ==> p in sh.entries && s.entries[p] == sh.entries[p]
  {
    hide Stale, Excess, Evicted, ReputationManager.Recent;
    if Due(cfg, sh, now) {
      var extra :| Excess(cfg, sh, now, extra) && s == Evicted(Won(sh, now), Stale(cfg, sh, now) + extra);
      EvictedIs(Won(sh, now), Stale(cfg, sh, now) + extra);
      DuePass(cfg, rc, sh, entries, now, s, extra);
    } else {
      assert Kept(entries, s) == entries;
    }
  }

  lemma EvictedIs(sh: Shared, victims: set<string>)
    ensures
      var s := Evicted(sh, victims);
      && s.entries == sh.entries - victims && s.gate == sh.gate && s.lastSeen == sh.lastSeen
  {
  }

  lemma DuePass(cfg: Config, rc: Reputation.ReputationConfig, sh: Shared, entries: ReputationManager.Entries, now: int,
                s: Shared, extra: set<string>)
    requires Alike(cfg, rc) && Shows(sh, entries) && Due(cfg, sh, now) && Excess(cfg, sh, now, extra)
    requires s.entries == sh.entries - (Stale(cfg, sh, now) + extra) && s.gate.last == now
    ensures ReputationManager.Cleaned(rc, entries, sh.gate.last, now, Kept(entries, s), now)
    ensures Kept(entries, s).Keys == s.entries.Keys
  {
    hide Stale, Capped, Shows, Kept, ReputationManager.Recent;
    var mid, kept := Kept(entries, s), ReputationManager.Recent(rc, entries, now);
    StaleAreNotRecent(cfg, rc, sh, entries, now);
    RecentAreEntries(rc, entries, now);
    ShownKeys(sh, entries);
    assert s.entries.Keys == kept.Keys - extra;
    KeptIs(entries, s);
    assert |kept| == |kept.Keys|;
  }

  lemma KeptIs(entries: ReputationManager.Entries, s: Shared)
    requires s.entries.Keys <= entries.Keys
    ensures Kept(entries, s).Keys == s.entries.Keys && |Kept(entries, s)| == |s.entries.Keys|
    ensures forall p :: p in s.entries ==> Kept(entries, s)[p] == entries[p]
  {
    assert Kept(entries, s).Keys == s.entries.Keys;
    assert |Kept(entries, s)| == |Kept(entries, s).Keys|;
  }

  lemma ShownKeys(sh: Shared, entries: ReputationManager.Entries)
    requires Shows(sh, entries)
    ensures sh.entries.Keys == entries.Keys
  {
  }

  lemma RecentAreEntries(rc: Reputation.ReputationConfig, entries: ReputationManager.Entries, now: int)
    ensures
      var kept := ReputationManager.Recent(rc, entries, now);
      forall p :: p in kept ==> p in entries && kept[p] == entries[p]
  {
  }

  /** The entry found is seen now, and no other is seen again. */
  lemma FoundIsLeft(sh: Shared, s1: Shared, mid: ReputationManager.Entries, entries: ReputationManager.Entries,
                    process: string, now: int, h: Handout)
    requires Distinct(sh) && Shows(sh, entries) && s1.lastSeen == sh.lastSeen && mid.Keys == s1.entries.Keys
    requires forall p :: p in s1.entries ==> p in sh.entries && s1.entries[p] == sh.entries[p]
    requires forall p :: p in mid ==> p in entries && mid[p] == entries[p]
    requires h.process == process && h.entry == Found(s1, process, now).entries[process]
    ensures Left(sh, Entered(Touched(Found(s1, process, now), h.entry, now), h), mid, process, now, s1.gate.last)
  {
    hide Evictions;
  }

  /** A call that nobody interrupts is a call of the manager under one caller at a time. */
  lemma SoloIsSequential(cfg: Config, rc: Reputation.ReputationConfig, sh: Shared, entries: ReputationManager.Entries,
                         process: string, now: int, script: seq<Step>)
      returns (mid: ReputationManager.Entries, last: int)
    requires Alike(cfg, rc) && Distinct(sh) && Shows(sh, entries) && process != "" && now > 0
    requires Solo(cfg, sh, process, now, script)
    ensures ReputationManager.Cleaned(rc, entries, sh.gate.last, now, mid, last)
    ensures Left(sh, Acted(cfg, sh, Idle, script, |script|).shared, mid, process, now, last)
  {
    hide Passed, Distinct, Acted, ReputationManager.Cleaned, Left, Found, Touched, Entered, Shows;
    ScriptProgresses(cfg, sh, process, now, script, |script|);
    var s := Acted(cfg, sh, Idle, script, |script|).shared;
    var h, s1, s2 :| Held(cfg, sh, process, now, s2, h, s1) && s == Entered(Touched(s2, h.entry, now), h);
    mid, last := Kept(entries, s1), s1.gate.last;
    PassIsCleaning(cfg, rc, sh, entries, now, s1);
    FoundIsLeft(sh, s1, mid, entries, process, now, h);
  }

  // ----- and the other way round -----

  /** One whole call; steps that are not enabled do nothing. */
  function Alone(w: nat, process: string, now: int, extra: set<string>): seq<Step> {
    [Call(w, process, now), LoadLast(w), Swap(w), Sweep(w, extra), Read(w), LookAgain(w), Touch(w), Enter(w)]
  }

  lemma OneMore(cfg: Config, sh: Shared, script: seq<Step>, k: nat, m: Moved)
    requires k < |script| && Acted(cfg, sh, Idle, script, k) == m
    ensures Acted(cfg, sh, Idle, script, k + 1) == Do(cfg, m.shared, m.caller, script[k])
  {
    hide Do;
  }

  lemma AlonePasses(cfg: Config, sh: Shared, w: nat, process: string, now: int, extra: set<string>, s: Shared)
    requires process != "" && now > 0
    requires if !Due(cfg, sh, now) then s == sh
             else Excess(cfg, sh, now, extra) && s == Evicted(Won(sh, now), Stale(cfg, sh, now) + extra)
    ensures
      var script := Alone(w, process, now, extra);
      && (forall k :: 0 < k < 4 ==> !Acted(cfg, sh, Idle, script, k).caller.Idle?)
      && Acted(cfg, sh, Idle, script, 4) == Moved(Reading(process, now), s)
  {
    hide Acted, Evicted, Excess, Stale;
    var script := Alone(w, process, now, extra);
    Nothing(cfg, sh, script);
    OneMore(cfg, sh, script, 0, Moved(Idle, sh));
    OneMore(cfg, sh, script, 1, Moved(Loading(process, now), sh));
    if Due(cfg, sh, now) {
      OneMore(cfg, sh, script, 2, Moved(Swapping(process, now, sh.gate.last), sh));
      OneMore(cfg, sh, script, 3, Moved(Sweeping(process, now), Won(sh, now)));
      SameForPass(cfg, sh, now, extra);
    } else {
      OneMore(cfg, sh, script, 2, Moved(Reading(process, now), sh));
      OneMore(cfg, sh, script, 3, Moved(Reading(process, now), sh));
    }
  }

  lemma Nothing(cfg: Config, sh: Shared, script: seq<Step>)
    ensures Acted(cfg, sh, Idle, script, 0) == Moved(Idle, sh)
  {
  }

  lemma AloneFinishes(cfg: Config, sh: Shared, w: nat, process: string, now: int, extra: set<string>, s: Shared)
      returns (h: Handout)
    requires Acted(cfg, sh, Idle, Alone(w, process, now, extra), 4) == Moved(Reading(process, now), s)
    ensures h.process == process && h.entry == Found(s, process, now).entries[process]
    ensures
      var script := Alone(w, process, now, extra);
      && (forall k :: 4 <= k < 8 ==> !Acted(cfg, sh, Idle, script, k).caller.Idle?)
      && Acted(cfg, sh, Idle, script, 8) == Moved(Idle, Entered(Touched(Found(s, process, now), h.entry, now), h))
  {
    hide Acted, Touched, Entered, Created;
    var script, found := Alone(w, process, now, extra), Found(s, process, now);
    OneMore(cfg, sh, script, 4, Moved(Reading(process, now), s));
    CreatedIsThere(s, process, now);
    var known := if process in s.entries then s else Created(s, process, now);
    h := HandoutOf(known, process);
    if process in s.entries {
      OneMore(cfg, sh, script, 5, Moved(Touching(h, now), found));
    } else {
      OneMore(cfg, sh, script, 5, Moved(Locking(process, now), s));
    }
    OneMore(cfg, sh, script, 6, Moved(Touching(h, now), found));
    OneMore(cfg, sh, script, 7, Moved(Entering(h, now), Touched(found, h.entry, now)));
  }

  /** Whatever the manager may do under one caller, a call that nobody interrupts may do. */
  lemma SequentialIsSolo(cfg: Config, rc: Reputation.ReputationConfig, sh: Shared, entries: ReputationManager.Entries,
                         process: string, now: int, mid: ReputationManager.Entries, last: int, w: nat)
      returns (script: seq<Step>)
    requires Alike(cfg, rc) && Distinct(sh) && Shows(sh, entries) && process != "" && now > 0
    requires ReputationManager.Cleaned(rc, entries, sh.gate.last, now, mid, last)
    ensures Solo(cfg, sh, process, now, script) && forall i :: 0 <= i < |script| ==> script[i].w == w
    ensures Left(sh, Acted(cfg, sh, Idle, script, |script|).shared, mid, process, now, last)
  {
    hide Stale, Excess, Evicted, Distinct, Acted, ReputationManager.Cleaned, Left, Found, Touched, Entered, Shows, Due;
    var extra := sh.entries.Keys - Stale(cfg, sh, now) - mid.Keys;
    script := Alone(w, process, now, extra);
    var s := if Due(cfg, sh, now) then Evicted(Won(sh, now), Stale(cfg, sh, now) + extra) else sh;
    CleaningIsPass(cfg, rc, sh, entries, now, mid, last, extra, s);
    AlonePasses(cfg, sh, w, process, now, extra, s);
    var h := AloneFinishes(cfg, sh, w, process, now, extra, s);
    FoundIsLeft(sh, s, mid, entries, process, now, h);
    assert script[0] == Call(w, process, now);
  }

  lemma CleaningIsPass(cfg: Config, rc: Reputation.ReputationConfig, sh: Shared, entries: ReputationManager.Entries,
                       now: int, mid: ReputationManager.Entries, last: int, extra: set<string>, s: Shared)
    requires Alike(cfg, rc) && Shows(sh, entries)
    requires ReputationManager.Cleaned(rc, entries, sh.gate.last, now, mid, last)
    requires extra == sh.entries.Keys - Stale(cfg, sh, now) - mid.Keys
    requires s == if Due(cfg, sh, now) then Evicted(Won(sh, now), Stale(cfg, sh, now) + extra) else sh
    ensures Due(cfg, sh, now) ==> Excess(cfg, sh, now, extra)
    ensures s.entries.Keys == mid.Keys && s.lastSeen == sh.lastSeen && s.gate.last == last
    ensures forall p :: p in s.entries ==> p in sh.entries && s.entries[p] == sh.entries[p]
    ensures forall p :: p in mid ==> p in entries && mid[p] == entries[p]
  {
    hide Stale, Evicted, Capped, ReputationManager.Recent, Shows;
    ShownKeys(sh, entries);
    if Due(cfg, sh, now) {
      var kept := ReputationManager.Recent(rc, entries, now);
      StaleAreNotRecent(cfg, rc, sh, entries, now);
      RecentAreEntries(rc, entries, now);
      EvictedIs(Won(sh, now), Stale(cfg, sh, now) + extra);
      assert kept.Keys - extra == mid.Keys;
      assert |mid| == |mid.Keys| && |kept| == |kept.Keys|;
    }
  }
}
