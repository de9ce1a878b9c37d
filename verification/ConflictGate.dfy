/** What the conflict check guarantees in every interleaving (agent/worker.go, agent/conflict.go). */
module ConflictGate {
  import opened Evaluator
  import opened Pipeline
  import Conflict
  import Cooldown

  function Drifts(sh: Shared, p: string): seq<int> {
    Conflict.Timestamps(sh.drifts, p)
  }

  function Passes(sh: Shared, p: string): seq<Pass> {
    Of(sh.passes, p)
  }

  ghost predicate Recorded(sh: Shared, p: string, t: Ticket) {
    t.index < |Drifts(sh, p)| && Drifts(sh, p)[t.index] == t.recorded
  }

  /** The worker has recorded a drift of the parameter and has not had its conflict check yet. */
  predicate Holds(c: Worker, p: string) {
    (c.Cooling? || c.Checking?) && c.ev.param == p
  }

  /** The event saw fewer drifts in the window of its check than it takes to make a conflict. */
  ghost predicate Sparse(sh: Shared, p: string, e: Pass) {
    && Recorded(sh, p, e.ticket)
    && e.ticket.index < e.seen <= |Drifts(sh, p)|
    && |Conflict.After(Drifts(sh, p), e.seen, e.checked - CONFLICT_WINDOW)| < CONFLICT_THRESHOLD
  }

  ghost predicate PassesSound(sh: Shared, p: string) {
    && (forall i :: 0 <= i < |Passes(sh, p)| ==> Sparse(sh, p, Passes(sh, p)[i]))
    && (forall i, j :: 0 <= i < j < |Passes(sh, p)| ==>
          Passes(sh, p)[i].seen <= Passes(sh, p)[j].seen
          && Passes(sh, p)[i].ticket.index != Passes(sh, p)[j].ticket.index)
  }

  ghost predicate TicketSound(sh: Shared, p: string, c: Worker) {
    Holds(c, p) ==>
      && Recorded(sh, p, c.ticket)
      && forall i :: 0 <= i < |Passes(sh, p)| ==> Passes(sh, p)[i].ticket.index != c.ticket.index
  }

  ghost predicate TicketsDiffer(c: Worker, d: Worker, p: string) {
    Holds(c, p) && Holds(d, p) ==> c.ticket.index != d.ticket.index
  }

  /** The pruned log answers like the history for every window that ends now or later. */
  ghost predicate LogSound(sh: Shared, p: string, cut: int) {
    cut <= sh.clock - CONFLICT_WINDOW && Conflict.Agree(sh.events, sh.drifts, p, cut)
  }

  ghost predicate Invariant(s: State, p: string, cut: int) {
    && LogSound(s.shared, p, cut)
    && PassesSound(s.shared, p)
    && (forall w :: 0 <= w < |s.workers| ==> TicketSound(s.shared, p, s.workers[w]))
    && (forall v, w :: 0 <= v < w < |s.workers| ==> TicketsDiffer(s.workers[v], s.workers[w], p))
  }

  // ----- one step -----

  /** A drift record of this parameter: every earlier promise stands, and the new ticket is new. */
  lemma DriftKeeps(sh: Shared, ev: Event, action: Action, p: string, cut: int)
    requires LogSound(sh, p, cut) && PassesSound(sh, p)
    ensures
      var m := DoRecordDrift(sh, ev, action);
      && LogSound(m.shared, p, cut) && PassesSound(m.shared, p)
      && TicketSound(m.shared, p, m.worker)
      && Passes(m.shared, p) == Passes(sh, p)
      && (forall c :: TicketSound(sh, p, c) ==>
            TicketSound(m.shared, p, c) && TicketsDiffer(c, m.worker, p) && TicketsDiffer(m.worker, c, p))
  {
    hide Conflict.After, Conflict.Agree;
    var m := DoRecordDrift(sh, ev, action);
    assert Passes(m.shared, p) == Passes(sh, p);
    forall i | 0 <= i < |Passes(sh, p)| ensures Passes(sh, p)[i].ticket.index < |Drifts(sh, p)| {
      assert Sparse(sh, p, Passes(sh, p)[i]);
    }
    Conflict.AgreeAfterRecord(sh.events, sh.drifts, p, cut, ev.param, sh.clock);
    if ev.param == p {
      assert Drifts(m.shared, p) == Drifts(sh, p) + [sh.clock];
      forall i | 0 <= i < |Passes(sh, p)| ensures Sparse(m.shared, p, Passes(sh, p)[i]) {
        var e := Passes(sh, p)[i];
        Conflict.AfterOfAppend(Drifts(sh, p), sh.clock, e.seen, e.checked - CONFLICT_WINDOW);
      }
    } else {
      assert Drifts(m.shared, p) == Drifts(sh, p);
    }
  }

  /** A conflict check that some event passes: the new pass is sparse, and its ticket was not used before. */
  lemma PassKeeps(sh: Shared, sh': Shared, p: string, pass: Pass)
    requires PassesSound(sh, p) && Drifts(sh', p) == Drifts(sh, p)
    requires Passes(sh', p) == Passes(sh, p) + [pass]
    requires Recorded(sh, p, pass.ticket) && pass.seen == |Drifts(sh, p)|
    requires |Conflict.After(Drifts(sh, p), |Drifts(sh, p)|, pass.checked - CONFLICT_WINDOW)| < CONFLICT_THRESHOLD
    requires forall i :: 0 <= i < |Passes(sh, p)| ==> Passes(sh, p)[i].ticket.index != pass.ticket.index
    ensures PassesSound(sh', p)
  {
    hide Conflict.After;
    forall i | 0 <= i < |Passes(sh', p)|
      ensures Sparse(sh', p, Passes(sh', p)[i]) && Passes(sh', p)[i].seen <= pass.seen
    {
      if i < |Passes(sh, p)| {
        assert Sparse(sh, p, Passes(sh, p)[i]);
      }
    }
  }

  /** What a conflict check changes. */
  lemma CheckEffect(sh: Shared, c: Worker, p: string)
    requires c.Checking?
    ensures
      var m := DoCheckConflict(sh, c);
      && m.shared.clock == sh.clock && m.shared.drifts == sh.drifts && !Holds(m.worker, p)
      && m.shared.events == Conflict.Pruned(sh.events, c.ev.param, sh.clock - CONFLICT_WINDOW)
      && (m.worker.Writing? ==> !Conflict.Conflicting(sh.events, c.ev.param, sh.clock, CONFLICT_WINDOW,
                                                      CONFLICT_THRESHOLD))
      && Passes(m.shared, p) == Passes(sh, p)
           + if m.worker.Writing? && c.ev.param == p then [Pass(c.ticket, sh.clock, |Drifts(sh, p)|)] else []
  {
    hide Of, Conflict.Pruned, Conflict.Conflicting, Conflict.Timestamps;
    var pass := Pass(c.ticket, sh.clock, |Drifts(sh, c.ev.param)|);
    if DoCheckConflict(sh, c).worker.Writing? {
      PassAppended(sh.passes, c.ev.param, pass, p);
    }
  }

  lemma PassAppended(passes: map<string, seq<Pass>>, param: string, pass: Pass, p: string)
    ensures Of(passes[param := Of(passes, param) + [pass]], p) == Of(passes, p) + if param == p then [pass] else []
  {
  }

  /** A conflict check of this parameter: pruning is invisible, and whoever passes is sound. */
  lemma CheckKeeps(sh: Shared, c: Worker, p: string, cut: int) returns (cut': int)
    requires LogSound(sh, p, cut) && PassesSound(sh, p) && TicketSound(sh, p, c) && c.Checking?
    ensures
      var m := DoCheckConflict(sh, c);
      && LogSound(m.shared, p, cut') && PassesSound(m.shared, p)
      && !Holds(m.worker, p)
      && (forall d :: TicketSound(sh, p, d) && TicketsDiffer(c, d, p) ==> TicketSound(m.shared, p, d))
  {
    hide DoCheckConflict, Passes, Conflict.After, Conflict.Agree, Conflict.Pruned, Conflict.Conflicting, PassesSound;
    var m := DoCheckConflict(sh, c);
    CheckEffect(sh, c, p);
    cut' := PruneKeeps(sh, m.shared, c.ev.param, p, cut);
    if c.ev.param == p && m.worker.Writing? {
      NotConflicting(sh, p, cut);
      PassKeeps(sh, m.shared, p, Pass(c.ticket, sh.clock, |Drifts(sh, p)|));
    } else {
      SamePasses(sh, m.shared, p);
    }
  }

  lemma PruneKeeps(sh: Shared, sh': Shared, param: string, p: string, cut: int) returns (cut': int)
    requires LogSound(sh, p, cut) && sh'.clock == sh.clock && sh'.drifts == sh.drifts
    requires sh'.events == Conflict.Pruned(sh.events, param, sh.clock - CONFLICT_WINDOW)
    ensures LogSound(sh', p, cut')
  {
    hide Conflict.Agree, Conflict.Pruned;
    if param == p {
      cut' := sh.clock - CONFLICT_WINDOW;
      Conflict.AgreeAfterPrune(sh.events, sh.drifts, p, cut, cut');
    } else {
      cut' := cut;
      Conflict.AgreeElsewhere(sh.events, sh.drifts, p, cut, param, sh.clock - CONFLICT_WINDOW);
    }
  }

  lemma SamePasses(sh: Shared, sh': Shared, p: string)
    requires PassesSound(sh, p) && Drifts(sh', p) == Drifts(sh, p) && Passes(sh', p) == Passes(sh, p)
    ensures PassesSound(sh', p)
  {
    hide Conflict.After;
    forall i | 0 <= i < |Passes(sh, p)| ensures Sparse(sh', p, Passes(sh, p)[i]) {
      assert Sparse(sh, p, Passes(sh, p)[i]);
    }
  }

  lemma NotConflicting(sh: Shared, p: string, cut: int)
    requires LogSound(sh, p, cut)
    requires !Conflict.Conflicting(sh.events, p, sh.clock, CONFLICT_WINDOW, CONFLICT_THRESHOLD)
    ensures |Conflict.After(Drifts(sh, p), |Drifts(sh, p)|, sh.clock - CONFLICT_WINDOW)| < CONFLICT_THRESHOLD
  {
    hide Conflict.After, Conflict.Agree;
    Conflict.AgreeAt(sh.events, sh.drifts, p, cut, sh.clock - CONFLICT_WINDOW);
    if p !in sh.events {
      Conflict.AfterOfNothing(sh.clock - CONFLICT_WINDOW);
    }
  }

  /** Every other step leaves the log, the history and the passes alone, and issues no ticket. */
  lemma OthersKeep(policy: Policy, sh: Shared, w: nat, c: Worker, act: Act, p: string)
    requires Covered(policy, c)
    requires !(act.RecordDrift? && c.Recording?) && !(act.CheckConflict? && c.Checking?)
    ensures
      var m := Do(policy, sh, w, c, act);
      && m.shared.clock == sh.clock && m.shared.events == sh.events && m.shared.drifts == sh.drifts
      && m.shared.passes == sh.passes
      && (Holds(m.worker, p) ==> Holds(c, p) && m.worker.ticket == c.ticket)
  {
    hide Decide, Cooldown.Cooling, CooldownOf, Of;
  }

  lemma WorkKeeps(policy: Policy, s: State, w: nat, act: Act, p: string, cut: int) returns (cut': int)
    requires Invariant(s, p, cut) && w < |s.workers| && Covered(policy, s.workers[w])
    ensures Invariant(Next(policy, s, Work(w, act)), p, cut')
  {
    hide LogSound, PassesSound, TicketSound;
    var c := s.workers[w];
    var m := Do(policy, s.shared, w, c, act);
    assert TicketSound(s.shared, p, c);
    if act.RecordDrift? && c.Recording? {
      cut' := cut;
      DriftKeeps(s.shared, c.ev, c.action, p, cut);
    } else if act.CheckConflict? && c.Checking? {
      cut' := CheckKeeps(s.shared, c, p, cut);
      forall v | 0 <= v < |s.workers| && v != w ensures TicketSound(m.shared, p, s.workers[v]) {
        assert TicketsDiffer(c, s.workers[v], p);
      }
      NoTicket(m.shared, p, m.worker);
    } else {
      cut' := cut;
      OthersKeep(policy, s.shared, w, c, act, p);
      SameTickets(s.shared, m.shared, p, cut, c, m.worker);
    }
  }

  lemma NoTicket(sh: Shared, p: string, c: Worker)
    requires !Holds(c, p)
    ensures TicketSound(sh, p, c)
  {
  }

  lemma SameTickets(sh: Shared, sh': Shared, p: string, cut: int, c: Worker, c': Worker)
    requires sh'.clock >= sh.clock && sh'.events == sh.events && sh'.drifts == sh.drifts && sh'.passes == sh.passes
    requires LogSound(sh, p, cut) && PassesSound(sh, p) && TicketSound(sh, p, c)
    requires Holds(c', p) ==> Holds(c, p) && c'.ticket == c.ticket
    ensures LogSound(sh', p, cut) && PassesSound(sh', p) && TicketSound(sh', p, c')
    ensures forall d :: TicketSound(sh, p, d) ==> TicketSound(sh', p, d)
  {
    hide Conflict.After, Conflict.Agree;
    assert Drifts(sh', p) == Drifts(sh, p) && Passes(sh', p) == Passes(sh, p);
    forall i | 0 <= i < |Passes(sh, p)| ensures Sparse(sh', p, Passes(sh, p)[i]) {
      assert Sparse(sh, p, Passes(sh, p)[i]);
    }
  }

  lemma StepKeeps(policy: Policy, s: State, step: Step, p: string, cut: int) returns (cut': int)
    requires Invariant(s, p, cut)
    ensures Invariant(Next(policy, s, step), p, cut')
  {
    hide Do, LogSound, PassesSound, TicketSound;
    cut' := cut;
    if step.Work? && step.w < |s.workers| && Covered(policy, s.workers[step.w]) {
      cut' := WorkKeeps(policy, s, step.w, step.act, p, cut);
    } else {
      NoTicket(s.shared, p, Idle);
      SameTickets(s.shared, Next(policy, s, step).shared, p, cut, Idle, Idle);
    }
  }

  lemma {:induction false} RunKeeps(start: Start, steps: seq<Step>, k: nat, p: string) returns (cut: int)
    requires k <= |steps|
    ensures Invariant(Run(start, steps, k), p, cut)
  {
    hide Next, Invariant;
    if k == 0 {
      cut := start.clock - CONFLICT_WINDOW;
      InitialHolds(start, p, cut);
    } else {
      cut := RunKeeps(start, steps, k - 1, p);
      cut := StepKeeps(start.policy, Run(start, steps, k - 1), steps[k - 1], p, cut);
    }
  }

  lemma InitialHolds(start: Start, p: string, cut: int)
    requires cut == start.clock - CONFLICT_WINDOW
    ensures Invariant(Initial(start), p, cut)
  {
    hide Conflict.Agree;
    Conflict.AgreeWithItself(map[], p, cut);
  }

  // ----- counting -----

  lemma {:induction false} Latest(s: set<nat>) returns (m: nat)
    requires s != {}
    ensures m in s && forall i :: i in s ==> i <= m
  {
    var x :| x in s;
    m := x;
    if s != {x} {
      var rest := Latest(s - {x});
      if rest > x {
        m := rest;
      }
      forall i | i in s ensures i <= m {
        assert i == x || i in s - {x};
      }
    }
  }

  /** Different passes hold different tickets, so as many places in the history. */
  lemma {:induction false} TicketsAreMany(passes: seq<Pass>, s: set<nat>, places: set<nat>)
    requires forall i :: i in s ==> i < |passes| && passes[i].ticket.index in places
    requires forall i, j :: i in s && j in s && i != j ==> passes[i].ticket.index != passes[j].ticket.index
    ensures |s| <= |places|
  {
    if s != {} {
      var x :| x in s;
      var d := passes[x].ticket.index;
      TicketsAreMany(passes, s - {x}, places - {d});
      assert |s - {x}| == |s| - 1 && |places - {d}| == |places| - 1;
    }
  }

  /** Step `i` is the one in which an event of the parameter comes out of the conflict check still to be
      remediated. */
  ghost predicate GetsThrough(start: Start, steps: seq<Step>, i: nat, p: string)
    requires i < |steps|
  {
    var s, s' := Run(start, steps, i), Run(start, steps, i + 1);
    && steps[i].Work? && steps[i].w < |s.workers| && s.workers[steps[i].w].Checking?
    && s.workers[steps[i].w].ev.param == p && steps[i].w < |s'.workers| && s'.workers[steps[i].w].Writing?
  }

  /** Step `i` is the one in which a drift of the parameter is recorded. */
  ghost predicate Logs(start: Start, steps: seq<Step>, i: nat, p: string)
    requires i < |steps|
  {
    var s := Run(start, steps, i);
    && steps[i].Work? && steps[i].act.RecordDrift? && steps[i].w < |s.workers|
    && s.workers[steps[i].w].Recording? && s.workers[steps[i].w].ev.param == p
  }

  lemma RunStep(start: Start, steps: seq<Step>, i: nat)
    requires i < |steps|
    ensures Run(start, steps, i + 1) == Next(start.policy, Run(start, steps, i), steps[i])
  {
    hide Next;
  }

  lemma WorkHistory(policy: Policy, sh: Shared, w: nat, c: Worker, act: Act, p: string)
    requires Covered(policy, c)
    ensures
      var m := Do(policy, sh, w, c, act);
      && Drifts(m.shared, p)
         == Drifts(sh, p) + (if act.RecordDrift? && c.Recording? && c.ev.param == p then [sh.clock] else [])
      && Passes(m.shared, p)
         == Passes(sh, p) + (if c.Checking? && c.ev.param == p && m.worker.Writing?
                             then [Pass(c.ticket, sh.clock, |Drifts(sh, p)|)] else [])
  {
    hide Decide, DoRead, DoWrite, DoVerify, DoRecordDrift, DoCheckCooldown, DoCheckConflict, DoRecordRemediation,
      Drifts, Passes;
    if act.RecordDrift? && c.Recording? {
      DriftHistory(sh, c.ev, c.action, p);
    } else if act.CheckConflict? && c.Checking? {
      CheckEffect(sh, c, p);
      SameDrifts(sh, DoCheckConflict(sh, c).shared, p);
    } else {
      OtherHistory(policy, sh, w, c, act);
      SameHistory(sh, Do(policy, sh, w, c, act).shared, p);
    }
  }

  lemma SameHistory(sh: Shared, sh': Shared, p: string)
    requires sh'.drifts == sh.drifts && sh'.passes == sh.passes
    ensures Drifts(sh', p) == Drifts(sh, p) && Passes(sh', p) == Passes(sh, p)
  {
  }

  lemma SameDrifts(sh: Shared, sh': Shared, p: string)
    requires sh'.drifts == sh.drifts
    ensures Drifts(sh', p) == Drifts(sh, p)
  {
  }

  lemma DriftHistory(sh: Shared, ev: Event, action: Action, p: string)
    ensures
      var m := DoRecordDrift(sh, ev, action);
      && Drifts(m.shared, p) == Drifts(sh, p) + (if ev.param == p then [sh.clock] else [])
      && Passes(m.shared, p) == Passes(sh, p) && !m.worker.Writing?
  {
  }

  lemma OtherHistory(policy: Policy, sh: Shared, w: nat, c: Worker, act: Act)
    requires Covered(policy, c) && !(act.RecordDrift? && c.Recording?) && !(act.CheckConflict? && c.Checking?)
    ensures
      var m := Do(policy, sh, w, c, act);
      m.shared.drifts == sh.drifts && m.shared.passes == sh.passes && (c.Checking? ==> !m.worker.Writing?)
  {
    hide Decide, Of, Off, Expected, CooldownOf, Cooldown.Cooling;
  }

  /** Nothing is left out of the histories: each step that records a drift is in one, with its time, and each by
      which an event gets through the check is in the other, with the time of the drift and of the check. */
  lemma HistoryStep(start: Start, steps: seq<Step>, i: nat, p: string)
    requires i < |steps|
    ensures
      var s, s' := Run(start, steps, i), Run(start, steps, i + 1);
      && Drifts(s'.shared, p) == Drifts(s.shared, p) + (if Logs(start, steps, i, p) then [s.shared.clock] else [])
      && Passes(s'.shared, p) == Passes(s.shared, p)
         + (if GetsThrough(start, steps, i, p)
            then [Pass(s.workers[steps[i].w].ticket, s.shared.clock, |Drifts(s.shared, p)|)] else [])
  {
    hide Run, Honest, Do, Drifts, Passes;
    var s, step := Run(start, steps, i), steps[i];
    RunIsLawful(start, steps, i);
    RunStep(start, steps, i);
    if step.Work? && step.w < |s.workers| {
      assert Lawful(start.policy, s.workers[step.w]);
      WorkHistory(start.policy, s.shared, step.w, s.workers[step.w], step.act, p);
    } else {
      SameHistory(s.shared, Run(start, steps, i + 1).shared, p);
    }
  }

  /** In every interleaving, for one parameter and any time `t`: at most two events whose drift record
      and whose conflict check both fall in the ten seconds up to `t` come out of the check still to be
      remediated, whatever was pruned in between on behalf of other events. */
  lemma AtMostTwoPass(start: Start, steps: seq<Step>, k: nat, p: string, t: int, chosen: set<nat>)
    requires k <= |steps|
    requires
      var passes := Of(Run(start, steps, k).shared.passes, p);
      forall i :: i in chosen ==>
        i < |passes| && t - passes[i].ticket.recorded < 10_000_000_000 && passes[i].checked <= t
    ensures |chosen| <= 2
  {
    hide Run, Sparse;
    if chosen != {} {
      var sh := Run(start, steps, k).shared;
      var cut := RunKeeps(start, steps, k, p);
      var m := Latest(chosen);
      var e := Passes(sh, p)[m];
      var places := Conflict.Places(Drifts(sh, p), |Drifts(sh, p)|, t - CONFLICT_WINDOW);
      SparseCount(sh, p, e);
      forall i | i in chosen
        ensures Passes(sh, p)[i].ticket.index in Conflict.Places(Drifts(sh, p), e.seen, e.checked - CONFLICT_WINDOW)
      {
        SparseTicket(sh, p, Passes(sh, p)[i]);
      }
      TicketsAreMany(Passes(sh, p), chosen, Conflict.Places(Drifts(sh, p), e.seen, e.checked - CONFLICT_WINDOW));
    }
  }

  lemma SparseTicket(sh: Shared, p: string, e: Pass)
    requires Sparse(sh, p, e)
    ensures e.ticket.index < e.seen <= |Drifts(sh, p)| && Drifts(sh, p)[e.ticket.index] == e.ticket.recorded
  {
  }

  lemma SparseCount(sh: Shared, p: string, e: Pass)
    requires Sparse(sh, p, e)
    ensures e.seen <= |Drifts(sh, p)|
    ensures |Conflict.Places(Drifts(sh, p), e.seen, e.checked - CONFLICT_WINDOW)| < CONFLICT_THRESHOLD
  {
    Conflict.PlacesAreCounted(Drifts(sh, p), e.seen, e.checked - CONFLICT_WINDOW);
  }
}
