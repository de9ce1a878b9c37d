/** The compare-and-swap gate before a cleanup pass (stats/engine.go, stats/reputation.go): the time of the
    last pass is loaded, judged, and swapped only if nobody else has swapped it since. */
module Gate {

  /** The stored time, zero before the first pass, and the history of the times that were stored. */
  datatype Gate = Gate(last: int, passes: seq<int>)

  const UNUSED: Gate := Gate(0, [])

  /** A loaded time under which a pass looks due. */
  predicate LooksDue(interval: int, last: int, now: int) {
    last == 0 || now - last >= interval
  }

  predicate Wins(g: Gate, loaded: int) {
    g.last == loaded
  }

  /** The gate after a compare-and-swap. */
  function Swapped(g: Gate, loaded: int, now: int): Gate {
    if Wins(g, loaded) then Gate(now, g.passes + [now]) else g
  }

  // ----- callers of the gate -----

  /** Where a caller stands towards the gate. */
  datatype Asker =
    | Away
    | Loading(now: int)                // about to load the stored time
    | Swapping(now: int, last: int)    // a pass looked due; about to compare and swap

  datatype State = State(askers: seq<Asker>, gate: Gate)

  /** One step of one caller: it comes with a positive time, loads, swaps, or does something else. */
  predicate Moves(interval: int, g: Gate, a: Asker, g': Gate, a': Asker) {
    || (g' == g && a' == a)
    || (g' == g && a.Away? && a'.Loading? && a'.now > 0)
    || (g' == g && a.Loading? && a' == if LooksDue(interval, g.last, a.now) then Swapping(a.now, g.last) else Away)
    || (a.Swapping? && g' == Swapped(g, a.last, a.now) && a' == Away)
  }

  ghost predicate Steps(interval: int, s: State, s': State) {
    s' == s
    || exists w :: 0 <= w < |s.askers| && |s'.askers| == |s.askers|
                   && s'.askers == s.askers[w := s'.askers[w]]
                   && Moves(interval, s.gate, s.askers[w], s'.gate, s'.askers[w])
  }

  /** A run of the gate: nobody has asked at first, and then one caller moves at a time. */
  ghost predicate Execution(interval: int, states: seq<State>) {
    && states != [] && states[0].gate == UNUSED
    && (forall w :: 0 <= w < |states[0].askers| ==> states[0].askers[w].Away?)
    && forall i :: 0 <= i < |states| - 1 ==> Steps(interval, states[i], states[i + 1])
  }

  // ----- one winner per interval -----

  ghost predicate Spaced(interval: int, passes: seq<int>) {
    && (forall i :: 0 <= i < |passes| ==> passes[i] > 0)
    && (forall i :: 0 < i < |passes| ==> passes[i] >= passes[i - 1] + interval)
  }

  ghost predicate Admitted(interval: int, a: Asker) {
    && (a.Loading? ==> a.now > 0)
    && (a.Swapping? ==> a.now > 0 && LooksDue(interval, a.last, a.now))
  }

  ghost predicate Sound(interval: int, s: State) {
    && s.gate.last == (if s.gate.passes == [] then 0 else s.gate.passes[|s.gate.passes| - 1])
    && Spaced(interval, s.gate.passes)
    && forall w :: 0 <= w < |s.askers| ==> Admitted(interval, s.askers[w])
  }

  lemma StepKeeps(interval: int, s: State, s': State)
    requires Sound(interval, s) && Steps(interval, s, s')
    ensures Sound(interval, s')
  {
    if s' != s {
      var w :| 0 <= w < |s.askers| && |s'.askers| == |s.askers| && s'.askers == s.askers[w := s'.askers[w]]
               && Moves(interval, s.gate, s.askers[w], s'.gate, s'.askers[w]);
      assert Admitted(interval, s.askers[w]) && Admitted(interval, s'.askers[w]);
    }
  }

  lemma {:induction false} ExecutionIsSound(interval: int, states: seq<State>, k: nat)
    requires Execution(interval, states) && k < |states|
    ensures Sound(interval, states[k])
  {
    hide Steps;
    if k > 0 {
      ExecutionIsSound(interval, states, k - 1);
      StepKeeps(interval, states[k - 1], states[k]);
    }
  }

  /** One winner per interval, in every interleaving and for arbitrary positive clock readings: passes
      start at times at least the interval apart, so each stored time is consumed by one caller only. */
  lemma OneWinnerPerInterval(interval: int, states: seq<State>, k: nat, i: nat, j: nat)
    requires Execution(interval, states) && k < |states| && interval > 0
    requires i <= j < |states[k].gate.passes|
    ensures
      var passes := states[k].gate.passes;
      passes[j] >= passes[i] + (j - i) * interval && (i < j ==> passes[i] < passes[j])
  {
    ExecutionIsSound(interval, states, k);
    Spacing(interval, states[k].gate.passes, i, j);
  }

  /** A caller that nobody interrupts passes exactly if it is the first, or an interval has gone by. */
  lemma PassesAlone(interval: int, g: Gate, now: int, g': Gate, a: Asker, g'': Gate)
    requires Moves(interval, g, Loading(now), g', a) && a != Loading(now)
    requires if a.Away? then g'' == g' else Moves(interval, g', a, g'', Away) && a.Swapping?
    ensures g'' == if g.last == 0 || now >= g.last + interval then Gate(now, g.passes + [now]) else g
  {
  }

  lemma {:induction false} Spacing(interval: int, passes: seq<int>, i: nat, j: nat)
    requires i <= j < |passes| && interval > 0 && Spaced(interval, passes)
    ensures passes[j] >= passes[i] + (j - i) * interval
    ensures i < j ==> passes[i] < passes[j]
    decreases j - i
  {
    if i < j {
      Spacing(interval, passes, i + 1, j);
      assert (j - i) * interval == (j - (i + 1)) * interval + interval;
    }
  }
}
