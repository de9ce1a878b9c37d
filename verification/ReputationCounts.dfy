/** What the reputation store says of a process beside its score (stats/reputation.go): how often it was
    anomalous, remediated and in conflict, and for how long it has been stable, over whole runs. */
module ReputationCounts {
  import opened Common
  import opened Anomaly
  import opened Evaluator
  import opened Reputation
  import opened ReputationManager
  import opened ReputationRuns

  predicate IsAnomaly(upd: ReputationUpdate) {
    upd.anomalySeverity == Medium || upd.anomalySeverity == High
  }

  predicate IsRemediation(upd: ReputationUpdate) {
    upd.finalAction == Remediate
  }

  predicate IsConflict(upd: ReputationUpdate) {
    upd.conflictDetected
  }

  /** A drift, or a high severity. */
  predicate IsUnstable(upd: ReputationUpdate) {
    upd.wasDrift || upd.anomalySeverity == High || upd.burstSeverity == High
  }

  /** The updates of the process among the calls from `from` up to `n` that are of a kind. */
  ghost function Which(calls: seq<Call>, keep: seq<bool>, p: string, from: nat, n: nat, kind: ReputationUpdate -> bool)
    : set<nat>
    requires from <= n <= |calls| == |keep|
  {
    set j: nat | from <= j < n && Names(calls, keep, p, j) && calls[j].op.Update? && kind(calls[j].op.upd)
  }

  lemma OneMoreCall(calls: seq<Call>, keep: seq<bool>, p: string, from: nat, n: nat, kind: ReputationUpdate -> bool)
    requires from <= n < |calls| == |keep|
    ensures
      var one := Names(calls, keep, p, n) && calls[n].op.Update? && kind(calls[n].op.upd);
      && Which(calls, keep, p, from, n + 1, kind) == Which(calls, keep, p, from, n, kind) + (if one then {n} else {})
      && |Which(calls, keep, p, from, n + 1, kind)| == |Which(calls, keep, p, from, n, kind)| + if one then 1 else 0
  {
    hide Names;
    var one := Names(calls, keep, p, n) && calls[n].op.Update? && kind(calls[n].op.upd);
    assert Which(calls, keep, p, from, n + 1, kind) == Which(calls, keep, p, from, n, kind) + if one then {n} else {};
    assert n !in Which(calls, keep, p, from, n, kind);
  }

  /** The time of the last unstable update, or of the first call if there is none. */
  ghost predicate StableSince(calls: seq<Call>, keep: seq<bool>, p: string, from: nat, n: nat, t: Moment)
    requires from < n <= |calls| == |keep|
  {
    var unstable := Which(calls, keep, p, from, n, IsUnstable);
    if unstable == {} then t == At(calls[from].op.now)
    else exists j :: j in unstable && t == At(calls[j].op.now) && forall i :: i in unstable ==> i <= j
  }

  /** What the counters of an entry count, and since when it says that it is stable. */
  ghost predicate Counts(calls: seq<Call>, keep: seq<bool>, p: string, from: nat, n: nat, e: EntryState)
    requires from < n <= |calls| == |keep|
  {
    && e.anomalyCount == |Which(calls, keep, p, from, n, IsAnomaly)|
    && e.remediationCount == |Which(calls, keep, p, from, n, IsRemediation)|
    && e.conflictCount == |Which(calls, keep, p, from, n, IsConflict)|
    && StableSince(calls, keep, p, from, n, e.stableSince)
  }

  /** What one call does to the counters and to the time. */
  lemma MovedCounts(cfg: ReputationConfig, q: real, e: EntryState, op: Op)
    ensures
      var e' := Moved(cfg, q, e, op);
      && e'.anomalyCount == e.anomalyCount + (if op.Update? && IsAnomaly(op.upd) then 1 else 0)
      && e'.remediationCount == e.remediationCount + (if op.Update? && IsRemediation(op.upd) then 1 else 0)
      && e'.conflictCount == e.conflictCount + (if op.Update? && IsConflict(op.upd) then 1 else 0)
      && (e.stableSince.At? ==>
            e'.stableSince == if op.Update? && IsUnstable(op.upd) then At(op.now) else e.stableSince)
  {
    hide Judged, Scored;
  }

  lemma StableOneMore(calls: seq<Call>, keep: seq<bool>, p: string, from: nat, n: nat, t: Moment)
    requires from < n < |calls| == |keep| && StableSince(calls, keep, p, from, n, t)
    ensures
      var unstable := Names(calls, keep, p, n) && calls[n].op.Update? && IsUnstable(calls[n].op.upd);
      StableSince(calls, keep, p, from, n + 1, if unstable then At(calls[n].op.now) else t)
  {
    hide Which, IsUnstable, Names;
    var before, after := Which(calls, keep, p, from, n, IsUnstable), Which(calls, keep, p, from, n + 1, IsUnstable);
    OneMoreCall(calls, keep, p, from, n, IsUnstable);
    StillUnstable(calls, keep, p, from, n);
    if n in after {
      assert forall i :: i in after ==> i <= n;
    } else {
      assert after == before;
    }
  }

  lemma SinceIsAt(calls: seq<Call>, keep: seq<bool>, p: string, from: nat, n: nat, t: Moment)
    requires from < n <= |calls| == |keep| && StableSince(calls, keep, p, from, n, t)
    ensures t.At?
  {
    hide Which;
  }

  lemma CallCounts(cfg: ReputationConfig, q: real, calls: seq<Call>, keep: seq<bool>, p: string, from: nat, n: nat,
                   e: EntryState, e': EntryState)
    requires from < n < |calls| == |keep| && Counts(calls, keep, p, from, n, e)
    requires e' == if Names(calls, keep, p, n) then Moved(cfg, q, e, calls[n].op) else e
    ensures Counts(calls, keep, p, from, n + 1, e')
  {
    hide Moved, Which, StableSince, IsAnomaly, IsRemediation, IsConflict, IsUnstable, Names;
    OneMoreCall(calls, keep, p, from, n, IsAnomaly);
    OneMoreCall(calls, keep, p, from, n, IsRemediation);
    OneMoreCall(calls, keep, p, from, n, IsConflict);
    SinceIsAt(calls, keep, p, from, n, e.stableSince);
    StableOneMore(calls, keep, p, from, n, e.stableSince);
    MovedCounts(cfg, q, e, calls[n].op);
  }

  lemma StillUnstable(calls: seq<Call>, keep: seq<bool>, p: string, from: nat, n: nat)
    requires from < n < |calls| == |keep|
    ensures forall i :: i in Which(calls, keep, p, from, n, IsUnstable) ==> i < n
  {
  }

  lemma {:induction false} LoneCounts(cfg: ReputationConfig, q: real, calls: seq<Call>, keep: seq<bool>, p: string,
                                      from: nat, n: nat)
    requires from < n <= |calls| == |keep| && Names(calls, keep, p, from)
    ensures Counts(calls, keep, p, from, n, Lone(cfg, q, calls, keep, p, from, n))
  {
    hide Counts, Moved, FreshEntry, Names;
    if n == from + 1 {
      FirstCallCounts(cfg, q, calls, keep, p, from);
    } else {
      LoneCounts(cfg, q, calls, keep, p, from, n - 1);
      CallCounts(cfg, q, calls, keep, p, from, n - 1, Lone(cfg, q, calls, keep, p, from, n - 1),
        Lone(cfg, q, calls, keep, p, from, n));
    }
  }

  lemma FirstCallCounts(cfg: ReputationConfig, q: real, calls: seq<Call>, keep: seq<bool>, p: string, from: nat)
    requires from < |calls| == |keep| && Names(calls, keep, p, from)
    ensures Counts(calls, keep, p, from, from + 1, Moved(cfg, q, FreshEntry(cfg, calls[from].op.now), calls[from].op))
  {
    hide Moved, Which, IsAnomaly, IsRemediation, IsConflict, IsUnstable;
    NoneBefore(calls, keep, p, from, IsAnomaly);
    NoneBefore(calls, keep, p, from, IsRemediation);
    NoneBefore(calls, keep, p, from, IsConflict);
    NoneBefore(calls, keep, p, from, IsUnstable);
    OneMoreCall(calls, keep, p, from, from, IsAnomaly);
    OneMoreCall(calls, keep, p, from, from, IsRemediation);
    OneMoreCall(calls, keep, p, from, from, IsConflict);
    OneMoreCall(calls, keep, p, from, from, IsUnstable);
    MovedCounts(cfg, q, FreshEntry(cfg, calls[from].op.now), calls[from].op);
  }

  lemma NoneBefore(calls: seq<Call>, keep: seq<bool>, p: string, from: nat, kind: ReputationUpdate -> bool)
    requires from <= |calls| == |keep|
    ensures Which(calls, keep, p, from, from, kind) == {}
  {
  }

  /** A process that is never silent for longer than the time to live is told the number of its updates with
      an anomaly, with a remediation and with a conflict, and how long ago the last unstable one was, or the
      first call. */
  lemma AnswersCount(cfg: ReputationConfig, q: real, calls: seq<Call>, keep: seq<bool>, stores: seq<Store>,
                     answers: seq<Snapshot>, i: nat) returns (f: nat, t: Moment)
    requires Proper(cfg) && Execution(cfg, q, calls, keep, stores, answers) && ClockNeverGoesBack(calls)
             && Roomy(cfg, calls)
    requires i < |calls| && keep[i] && calls[i].process != ""
    requires NeverSilent(calls, keep, calls[i].process, cfg.entryTTL, i + 1)
    ensures |keep| == |calls| == |answers| && f <= i && First(calls, keep, calls[i].process, f)
    ensures answers[i].anomalyCount == |Which(calls, keep, calls[i].process, f, i + 1, IsAnomaly)|
    ensures answers[i].remediationCount == |Which(calls, keep, calls[i].process, f, i + 1, IsRemediation)|
    ensures answers[i].conflictCount == |Which(calls, keep, calls[i].process, f, i + 1, IsConflict)|
    ensures StableSince(calls, keep, calls[i].process, f, i + 1, t)
    ensures t.At? && answers[i].stableFor == calls[i].op.now - t.time
  {
    hide Lone, Execution, Roomy, Proper, NeverSilent, Which;
    ExecutionLengths(cfg, q, calls, keep, stores, answers);
    var p := calls[i].process;
    f := StoreRefinesLoneEntry(cfg, q, calls, keep, stores, answers, i);
    LoneCounts(cfg, q, calls, keep, p, f, i + 1);
    t := Lone(cfg, q, calls, keep, p, f, i + 1).stableSince;
  }
}
