/** Fusing the signals of two series into one (stats/engine.go). */
module Fusion {
  import opened Common
  import opened Anomaly
  import opened Burst
  import opened Series

  datatype Signal = Signal(anomalous: bool, severity: Severity, burst: BurstSnapshot)

  function Fuse(processWrite: RateMetrics, paramDrift: RateMetrics): Signal {
    var write, drift := processWrite.anomaly, paramDrift.anomaly;
    var sev1 := if write.isAnomalous then MaxSeverity(None, write.severity) else None;
    var sev2 := if drift.isAnomalous then MaxSeverity(sev1, drift.severity) else sev1;
    var first, second := processWrite.burst, paramDrift.burst;
    var burst :=
      if second.score > first.score then second
      else if second.score == first.score then first.(severity := MaxSeverity(first.severity, second.severity))
      else first;
    Signal(write.isAnomalous || drift.isAnomalous, sev2, burst)
  }

  function SeverityWhenAnomalous(a: AnomalyResult): nat {
    if a.isAnomalous then Rank(a.severity) else 0
  }

  function MaxNat(a: nat, b: nat): nat {
    if a >= b then a else b
  }

  /** The fused severity is the worst of the anomalous ones, at least none, and never the empty one. */
  lemma FusedSeverityIsWorst(processWrite: RateMetrics, paramDrift: RateMetrics)
    ensures
      var f := Fuse(processWrite, paramDrift);
      && Rank(f.severity) == MaxNat(Rank(None),
           MaxNat(SeverityWhenAnomalous(processWrite.anomaly), SeverityWhenAnomalous(paramDrift.anomaly)))
      && f.severity != Unset
      && (f.anomalous <==> processWrite.anomaly.isAnomalous || paramDrift.anomaly.isAnomalous)
  {
  }

  /** A burst snapshot some detector with this configuration reports, or none because no process is named. */
  ghost predicate Reported(cfg: BurstConfig, b: BurstSnapshot) {
    b == NO_BURST || exists count: nat :: b == Burst.SnapshotOf(cfg, count)
  }

  /** Copying one of two snapshots loses neither score nor severity, when both detectors share their
      threshold; the count is the larger one unless both snapshots are full. */
  lemma FusionLosesNothing(cfg: BurstConfig, cfg': BurstConfig, processWrite: RateMetrics, paramDrift: RateMetrics)
    requires Usable(cfg) && Usable(cfg') && cfg.threshold == cfg'.threshold
    requires Reported(cfg, processWrite.burst) && Reported(cfg', paramDrift.burst)
    ensures
      var first, second, fused := processWrite.burst, paramDrift.burst, Fuse(processWrite, paramDrift).burst;
      && fused.score == MaxReal(first.score, second.score)
      && Rank(fused.severity) == MaxNat(Rank(first.severity), Rank(second.severity))
      && ((fused.count >= first.count && fused.count >= second.count)
          || first.score == second.score == 1.0)
  {
    hide MaxReal, MaxNat, ScoreOf, Reported;
    OrderedSnapshots(cfg, cfg', processWrite.burst, paramDrift.burst);
    OrderedSnapshots(cfg', cfg, paramDrift.burst, processWrite.burst);
    MaxRealIs(processWrite.burst.score, paramDrift.burst.score);
    MaxNatIs(Rank(processWrite.burst.severity), Rank(paramDrift.burst.severity));
  }

  lemma MaxRealIs(a: real, b: real)
    ensures MaxReal(a, b) == if b > a then b else a
  {
  }

  lemma MaxNatIs(a: nat, b: nat)
    ensures MaxNat(a, b) == if b > a then b else a
  {
  }

  /** A smaller score comes with a smaller count and no worse a severity; equal scores below the top
      come from equal counts. */
  lemma OrderedSnapshots(cfg: BurstConfig, cfg': BurstConfig, a: BurstSnapshot, b: BurstSnapshot)
    requires Usable(cfg) && Usable(cfg') && cfg.threshold == cfg'.threshold
    requires Reported(cfg, a) && Reported(cfg', b)
    ensures a.score < b.score ==> a.count < b.count && Rank(a.severity) <= Rank(b.severity)
    ensures a.score == b.score != 1.0 ==> a.count == b.count
    ensures 0.0 <= a.score <= 1.0
  {
    var i: nat, j: nat := a.count, b.count;
    ScoreIsFull(cfg, i);
    ScoreIsFull(cfg', j);
    QuotientOrder(i as real, cfg.threshold as real, j as real / cfg.threshold as real);
    QuotientOrder(j as real, cfg.threshold as real, i as real / cfg.threshold as real);
  }
}
