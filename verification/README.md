# Verified model of the drift agent

The agent watches writes to kernel parameters (sysctls), judges each drift with a policy and with
streaming statistics, and allows, alerts or remediates. This project models its three stateful cores in
Dafny and proves what they promise, for every input, every run and, where goroutines share state, every
interleaving.

* **Streaming statistics** (`stats/`). `Burst`, `Variance`, `Ewma` and `Anomaly` hold the four
  accumulators, `Series` puts them together for one key, `SeriesCache` keeps many keys with ageing and a
  cap, `Fusion` merges the signals of two series. Each fast form (a ring buffer, an online recurrence, an
  evicting cache) is proved equal to its slow meaning (the full window, the batch formula, a series of its
  own per key). `SeriesRuns` shows how far that last one goes, `CacheProtocol` runs the cache's atomic
  operations concurrently, and `CacheSolo` shows that one call of it by itself is a call of the cache.
* **Reputation** (`stats/reputation.go`). `Reputation` has the decaying, clamped score and the cascade of
  rewards and penalties, `ReputationManager` the entries that are updated in place and swept,
  `ReputationRuns` and `ReputationCounts` whole runs of the store, `ReputationProtocol` its gate, its
  double-checked creation and its locks under concurrent callers, and `ReputationSolo` one such call by
  itself. `Gate` is the compare-and-swap gate of both stores, with the runs of it, and `Pulse` the timing by
  which both forget. `Unconfigured` has in numbers what the statistics do where a policy sets nothing.
* **The decision pipeline** (`agent/`). `Evaluator`, `Conflict` and `Cooldown` are its parts. `Pipeline`
  is `processEvent` as a state machine: any number of workers, one step per lock section, system call or
  clock reading, with outside writers in between. `ConflictGate`, `RemediationRate` and `ClosedLoop` prove
  inductive invariants of it, and `Race` has a run of it that a single worker could not take. `Engine` puts
  the statistics under one roof. `EventSpec` says what one event does to the managers, the parameters and
  the statistics, `Learning` what the statistics know after it, `Escalation` when they can weaken a
  decision, and `Worker` is `processEvent` itself over the real managers: every event it processes is one
  passage through the machine, so what holds of all runs holds of it.

## How things are represented

Instants are whole nanoseconds and `now` is a parameter; a `time.Now()` taken under a lock is the reading
of a clock that never goes back (in `Pipeline`, the `clock` that only `Tick` moves). Where a result needs
an ordered clock it says so; the results about the ring's newest event, the cleanup gate and the range of
a reputation hold for arbitrary readings. A series takes an instant of zero for "no event yet", so results
about its history ask for nonzero ones. Floating-point numbers are real numbers. `math.Sqrt` is a parameter
`sqrt`, assumed to be a square root only where that matters; one half to the power elapsed / half-life is
`Power(q, elapsed)` for a parameter `q` in (0, 1), assumed to satisfy `Power(q, halfLife) == 1/2` only in
`HalfLives` and `HalfAnHour`. A set that Go iterates in an unspecified order is iterated in an arbitrary
one, and contracts hold whichever way it goes.

Objects that the source updates in place are classes, down to the ring buffer inside the detector inside a
series inside a cache, whose methods are proved against functions of their
abstract value (`Added`, `Update`, `Updated`, `Observed`, `Judged`, `Recorded`, ...); the main results are
lemmas about those functions. Where the outcome of a call is not determined (which entries a full map
gives up) the specification is a relation (`Cleaned`, `Observes`, `Gets`, `Updates`).

## What the proofs found

Statements that one would expect turn out to hold only under a condition. Each condition is proved to be
exact, with inputs for which the statement fails:

* `Burst.HighIsExactIff`: a burst detector reports high severity faithfully if and only if its buffer holds
  two thresholds. The defaulting (stats/burst.go:22-37) guarantees only one, so `maxSamples: 10,
  threshold: 10` never reports high.
* `Reputation.WorseNeverGainsIff`: a worse update never leaves a process better off if and only if the
  graver penalty of each pair (alert/remediation, anomaly medium/high, burst medium/high) is at least the
  milder one, wherever the score range lets the difference show. `withDefaults` does not order what is set;
  the defaults are in order (`Unconfigured.WorseNeverGainsByDefault`).
* `ReputationRuns.QueriesAreInvisibleIff`: asking for a reputation is a way of changing it, because a query
  keeps an entry from being swept. Queries are invisible if and only if what is left without them is never
  silent for longer than the time to live.
* `ReputationProtocol.CallIsLostIff`: an update is lost if and only if a pass evicts the process between
  the return of its entry and the taking of the entry's lock; `LateCallIsLost` is such a run.
* `Escalation.CanWeakenIff`: what the engine knows can weaken the decision about a drift if and only if the
  best reputation makes up for the smallest burst that a drift comes with, the one of a first event.
  `Evaluator.ScoreDropsIff` and `ActionIsWeakenedIff` are the same for the evaluator by itself, and
  `Escalation.FirstDriftWeakenedIff` for the first drift that an engine sees, where the initial reputation
  decides. It takes a reputation of more than 1.125 and burst thresholds of at least 7
  (`WeakeningTakesBoth`), so never happens with the defaults, whose reputations end at 1; with the default
  burst threshold a reputation of 2 is enough (`DefaultThresholdIsEnough`, `Engine.GoodNameIsPossible`),
  and then a remediation becomes an alert (`Evaluator.GoodNameWeakens`).
* `SeriesRuns.CacheRefinesIff`: the cache answers as a series of its own per key would if and only if no key
  is silent for longer than the time to live, or nothing is ever swept.
* `CacheProtocol.CountIsExactIff`: the cache's counter is exact at rest in every run if and only if there is
  at most one caller or the configuration deletes nothing. In a given run it is exact if and only if no
  deletion found its key already gone (`CountAtRest`), which takes two overlapping passes
  (`OnePassCountsExactly`, `OverlappingPassesUndercount`).
* `Race.CooldownHoldsIff`: a cooldown holds if and only if there is at most one worker. Checking it and
  recording a remediation are separate lock sections; `AllRemediateAtOnce` has all n workers remediate at
  one instant, so the factor n in `RemediationRate.RemediationRate` is real.
* `Conflict.UnobservableIff`: pruning is unobservable if and only if the threshold is at least one and no
  count looks further back than the pruning.

The branch of `Decay` for a half-life of zero (stats/reputation.go:131-134) comes after the defaulting that
rules it out, so the model has no case for it.

## Model

| member | source | states |
|---|---|---|
| Anomaly.ClassificationBySquares | stats/anomaly.go:45-69 | a sample is anomalous exactly when the baseline is large enough, not constant, and the squared deviation reaches `mediumZ` squared variances, high exactly at `highZ` squared, unknown exactly below the sample count, none exactly without deviation; the score goes with the severity; no root or quotient is left |
| Anomaly.LimitsAreKept | stats/anomaly.go:28-43 | each positive limit is kept and each other one is 10, 2 or 3; the high limit is at least the medium one |
| Anomaly.ClassificationIsMonotone | stats/anomaly.go:52-69 | a farther sample is never rated lower, by severity or by score |
| Burst.DefaultsUsable | stats/burst.go:22-37 | defaulting keeps each positive value, takes 2 s, 10 and 256 for the others, always yields a positive window and 0 < threshold <= maxSamples, and changes no usable configuration |
| Burst.RingRefinesWindow | stats/burst.go:58-83 | for ordered times the ring holds exactly the latest min(maxSamples, k) events of the unbounded window holding k |
| Burst.ScoreAndAlarmAreExact | stats/burst.go:85-107 | medium or worse exactly when the unbounded window holds a threshold of events, high exactly at two, if there is room; the score is the share of a threshold it holds, at most 1 |
| Burst.WindowIsCounted | stats/burst.go:73-83 | that window holds the events less than a window old |
| Burst.HighIsExactIff | stats/burst.go:22-37 | severity is that of the unbounded window on every ordered history if and only if maxSamples >= 2 * threshold |
| Burst.ScoreIsFull | stats/burst.go:85-90 | the score lies in [0, 1] and is full exactly from the threshold on |
| Burst.LatestIsKept | stats/burst.go:58-83 | whatever the clock does, the newest event is kept, capacity is respected, and only old events at the front go |
| Burst.WrapIsRemainder | stats/burst.go:66-69 | a slot index that has passed the end of the ring at most once wraps to its remainder |
| Burst.BurstDetector.constructor | stats/burst.go:50-56 | a detector starts empty with the defaulted configuration |
| Burst.BurstDetector.Add | stats/burst.go:58-108 | the circular buffer after an event holds the old contents pushed and pruned, and the answer is computed from their number |
| Burst.BurstDetector.Push | stats/burst.go:62-71 | the new event takes a free slot, or that of the oldest one in a full ring |
| Burst.BurstDetector.Prune | stats/burst.go:73-83 | exactly the maximal prefix of old events is dropped |
| Variance.WelfordIsBatch | stats/variance.go:24-33 | the online accumulator has n * mean = sum, m2 = the sum of squared deviations = sum of squares - n * mean squared, and m2 >= 0 |
| Variance.SnapshotIsBatch | stats/variance.go:35-50 | a snapshot reports count, mean and sample variance of the whole history, and the nonnegative root of that variance |
| Variance.OrderIsIrrelevant | stats/variance.go:24-33 | permuted samples give the same accumulator |
| Variance.SpreadIsBounded | stats/variance.go:24-33 | samples in (0, top] keep the mean there and m2 <= n * mean * (top - mean) |
| Variance.RunningStat.Observe | stats/variance.go:24-33 | the fields move as the accumulator function says |
| Variance.RunningStat.Snapshot | stats/variance.go:35-50 | reports the snapshot of the current accumulator |
| Ewma.ClosedForm | stats/ewma.go:24-40 | the average is the geometric weighted sum of the whole history, and the weights add to 1 |
| Ewma.ConfiguredWeight | stats/ewma.go:54-62 | a weight in (0, 1] is the one of that sum, none is 0.3, and from 1 on only the latest sample matters |
| Ewma.StaysInRange | stats/ewma.go:24-62 | it stays between the least and greatest sample, even when the weight is changed midstream to anything |
| Ewma.EwmaStat.constructor | stats/ewma.go:19-21 | a fresh average with a clamped weight |
| Ewma.EwmaStat.Observe | stats/ewma.go:24-40 | one sample moves the object as the recurrence says, and the new average is returned |
| Ewma.EwmaStat.Retune | stats/ewma.go:48-52 | changes the weight, clamped, and nothing else |
| Series.SeriesIsHistory | stats/engine.go:242-264 | after n events a series holds the average and the accumulator of the n - 1 rates between them and the burst buffer of all n |
| Series.WarmUp | stats/engine.go:242-275 | the k-th event reports k - 2 samples, and nothing is anomalous before event minSamples + 2 |
| Series.JudgedAgainstThePast | stats/engine.go:248-275 | event k reports as its rate the reciprocal of the time since event k - 1, in seconds, or of the minimum interval; the mean, variance and deviation of the rates before it; the average with it; and the burst of all k; it is anomalous exactly when the squared deviation from that mean reaches `mediumZ` squared variances, and high at `highZ` squared |
| Series.SomeEventIsAnomalous | stats/engine.go:257-264 | for every configuration there is an ordered history whose last event is anomalous |
| Series.RateIsReciprocal | stats/engine.go:248-257 | the rate times the nanoseconds since the last event is 1,000,000,000, or times the minimum interval if that is longer |
| Series.RateFalls | stats/engine.go:248-257 | past the minimum interval a longer wait makes a strictly lower rate |
| Series.RateIsBounded | stats/engine.go:248-257 | every rate lies in (0, 1 / minInterval], for any elapsed time |
| Series.SpreadOfRealSeries | stats/engine.go:248-264 | in every reachable series mean and average lie in (0, M] and m2 <= n * mean * (M - mean) |
| Series.RateSeries.constructor | stats/engine.go:199-205 | a new series is fresh |
| Series.RateSeries.Observe | stats/engine.go:239-275 | one event moves the three accumulators and the two instants of a series in place, and is judged against the baseline before it |
| Fusion.FusedSeverityIsWorst | stats/engine.go:158-168 | the fused severity is the worst of the anomalous ones, at least none and never empty; anomalous if either is |
| Fusion.FusionLosesNothing | stats/engine.go:170-177 | copying one snapshot keeps the maximum score and the maximum severity of both, when the detectors share their threshold |
| Evaluator.BaseScoreTable | agent/evaluator.go:53-93 | the base score for every combination of trust, category and criticality |
| Evaluator.MultiplierTable | agent/evaluator.go:95-144 | the multiplier is the product of three factors, at least 1 under the hard rule: 1.3, 1.15 or 1 by severity, 1 to 1.25 by burst, and 1.2, 1.15, 1, 0.95 or 0.9 at the reputations up to -1/6, 0, 0.5, 1 and from 1.5 |
| Evaluator.FactorsAreStraight | agent/evaluator.go:119-138 | between those points the factors are linear |
| Evaluator.ScoreIsNearest | agent/evaluator.go:157-166 | the score is the base score times the multiplier, rounded to the nearest whole number |
| Evaluator.ScoreTable | agent/evaluator.go:112-166 | a neutral process without a burst: base scores 0, 3, 5, 8, 10 become 0, 3, 6, 9, 12 with a medium anomaly and 0, 4, 7, 10, 13 with a high one, and stay otherwise |
| Evaluator.NoSignals | agent/evaluator.go:40-51 | without signals the base score stands, and an allowed process scores nothing |
| Evaluator.MultiplierExtremes | agent/evaluator.go:112-144 | an example of how tight the bounds on the multiplier are: 1.86875 (a 10 becomes a 19), 0.95 and 1 are met |
| Evaluator.ScoreDropsIff | agent/evaluator.go:101-166 | statistics lower a score if and only if an untrusted process writes to a parameter of high criticality outside the security category, the severity is below medium, and burst and reputation factors multiply to less than 0.9375; an 8 then becomes a 7 |
| Evaluator.DiscountTakesReputation | agent/evaluator.go:119-138 | which takes a reputation of more than 1.125 |
| Evaluator.ActionIsWeakenedIff | agent/evaluator.go:157-193 | the action is weakened if and only if the score is lowered so and a threshold lies at 8 where it matters |
| Evaluator.GoodNameWeakens | agent/evaluator.go:127-193 | with the default thresholds, and the burst of a first event in its window, a reputation of 2 turns a remediation into an alert |
| Evaluator.IntelligenceOnlyEscalates | agent/evaluator.go:101-193 | with reputation and burst in [0, 1]: base <= score <= 19, and the action is never milder than without statistics |
| Evaluator.DecisionIsMonotone | agent/evaluator.go:101-193 | worse severity or burst, or lower reputation, never lowers score or action |
| Evaluator.RemediatesIff | agent/evaluator.go:168-193 | remediation is decided exactly when the process is not allowed, the score reaches the threshold (8 if none is set) and the entry does not say alert; nothing is done exactly when the process is allowed or the score is below both thresholds (4 for alerts if none is set) |
| Evaluator.HardRuleIsAFloor | agent/evaluator.go:53-62 | an untrusted write to a critical security parameter never scores below 10, whatever the statistics say |
| Evaluator.FallbackFusionAgrees | agent/evaluator.go:101-110 | fusing in the evaluator decides as fusing upstream does |
| SeriesCache.AnswersRememberSinceSilence | stats/engine.go:220-322 | every answer is that of a lone series of its key started at its first event or after a silence longer than the time to live |
| SeriesCache.CacheRefinesIsolatedSeries | stats/engine.go:220-322 | a key never silent for longer than that is answered, in any mix, exactly as by a series of its own |
| SeriesCache.PassExactly | stats/engine.go:278-322 | a call changes no series but its own, unless a pass is due, one cleanup interval after the last; then exactly those silent for longer than the time to live go, and others only if there are more than the cap, which are then cut to the cap |
| SeriesRuns.CacheRefinesIff | stats/engine.go:220-322 | for keys named at most a gap apart that is so in every run if and only if the gap is within the time to live, or nothing is ever swept |
| SeriesRuns.SilenceShows | stats/engine.go:278-322 | for any longer gap there is a run in which a series is forgotten and the answer shows it |
| SeriesCache.RateSeriesManager.constructor | stats/engine.go:216-218 | a cache starts empty, with a count of zero |
| SeriesCache.RateSeriesManager.Observe | stats/engine.go:220-276 | one call is a pass if due, creation if needed, and the event; the counter stays the number of series |
| SeriesCache.RateSeriesManager.FindOrCreate | stats/engine.go:227-237 | the series of the key is there, new and counted only if it was not; no two series share a part |
| SeriesCache.RateSeriesManager.ObserveIn | stats/engine.go:239-275 | the event moves the objects of its own series and leaves every other series as it was |
| SeriesCache.RateSeriesManager.MaybeCleanup | stats/engine.go:278-322 | a due pass drops exactly the stale series, then exactly the excess, and touches no other |
| SeriesCache.RateSeriesManager.SweepOld | stats/engine.go:295-305 | exactly the series last seen before the cutoff go |
| SeriesCache.RateSeriesManager.EvictExcess | stats/engine.go:308-321 | exactly the excess over the cap goes |
| CacheProtocol.CounterIsConserved | stats/engine.go:227-237 | in every interleaving, overlapping passes included, counter + owed = keys - phantom deletions |
| CacheProtocol.CountAtRest | stats/engine.go:294-321 | at rest the counter is at most the number of keys, equal if and only if no deletion found its key gone |
| CacheProtocol.OnePassCountsExactly | stats/engine.go:294-321 | with at most one pass active at a time the counter is exact at rest |
| CacheProtocol.OverlappingPassesUndercount | stats/engine.go:240-321 | for any two or more callers and any configuration whose passes delete, a run in which two passes overlap and leave the counter below the number of keys |
| CacheProtocol.CountIsExactIff | stats/engine.go:278-322 | for n callers the counter is exact at rest in every run if and only if n <= 1, or no pass is ever due, or passes neither age nor cap |
| CacheProtocol.RunIsGated | stats/engine.go:278-292 | every interleaving, seen at the gate, is a run of it, so its results hold here |
| CacheSolo.SoloIsSequential | stats/engine.go:220-322 | a call that nobody interrupts, and whose ranges run to their end, leaves what a call of the sequential manager may leave: the same series, ages and counter |
| CacheSolo.SequentialIsSolo | stats/engine.go:220-322 | and whatever the sequential manager may leave, some such call leaves |
| Gate.OneWinnerPerInterval | stats/engine.go:284-292 | in every interleaving of any number of callers, for arbitrary positive times, successful swaps are an interval apart, so one caller consumes each stored time |
| Gate.PassesAlone | stats/engine.go:284-292 | a caller that nobody interrupts passes exactly if it is the first or an interval has gone by |
| Reputation.DefaultsAreProper | stats/reputation.go:32-108 | defaulting always yields a proper configuration and is idempotent |
| Reputation.DefaultsFillGaps | stats/reputation.go:32-108 | each positive value is kept, each other one gets its own default, and the scores are brought into their range |
| Unconfigured.WorseNeverGainsByDefault | stats/reputation.go:56-83 | with the default penalties a worse update never leaves a process better off, whatever else is set |
| Unconfigured.Charges | stats/reputation.go:249-326 | unconfigured, a process starts at 0.5, and an update at once moves a score s to max(0, min(1, s + gain) - cost), with each gain and cost in numbers |
| Unconfigured.DriftCharges | stats/reputation.go:277-295 | a drift alone costs 0.02, with an alert 0.03, with a remediation 0.05, in cooldown 0.035, in conflict 0.04 |
| Unconfigured.HalfAnHour | stats/reputation.go:115-139 | in half an hour a score comes half as close to one half |
| Unconfigured.Bursts | stats/burst.go:22-107 | ten events within two seconds are a medium burst, twenty a high one |
| Unconfigured.Anomalies | stats/anomaly.go:28-69 | no event before the twelfth is anomalous, and from then on one is at two standard deviations |
| Reputation.DecayStaysInRange | stats/reputation.go:115-139 | a decayed score lies between the old and the neutral one, so the clamp of `GetScore` is a no-op in range |
| Reputation.DecayComposes | stats/reputation.go:115-139 | decaying in two steps is decaying in one |
| Reputation.HalfLives | stats/reputation.go:136-138 | after k half-lives the distance to neutral is divided by 2 to the k |
| Reputation.CascadeFuses | stats/reputation.go:249-326 | the cascade of clamped, re-decaying steps equals max(min, min(max, decayed + reward if stable) - all penalties) |
| Reputation.WorseNeverGainsIff | stats/reputation.go:249-326 | from every entry at every time, a worse update never ends with the higher score if and only if graver penalties cost at least as much, where the range lets it show; for updates of the kind the pipeline sends, where the range left by the penalty for drift does |
| Reputation.ScoreStaysInRange | stats/reputation.go:115-177 | the score stays in [min, max] over every run and any clock |
| Reputation.QueriesAreInvisible | stats/reputation.go:167-177 | leaving any queries of one entry out of an ordered run of it changes no later score |
| ReputationRuns.AnswersRememberSinceSilence | stats/reputation.go:223-393 | over whole runs of the store, every answer about a process is that of a lone entry made for its first call or for one after a silence longer than the time to live |
| ReputationRuns.StoreRefinesLoneEntry | stats/reputation.go:223-393 | a process never silent for longer than that is answered, in any mix, as by an entry of its own |
| ReputationRuns.QueriesAreInvisibleIff | stats/reputation.go:223-247 | leaving queries out of a run of the store is invisible in the last score if and only if the calls left are at most the time to live apart, or there is but one score |
| ReputationRuns.QueryShows | stats/reputation.go:223-247 | for any longer silence there are two runs that differ in one query, which keeps an entry from being swept, and in the last score |
| ReputationCounts.AnswersCount | stats/reputation.go:249-326 | over whole runs, a process never silent for long is told the number of its updates with an anomaly, a remediation and a conflict, and the time since its last unstable update or its first call |
| Reputation.WorseRunsScoreLower | stats/reputation.go:249-326 | over whole runs, a process whose updates are no milder never has the higher score |
| ReputationManager.ReputationEntry.constructor | stats/reputation.go:346-353 | a new entry has the initial score and counts nothing |
| ReputationManager.ReputationEntry.Decay | stats/reputation.go:115-139 | moves score and time as the decay function says |
| ReputationManager.ReputationEntry.Increase | stats/reputation.go:141-152 | decays, adds and clamps |
| ReputationManager.ReputationEntry.Decrease | stats/reputation.go:154-165 | decays, subtracts and clamps |
| ReputationManager.ReputationEntry.GetScore | stats/reputation.go:167-177 | decays, clamps and answers with the score left behind |
| ReputationManager.ReputationEntry.Query | stats/reputation.go:228-246 | a query decays the entry, marks it seen and reports it |
| ReputationManager.ReputationEntry.Report | stats/reputation.go:254-325 | an update moves score, stability and the three counters of an entry, and reports it |
| ReputationManager.ReputationEntry.PenalizeOutcome | stats/reputation.go:277-295 | the penalties for drift, action, cooldown and conflict, in order |
| ReputationManager.ReputationEntry.PenalizeSignals | stats/reputation.go:297-311 | the penalties for anomaly and burst, in order |
| ReputationManager.ReputationManager.constructor | stats/reputation.go:215-221 | a manager starts empty with the defaulted configuration |
| ReputationManager.ReputationManager.Get | stats/reputation.go:223-247 | a pass if due, then the query of the one entry of the process, made if missing; no other entry changes and all stay in range |
| ReputationManager.ReputationManager.Update | stats/reputation.go:249-326 | the same for an update |
| ReputationManager.PassExactly | stats/reputation.go:358-393 | nothing goes unless a pass is due, one cleanup interval after the last; then exactly the entries silent for longer than the time to live go, and others only if there are more than the cap, which are then cut to the cap |
| ReputationManager.NamelessIsNothing | stats/reputation.go:223-252 | a process without a name is answered with zeros and leaves no trace |
| ReputationManager.ReputationManager.GetOrCreate | stats/reputation.go:328-356 | returns the entry in the map, new only if the process had none after the pass; entries are never shared |
| ReputationManager.ReputationManager.MaybeCleanup | stats/reputation.go:358-393 | a due pass removes exactly the stale entries, then exactly the excess |
| ReputationManager.ReputationManager.SweepOld | stats/reputation.go:376-380 | exactly the entries last seen before the cutoff go |
| ReputationManager.ReputationManager.EvictExcess | stats/reputation.go:383-392 | exactly the excess over the cap goes |
| ReputationProtocol.CreationIsUnique | stats/reputation.go:328-356 | in every interleaving two calls get the same entry exactly when they name one process and no pass evicted it between them |
| ReputationProtocol.CallIsLostIff | stats/reputation.go:249-257 | what a call does to an entry reaches later calls if and only if no pass evicted the process between the return of the entry and the taking of its lock |
| ReputationProtocol.LateCallIsLost | stats/reputation.go:249-257 | a run in which an update is lost that way |
| ReputationProtocol.RunIsGated | stats/reputation.go:358-369 | every interleaving, seen at the gate, is a run of it, so its results hold here too |
| ReputationSolo.SoloIsSequential | stats/reputation.go:223-393 | a call that nobody interrupts leaves what a call of the sequential manager may leave: the same entries, seen when they were |
| ReputationSolo.SequentialIsSolo | stats/reputation.go:223-393 | and whatever the sequential manager may leave, some such call leaves |
| Conflict.PruningIsUnobservable | agent/conflict.go:25-107 | over any sequence of calls every answer is as over the log never pruned, for thresholds >= 1 and windows within the pruned one |
| Conflict.UnobservableIff | agent/conflict.go:25-107 | all answers over all ordered sequences of calls agree if and only if the threshold is at least one and no count looks further back than the pruning |
| Conflict.AskingTwiceDiffers | agent/conflict.go:42-71 | for a threshold <= 0 and any window, the same question asked twice tells the logs apart |
| Conflict.CountingFartherDiffers | agent/conflict.go:89-107 | a count that looks further back misses what was pruned |
| Conflict.AfterCounts | agent/conflict.go:53-58 | filtering keeps exactly the later timestamps, each as often as it occurs |
| Conflict.CountIsExact | agent/conflict.go:42-107 | a count is the number of records less than a window old, and a conflict is a count that reaches the threshold |
| Conflict.PrunedExactly | agent/conflict.go:52-66 | pruning leaves exactly those records, no empty log, and the other logs alone |
| Conflict.ConflictManager.Record | agent/conflict.go:25-29 | appends the instant to the log of one parameter |
| Conflict.ConflictManager.IsConflicting | agent/conflict.go:42-71 | the answer, and the log left behind, pruned or without the parameter |
| Conflict.ConflictManager.LastEvent | agent/conflict.go:75-85 | the latest record, or never exactly when there is none |
| Conflict.ConflictManager.EventCount | agent/conflict.go:89-107 | counts the records in the window and leaves the log alone |
| Cooldown.CooldownManager.InCooldown | agent/cooldown.go:29-40 | in cooldown exactly when remediated less than a cooldown ago |
| Pipeline.RunIsLawful | agent/worker.go:67-200 | in every run and interleaving only covered, not allowed, not alert-only events are remediated, and what is charged to a process is a remediation only without cooldown and conflict, and an allowed write only without drift |
| ConflictGate.AtMostTwoPass | agent/worker.go:146-156 | in every interleaving at most two events of a parameter that were recorded and checked within the same ten seconds come out still to be remediated, whatever was pruned in between |
| ConflictGate.HistoryStep | agent/worker.go:129-156 | the histories this speaks of have every recorded drift and every event that gets through, with their times |
| RemediationRate.CooldownIsWaitedOut | agent/worker.go:132-144 | of two remediations of a parameter the later waited out the cooldown (its own, or the global one if it has none), or passed its check before the earlier was recorded; by one worker, always the former |
| RemediationRate.OnePerWorkerPerCooldown | agent/worker.go:132-178 | in every interleaving of n workers at most n remediations of a parameter fall in less than a cooldown |
| RemediationRate.RateOverCooldowns | agent/worker.go:132-178 | at most n * m in less than m cooldowns |
| RemediationRate.RemediationRate | agent/worker.go:132-178 | at most n * (length / cooldown + 1) in any interval, for the cooldown of the parameter, or the global one if it has none; with one worker the sequential bound |
| Race.AllRemediateAtOnce | agent/worker.go:132-178 | from any start, for any event that is to be remediated and any cooldown, a run in which all n workers remediate its parameter at one instant |
| Race.CooldownHoldsIff | agent/worker.go:132-178 | remediations of such a parameter are a cooldown apart in every run if and only if there is at most one worker |
| ClosedLoop.RemediationsWithin | agent/worker.go:94-178 | over any stretch of any interleaving a worker completes no more remediations than outside writes left the parameter off within it, and those it had credit for at its beginning |
| ClosedLoop.DriftBetweenRemediations | agent/worker.go:94-178 | in every interleaving, between the verification of a remediation and the same worker's next one, an outside write left the parameter off |
| ClosedLoop.SequentialDriftBetween | agent/worker.go:94-178 | with one worker and outside writes between its events, such a write lies strictly between any two remediations |
| ClosedLoop.RemediationsArePaidFor | agent/remediation.go:18-48 | over any stretch all n workers together complete at most n remediations per drifting outside write, and those they had credit for |
| ClosedLoop.RemediationsSinceStart | agent/remediation.go:18-48 | since the start, at most n per drifting outside write, and n if the parameter started off |
| ClosedLoop.DriftsAreCounted | agent/worker.go:94-108 | what a total of drifting outside writes counts: exactly the outside writes so far of another value than the expected one |
| ClosedLoop.RemediationsAreCounted | agent/worker.go:161-178 | and a total of remediations: exactly the steps so far in which the worker recorded one |
| Engine.CachesAreSound | stats/engine.go:24-130 | every configuration of the engine gives caches that can compute rates, age and sweep, and detectors that share one usable configuration |
| Engine.RemembersExactly | stats/engine.go:24-130 | a process or a parameter named at most a gap apart is answered from all its events in every run if and only if the gap is within the configured time to live, half an hour if none is set |
| Engine.IntelIsWorst | stats/engine.go:158-178 | the intelligence has the worst severity of the anomalous signals and the greater burst |
| Engine.IntelOnlyEscalates | stats/engine.go:158-178 | what two of its series and a reputation within [0, 1.125] say can only escalate a decision |
| Engine.GoodNameIsPossible | stats/reputation.go:32-108 | a configuration that defaulting lets through gives a new process a reputation of 2 |
| Engine.GottenInRange | stats/reputation.go:223-247 | a reputation that is asked for lies in [0, max] |
| Engine.NewEngine | stats/engine.go:24-130 | an engine has four empty stores of its own, each with its part of the configuration: weight and cap by kind, and minimum interval, time to live and cleanup interval as configured or 10 ms, half an hour and a minute |
| Engine.Engine.ObserveProcessWrite | stats/engine.go:132-137 | feeds the series of a process and nothing else; no process, no event |
| Engine.Engine.ObserveParamDrift | stats/engine.go:139-144 | feeds the series of a parameter and nothing else |
| Engine.Engine.ObserveRemediation | stats/engine.go:146-148 | feeds the one series of remediations and nothing else |
| Engine.Engine.GetReputation | stats/engine.go:150-152 | asks the reputation, with an answer in range, and changes nothing else |
| Engine.Engine.UpdateReputation | stats/engine.go:154-156 | reports to the reputation and changes nothing else |
| Worker.WorkerContext.constructor | agent/worker.go:45-50 | a worker starts at the beginning of a run, with managers that nothing else shares |
| Worker.StartWorker | agent/worker.go:33-50 | a pool of one starts with an empty engine of the defaulted configuration |
| EventSpec.RemediatedExactlyWhen | agent/worker.go:126-178 | a drift ends as a remediation if and only if the process is not allowed, the entry not alert-only, the score at the threshold, the last remediation a cooldown old (the cooldown of the parameter, or the global one if it has none), at most two drifts with this one less than ten seconds old, and the write verified |
| EventSpec.ChargedExactlyWhen | agent/worker.go:126-156 | it is charged with a conflict, and never remediated, if and only if three drifts with this one are less than ten seconds old, and with a cooldown if and only if it was to be remediated too soon |
| EventSpec.SceneExactly | agent/worker.go:126-178 | the parameter is restored, the remediation stamped and the drift logged exactly when they should be, and no later question about the last ten seconds shows the pruning |
| EventSpec.ChargedIff | agent/worker.go:67-108 | an event is charged if and only if it is a write by another program to a covered parameter that can be read, as a drift if and only if the value is not the expected one; nothing else changes anything |
| EventSpec.ReportCosts | agent/worker.go:188-200 | what a report costs a process: one penalty for each thing that happened, and by the severity of anomaly and burst |
| Learning.WhatIsLearned | agent/worker.go:87-200 | a write feeds the series of its process, a drift that of its parameter and a remediation the one of remediations, each at its time, and no other series or entry changes; the intelligence is what these say, and the reputation the one before anything is charged |
| Escalation.CanWeakenIff | agent/worker.go:90-127 | there are reputations in range under which processing some drift weakens its decision if and only if the best of them outweighs the burst of a first event |
| Escalation.FirstDriftWeakenedIff | agent/worker.go:90-127 | the first drift an engine sees can be weakened if and only if the initial reputation does so |
| Escalation.LearnedEscalates | agent/worker.go:90-127 | unless the best reputation does so, what the engine learns from a drift and says about it never weakens the decision, whatever it knew |
| Escalation.NamelessIsSuspect | agent/worker.go:89-124 | a process without a name counts as one of reputation 0, which multiplies a score by 1.15 |
| Escalation.WeakeningTakesBoth | agent/evaluator.go:119-138 | a reputation that does so exceeds 1.125, and the burst thresholds are at least 7 |
| Escalation.DefaultThresholdIsEnough | agent/evaluator.go:119-138 | with burst thresholds of 10 a reputation of 2 does so |
| EventSpec.ReportIsSent | agent/worker.go:188-200 | what the pipeline charges is of the kind the reputation results speak of |
| Worker.WorkerContext.ProcessEvent | agent/worker.go:67-200 | managers, parameters and outcome after an event are those of the run extended by one passage of a worker through the pipeline, and also those stated directly (`OutcomeOf`, `SceneAfter`); the statistics are fed and asked in the order of the source; an event is charged exactly when it is covered and readable, as a drift exactly when the parameter was off; unless the best reputation makes up for the burst of a first event, the statistics have not weakened the decision |
| Worker.WorkerContext.Respond | agent/worker.go:126-186 | decision, cooldown, conflict and action of a drift together give the directly stated outcome, log, stamps and parameters, and take exactly the steps of a passage |
| Worker.WorkerContext.ApplyRemediation | agent/remediation.go:18-48 | succeeds exactly when the write took effect and reads back; a failed write leaves the value alone |
| Worker.WorkerContext.ApplyCooldown | agent/worker.go:132-144 | a remediation in cooldown, and only that, becomes an alert |
| Worker.WorkerContext.ApplyConflict | agent/worker.go:146-156 | a remediation of a parameter in conflict becomes an alert |
| Worker.WorkerContext.Restore | agent/worker.go:161-178 | only a verified remediation is stamped |
| Worker.WorkerContext.Guarantees | agent/worker.go:132-178 | of this worker at any time: at most length / cooldown + 1 remediations in an interval, no more of them than outside drifts, and one if it started off, and an outside drift strictly between any two |

## Left out

- IEEE rounding, the range of `int64` nanoseconds and jumps of the wall clock: numbers are exact, and where
  a result needs an ordered clock that is a premise.
- The eBPF program, the event reader, `main`, the control plane, agent identity, trace output and the text
  of reasons: foreign calls and formatting.
- Reading and validating the policy file, substring matching of process names and mapping of paths to
  parameter names: they enter as fields of an event.
- The `sysctl` command: a write takes effect and can be read back, or fails and leaves the value alone;
  a write that succeeds with another value, and trimming of what is read, are not modelled.
- `agent/pipeline_harness.go`: a simpler copy of the pipeline that is modelled.
- SeriesCache.RateSeriesManager.Observe: runs under one caller at a time; the map, the ages, the
  counter and the cleanup gate under concurrent callers are in `CacheProtocol`.
  Interleavings of the three accumulators of one series, each under its own lock, are not modelled.
- ReputationManager.ReputationManager.Update: runs under one caller at a time; creation, eviction and the
  locks of the entries under concurrent callers are in `ReputationProtocol`, where what a call does to an
  entry is one step.
- Pipeline.RunIsLawful: in the concurrent machine the statistics enter as arbitrary intelligence, so its
  results hold whatever they say; how they are fed is in `Worker.WorkerContext.ProcessEvent` for one worker.
- Worker.WorkerContext.ProcessEvent: outside writes happen between events, not during one; during one they
  are in `Pipeline`. The metrics of the remediation series and the reputation afterwards, which only the
  trace shows, are not part of the outcome.
- CacheSolo.SoloIsSequential: a range over the map that ends early is a run of `CacheProtocol`, but no call
  of the sequential manager, so the premise is that ranges run to their end.
- Escalation.CanWeakenIff: speaks of all reputations in range, whether or not the rewards of a configuration
  can bring a process there; from the start of an engine see `FirstDriftWeakenedIff`.
- Evaluator.DecisionIsMonotone: about the action and the score; the reasons listed with a decision are text.
