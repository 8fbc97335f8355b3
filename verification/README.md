# A verified model of the predictive-maintenance engine

The repository ingests sensor metrics of machines, keeps rolling windows of them,
scores each machine with several streaming detectors, decides by an alert policy
when to alert, raises work orders in a maintenance system, and learns thresholds
from technician feedback. This project models that domain code in Dafny and
proves what it promises over whole runs.

Floating point is modelled by `real`, instants and durations by `int` (0 is the
zero time). Every call to the store or the maintenance system may fail: a fault
oracle, quantified over in every theorem, says which, by call number, and a
failed call has no effect.

The code has two layers. The functions on values say what each operation does,
and the theorems about runs are about them. The classes have the fields, loops and
in-place updates of the source, and each method is proved to do to the object's
value exactly what the function says; so the theorems hold of the objects.

| files | what they model |
|---|---|
| `RateLimit`, `Policy`, `PolicyRuns`, `QuietDetectors` | sliding-window limiter, alert policy, its runs |
| `Fusion`, `Cusum`, `Goertzel`, `RobustZ`, `Learner`, `Warmup` | numeric kernels, the warm-up learner and its runs, assessments |
| `HstShape`, `HstDensity`, `Hst`, `HstDetector` | Half-Space Trees: boxes, counts, heap trees, detector |
| `Window`, `Extractor` | ring buffers, unit conversion, windows per signal |
| `WorkOrders`, `MemoryStore` | work-order policy, simulated maintenance system, in-memory store |
| `Pipeline`, `EngineModel`, `EngineWorld` | the engine as functions on values: one evaluation, one batch, feedback, templates, restarts, runs |
| `EngineAnswers`, `EngineOpenings` | what is taken, registered and answered; what becomes of an episode that opens |
| `EngineEffects`, `EngineSafety` | what holds whatever fails: work orders, keys, retries |
| `EngineOrders`, `EngineCancels` | exactly when an order is created, retried, linked and cancelled, and what each failing call leaves |
| `EngineReplay`, `EngineRedelivery`, `EngineOlderBatch`, `EngineConservation`, `EngineCounts` | redelivery, conservation, reported counts |
| `EngineBatches` | cutting a stream into batches, and retrying a batch that failed |
| `EngineHistory`, `EngineLockstep`, `EngineAlerts`, `EngineEpisodes`, `EngineVerdicts` | windows, guards and policies against recorded history; alerts and episodes; verdicts |
| `EngineRestart`, `EngineBaselines` | what a restart brings back and a template update keeps |
| `EngineFaults`, `EngineLost`, `EngineFirstFire` | what a failing store call loses, that it stays lost, and runs in which it happens |
| `DetectorPipe`, `Machine`, `Engine` | the mutable pipeline of an asset, the asset, and the engine |

Runs start from an empty store and are any sequence of batches, feedback,
template updates and restarts (`EngineWorld.Run`). An asset carries history
variables that no step reads: the policy at its last rebuild and what it has been
fed since, the alerts stored and the verdicts applied since, and the metrics
accepted. `Engines.Engine.Valid` includes the invariants proved of all runs in
`EngineSafety`, and every method keeps it.

Where the code and its comments disagree, the model follows the code:

- The limiter prunes by its argument, not by the newest timestamp seen
  (internal/domain/alerting/ratelimit.go:30): `RateLimit.LatePruneAgrees`. A late
  call is counted right exactly when nothing inside its window has been dropped
  (`RateLimit.LateCallAgreesIff`, `RateLimit.AgreesIff`), which is so in time
  order; with a limit of two or more even a single instant of lateness can break
  the window bound (`RateLimit.BoundUnderLatenessIff`).
- The effective threshold can exceed MaxThreshold
  (internal/domain/alerting/policy.go:44): `Policy.ThresholdRange`.
- A single detector can raise an alert when it is the z-score
  (internal/domain/detect/fusion.go:53-56): `QuietDetectors.BuiltInTemplates`.
- A replayed batch is a no-op when it is the one just ingested; an older one may
  evaluate again (internal/domain/engine/engine.go:175-177):
  `EngineRedelivery.RedeliveryIsNoopIff`, `EngineOlderBatch.OlderBatchEvaluatesAgain`.
- A batch that failed cannot always be repaired by retrying it
  (internal/domain/engine/engine.go:177). A retry takes up whatever the abort cut
  off, but does not make the evaluation again that failed
  (`EngineBatches.RetryResumes`). That evaluation had taken effect if and only if
  the calls it needed succeeded (`EngineFaults.EvaluationTakesEffectIff`), which of
  all evaluations that abort a batch is so of the holds alone
  (`EngineFaults.AbortKeepsIffHold`); what the others lose, the alert of a fire or
  the observation at the end of a warm-up, no later batch or verdict brings back
  (`EngineLost.LostStaysLost`, `EngineFirstFire.LostFireStaysLost`).
- One alert can move the threshold twice: a verdict counts whether or not it can
  be stored, and leaves the alert open to be judged again if and only if saving
  the snapshot or the alert fails (`EngineFaults.VerdictSticksIff`,
  `EngineFirstFire.OneAlertJudgedTwice`).

So the lockstep of alerts and episodes and once-only feedback are stated for runs
in which the store works, with maintenance failures allowed. The spacing of
alerts, their hourly bound, the safety of work orders, windows, guards and the
finality of verdicts are stated for all runs, whatever fails.

## Model

| member | source | states |
|---|---|---|
| `RateLimit.RefinesHistory` | internal/domain/alerting/ratelimit.go:18-42 | For calls in time order the limiter accepts exactly the calls that a counter which forgets nothing accepts, and retains exactly the accepted calls still inside the window. |
| `RateLimit.WindowBound` | internal/domain/alerting/ratelimit.go:18-42 | For calls in time order no half-open window of the limiter's length, wherever it is placed, holds more than the limit of accepted calls. |
| `RateLimit.RetainedBound` | internal/domain/alerting/ratelimit.go:32-42 | Whatever the order of the calls, the retained list never exceeds the limit. |
| `RateLimit.LatePruneAgrees` | internal/domain/alerting/ratelimit.go:18-31 | Pruning by the argument (what the code does) agrees with pruning by the newest timestamp (what its comment says) exactly when the oldest event kept is still inside the newest window. |
| `RateLimit.LateCallAgreesIff` | internal/domain/alerting/ratelimit.go:18-42 | After calls in any order, a late call at an instant is measured against the same events as by a limiter that never forgets if and only if no accepted time dropped so far is after that instant minus the window; a limiter that forgot something can only accept more. |
| `RateLimit.AgreesIff` | internal/domain/alerting/ratelimit.go:18-42 | For any sequence of calls, the limiter accepts the same calls and counts the same events as one that never forgets, at every call, if and only if no call is so late that an accepted time already dropped is inside its window. |
| `RateLimit.NeverForgetsBound` | internal/domain/alerting/ratelimit.go:18-42 | A limiter that never forgets keeps the bound in every window for calls in any order. |
| `RateLimit.LateWindowBound` | internal/domain/alerting/ratelimit.go:18-42 | So the limiter keeps the bound in every window, for calls in any order, as long as no call reaches back to a dropped time. |
| `RateLimit.NeverForgetsIsHistory` | internal/domain/alerting/ratelimit.go:18-42 | In time order no call does, and the limiter, the one that never forgets and the full-history counter accept the same calls. |
| `RateLimit.LateCallBreaksWindow` | internal/domain/alerting/ratelimit.go:18-42 | For every limit of two or more and every window, concrete calls of which the last is late by a single instant put one event too many into a window. |
| `RateLimit.BoundUnderLatenessIff` | internal/domain/alerting/ratelimit.go:18-42 | When no call is more than a given time earlier than one before it, the window bound is sure to hold if and only if the limit is one or that time is 0: no positive lateness is tolerated. |
| `RateLimit.BoundInAnyOrderIff` | internal/domain/alerting/ratelimit.go:18-42 | The window bound holds for calls in every order if and only if the limit is one. |
| `RateLimit.AllowRefines` | internal/domain/alerting/ratelimit.go:32-42 | One call of a limiter that holds the window of a history answers as the history does, and holds its window afterwards. |
| `RateLimit.PruneCounts` | internal/domain/alerting/ratelimit.go:18-27 | On a sorted history, what pruning keeps is as many events as the window contains. |
| `RateLimit.RateLimiter.PruneBefore` | internal/domain/alerting/ratelimit.go:18-27 | The in-place shift removes exactly the leading events that are not after the cutoff. |
| `RateLimit.RateLimiter.TryAllow` | internal/domain/alerting/ratelimit.go:32-42 | The mutable limiter answers and changes as the limiter function. |
| `RateLimit.RateLimiter.Count` | internal/domain/alerting/ratelimit.go:44-51 | Counts the retained events, which on a sorted history are the events of the window. |
| `Policy.ThresholdRange` | internal/domain/alerting/policy.go:188-204 | The effective threshold stays in [Off+0.01, max(ceiling, Off+0.01)]; it stays below the documented ceiling for every offset if and only if Off+0.01 does. |
| `Policy.ThresholdFollowsOffset` | internal/domain/alerting/policy.go:188-204 | Inside the band the threshold is OnThreshold plus the offset; below it the floor, above it the ceiling; and it is monotone in the offset. |
| `Policy.ThresholdAboveCeiling` | internal/domain/alerting/policy.go:42-51 | Concrete valid parameters whose effective threshold exceeds MaxThreshold, against the comment. |
| `Policy.AssetPolicy.constructor` | internal/domain/alerting/policy.go:158-165 | A new policy: normal, no counts, no offset, a fresh asset limiter when one is configured. |
| `Policy.AssetPolicy.SwapParams` | internal/domain/alerting/policy.go:167-177 | New parameters, fresh asset limiter, offset clamped again; the episode stays. |
| `Policy.AssetPolicy.RestoreOffset` | internal/domain/alerting/policy.go:185-186 | Sets the clamped offset and nothing else. |
| `Policy.AssetPolicy.Adapt` | internal/domain/alerting/policy.go:325-341 | Moves the offset by the clamped step of the verdict; clamped is reported exactly when the wanted offset was not reached. |
| `Policy.AssetPolicy.OpenEpisode` | internal/domain/alerting/policy.go:248-265 | Suppression is asked first, then the asset limiter, then the site limiter; a refusal by the site has already spent an asset token. |
| `Policy.AssetPolicy.EvaluateRisk` | internal/domain/alerting/policy.go:222-294 | The mutable policy, with both mutable limiters, does what the policy function does: every branch, counter and decision. |
| `PolicyRuns.StepCases` | internal/domain/alerting/policy.go:222-294 | One evaluation, case by case, under the counter invariants: which outcome, which state, which counters. |
| `PolicyRuns.Monotone` | internal/domain/alerting/policy.go:222-294 | Two runs: with risk pointwise no lower and thresholds pointwise no higher, the second run is inside an episode whenever the first is, at every step, whatever suppression, limiters and feedback do. |
| `PolicyRuns.EpisodeGrammar` | internal/domain/alerting/policy.go:222-294 | Every outcome trace is a prefix of ((none or pending)* open hold* clear)*, and the state says on which side of an episode it ends. |
| `PolicyRuns.CountersAreRuns` | internal/domain/alerting/policy.go:226-292 | The counters are the lengths of the runs of consecutive exceedances and falls that end now, and the risk sum is the sum over that run. |
| `PolicyRuns.OpensAfterPersistence` | internal/domain/alerting/policy.go:234-247 | An episode opens if and only if this is exactly the MinPersistence-th consecutive exceedance, and MeanRisk times MinPersistence is the sum of their risks. |
| `PolicyRuns.DecisionReports` | internal/domain/alerting/policy.go:222-294 | A decision reports the risk judged, the threshold in force, the state it leads to and the length of the run of exceedances. |
| `PolicyRuns.ClearsAfterPersistence` | internal/domain/alerting/policy.go:269-291 | An episode clears if and only if this is exactly the ClearPersistence-th consecutive fall below the off threshold. |
| `PolicyRuns.EpisodeBound` | internal/domain/alerting/policy.go:222-294 | F episodes opened in N evaluations satisfy F*(MinPersistence+ClearPersistence) <= N + ClearPersistence. |
| `PolicyRuns.EpisodeBoundAnyStart` | internal/domain/alerting/policy.go:222-294 | From any state, also inside an episode or with left-over counts: every episode opened after the first costs MinPersistence+ClearPersistence evaluations. |
| `PolicyRuns.BelowStaysOut` | internal/domain/alerting/policy.go:222-233 | A policy outside an episode whose every risk is below its threshold opens none. |
| `PolicyRuns.AlertSpacing` | internal/domain/alerting/policy.go:248-251 | In event time an alert comes at least Suppression after every earlier clear and after every earlier opened episode. |
| `PolicyRuns.LimiterFollowsAsks` | internal/domain/alerting/policy.go:253-262 | The asset limiter is the limiter run on the times it was asked, and every alert spent one of its tokens. |
| `PolicyRuns.AlertRate` | internal/domain/alerting/policy.go:253-262 | At most MaxAlertsPerAssetPerHour alerts in any hour of event time, from the moment the limiter was fresh. |
| `PolicyRuns.FeedbackStaysInside` | internal/domain/alerting/policy.go:188-215 | No sequence of verdicts moves the offset out of its clamp or the threshold out of its band. |
| `PolicyRuns.RepeatedDismissals` | internal/domain/alerting/policy.go:325-341 | k dismissals from offset o give min(MaxOffset, o + k*step). |
| `PolicyRuns.RepeatedConfirmations` | internal/domain/alerting/policy.go:325-341 | k confirmations from offset o give max(-MaxOffset, o - k*step). |
| `PolicyRuns.VerdictMovesThreshold` | internal/domain/alerting/policy.go:188-204 | One verdict moves the threshold by exactly its step, up for a dismissal and down for a confirmation, if and only if no clamp of the offset or the threshold is in the way (or the step is 0), and otherwise by less. |
| `PolicyRuns.DismissalSilences` | internal/domain/alerting/policy.go:222-247 | Risks that reach the threshold in force before an unclamped dismissal but not the step above it open an episode at the MinPersistence-th observation at the old offset, and none at the new one however long they last. |
| `Fusion.RiskIsConvex` | internal/domain/detect/fusion.go:59-69 | The fused risk lies between the least and the greatest score of the ready detectors. |
| `Fusion.RiskIsMonotone` | internal/domain/detect/fusion.go:59-69 | Raising any score never lowers the risk. |
| `Fusion.RiskByFamilies` | internal/domain/detect/fusion.go:59-69 | Risk times the total weight is the weighted sum of anomaly, drift and prior, the HST score taking its share of the anomaly from the z-score once it is ready. |
| `Fusion.FusionDefaults` | internal/domain/detect/fusion.go:19-33 | Weights, agreement and HST share that make sense are kept, the share up to 0.5; the others become 0.6, 0.25, 0.15, 0.5 and 0.35. |
| `Fusion.ConfidenceBand` | internal/domain/detect/fusion.go:71-84 | Confidence lies in [risk/2, risk], and equals the risk if and only if the risk is 0 or every ready detector votes. |
| `Fusion.ConfidenceByAgreement` | internal/domain/detect/fusion.go:71-84 | From the scores alone: with n ready detectors of which m reach the agreement threshold, confidence * 2n is risk * (n + m); so it is the risk if and only if the risk is 0 or all reach it, and half the risk if and only if the risk is 0 or none does. |
| `Fusion.ConfidenceIsMonotone` | internal/domain/detect/fusion.go:71-84 | Raising any score never lowers the confidence. |
| `QuietDetectors.StaysNormal` | internal/domain/alerting/policy.go:222-233 | When the highest risk the capped detectors can fuse stays below every threshold of a run, the policy never leaves Normal in it. |
| `QuietDetectors.QuietIff` | internal/domain/alerting/policy.go:188-294 | The exact condition, for every valid template and every choice of caps, over runs at any offsets inside the clamp (which a restart or a template update may restore): no run leaves Normal if and only if the risk cap is below the lowest threshold of the clamp, and otherwise some run alerts. |
| `QuietDetectors.FeedbackFloorHolds` | internal/domain/alerting/policy.go:188-215 | From offset 0 or any higher one, no sequence of verdicts takes the threshold below the feedback floor, which is the threshold without feedback when confirming has no effect, and the lowest of the clamp otherwise. |
| `QuietDetectors.FeedbackFloorIsReached` | internal/domain/alerting/policy.go:325-341 | Some sequence of verdicts takes the threshold down to exactly that floor. |
| `QuietDetectors.FeedbackQuietIff` | internal/domain/alerting/policy.go:188-341 | The exact condition over runs with verdicts between the evaluations: the policy never leaves Normal, whatever technicians say, if and only if the risk cap is below the feedback floor, and otherwise some run of verdicts and readings alerts. |
| `QuietDetectors.HstAndPriorCap` | internal/domain/detect/fusion.go:59-69 | With z-score and drift silent the risk is at most (wA*share + wP)/(wA+wD+wP). |
| `QuietDetectors.BuiltInTemplates` | internal/domain/template/defaults.go:80-87 | For the built-in parameters HST with the prior can never alert and drift alone can never alert, at any offset of the clamp and after any feedback, whereas the z-score alone can after enough confirmations, which the comment on Fuse denies for single detectors. |
| `QuietDetectors.OffsetBroughtOver` | internal/domain/alerting/policy.go:167-186 | Concrete parameters under which the z-score alone never alerts whatever the verdicts, but does at an offset brought over from other parameters. |
| `Cusum.SidesMirror` | internal/domain/detect/cusum.go:52-60 | The down side of a history is the up side of the negated history. |
| `Cusum.BestIsGreatestSuffix` | internal/domain/detect/cusum.go:52-60 | The reference is the greatest sum of z-K over all suffixes, the empty one included. |
| `Cusum.SideBounds` | internal/domain/detect/cusum.go:52-60 | The statistic stays in [0, 2H] and never exceeds the best suffix sum. |
| `Cusum.ExactBeforeAlarm` | internal/domain/detect/cusum.go:52-60 | While no suffix sum has reached H the statistic is the best suffix sum. |
| `Cusum.FirstAlarm` | internal/domain/detect/cusum.go:50-76 | From reset an alarm has been raised by observation n if and only if some suffix sum up to n has reached H, for every direction. |
| `Cusum.ScoreIsBestSuffix` | internal/domain/detect/cusum.go:50-76 | The drift score that is fused: an alarm is exactly score 1; until a watched suffix sum first reaches H the score times H is the best watched suffix sum, stopped at H, and it never exceeds that. |
| `Cusum.HistoryIsOneClamp` | internal/domain/detect/cusum.go:52-60 | The update over any history is one clamp of g0 plus the sum of z-K between two bounds that do not depend on g0. |
| `Cusum.Recovers` | internal/domain/detect/cusum.go:50-60 | After m observations with z <= 0 the statistic is at most max(0, 2H - m*K). |
| `Cusum.Tracker.Feed` | internal/domain/detect/cusum.go:52-76 | The mutable tracker changes and answers as the update function. |
| `Goertzel.PowerIsDft` | internal/domain/features/goertzel.go:23-34 | For any samples and any angle the recurrence's power is exactly the squared magnitude of the discrete Fourier sum, so it is never negative and the clamp at 0 is dead in exact arithmetic. |
| `Goertzel.Orthogonal` | internal/domain/features/goertzel.go:21-31 | Over a whole number of periods sine and cosine sums of the doubled angle vanish. |
| `Goertzel.SineAtOwnBin` | internal/domain/features/goertzel.go:10-35 | A sine of amplitude A and any phase at its own bin, strictly between 0 and n/2, has power (n*A/2)^2. |
| `Goertzel.AmplitudeIsA` | internal/domain/features/goertzel.go:10-42 | So, for the cosine and sine of the bin the target is rounded to, the squared estimate of a sine at that bin is A^2. |
| `Goertzel.EdgeAmplitude` | internal/domain/features/goertzel.go:35-39 | A constant at DC and the alternation at Nyquist are estimated at their squared amplitude as well, because those bins are not doubled. |
| `Goertzel.BinRange` | internal/domain/features/goertzel.go:18-22 | The bin the target is rounded to lies in the lower half of the spectrum, except, exactly, for an odd window asked for the Nyquist frequency. |
| `Goertzel.BinIsNearest` | internal/domain/features/goertzel.go:20-22 | The bin is at most half a bin from the target. |
| `Goertzel.Goertzel` | internal/domain/features/goertzel.go:16-43 | The loop computes the squared amplitude of the nearest bin, 0 for degenerate inputs, halving the amplitude at DC and Nyquist; for a sine of amplitude A at that bin it returns A^2. |
| `RingWindow.PushAllKeepsNewest` | internal/domain/features/window.go:23-30 | Pushing one by one keeps exactly the newest samples of everything seen. |
| `RingWindow.RingPush` | internal/domain/features/window.go:23-30 | Writing at the head and moving on keeps, oldest first, the newest samples of the old contents and the new one. |
| `RingWindow.Window.constructor` | internal/domain/features/window.go:14-21 | An empty window of the given capacity, at least 1. |
| `RingWindow.Window.Push` | internal/domain/features/window.go:23-30 | Appends, evicting the oldest when full. |
| `RingWindow.Window.Values` | internal/domain/features/window.go:41-55 | Returns the samples oldest first, in the given buffer when it is large enough, and leaves the window alone. |
| `RingWindow.Window.Reset` | internal/domain/features/window.go:57-61 | Leaves the window empty. |
| `Extractor.ConvertRoundTrip` | internal/domain/features/units.go:108-124 | Converting to another unit of the dimension and back is exact. |
| `Extractor.ConvertKeepsCanonical` | internal/domain/features/units.go:108-124 | Conversion keeps the canonical value: scaling and shifting the result by the target unit gives what the source unit gives of the argument. |
| `Extractor.ConvertComposes` | internal/domain/features/units.go:108-124 | Converting through a third unit is converting directly. |
| `Extractor.KnownPoints` | internal/domain/features/units.go:58-93 | Known points of the table: 32 and 212 degrees Fahrenheit are 0 and 100 Celsius, 0 Celsius is 273.15 kelvin, 100 kPa is 1 bar, 50 Hz is 3000 rpm, 30 minutes are half an hour; other dimensions and unknown units are refused. |
| `Extractor.BurstAllOrNothing` | internal/domain/engine/engine.go:273-291 | A burst either enters the window whole, converted and in order, or changes nothing; which of the two depends only on the signal and the unit. |
| `Extractor.FeatureExtractor.constructor` | internal/domain/features/extractor.go:78-105 | One empty window per signal, no two sharing memory. |
| `Extractor.FeatureExtractor.Push` | internal/domain/features/extractor.go:107-120 | Converts and appends to the signal's window, or reports an unknown signal or a bad unit and changes nothing. |
| `Extractor.FeatureExtractor.IsReady` | internal/domain/features/extractor.go:122-134 | Ready exactly when every signal has its minimum number of samples. |
| `Extractor.ReadyCountsSamples` | internal/domain/features/extractor.go:122-134 | By what the signals have taken: ready exactly when each has its configured minimum of samples, or a full window when none (or too many) is configured. |
| `Extractor.FeatureExtractor.Read` | internal/domain/features/extractor.go:158-168 | Reads every window oldest first through one scratch buffer, changing none. |
| `RobustZ.OrderIrrelevant` | internal/domain/detect/robustz.go:171-194 | Median and MAD depend only on the multiset of samples. |
| `RobustZ.Robust` | internal/domain/detect/robustz.go:171-194 | If strictly more than half of the samples lie in [a,b], the median does too and the MAD is at most b-a. |
| `RobustZ.MedianMinimises` | internal/domain/detect/robustz.go:186-194 | No centre has a smaller total distance to the samples than the median. |
| `RobustZ.MedianIsMiddle` | internal/domain/detect/robustz.go:186-194 | By counting alone: the median is the mean of the lower and the upper median, which are samples with at least half on one side and more than half on the other. |
| `RobustZ.MadIsMiddle` | internal/domain/detect/robustz.go:171-184 | The MAD is the same of the distances from the median, whatever order they are in. |
| `RobustZ.UnitsFollow` | internal/domain/detect/robustz.go:171-194 | Under a positive change of units the median is converted and the MAD scaled. |
| `RobustZ.ZCountsSpreads` | internal/domain/detect/robustz.go:58-72 | A z-score counts spreads of 1.4826 from the median, both ways; the spread is the largest of the MAD and the two floors, and the score is 0 when that is not positive. |
| `RobustZ.MedianInPlace` | internal/domain/detect/robustz.go:186-194 | Sorts the buffer in place and returns the median of what it held. |
| `RobustZ.ComputeMedianMad` | internal/domain/detect/robustz.go:171-184 | Median and MAD of the samples; the input is not modified. |
| `Learner.BaselineLearner.Observe` | internal/domain/detect/robustz.go:136-150 | Collects the vector unless enough are there; the per-feature samples are the columns of the collected vectors. |
| `Learner.BaselineLearner.Fit` | internal/domain/detect/robustz.go:158-169 | Median and MAD of every column collected. |
| `Warmup.WarmupLearnsOnce` | internal/domain/engine/engine.go:308-314 | Over any run of vectors: with fewer than the warm-up count nothing is learned; with the one that completes it every feature of the template seen so far gets the median and MAD of its samples, the MAD not below a quarter of the class MAD, the others keep the class baselines and the windows are discarded; later vectors change nothing. |
| `Warmup.AssessmentSources` | internal/domain/engine/engine.go:316-326 | Where an assessment comes from: the prior and the leading feature from their kernels, the drift from the statistic after this vector (a feature without a value counting as 0), the anomaly from the z-score alone until HST is ready, and then from both with a score of 1/(1 + density) against the reference window. |
| `HstShape.CellIffRouted` | internal/domain/detect/hst.go:103-119 | A point of the root box is in the box of a node if and only if its descent passes through that node. |
| `HstShape.OneLeafHolds` | internal/domain/detect/hst.go:103-119 | Exactly one leaf's half-open box holds a point of the root box: the one its descent reaches. So the leaves are disjoint and cover the box. |
| `HstShape.CellVolume` | internal/domain/detect/hst.go:107-117 | Every box at depth k has 2^-k of the root's volume. |
| `HstShape.RootHoldsUnitCube` | internal/domain/detect/hst.go:92-97 | Whatever is drawn from [0,1), the root box contains the unit cube. |
| `HstShape.RootReach` | internal/domain/detect/hst.go:92-97 | The root box is centred on the draw and reaches twice as far as the farther face of the unit cube. |
| `HstShape.GrownTreePartitions` | internal/domain/detect/hst.go:88-119 | A tree grown on a drawn root box routes every point of the unit cube to the one of its leaves that holds it. |
| `HstShape.MassSplits` | internal/domain/detect/hst.go:166-176 | The mass of an inner node is the sum of its children's, for every set of points. |
| `HstShape.RootMass` | internal/domain/detect/hst.go:166-176 | The mass of the root is the number of points. |
| `HstDensity.WindowsAreBlocks` | internal/domain/detect/hst.go:184-191 | After any number of observations the reference window is the last completed block of WindowSize points, the latest window is what came after, and the detector is ready exactly when a block is complete. |
| `HstDensity.LeafMassIsSameLeaf` | internal/domain/detect/hst.go:166-177 | The mass of the leaf a point reaches is the number of window points that reach the same leaf. |
| `HstDensity.MeanDensityIsOne` | internal/domain/detect/hst.go:164-177 | When ready, the densities of a tree's 2^Depth leaves average exactly 1. |
| `HstDensity.DensityAndScoreRange` | internal/domain/detect/hst.go:164-183 | A density is in [0, 2^Depth], so a ready score is in [1/(1+2^Depth), 1]. |
| `HstDensity.ScoreRanksByCompany` | internal/domain/detect/hst.go:178-183 | On brute-force counts: an unready score is 0; a ready score times (1 + density) is 1, is 1 exactly when no window point shares a leaf with the point in any tree, and of two points against the same window the one with fewer window points in its leaves, summed over the forest, scores strictly higher. |
| `HstDensity.DensityIsCompany` | internal/domain/detect/hst.go:164-180 | The density is that sum of counts: density * trees * WindowSize is the sum times 2^Depth. |
| `Hst.PathIsIdentity` | internal/domain/detect/hst.go:103-119 | No two nodes of a tree are at the same path: the heap structure is a tree. |
| `Hst.BuildTree` | internal/domain/detect/hst.go:103-119 | The recursion on shared bound arrays builds the perfect tree of midpoint splits, of fresh nodes with mass 0, and restores both arrays. |
| `Hst.BuildHalf` | internal/domain/detect/hst.go:110-117 | One bound is overwritten, the half is built, the bound is put back. |
| `Hst.Descend` | internal/domain/detect/hst.go:166-176 | Adds one to the latest mass of exactly the nodes on the path of the point, and returns its leaf. |
| `Hst.Rollover` | internal/domain/detect/hst.go:195-203 | In the whole subtree the latest mass becomes the reference mass and the latest mass 0. |
| `Hst.ResetMass` | internal/domain/detect/hst.go:133-140 | Both masses of the whole subtree become 0. |
| `HstDetector.StandardisedInCube` | internal/domain/detect/hst.go:145-156 | Every standardised point is in the unit cube. |
| `HstDetector.CoordinateIs` | internal/domain/detect/hst.go:145-156 | A coordinate reads the z-score off the cube: exact within ZRange of the median, on the faces beyond, in the middle without a value or a baseline. |
| `HstDetector.HstDefaults` | internal/domain/detect/hst.go:22-39 | Parameters that make sense are kept, depth up to 12; the others become 25 trees, depth 6, 64 points and range 4. |
| `HstDetector.CountForest` | internal/domain/detect/hst.go:166-179 | One walk of every tree counts the point in and sums the shares of the leaves reached, which are brute-force counts over the reference window. |
| `HstDetector.Detector.constructor` | internal/domain/detect/hst.go:71-101 | A forest of fresh trees, one per draw, with no window yet. |
| `HstDetector.Detector.SetBaselines` | internal/domain/detect/hst.go:121-131 | New baselines discard both windows. |
| `HstDetector.Detector.Standardise` | internal/domain/detect/hst.go:145-156 | The point buffer becomes the standardised vector. |
| `HstDetector.Detector.Observe` | internal/domain/detect/hst.go:158-193 | The counters refine brute force: the density returned is the average over the trees of 2^Depth/WindowSize times the number of reference points in the leaf of the current point, and the point joins the latest window. |
| `HstDetector.Detector.HoldsBlocks` | internal/domain/detect/hst.go:158-193 | At any time, over the points observed since the last reset: the reference window is the last completed block of them, the latest window what came after, and the detector is ready once there is a block. |
| `HstDetector.Detector.MassesAddUp` | internal/domain/detect/hst.go:158-193 | Conservation in the heap: both masses of an inner node are the sums of its children's, the root's latest mass is the number of points seen, and its reference mass is the window size once ready and 0 before. |
| `WorkOrders.OrderPolicy.FindFailureMode` | internal/domain/cmms/cmms.go:62-74 | The index loop finds what precedes the first dot and looks it up, falling back to the default. |
| `WorkOrders.MappedSignal` | internal/domain/cmms/cmms.go:62-74 | A feature of a mapped signal gets that signal's failure mode, whatever the statistic is called; a name without a statistic gets the default. |
| `WorkOrders.KeyTextInjective` | internal/domain/cmms/cmms.go:172-175 | Key texts identify their triples when asset and alert identifiers have no bar, whatever the failure modes contain. |
| `WorkOrders.RegisterIsIdempotent` | internal/domain/cmms/simulated.go:38-56 | Creating keeps one record per key and all existing records, numbers a new one next, and creating again with the same key changes nothing and returns the same reference. |
| `WorkOrders.OneRecordPerKey` | internal/domain/cmms/simulated.go:48-55 | Two records with the same idempotency key are one. |
| `WorkOrders.Simulated.CreateWorkOrder` | internal/domain/cmms/simulated.go:38-56 | The mutable system creates as that function; a failing call only counts. |
| `WorkOrders.Simulated.CancelWorkOrder` | internal/domain/cmms/simulated.go:58-73 | Marks the record cancelled; an unknown reference or a failing call changes nothing. |
| `MemoryStore.Store.SaveAlert` | internal/adapters/memory/store.go:42-55 | Upserts the alert; a new one is numbered after everything stored before, and numbers given earlier stay. |
| `MemoryStore.Store.GetAlert` | internal/adapters/memory/store.go:57-69 | Found with its value, not found, or unavailable. |
| `MemoryStore.Store.SaveWorkOrder` | internal/adapters/memory/store.go:98-111 | Upserts the order, numbered like alerts. |
| `MemoryStore.Store.FindOpenWorkOrder` | internal/adapters/memory/store.go:154-167 | Finds some open order of the asset and failure mode in whatever order the map is walked, or there is none. |
| `MemoryStore.OpenOrderIsUnique` | internal/adapters/memory/store.go:154-167 | While no two orders are open for the same asset and failure mode the answer does not depend on that order. |
| `EngineModel.KeysIdentify` | internal/domain/cmms/cmms.go:172-175 | For assets that pass validation the idempotency key text identifies asset, failure mode and alert, both ways. |
| `EngineAnswers.TakenIff` | internal/domain/metric/metric.go:50-89 | A metric is taken if and only if it breaks none of the rules, and is then as it was, with the default site filled in; taking it again changes nothing. |
| `EngineAnswers.ReadingsTaken` | internal/domain/engine/engine.go:273-291 | A burst enters the window as its samples and a metric without samples as its value, converted. |
| `EngineAnswers.AssetIs` | internal/domain/engine/engine.go:227-249 | A known asset is found as it is, except that it learns its site once; another is registered if and only if its metric names a class with a template, with the class's baselines, no runtime and no offset. |
| `EngineAnswers.AssetsInOrderOfAppearance` | internal/domain/engine/engine.go:180-192 | Assets are taken in the order in which they first appear in the batch. |
| `EngineAnswers.GroupsKeepOrder` | internal/domain/engine/engine.go:180-192 | An asset's share is its metrics in the order they came in. |
| `EngineModel.EvaluateKeepsInputs` | internal/domain/engine/engine.go:293-391 | An evaluation moves the time of the last evaluation and no window, replay guard, age, site or template. |
| `EngineEffects.RaiseHasEffect` | internal/domain/engine/engine.go:444-504 | Whatever fails, raising an order changes at most: one new open order for an asset and failure mode that had none, the link of the one alert, one create call for it. |
| `EngineEffects.FireHasEffect` | internal/domain/engine/engine.go:336-353 | A fire stores a new alert under a fresh identifier and makes it the open one, or the store failed and the asset is as it was. |
| `EngineEffects.HoldHasEffect` | internal/domain/engine/engine.go:354-370 | A hold changes nothing or spends one retry for the open alert. |
| `EngineEffects.ClearHasEffect` | internal/domain/engine/engine.go:371-386 | A clear stamps exactly the open alert and lets it go, unless the store fails. |
| `EngineOrders.RaiseExactly` | internal/domain/engine/engine.go:444-504 | Raising an order, exactly: it is created if and only if the confidence reaches the threshold, no open order covers asset and failure mode, and none of its four calls fails; it fails if and only if a call it needs does. The created order is the only new one, with the alert, asset, mode, priority, confidence and risk, open, and the reference of its record; the alert links to it. With an open order an unlinked alert is linked to that one and no order is added. What each failing call leaves is stated. |
| `EngineOrders.FireExactly` | internal/domain/engine/engine.go:336-353 | A fire, exactly: the alert carries risk, confidence, failure mode and event time of its assessment and becomes the open one, or the store refuses it and the asset is as it was; an order is attempted at once and stays pending, with all retries to go, if and only if the attempt failed. |
| `EngineOrders.HoldExactly` | internal/domain/engine/engine.go:354-370 | A hold, exactly: nothing unless an attempt is pending, an alert open and retries left (so an attempt without a leading feature is never repeated); then one retry is spent, the order is attempted for the stored alert, and it stays pending if and only if that failed. |
| `EngineOrders.ConfidentAlertsHaveOrders` | internal/domain/engine/engine.go:346-353 | In every state reachable while no call fails: no retry is pending, and every alert an asset raised under its template is linked to a stored order for its asset and failure mode, unless its confidence is below the threshold for orders. |
| `EngineOpenings.OpeningOutcome` | internal/domain/alerting/policy.go:246-265 | What becomes of an opening episode: suppressed exactly during the suppression time, otherwise rate-limited exactly when the asset's or the site's limiter is full, and alerted exactly when neither is; which limiters are asked, what they hold afterwards, and that no other site's moves. |
| `EngineSafety.OutcomeStates` | internal/domain/alerting/policy.go:222-294 | Which outcomes each episode state allows and where they lead, including whether the episode is alerted. |
| `EngineSafety.RaiseKeeps` | internal/domain/engine/engine.go:444-504 | Raising an order for an alert with calls to spare keeps all the global invariants and touches no other asset's alerts. |
| `EngineSafety.GroupKeeps` | internal/domain/engine/engine.go:207-222 | One asset's whole share of a batch keeps the global invariants and the other assets' alerts. |
| `EngineSafety.WorkOrdersAreSafe` | internal/domain/engine/engine.go:346-371 | In every state reachable by batches, feedback, template updates and restarts in any order, with any store or maintenance call failing: no two stored orders are open for the same asset and failure mode, no two maintenance records share a key, and no alert has had more than 1+maxRetry create calls. |
| `EngineReplay.PushIs` | internal/domain/engine/engine.go:251-291 | The whole effect of one push: accepted exactly when neither refused nor a duplicate, and then the high-water mark, the log and one window, or the age (the value in hours), change as stated. |
| `EngineReplay.QuietIsNoop` | internal/domain/engine/engine.go:207-222 | A share in which nothing is new and no time calls for an evaluation only counts rejections and duplicates. |
| `EngineReplay.NoopIsQuiet` | internal/domain/engine/engine.go:207-222 | Conversely, a share that accepts nothing and evaluates nothing was such a share. |
| `EngineReplay.GroupSettles` | internal/domain/engine/engine.go:207-222 | After a share was taken without a store error, it is such a share. |
| `EngineRedelivery.SortKeeps` | internal/domain/engine/engine.go:199-199 | Sorting puts a share in time order and only rearranges it. |
| `EngineRedelivery.SortIsStable` | internal/domain/engine/engine.go:199-199 | Metrics with equal timestamps keep their order. |
| `EngineRedelivery.RedeliveryIsNoopIff` | internal/domain/engine/engine.go:175-225 | For any batch in any state: ingesting it accepts nothing, evaluates nothing and changes nothing anywhere if and only if every share is settled (no asset for it, or all of it refused or at or below the replay guard and no time after the last evaluation); then every metric is counted as rejected or duplicate. |
| `EngineRedelivery.ReplayIsNoop` | internal/domain/engine/engine.go:175-225 | Ingesting again the batch just ingested without a store error changes nothing at all and reports 0 accepted, 0 evaluations, 0 alerts and 0 work orders. |
| `EngineBatches.CutBetweenInstants` | internal/domain/engine/engine.go:178-222 | Where the stream of an asset at one site is cut into batches does not matter as long as the cut falls between two instants: ingesting both pieces leaves the world of ingesting them as one batch, with the counts added up, and an abort falls at the same place. |
| `EngineBatches.CutAtInstant` | internal/domain/engine/engine.go:207-222 | The same for one share: taken in two pieces, cut where time moves on, it is taken whole. |
| `EngineOlderBatch.OlderBatchEvaluatesAgain` | internal/domain/engine/engine.go:207-222 | A concrete older batch whose redelivery is all duplicates and still evaluates the asset. |
| `EngineConservation.IngestConserves` | internal/domain/engine/engine.go:178-291 | Without a store error accepted + rejected + duplicates is the length of the batch. |
| `EngineConservation.GroupConserves` | internal/domain/engine/engine.go:251-291 | The accepted count is exactly the growth of the asset's log of accepted metrics. |
| `EngineCounts.RaiseGains` | internal/domain/engine/engine.go:444-504 | An order reported as created was stored, and none is stored silently while the store works. |
| `EngineCounts.CountsAreTrue` | internal/domain/engine/engine.go:336-370 | In every reachable state the store gains at most the alerts and at least the work orders a batch reports, and exactly those when no store call fails. |
| `EngineHistory.PushKeepsWindow` | internal/domain/engine/engine.go:273-290 | Accepting a metric keeps every window equal to the newest converted values of the accepted metrics. |
| `EngineHistory.RunGrows` | internal/domain/engine/engine.go:329-329 | One more evaluation of a policy that follows its recorded run follows the extended run. |
| `EngineHistory.AssetsAreFaithful` | internal/domain/engine/engine.go:251-302 | In every reachable state, whatever fails: accepted timestamps strictly increase per signal and the replay guard is the newest of each; every window holds oldest first the newest converted values accepted since the last rebuild; evaluation times strictly increase since then; the policy is the policy run on the recorded evaluations, from a fresh limiter; the offset is the clamped fold of the recorded verdicts. |
| `EngineLockstep.FireKeepsSync` | internal/domain/engine/engine.go:336-345 | A stored fire keeps the lockstep, the listing of alerts, the alert-per-fire correspondence, the spacing and the verdicts. |
| `EngineLockstep.LostFireKeepsSync` | internal/domain/engine/engine.go:336-345 | A fire whose alert could not be saved keeps what holds whatever fails: the listing, and every alert being that of a recorded fire, in order. |
| `EngineLockstep.LostClearKeepsSync` | internal/domain/engine/engine.go:371-386 | So does a clear that could not be recorded. |
| `EngineLockstep.ClearKeepsSync` | internal/domain/engine/engine.go:371-386 | So does a clear. |
| `EngineLockstep.DecideSyncs` | internal/domain/engine/engine.go:329-391 | Every evaluation keeps what holds whatever fails, and also the lockstep when the store works, and then it does not abort. |
| `EngineAlerts.AlertsInLockstep` | internal/domain/engine/engine.go:335-391 | In every state reachable without a store failure (maintenance failures, feedback, retries, template updates and restarts included): there is an open alert exactly in an alerted episode, it is stored and the asset's only uncleared alert of this engine, and the stored alerts since the last rebuild are the fires of the recorded run, one for one, at their event times. |
| `EngineAlerts.StoredAlertsFollowFires` | internal/domain/engine/engine.go:335-345 | In every reachable state, whatever fails: the event times of the alerts stored since the last rebuild are, in order, among the times of the fires of the recorded run. |
| `EngineAlerts.AlertsKeepDistance` | internal/domain/engine/engine.go:293-302 | In every reachable state, whatever fails: two alerts of an asset since the last rebuild are at least Suppression apart. When the store works the earlier is cleared, not before it was raised, and the later comes at least Suppression after that clear. |
| `EngineAlerts.ClearsAreRespected` | internal/domain/engine/engine.go:293-302 | Whatever fails, every clear of the policy, also of an episode that did not alert, keeps later alerts at least Suppression away. |
| `EngineAlerts.AlertsKeepRate` | internal/domain/engine/engine.go:293-302 | Whatever fails, at most MaxAlertsPerAssetPerHour of those alerts lie in any hour of event time. |
| `EngineAlerts.VerdictsCountOnce` | internal/domain/engine/engine.go:538-588 | Without store failures the verdicts applied since the last rebuild belong to distinct alerts of the asset and are their statuses, every judged alert raised since then is among them, and the offset is their clamped fold, inside its bounds; the threshold stays in its band. |
| `EngineEpisodes.AlertsAreBounded` | internal/domain/alerting/policy.go:222-294 | In every reachable state, whatever fails: of the alerts stored for an asset since its last rebuild each after the first took MinPersistence+ClearPersistence evaluations; and if it was never rebuilt, or outside an episode, F alerts in N evaluations satisfy F*(MinPersistence+ClearPersistence) <= N + ClearPersistence. |
| `EngineEpisodes.QuietAssets` | internal/domain/alerting/policy.go:188-294 | In every reachable state, whatever fails: an asset not rebuilt inside an episode whose recorded risks stay within the risk cap of some detectors has stored no alert if the cap is below the lowest threshold of the clamp, or, unless rebuilt at a lowered offset, below the lowest threshold that verdicts reach. |
| `EngineFaults.DecideStaysInStepIff` | internal/domain/engine/engine.go:335-391 | From a state with an open alert exactly in an alerted episode, feeding the policy and acting on its outcome ends in such a state if and only if the store calls that matter succeed: saving the alert of a fire, and loading and saving the open alert on a clear. No other failure breaks it. |
| `EngineFaults.EvaluationTakesEffectIff` | internal/domain/engine/engine.go:300-391 | From a state in step, an evaluation takes effect (its risk reaches the policy, and the open alert stays in step with the episode) if and only if the snapshot of a warm-up it finishes can be saved, the alert of a fire can be saved, and the open alert can be loaded and saved on a clear. One aborted at the warm-up snapshot leaves policy and snapshots as they were. In every case nothing up to its instant calls for an evaluation again. |
| `EngineFaults.AbortKeepsIffHold` | internal/domain/engine/engine.go:308-386 | Of the evaluations that abort a batch exactly those of a hold (its alert could not be loaded for a retry) have taken effect; every other abort has lost its evaluation. |
| `EngineFaults.OnlyEvaluationsMoveStep` | internal/domain/engine/asset.go:62-86 | Accepting a metric, a verdict and a rebuild leave an asset in or out of step as it was, and an asset built or restored starts in step. |
| `EngineBatches.RetryResumes` | internal/domain/engine/engine.go:175-225 | Retrying any batch that a store error aborted, in full: the retry skips the shares that had gone through and, of the share that failed, the metrics up to the instant whose evaluation failed; it takes up the rest of that share as if it began there, then the shares after it; nothing of what it skips is accepted or evaluated again. |
| `EngineBatches.RetriedShareResumes` | internal/domain/engine/engine.go:207-222 | The same for one share, from any state of its asset. |
| `EngineLost.LostEpisodeIsSilent` | internal/domain/engine/engine.go:329-386 | While an alerted episode has no open alert, an evaluation calls neither store nor maintenance system for it, counts nothing and cannot fail; it holds the episode as it is or clears it. |
| `EngineLost.LostStaysLost` | internal/domain/engine/engine.go:293-391 | From every reachable state, over all batches and verdicts that follow and whatever fails in them: an instant up to the last evaluation of an asset, whether that succeeded or not, never gets an alert any more; and until an evaluation clears it, an episode that lost its alert stays without one and its asset stores no alert. |
| `EngineFirstFire.LostFireStaysLost` | internal/domain/engine/engine.go:175-177 | A concrete run from a first start, among any built-in classes and for any z-score from 0.6 to below 1: the first reading fires, the store refuses the alert, the ingest fails with an alerted episode and no alert stored; redelivering the batch accepts 0, evaluates 0, raises 0 and changes nothing; and whatever follows, the alert never comes. |
| `EngineFaults.VerdictSticksIff` | internal/domain/engine/engine.go:538-588 | A first verdict on an alert of a known asset, linked to an order or not, moves the threshold whatever fails; the alert stays open, to be judged again, if and only if saving the snapshot or saving the alert fails, and an order cancelled by then stays cancelled. |
| `EngineAnswers.FeedbackAnswers` | internal/domain/engine/engine.go:542-588 | What feedback is answered: an alert that cannot be loaded, is not stored or has been judged leaves everything as it is, the same verdict being fine and the other one refused; an open one gets its status exactly when Applied is answered, which for an unknown asset is when the store takes it. |
| `EngineFaults.FailedSaveMovesTwice` | internal/domain/engine/engine.go:538-588 | When one of those saves fails, a second feedback call that reaches the store applies its own verdict on top of the first: the offset is the fold of both verdicts on one alert, and two dismissals move it further than one whenever the clamp leaves room. |
| `EngineFirstFire.OneAlertJudgedTwice` | internal/domain/engine/engine.go:538-588 | A concrete run from a first start: the first reading raises an alert, it is dismissed while the fourth call of the store fails, and dismissed again; the offset is 0.1 where one dismissal asks for 0.05. |
| `EngineVerdicts.StatusMoves` | internal/domain/engine/engine.go:542-588 | Whatever fails, an operation changes a status only from open, only for the alert of a feedback call, and only to its verdict; no alert disappears. |
| `EngineVerdicts.VerdictsAreFinal` | internal/domain/engine/engine.go:554-559 | An alert judged at some point of a run has the same status at its end, with any operations in between and any call failing. |
| `EngineVerdicts.VerdictSurvivesRestart` | internal/domain/engine/engine.go:135-150 | When the store works and the class keeps its template, an engine started again right after a verdict brings the asset back with exactly the offset that verdict left, its site and its runtime. |
| `EngineCancels.CancelsExactly` | internal/domain/engine/engine.go:566-611 | Feedback cancels if and only if it is a first dismissal on an alert of a known asset whose class cancels on dismissal, the alert links to a stored open order, and the calls before it succeed; then the record is cancelled unless its call fails or it is unknown, and the order unless the record could not be or storing it fails. Otherwise no order and no record changes. |
| `EngineCancels.DismissalCancelsIff` | internal/domain/engine/engine.go:566-611 | When no call fails, a first verdict on an alert linked to an open order cancels it, and its record, if and only if the verdict is a dismissal and the class cancels on dismissal; every other order and record stays as it is. |
| `EngineRestart.OffsetSurvivesRestart` | internal/domain/engine/engine.go:85-153 | After any run of ingests, verdicts and restarts in which no template is replaced and every verdict's snapshot is saved, whatever else fails, the next metric of an asset finds it on a new engine over the same store at exactly the offset it had. |
| `EngineBaselines.BaselinesSurviveRestart` | internal/domain/engine/engine.go:85-153 | After any run in which no template is replaced and every verdict's snapshot is saved, if every batch went through since the start, or since some verdict on an alert of the asset, the next metric of the asset finds it on a new engine over the same store with exactly the baselines it had learned. |
| `EngineBaselines.ExamineSavesIff` | internal/domain/engine/engine.go:308-314 | An evaluation leaves the learned baselines of an asset in its snapshot if and only if it does not fail to save baselines it has just learned. |
| `EngineRestart.SavedIs` | internal/domain/engine/engine.go:516-528 | What a snapshot holds: site, class, learned baselines, offset and runtime. |
| `EngineRestart.RestartBringsBack` | internal/domain/engine/engine.go:116-153 | A restart brings back exactly the assets with a snapshot and a template, stored templates before built-in ones, each with the site, the runtime, the learned baselines and the offset of its snapshot as far as the template allows, and nothing else. |
| `EngineRestart.TemplateKeepsLearning` | internal/domain/engine/engine.go:746-777 | A template update takes effect if and only if it is valid and stored; it rebuilds the assets of its class and no others, and those keep their runtime, replay guard, open alert, pending retry and episode, the learned baselines of features that still exist, and the closest offset to the learned one that the new clamp allows; windows and detectors start empty. |
| `EngineRestart.EvaluateKeepsPersisted` | internal/domain/engine/engine.go:301-334 | Every evaluation keeps the snapshot of an asset in agreement with its class and offset, and touches no other snapshot. |
| `DetectorPipe.Merge` | internal/domain/engine/asset.go:88-106 | The two loops overlay learned baselines on class ones, drop features the template does not know, and report whether any was learned. |
| `DetectorPipe.Raise` | internal/domain/engine/asset.go:111-118 | A learned MAD below a quarter of the class MAD is raised to it, and nothing else changes. |
| `DetectorPipe.Pipe.constructor` | internal/domain/engine/asset.go:64-77 | A rebuilt pipeline: empty windows, empty learner, merged baselines, fresh forest, reset drift statistic. |
| `DetectorPipe.Pipe.Push` | internal/domain/engine/engine.go:273-287 | The loop over the values of a metric does what the reading function does. |
| `DetectorPipe.Pipe.Warm` | internal/domain/engine/engine.go:308-314 | Warm-up: collects the vector; once enough are there, fits and merges baselines and restarts HST and CUSUM. |
| `DetectorPipe.Pipe.Score` | internal/domain/engine/engine.go:316-326 | Scores with every detector, updating HST and CUSUM, and fuses. |
| `Machines.Machine.constructor` | internal/domain/engine/asset.go:54-60 | A machine first seen or restored is the asset the model builds. |
| `Machines.Machine.Rebuild` | internal/domain/engine/asset.go:62-86 | A template update in place is the rebuilt asset of the model. |
| `Machines.Machine.Push` | internal/domain/engine/engine.go:251-291 | One metric in place: class check, replay guard, runtime counter or window. |
| `Machines.Machine.StartEvaluation` | internal/domain/engine/engine.go:301-314 | Moves the evaluation time, extracts the features and warms up. |
| `Machines.Machine.Feed` | internal/domain/engine/engine.go:329-330 | Feeds the policy with the shared limiter of the site, which is the only object outside the machine that changes. |
| `Machines.Machine.Judge` | internal/domain/engine/engine.go:566-568 | Adapts the offset of this machine. |
| `Machines.Machine.TakeSnapshot` | internal/domain/engine/engine.go:516-523 | The snapshot holds the machine's offset, age and learned baselines. |
| `Engines.Engine.constructor` | internal/domain/engine/engine.go:85-153 | A start over a store seeds missing built-in templates, restores every asset with a known class, and is in a state that keeps the global invariants. |
| `Engines.Start` | cmd/predictmaint/main.go:75-84 | A first start over an empty in-memory store and a new simulated maintenance system is a consistent engine in exactly the state every run begins in. |
| `Engines.Engine.FindOpenOrder` | internal/domain/engine/engine.go:447-455 | The unique open order, because the engine keeps the one-open-order invariant. |
| `Engines.Engine.CreateWorkOrder` | internal/domain/engine/engine.go:468-503 | Create, store, link, stopping at the first failure, as the model does. |
| `Engines.Engine.RaiseWorkOrder` | internal/domain/engine/engine.go:441-504 | The mutable store and maintenance system change as the model says for every branch and failure. |
| `Engines.Engine.FindSiteLimiter` | internal/domain/engine/engine.go:393-403 | One limiter object per site, made on first use and shared by its machines. |
| `Engines.Engine.Fire` | internal/domain/engine/engine.go:336-353 | Alert first, then a first try at a work order whose failure is remembered. |
| `Engines.Engine.Hold` | internal/domain/engine/engine.go:354-370 | A bounded retry. |
| `Engines.Engine.ClearEpisode` | internal/domain/engine/engine.go:371-386 | The open alert is stamped and closed; a store failure leaves it open. |
| `Engines.Engine.Evaluate` | internal/domain/engine/engine.go:300-391 | One evaluation in place is the evaluation of the model, shared limiters included. |
| `Engines.Engine.IngestShare` | internal/domain/engine/engine.go:207-222 | The loop with its pending time evaluates whenever event time moves on and once at the end, as the model's recursion. |
| `Engines.Engine.FindMachine` | internal/domain/engine/engine.go:227-249 | Known assets may learn their site; unknown ones are registered when their class has a template, or refused. |
| `Engines.GroupBatch` | internal/domain/engine/engine.go:180-192 | The grouping loop yields each asset's metrics in order, the assets in order of first appearance, and the number of invalid metrics. |
| `Engines.Engine.IngestBatch` | internal/domain/engine/engine.go:178-225 | Ingest in place: from a consistent engine to a consistent engine, with exactly the world and the result of the model. |
| `Engines.Engine.CancelWorkOrder` | internal/domain/engine/engine.go:590-611 | Best effort: any failure leaves the order open. |
| `Engines.Engine.AdaptMachine` | internal/domain/engine/engine.go:566-580 | Adapts, persists, and cancels the linked order when the class says so. |
| `Engines.Engine.GiveFeedback` | internal/domain/engine/engine.go:538-588 | Feedback in place, with all its answers and failures, is that of the model and keeps the engine consistent. |
| `Engines.Engine.RebuildClass` | internal/domain/engine/engine.go:762-774 | The loop, in any order, rebuilds exactly the machines of the class. |
| `Engines.Engine.UpdateTemplate` | internal/domain/engine/engine.go:746-777 | A template update in place: refused when invalid, nothing on a store failure, otherwise stored, activated and rebuilt. |

## Left out

- Float rounding, NaN and infinities: arithmetic is exact over the reals, and the guards against non-finite values are not modelled.
- `math.Exp`, `math.Pow` and `math.Sqrt` in the Weibull prior, the squashed z-score and the window statistics: feature extraction, the z-score with its top feature, and the prior are function parameters of the engine; Goertzel is stated on squared amplitude with cosine and sine of the bin as parameters on the unit circle.
- The random generator and the hash that seeds it: the forest is proved for arbitrary draws in range.
- Wall-clock fields (first and last seen, detected, created, required by, updated), descriptions, reasons, rules, contributors, template versions and error texts: they influence no decision.
- HTTP, configuration, logging, metrics, Kafka and Postgres; redelivery is ingesting a batch again.
- Trimming and lower-casing of identifiers and units: names are taken as already normalised.
- Template validation beyond what the proofs use, and the unit and default tables apart from the units in `Extractor.TABLE` and the numbers of the built-in policies: `Template.Valid` is what validation establishes.
- Listings with their filters and sorting, `Health`, `Assets`, `Stats`, window fill: reporting only. The store's insertion numbers are modelled, its lists are not.
- Identifiers are a counter, because they are assumed never to repeat; the simulated system's reference is its sequence number.
- The mutexes: operations are atomic, as the engine's lock makes them.
- Engines.Engine.constructor: does not model a start in which a store call fails, because that start makes no engine; so a start over an existing store takes no call numbers.
- The library sort is represented by the function it computes: a stable sort by time, an ascending sort of samples.
- The pipeline of an asset (extractor, learner, baselines, detectors) is one object, `DetectorPipe.Pipe`, where the source has its parts as fields of the asset; tree nodes keep their links constant, which the source never changes.
- The per-site limit as a bound in event time over whole runs (`EngineOpenings.OpeningOutcome` has each single answer): assets of a site share one limiter whose calls need not come in time order, so `RateLimit.RetainedBound`, `RateLimit.LateWindowBound` and `RateLimit.BoundUnderLatenessIff` say what holds.
- Cutting a stream of several assets differently: it renumbers calls and identifiers, so `EngineBatches.CutBetweenInstants` is stated for the stream of one asset.
- What an asset loses in a restart (windows, masses, drift, episode) is lost in the model too; alerts of an earlier engine are outside lockstep, which speaks of the alerts of the running engine.
- HTTP payload mappers of the maintenance systems and vendor formats: textual.
