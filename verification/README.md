# ReplicaSense: a verified model

ReplicaSense adds predictive scaling to KEDA. This Dafny project models the parts of it that carry hard
invariants and proves what they promise. Times are nanoseconds since Go's zero `Time`, measured values are
reals, database tables are maps, and every SQL statement or transaction is one atomic step. Where the source
updates state in place, the model is a class or a loop proved against a specification function, and the lemmas
about that function carry the guarantees.

Run `dafny verify dfyconfig.toml` to check all of it.

## Components

- **Recurrent network.** `Gru.dfy` gives the recurrence and the gradient, `GruLoops.dfy` and `GruBackward.dfy` the
  nested loops over flat row-major arrays, `Calculus.dfy` derivatives by epsilon and delta, and `GruDerivative.dfy`
  the theorem that the backward pass accumulates the derivative of the output, and of the training loss, in every
  direction of weight space, for every sequence length, input size and hidden size. `GruTraining.dfy` extends it to
  the batch loop: the buffer ends up with the derivative of the batch's summed loss. `GruExamples.dfy` is the choice
  of training windows. `Vectors.dfy` and `RealArithmetic.dfy` hold the algebra.
- **Model promotion.** `Windows.dfy`, `Scoring.dfy` and `Comparison.dfy` score all models on the same windows.
  `Promotion.dfy` and `EvaluationService.dfy` decide, `PromotionStore.dfy` is the fenced transaction,
  `PromotionSafety.dfy` its safety over every interleaving of arbitrary reports, `PromotionAgreement.dfy` the
  agreement of the two layers, and `PromotionLineage.dfy` the rollback and audit invariants of whole runs under the
  per-workload lock, and `PromotionTurns.dfy` the order in which champion and candidate are evaluated in them.
- **History repair and gaps.** `Slots.dfy`, `RepairPlan.dfy` and `Repair.dfy` repair a training window while other
  sessions write. `Inference.dfy` bridges short gaps for inference, `Training.dfy` picks the training segment, and
  `Backfill.dfy` splits long range queries.
- **Desired state and claims.** `Parser.dfy`, `WorkloadRepository.dfy` and `Reconciliation.dfy` go from triggers to
  stored workloads to the scaler's cache. `Claims.dfy` and `Scheduler.dfy` are the durable training claims.
  `HpaRecovery.dfy` is the recovery loop with its backoff.
- **Forecast mathematics.** `Safety.dfy`, `Surge.dfy`, `Sorting.dfy` and `Forecaster.dfy` cover surge detection and
  the scaling decision, `SeasonalModels.dfy` the two seasonal reference models.

`Observations.dfy` (samples, slots, deduplication), `Products.dfy` (integer products) and `Wrappers.dfy` are shared.

## Findings

Where a promise does not hold of the code, the model keeps the code, shows an input, and states when it does hold.

- Whether a horizon is a whole number of sampling intervals is checked twice, by different rules: the parser looks at
  horizon plus startup plus buffer, the table at the horizon alone. A workload with a 90s horizon, 30s
  of startup latency and a one-minute grid passes the parser and makes the whole reconciliation of its ScaledObject
  fail (`WorkloadRepository.ParserIsMoreLenient`). So does a quantile of 0.999999, which the column rounds to one
  (`WorkloadRepository.QuantileRoundsToOne`). The table's CHECK constraints accept a parsed workload exactly when its
  own horizon is a whole number of intervals and its quantile lies in [0.000005, 0.999995)
  (`WorkloadRepository.StorableExactly`).
- Startup latency and safety buffer are stored in whole seconds although the parser accepts any fraction. What is read
  back is what was accepted exactly when both are whole seconds and the quantile has five decimals
  (`WorkloadRepository.SavedExactly`), and the decision horizon read back is still a whole number of intervals exactly
  when nothing was cut off, or one second on a one-second grid (`WorkloadRepository.SavedStaysOnGrid`). Half a second
  of startup and 59.5s of buffer are accepted, stored and then off the grid (`WorkloadRepository.AcceptedThenOffGrid`).
- The comparison's even subsampling divides by `MaxWindows - 1`. It divides by zero exactly when `MaxWindows == 1`,
  more than one disjoint window exists and the windows last long enough (`Comparison.SelectWindows`,
  `Comparison.CompareArtifacts`; an input in `Comparison.OneWindowDivides`). The evaluation policy requires at least
  two windows, so `Evaluate` cannot reach it (`EvaluationService.PolicyNeverDivides`).
- The evidence given to the surge detector is documented to exclude missing sampling slots, but the test is on the
  time between observations: one late in its slot and one early in the next but one are close enough
  (`Forecaster.EvidenceCanMissASlot`, exact condition in `Forecaster.EvidenceIsGapFree`).
- A surge can lower the scaling decision, when the capacity check grants the smaller request and refuses the larger
  one (`Forecaster.CapacityCanLowerASurge`, exact condition in `Forecaster.SurgeLowersOnlyThroughCapacity`).
- The HPA recovery forgets its backoff whenever a scan between two lacking ones finds anything but the same HPA
  lacking: a failed read, metrics that are back, another HPA (`HpaRecovery.BreakForgetsBackoff`,
  `HpaRecovery.OneBreakProbesTwice`). Probes keep their backoff for all scan times exactly when there is no such scan
  (`HpaRecovery.SpacedExactly`).
- The Python trainer marks its run succeeded without looking at the status, in the transaction that marked it running,
  so that others see a claimed run succeed. When a Job is retried after its first pod marked the run failed, the retry
  revives it (`Claims.RetriedTrainerRevivesFailedRun`). Successes are earned by
  running runs exactly when no Python trainer commits on a claimed or failed run (`Claims.SuccessesAreEarnedExactly`),
  and a failed run stays failed exactly when none commits on it (`Claims.FailedStaysFailedExactly`).
- An immediate training run whose Job cannot be created is lost to its policy revision once that failure is recorded.
  The revision is handed its run exactly while the run is still claimed (`Claims.ImmediateRunIsHandedOutExactly`):
  after a recorded failure never again, after one whose recording failed too on the next pass (both in
  `Claims.RecordedFailureLosesTheRun`).
- Champion and candidate are meant to take turns at being evaluated. They do, strictly, exactly as long as no
  evaluation ends in a shadow rollback (`PromotionTurns.TurnsAlternateExactly`): that report is stored on the previous
  model, so the champion keeps the turn (an input in `PromotionTurns.ShadowRollbackKeepsTheTurn`), and as long as it
  goes on so the candidate is never considered (`PromotionTurns.ShadowRollbacksStarve`).
- A backfill ends exactly when the sampling interval is positive or some query fails (`Backfill.EndsExactly`). The
  recovery entry point guards against other intervals, the training-window entry point relies on the parser.
- `Evaluate` compares the target's contract, which does not name the engine, while the transaction also requires the
  workload's engine. With everything fenced unchanged, a binding report is accepted exactly when the target has that
  engine (`PromotionAgreement.LayersAgree`; an input in `PromotionAgreement.OtherEngineIsRefused`). The policy revision
  is a hash over the engine too, so an artifact made by the engine of its own revision always has it
  (`PromotionAgreement.RevisionFixesEngine`).
- The pinball loss has no derivative where prediction and target coincide; there `backward` is given the left one
  (`GruDerivative.PinballSlopeExactly`).
- The repair's request budget of 256 can only be exceeded after at least 57 failed requests.

## Model

| member | source | states |
|---|---|---|
| Gru.GateAdjoint | internal/forecast/gru.go:437-447 | for one gate, direction against accumulated weight gradient equals sensitivity against the change of the pre-activation |
| Gru.StepAdjoint | internal/forecast/gru.go:423-469 | one backward time step conserves direction-against-gradient plus the inner product of dHidden with the tangent of the hidden vector |
| Gru.BackFromAdjoint | internal/forecast/gru.go:423-469 | the conserved quantity over any number of time steps |
| Gru.BackwardIsAdjoint | internal/forecast/gru.go:374-470 | for every weight direction, its inner product with the whole gradient is outputGradient times the output's tangent, for any sequence length, input size and hidden size |
| GruLoops.GruAffine | internal/forecast/gru.go:404-413 | the two column loops over flat row-major weights compute one row of the affine map |
| GruLoops.CandidateSum | internal/forecast/gru.go:384-390 | the candidate's pre-activation reads the previous hidden vector through the reset gate |
| GruLoops.ForwardStep | internal/forecast/gru.go:378-395 | one time step of the loops is one step of the recurrence |
| GruLoops.Forward | internal/forecast/gru.go:374-402 | the loops return the recurrence's states and output |
| GruBackward.AddScaledRow | internal/forecast/gru.go:440-442 | accumulating into a flat slice changes exactly one matrix row, by a multiple of the input |
| GruBackward.StateRows | internal/forecast/gru.go:436-447 | the candidate loop adds that gate's gradient and computes dResetProduct as a transposed product |
| GruBackward.GateRowsBack | internal/forecast/gru.go:453-467 | the last loop adds the update and reset gradients and completes dPrevious |
| GruBackward.StepBackward | internal/forecast/gru.go:424-468 | one iteration adds that time step's gradient in place and returns dPrevious |
| GruBackward.Backward | internal/forecast/gru.go:415-470 | the gradient buffers grow by exactly the gradient function of weights, inputs and states |
| Calculus.ChainSlope | internal/forecast/gru.go:437-438 | the chain rule, by epsilon and delta |
| Calculus.ProductSlope | internal/forecast/gru.go:431-434 | the product rule |
| GruDerivative.StepVec | internal/forecast/gru.go:378-395 | the tangent of a time step is its derivative along any line of weights and hidden vectors |
| GruDerivative.HiddenVec | internal/forecast/gru.go:377-396 | the tangent of the hidden vector is its derivative after any number of steps |
| GruDerivative.OutputTangentIsDerivative | internal/forecast/gru.go:374-402 | the output along w + t d is differentiable and its derivative is the output's tangent |
| GruDerivative.BackwardIsTheGradient | internal/forecast/gru.go:374-470 | for activations with slopes s(1-s) and 1-t*t, outputGradient times the output has, in every direction, the derivative that the accumulated gradient gives |
| GruDerivative.PinballSlopeExactly | internal/forecast/gru.go:351-355 | outputGradient is the derivative of the pinball loss exactly when prediction and target differ, and at the kink there is none |
| GruDerivative.KinkFromTheLeft | internal/forecast/gru.go:352-355 | where prediction and target coincide outputGradient is the slope of the loss from the left |
| GruDerivative.BackwardDifferentiatesTheLoss | internal/forecast/gru.go:345-357 | for one training example the accumulated gradient is the derivative of the loss in every direction |
| GruTraining.AccumulateBatch | internal/forecast/gru.go:344-357 | the batch loop leaves the sum of its examples' gradients in a zeroed buffer, for targets that scale back to the observed horizon maxima, or fails exactly when an example cannot be encoded |
| GruTraining.BatchDifferentiatesTheLoss | internal/forecast/gru.go:344-357 | that sum is the derivative of the batch's summed loss in every direction of weight space |
| GruTraining.LossInDemandUnits | internal/forecast/gru.go:344-357 | the scale times the batch loss is the summed pinball loss, in units of demand, between the observed horizon maxima and the network's output scaled back |
| GruTraining.BatchDifferentiatesTheDemandLoss | internal/forecast/gru.go:344-357 | the scale times what the batch loop leaves is the derivative of that loss in every direction of weight space |
| GruExamples.Examples | internal/forecast/gru.go:231-241 | one example for every input sequence with a whole horizon after it, and no other |
| GruExamples.SelectExamples | internal/forecast/gru.go:243-256 | the cap keeps an even sample with the first and the last example, or just the last |
| GruExamples.TargetsFollowInputs | internal/forecast/gru.go:231-266 | a target is the maximum of the horizon right after its input, and input and target never overlap |
| Observations.DedupKeepsLatest | internal/forecast/comparison.go:43-53 | deduplication keeps exactly the latest point of every observed slot |
| Observations.DedupSlotsIncrease | internal/forecast/comparison.go:43-53 | the kept points lie in strictly increasing slots |
| Observations.KeepLatest | internal/dataset/training.go:19-27 | the reading loop yields the latest point per slot, or fails exactly on negative or unordered input |
| Windows.EqualBreaksMeanComplete | internal/forecast/comparison.go:68-77 | equal gap counts at the ends hold exactly when every slot between is present |
| Windows.CountGaps | internal/forecast/comparison.go:68-77 | the two prefix arrays hold the gap count and the start of the current gap-free run |
| Windows.RunStartIsMaximal | internal/forecast/comparison.go:71-76 | the run start is the earliest sample from which no slot is missing |
| Windows.ScanWindows | internal/forecast/comparison.go:78-88 | the greedy scan selects disjoint complete windows after the cutoff that overlap every such window |
| Windows.NoLargerFamily | internal/forecast/comparison.go:78-88 | no family of disjoint complete windows is larger than the scan's selection |
| Comparison.ScanIsUnique | internal/forecast/comparison.go:78-88 | there is only one selection that is disjoint, eligible and covers every eligible window |
| Windows.EvenIndexIncreases | internal/forecast/comparison.go:97-103 | even subsampling is strictly increasing |
| Windows.EvenIndexIsEven | internal/forecast/comparison.go:97-103 | each position is the whole part of the proportional one, and two neighbours are as far apart as any other two, or one further |
| Windows.Subsample | internal/forecast/comparison.go:97-103 | the capped selection is the even sample of the windows, which stays disjoint and keeps the first and last |
| Scoring.TotalsLaws | internal/forecast/comparison.go:137-163 | the running sums obey the score laws after every window |
| Scoring.ScoringLaws | internal/forecast/comparison.go:137-170 | coverage plus underprediction rate is 1, pinball loss splits into shortfall and surplus by the quantile, relative shortfall is at most 1 |
| Scoring.CoverageAndPeaks | internal/forecast/comparison.go:140-163 | full coverage holds exactly when every forecast reached its maximum, and peaks exist exactly when some maximum reaches the cutoff |
| Scoring.ScoreIsMeans | internal/forecast/comparison.go:137-170 | every reported number is what it is said to be of the windows: rates, means of shortfall, distance and pinball loss, the worst relative shortfall, the summed excess, and the peak shortfall times the number of windows that reach the cutoff is the total shortfall of exactly those |
| Scoring.PeaksCoveredExactly | internal/forecast/comparison.go:159-170 | the peak shortfall is zero exactly when every peak window was covered |
| Scoring.PeakShortfallIsAboutPeaks | internal/forecast/comparison.go:159-170 | two models that agree on the peak windows have the same peak shortfall |
| Scoring.AllPeaks | internal/forecast/comparison.go:159-170 | when every window is a peak it is the mean shortfall |
| Scoring.ScoresAreValid | internal/training/decision.go:14-16 | scores of a comparison always pass validMetrics |
| Comparison.HistoryNeeded | internal/forecast/comparison.go:54-66 | the history is one season or the largest need of any model, and a nil model is refused |
| Comparison.InputsAreComplete | internal/forecast/comparison.go:124-131 | no model input bridges a gap, and a model of fixed length gets exactly that many samples |
| Comparison.InputsReachBack | internal/forecast/comparison.go:124-131 | an input reaches back exactly as far as the gap-free run, the fixed length or else the history window allow |
| Comparison.PeaksAreTheTopTenth | internal/forecast/comparison.go:104-113 | the peak cutoff is a scored maximum with at least a tenth of the windows at or above it |
| Comparison.ScoreModel | internal/forecast/comparison.go:119-174 | a model's score holds the rates, means and peak means of its own predictions on every window, and an error names a window where it fails |
| Comparison.SelectWindows | internal/forecast/comparison.go:78-103 | the windows are the whole greedy scan, which is a largest family, or an even sample of it, and each of the three failures, the division by zero included, occurs exactly in its case |
| Comparison.CompareArtifacts | internal/forecast/comparison.go:36-178 | success means all models are scored on the same windows, with every number the mean, rate or maximum it is said to be; every failure not about one model occurs exactly in its case, and a model's failure names a window where it fails |
| Comparison.OneWindowDivides | internal/forecast/comparison.go:97-103 | three samples and room for one window divide by zero |
| Comparison.EvidenceIsSound | internal/forecast/comparison.go:78-96 | evidence starts at or after the cutoff, lasts the minimum duration and covers every model with the same window count |
| Promotion.ReplacementImproves | internal/training/evaluation.go:337-363 | a champion is replaced only by strictly smaller loss, so two artifacts cannot replace each other on the same evidence |
| Promotion.GatePromotesExactly | internal/training/evaluation.go:333-363 | a model is promoted exactly when its scores are acceptable, underpredict no more than the reference in the mean, at peaks and in frequency, and its loss is lower by the asked share, or both are perfect without a champion; each reason occurs exactly in its case |
| Promotion.GateIsMonotone | internal/training/evaluation.go:337-363 | better scores of the candidate or worse ones of the champion never cost a promotion |
| Promotion.ScoresDecide | internal/training/evaluation.go:273-316 | once evidence was gathered, the report's action, target and link follow from its currency and scores alone: promoted, rejected, revalidated, rolled back or degraded each exactly in its case |
| Promotion.ComparedScoresAreComparable | internal/training/evaluation.go:348-350 | the incomparable-reference branch is unreachable for scores of one comparison |
| PromotionStore.ModelRepository.SelectActive | internal/postgres/model_evaluation.go:97-102 | the query returns the one active model of the lineage |
| PromotionStore.ModelRepository.CompleteEvaluation | internal/postgres/model_evaluation.go:83-192 | the transaction tries the guards in order and performs the specified switch and audit update, or refuses with the first failing guard and changes nothing |
| PromotionStore.AuditKeepsLastTwenty | internal/postgres/model_evaluation.go:180-181 | the audit list is always the last twenty reports |
| PromotionSafety.SwitchEffect | internal/postgres/model_evaluation.go:103-166 | an accepted switch retires the expected champion, activates the target and moves no other status |
| PromotionSafety.RefusalChangesNothing | internal/postgres/model_evaluation.go:94-105 | a changed policy revision or active model means refusal without any row change |
| PromotionSafety.StatusMoves | internal/postgres/model_evaluation.go:148-166 | statuses move from candidate to active to retired, and back only by an accepted rollback of that model |
| PromotionSafety.AcceptedExactly | internal/postgres/model_evaluation.go:83-159 | a report is accepted exactly when the workload, the active model and the target are the expected ones and, if it binds, it is current, held out from the fit, and its scores earn or certify what it does |
| PromotionSafety.RedecidesExactly | internal/postgres/model_evaluation.go:128-141 | the decision taken again from the stored evidence is to promote exactly when the scores earn it, a rollback by a tenth of the champion's loss at least |
| PromotionSafety.ValidityMoves | internal/postgres/model_evaluation.go:182-187 | a model's validity date is set exactly by an accepted binding report on it |
| PromotionSafety.SwitchIsJustified | internal/postgres/model_evaluation.go:121-159 | an accepted switch rests on current evidence from after the fit in which the target outperforms the model it replaces, under the workload's policy revision, and a rollback's from after the activation it undoes |
| PromotionSafety.ActivationsWereJustified | internal/postgres/model_evaluation.go:83-192 | over every run of arbitrary reports, a model that is or was active got there by an accepted switch on evidence from after its fit in which it underpredicts no more than its reference and has lower loss |
| PromotionSafety.RunKeepsOneActive | internal/postgres/model_evaluation.go:83-192 | over every run of arbitrary reports each lineage has at most one active model |
| PromotionSafety.AtMostOneSwitch | internal/postgres/model_evaluation.go:97-105 | without rollback and clearing, at most one report naming the same expected champion ever switches |
| PromotionAgreement.LayersAgree | internal/training/evaluation.go:138-316 | when nothing fenced changed and less than ten minutes passed, a promote, rollback or revalidated report built by the service is accepted exactly when the target has the workload's engine |
| PromotionAgreement.OtherEngineIsRefused | internal/postgres/model_evaluation.go:107-111 | a promotion the service decides and the transaction refuses for the engine |
| PromotionAgreement.RevisionFixesEngine | internal/scaledobject/parser.go:134-139 | when revisions determine engines, the target of a binding report always has the workload's engine |
| PromotionLineage.JudgedLink | internal/training/evaluation.go:282-315 | whatever is decided, the recorded previous link is sound and the target is one of the versions read |
| PromotionLineage.RunsKeepInvariant | internal/postgres/model_evaluation.go:83-192 | in every reachable state under the per-workload lock, links, audit lists, one-active and justified activations hold |
| PromotionLineage.ActiveModelsWereJustified | internal/postgres/model_evaluation.go:121-159 | in every reachable state, a model that is or was active has in its log an activating report on evidence from after its fit in which it underpredicts no more than its reference and has lower loss |
| PromotionLineage.ActiveLinkIsRetired | internal/postgres/model_evaluation.go:151-184 | the active model's previous link is empty or names a retired model of its lineage |
| PromotionLineage.RollbackFollowsLink | internal/postgres/model_evaluation.go:151-166 | a rollback activates exactly the linked model and links back to the retired champion |
| PromotionLineage.UninterruptedEvaluationCommits | internal/training/evaluation.go:108-317 | an evaluation that commits on the state it read is stored exactly when its target has the workload's engine |
| PromotionTurns.TurnPassesExactly | internal/training/evaluation.go:139-150 | after a stored evaluation the next one of the same pair is the other's turn exactly when the report is newer than the other's last one and was not a shadow rollback, whatever happens in between |
| PromotionTurns.TurnsAlternateExactly | internal/training/evaluation.go:139-150 | over any sequence of evaluations of one pair, champion and candidate strictly take turns exactly as long as none ends in a shadow rollback |
| PromotionTurns.ShadowRollbacksStarve | internal/training/evaluation.go:300-312 | as long as evaluations end in shadow rollbacks the candidate is never considered |
| PromotionTurns.ShadowRollbackKeepsTheTurn | internal/training/evaluation.go:300-312 | a degraded champion in shadow mode whose evaluation leaves it the next turn |
| EvaluationService.Service.Prepare | internal/training/evaluation.go:127-253 | the guards run in order, and each role of the comparison is played by the artifact meant for it |
| EvaluationService.Service.Gather | internal/training/evaluation.go:255-272 | stale, unreadable or uncomparable sources are told apart, and evidence comes from comparing these models on the samples read |
| EvaluationService.Service.Conclude | internal/training/evaluation.go:276-316 | the step-by-step decision equals the judgement for candidates, champions and rollbacks |
| EvaluationService.NeverIncomparable | internal/training/evaluation.go:348-350 | no decision of Evaluate on compared evidence ever reports an incomparable reference |
| EvaluationService.PolicyNeverDivides | internal/training/evaluation.go:265-272 | under a valid policy the comparison never divides by zero |
| EvaluationService.ComparedHorizonExactly | internal/training/evaluation.go:31-33 | models are compared on the workload's own horizon exactly when that is a whole number of seconds |
| EvaluationService.Service.Evaluate | internal/training/evaluation.go:108-317 | the submitted report is the judgement of the versions and gathered evidence, its action follows from the scores, never for an incomparable reference, and the tables change only as the transaction allows |
| RepairPlan.PlanRuns | internal/history/repair.go:127-139 | the spans are ordered, disjoint, at most 10000 long and together exactly the missing slots |
| RepairPlan.PlanShards | internal/history/repair.go:140-155 | coalesced spans are ordered, disjoint, at most 10000 long, end on missing slots and leave none out |
| RepairPlan.PlanRequests | internal/history/repair.go:125-155 | the plan covers every missing slot and is short enough for the budget |
| Slots.MoreRowsFewerMissing | internal/history/repair.go:95-116 | more rows never make more slots missing |
| Slots.NewRowFillsItsSlot | internal/history/repair.go:103-114 | one row in a missing slot lowers the missing count by exactly one |
| Repair.Read | internal/history/repair.go:95-116 | the bitmap and the count are those of the rows, recomputed in place |
| Repair.Accept | internal/history/repair.go:177-198 | an answer is accepted exactly when it is small enough, on the grid, inside the span and free of duplicate slots, and yields exactly its points for missing slots |
| Repair.SampleTable.InsertIfAbsent | internal/postgres/sample_repair.go:42-44 | a row is inserted exactly when its slot is empty, and no other row changes |
| Repair.SampleTable.InsertMissingSamples | internal/postgres/sample_repair.go:17-62 | the fenced batch adds only given points, counts them exactly and fills every given slot |
| Repair.QuietKeepsRows | internal/postgres/sample_repair.go:14-17 | existing samples keep their values when nobody else writes |
| Repair.Fetch | internal/history/repair.go:158-176 | a span costs one request plus its failures, at most two, within the budget |
| Repair.FillPlan | internal/history/repair.go:156-206 | the spans are asked in order, only offered points of missing slots are inserted, and all of them are; it stops exactly on an unanswered request, an answer out of order or a refused insert |
| Repair.UnansweredIsNotSupplied | internal/history/repair.go:156-198 | while a span is unanswered, its first slot has been offered no point |
| Repair.Repair | internal/history/repair.go:75-215 | against concurrent writers: rows are kept, inserts are sourced, only spans from missing to missing slot are asked for; when the final read happened every missing slot was asked for, every answer was in order, no offered slot is still missing, and inserted is at most the drop in missing slots with equality when nobody else wrote; it succeeds when every answer is in order and every missing slot was offered, and when nobody else writes only then |
| Repair.RepairTwice | internal/history/repair.go:72-74 | after success a second repair asks for nothing and inserts nothing |
| Inference.ChainIsGood | internal/dataset/inference.go:72-107 | a joined run is bridged into increasing times less than one and a half intervals apart, with at most five estimates in a row, each on the straight line between the two observations around it, and its real points unchanged |
| Inference.ChainStartIsMaximal | internal/dataset/inference.go:82-91 | the kept run is the newest one without an unbridgeable gap |
| Inference.BridgeableExactly | internal/dataset/inference.go:82-91 | a gap is bridged exactly when it is within the limit and a quarter of an interval, near at most six whole intervals, and the value moves by a quarter at most |
| Inference.Connect | internal/dataset/inference.go:72-107 | the loop yields the bridged newest run, reports whether something was dropped, and refuses exactly negative values |
| Inference.Lay | internal/dataset/inference.go:93-105 | the loop lays the estimates of one bridge |
| Inference.BridgesNeverTurnBack | internal/dataset/inference.go:93-105 | from one observation to the next the values move one way only |
| Inference.BridgeStaysBetween | internal/dataset/inference.go:99-101 | no estimate leaves the range of its two observations |
| Inference.PrepareInferenceHistory | internal/dataset/inference.go:32-145 | every error and every result is characterised by the recent observations, and a result is sound for them |
| Inference.HistoryIsSound | internal/dataset/inference.go:57-111 | density, at most five estimates in a row, on the straight line between their two observations so that values never turn back, real points newest first to last, last point real and equal to the last observation |
| Inference.RealPointsAreTheNewest | internal/dataset/inference.go:42-71 | with a fixed lookback the real points still are the newest of all deduplicated observations |
| Inference.LimitsExactly | internal/dataset/inference.go:112-143 | the limits pass exactly the histories without estimates, or with at most 5% overall and among the newest sixty points, and two real points at the end |
| Inference.EstimatesAreFew | internal/dataset/inference.go:112-143 | at most 5% estimates overall and among the newest sixty points, and two real points at the end |
| Inference.Validate | internal/dataset/quality.go:55-79 | passes exactly the good histories and reports the first bad gap |
| Inference.PreparedHistoryPassesQuality | internal/dataset/quality.go:55-87 | after a successful preparation the two-interval check can fail only for too few samples |
| Inference.MostRecentContiguous | internal/dataset/quality.go:22-34 | the result starts right after the last gap that is too long |
| Training.NewestRun | internal/dataset/training.go:29-39 | the loop finds the newest maximal run of at least the minimum length, or there is no such stretch |
| Training.TrainingSegment | internal/dataset/training.go:14-44 | the segment is that run of the latest points per slot, and each error occurs exactly in its case |
| Training.SegmentIsRegular | internal/dataset/training.go:11-13 | the segment has one real observation per slot on consecutive slots |
| Backfill.QueryAndStore | internal/sampler/backfill.go:70-106 | wherever the loop ends: the chunks follow each other up to the end, stop at the first failure, and what was returned is stored |
| Backfill.ChunksAskTheWholeGrid | internal/sampler/backfill.go:75-101 | the chunks ask for exactly the grid of the range, at most 10000 points each |
| Backfill.ChunkKeepsPhase | internal/sampler/backfill.go:79-100 | every chunk keeps the phase of the grid |
| Backfill.OnlyBoundariesTwice | internal/sampler/backfill.go:97-100 | two chunks share a point exactly when it is the boundary between neighbours |
| Backfill.EndsExactly | internal/sampler/backfill.go:78-100 | the loop ends exactly when the step is positive or some query fails |
| Backfill.RecoverRecentHistory | internal/sampler/backfill.go:43-68 | recovery asks for the grid after the newest sample inside the window, and for nothing when that sample cannot be looked up |
| Parser.CountedOnce | internal/scaledobject/parser.go:48-58 | a use count of one means the name stands at one position only |
| Parser.TrimExactly | internal/scaledobject/parser.go:74-90 | only white space is cut off, on both sides, and none is left there |
| Parser.ParseCandidate | internal/scaledobject/parser.go:78-155 | exactly the violations that occur are reported, and a workload is emitted exactly when there are none, which is exactly when every rule holds |
| Parser.Parse | internal/scaledobject/parser.go:26-68 | the missing top-level fields, and one candidate per predictive trigger, in order |
| Parser.AcceptedSource | internal/scaledobject/parser.go:90-109 | an accepted workload's source is the trigger it names, used by no other |
| Parser.ParsedIsCoherent | internal/controller/repository_sink.go:17-30 | desired workloads of one ScaledObject share neither predictive trigger nor source |
| WorkloadRepository.StorableExactly | migrations/schema.sql:42-57 | the table's CHECK constraints accept a parsed workload exactly when its horizon is a whole number of intervals and its quantile does not round to zero or one |
| WorkloadRepository.ParserIsMoreLenient | internal/scaledobject/parser.go:207-213 | a workload that passes the parser's rule and fails the table's |
| WorkloadRepository.QuantileRoundsToOne | internal/scaledobject/parser.go:280-290 | a quantile that passes the parser and is rounded to one by its column |
| WorkloadRepository.RoundedExactly | migrations/schema.sql:27-27 | the quantile column keeps five decimals, off by half of the last at most |
| WorkloadRepository.SavedExactly | internal/postgres/workload_repository.go:93-98 | what is read back is what was accepted exactly when startup and buffer are whole seconds and the quantile has five decimals |
| WorkloadRepository.SavedStaysOnGrid | internal/postgres/workload_repository.go:93-95 | the decision horizon read back is a whole number of intervals exactly when no part of a second was lost, or a whole second on a one-second grid |
| WorkloadRepository.AcceptedThenOffGrid | internal/scaledobject/parser.go:207-210 | a workload that is accepted and stored, and read back with a decision horizon off the grid |
| WorkloadRepository.Repository.UpsertWorkload | internal/postgres/workload_repository.go:71-123 | one upsert keeps the id, overwrites the rest, and clears models when asked to on a new policy |
| WorkloadRepository.Repository.Reconcile | internal/postgres/workload_repository.go:28-54 | the transaction applies all upserts and the deactivation, or leaves every table as it was |
| WorkloadRepository.Repository.DeactivateParent | internal/postgres/workload_repository.go:56-69 | deletion switches off the active workloads of the parent only |
| WorkloadRepository.UpsertsEffect | internal/postgres/workload_repository.go:71-123 | upserts store each workload, keep ids, leave other rows alone and delete exactly the models to be cleared |
| WorkloadRepository.ReconciledEffect | internal/postgres/workload_repository.go:28-54 | active rows of the parent become exactly the desired workloads, other parents are untouched, ids survive |
| WorkloadRepository.ReconcileIsIdempotent | internal/postgres/workload_repository.go:28-54 | repeating a reconciliation changes no id, contents, model or run; only the update time of the desired rows moves on |
| Reconciliation.RunsServeTheLastObservation | internal/controller/scaledobject.go:50-84 | after any run of observations, deletions, failures and foreign writes the active workloads are those of the last committed observation |
| Reconciliation.AddressIdentifiesWorkload | internal/forecast/repository.go:9-14 | the scaler's lookup key identifies one active workload |
| Reconciliation.SnapshotCache.Refresh | internal/scaler/cache.go:26-42 | a refresh replaces all entries, a failed one keeps them |
| Reconciliation.SnapshotCache.LatestSnapshot | internal/scaler/cache.go:44-52 | after a refresh from a listing the cached answer for an address of its cluster is one the query itself would give, and none exactly when the query has none |
| Reconciliation.CacheAnswersLikeTheDatabase | internal/scaler/cache.go:26-52 | the cache has one entry per active workload with a snapshot and answers every address as the direct query does |
| Claims.SlotsNeverMeet | internal/training/scheduler.go:131-140 | a schedule slot before the year 2500 never equals an immediate one |
| Claims.ReservedSlotsExactly | internal/training/scheduler.go:135-140 | revisions share an immediate slot exactly when their digests agree modulo the seconds of a century |
| Claims.RunsKeepInvariant | internal/postgres/training_repository.go:18-91 | over every interleaving: one run per workload and slot, insertion in clock order, scheduled runs exclusive |
| Claims.NoScheduledRunAfterAny | internal/postgres/training_repository.go:25-32 | once any run was created in the current interval, no scheduled run of that workload is added in it |
| Claims.StatusMoves | internal/postgres/training_repository.go:69-91 | a statement moves one run at most, from claimed to running, from running to succeeded, to failed, or to succeeded by a Python trainer's commit |
| Claims.RunningWasClaimed | internal/postgres/training_repository.go:77-83 | a run that is running was claimed before |
| Claims.SuccessesAreEarnedExactly | pytorch/gru_trainer.py:279-279 | every success follows running exactly when no Python trainer commits on a claimed or failed run |
| Claims.FailedStaysFailedExactly | internal/postgres/training_repository.go:69-91 | a failed run stays failed at every moment exactly when no Python trainer commits on it |
| Claims.RetriedTrainerRevivesFailedRun | pytorch/gru_trainer.py:235-279 | a retried trainer turns a failed run into a succeeded one that never ran |
| Claims.ImmediateClaimsShareOneRun | internal/postgres/training_repository.go:43-67 | all immediate claims of one policy revision are handed the same run |
| Claims.ImmediateRunIsHandedOutExactly | internal/postgres/training_repository.go:43-67 | once a revision has its run, an immediate claim is handed that run exactly while it is still claimed, and none exactly when it is not |
| Claims.FailedRevisionIsNotRetried | internal/training/scheduler.go:101-107 | a revision whose immediate run failed, or was taken up in any other way, is never handed a run again |
| Claims.RecordedFailureLosesTheRun | internal/training/scheduler.go:102-107 | a reservation whose failure is recorded is lost, the same without the record is handed out again |
| Scheduler.TrainingRepository.Claim | internal/postgres/training_repository.go:18-41 | a scheduled claim inserts a new run, reports that the slot or the interval is taken, or fails with or without effect |
| Scheduler.TrainingRepository.ClaimImmediate | internal/postgres/training_repository.go:47-67 | with other processes between its two statements, it hands out the slot's run exactly while that is still claimed |
| Scheduler.OffsetsExactly | internal/training/scheduler.go:142-150 | workloads share a delay exactly when their hashes agree modulo the seconds of the interval |
| Scheduler.RunOnce | internal/training/scheduler.go:79-129 | a pass without error leaves every workload served; an error stops at one workload with all before it served, after a failing statement or an uncreated Job, whose run is failed unless that statement failed too; every run handed out has its Job, and every Job fits a workload that asked for it or was due |
| HpaRecovery.Backoff | internal/controller/hpa_recovery.go:183-195 | the loop computes the smaller of the ceiling and the interval doubled once per further attempt |
| HpaRecovery.DelayIsMonotone | internal/controller/hpa_recovery.go:78-80 | the delay never shrinks and lies between the interval and the ceiling |
| HpaRecovery.MissingIsExact | internal/controller/hpa_recovery.go:259-273 | the missing metrics are the expected ones that are not present |
| HpaRecovery.Recovery.Check | internal/controller/hpa_recovery.go:81-167 | a scan advances each HPA it saw by one step, keeps states for those only, and probes exactly the due ones |
| HpaRecovery.AttemptsAreBounded | internal/controller/hpa_recovery.go:132-136 | over any run of scans the attempt count stays between 0 and 10 |
| HpaRecovery.ProbesAreSpaced | internal/controller/hpa_recovery.go:129-136 | consecutive probes of an HPA that every scan sees lacking are at least the backoff apart |
| HpaRecovery.BreakForgetsBackoff | internal/controller/hpa_recovery.go:102-127 | after any scan that did not find this HPA lacking, a lacking scan probes at once and counts from one |
| HpaRecovery.SpacedExactly | internal/controller/hpa_recovery.go:129-136 | for all scan times probes keep their backoff exactly when every scan between two lacking ones finds the same HPA lacking |
| HpaRecovery.OneBreakProbesTwice | internal/controller/hpa_recovery.go:118-125 | runs with a failed read, restored metrics or a replaced HPA in between, in which probes are too close |
| Safety.SurgeIsBounded | internal/safety/safety.go:41-67 | a surge asks for more than the current value, at most its multiple, and no more than the slope explains |
| Safety.CandidateExactly | internal/safety/safety.go:59-67 | a candidate grows at least the slope multiplier times as fast as the percentile, if that is positive, and stands at least the baseline multiplier times above the baseline |
| Safety.GuardrailsHold | internal/safety/safety.go:95-114 | a decision is unchanged when blocked and otherwise within maximum, step and percentage |
| Safety.GuardrailsExactly | internal/safety/safety.go:95-114 | a granted scale-up is the highest value that maximum, step and percentage permit, and each reason occurs exactly in its case |
| Safety.GuardrailsAreMonotone | internal/safety/safety.go:95-114 | asking for more never yields less |
| Surge.DetectSurgeIn | internal/forecaster/service.go:222-272 | triggers exactly when each of the newest samples is abnormal against the earlier slopes and its baseline, with the demand bounded |
| Surge.NearestRankIsPercentile | internal/forecaster/service.go:245-246 | the picked slope is the one value with at least 95% of the slopes at or below and fewer below |
| Surge.BaselineExactly | internal/forecaster/service.go:248-252 | the baseline is the mean of the five samples before |
| Surge.JudgedSamplesStayOut | internal/forecaster/service.go:235-241 | the judged samples do not influence the percentile |
| Surge.MoreDemandKeepsSurge | internal/forecaster/service.go:247-271 | a higher newest value keeps the surge and its demand does not fall |
| Surge.SurgeIsUnitIndependent | internal/forecaster/service.go:222-272 | scaling all samples leaves the trigger unchanged and scales the demand, through the sort and all loops |
| Sorting.SortedSorts | internal/forecaster/service.go:245-245 | sorting yields an ordered permutation |
| Sorting.SortedMaps | internal/forecaster/service.go:245-246 | sorting commutes with every strictly increasing map |
| Forecaster.RealContiguousSuffix | internal/dataset/inference.go:149-168 | the evidence is the deduplicated suffix from the newest cut on |
| Forecaster.EvidenceIsGapFree | internal/dataset/inference.go:147-168 | exactly when the evidence misses no slot |
| Forecaster.EvidenceCanMissASlot | internal/dataset/inference.go:147-168 | an input whose evidence misses a slot |
| Forecaster.Decide | internal/forecaster/service.go:133-199 | the decision uses the larger of forecast and surge under the guardrails, with errors in their cases |
| Forecaster.DesiredIsJustEnough | internal/forecaster/service.go:150-155 | without estimates the desired count is the smallest that keeps the larger of forecast and surge within the threshold per replica |
| Forecaster.EstimatesAreConservative | internal/forecaster/service.go:165-174 | with estimated inputs the result is not below the current replicas or the maximum and rises by at most one replica and a quarter |
| Forecaster.SurgeLowersOnlyThroughCapacity | internal/forecaster/service.go:179-182 | exactly when a surge does not lower the result, by the two capacity answers and the requests they are asked about |
| Forecaster.CapacityCanLowerASurge | internal/forecaster/service.go:179-182 | a situation in which it does |
| SeasonalModels.PredictHorizonMax | internal/forecast/baseline.go:15-33 | the loop returns the highest value of the repeated last season |
| SeasonalModels.Smooth | internal/forecast/holt_winters.go:37-50 | the in-place loop computes the smoothing recurrence |
| SeasonalModels.BlendExactly | internal/forecast/holt_winters.go:44-50 | a weight of one takes what is seen, of zero what was expected, and between them it is the share of the way |
| SeasonalModels.StartFindsTheSlope | internal/forecast/holt_winters.go:37-43 | when the second season repeats the first one higher, the initial trend is the rise per sample, and level and seasonals together give the first season back |
| SeasonalModels.PredictHoltWinters | internal/forecast/holt_winters.go:21-61 | the prediction is the highest projected value, at least zero |
| SeasonalModels.SmoothingStays | internal/forecast/holt_winters.go:44-50 | on a periodic series level, trend and seasonals never change |
| SeasonalModels.ModelsAgreeOnPeriodicSeries | internal/forecast/holt_winters.go:37-60 | on a periodic series both models project the same value at every step, for all smoothing parameters |
| SeasonalModels.PredictionsCoincide | internal/forecast/baseline.go:15-33 | hence the same horizon maximum for demand that is never negative |
| SeasonalModels.ForecastsCoincide | internal/forecast/holt_winters.go:21-61 | both models answer a request alike on two seasons or more of periodic demand that is never negative |

## Left out

- Floating point: values are reals, so rounding, NaN and infinities and the checks against them do not appear; the nearest-rank and peak-cutoff indices are computed in integers.
- Integer widths: durations and counts are unbounded, except for the parser's decision horizon and where the inference lookback is checked against 64 bits.
- Context cancellation and timeouts end an operation at any point in the source; the model has them only as failed requests and uncommitted transactions.
- Training of the network beyond one gradient: Adam, clipping, scaling, seeding, feature encoding, JSON artifacts and their checksums.
- The XGBoost bridge and the training in Python are not part of this model; of the Python trainer only its statements on training runs are.
- Forecast's input gathering, model resolution and snapshot storage; the scaling decision starts from inputs and prediction.
- The free-text detail of evaluation reports and the reference name of a decision; evidence gathered before a comparison failed is stored by the source and is empty here.
- Cluster ids of models, samples and training runs are folded into the workload id.
- Repair.SampleTable.ListSamples: rows are listed in no particular order, where the query orders them by time; the repair does not depend on it.
- Hashes: revisions and fingerprints are compared by what they are hashes of, claim slots take any digest, and two revisions may share an immediate slot.
- Parser.ParseCandidate: durations, numbers, URLs and time zones are given by what becomes of the text, so the wrap-around of a whole-day count does not appear; the sum of the decision horizon does wrap at 64 bits.
- Scheduler.RunOnce: scheduler times lie between one training interval after Go's zero time and the year 2500.
- Backfill.QueryAndStore: says nothing where the source's loop never ends, on the inputs that Backfill.EndsExactly names.
- WorkloadRepository.StorableExactly: is about the table's CHECK constraints; that a column refuses a text with a NUL character or a number beyond its width is not modelled.
- GruTraining.BatchDifferentiatesTheLoss: asks that no prediction of the batch equals its target, where the loss has no derivative.
- GruTraining.BatchDifferentiatesTheDemandLoss: asks the same of the forecasts and the observed maxima.
- Repair.Repair: the history window's timeouts are one flag of the limits.
- EnsureHistory and its sufficiency test, walk-forward validation and the freshness checks of the scaler server would only add easy members.
- KEDA, Kubernetes, gRPC, HTTP and metrics plumbing.
