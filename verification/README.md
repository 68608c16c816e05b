# Action dispatch: a verified model

A dispatcher turns the action chunks that a policy predicts into single robot actions, while
requests, results, resets, cancels, stops and late replies interleave. This project models that core
in Dafny and proves what it promises over all runs. Five parts are covered.

- **Policy admission.** A client takes a remote runtime's mode and gives it back over requests that may
  never be answered. `Admission.dfy` holds the protocol, `AdmissionRuns.dfy` the runtime it runs
  against and its invariant, `AdmissionHistory.dfy` what holds of the request history,
  `AdmissionSafety.dfy` what can never happen, `AdmissionVerdicts.dfy` and `AdmissionReturns.dfy` what each
  reply, call and timer leads to, `AdmissionProgress.dfy` that undisturbed acquires, releases and returns
  succeed, `PolicyAdmission.dfy` the client object.
- **Plans.** `ChunkPlanning.dfy` turns a chunk into an interval, `TemporalSmoother.dfy` keeps the weighted
  mean of overlapping predictions, `Plans.dfy` and `ActivePlan.dfy` hold the transactional store.
  `PlanRuns.dfy` shows that the store refines a queue, `SmoothingRuns.dfy` what each smoothed slot
  averages.
- **Episodes and the wait-for-feedback dispatcher.** `Episode.dfy` and `EpisodeStateMachine.dfy` model
  tokens, generations, step commits and results; `Dispatching.dfy` and `ActionDispatcher.dfy` the
  dispatcher in benchmark mode. `DispatchRuns.dfy`, `DispatchInvariant.dfy` and `DispatchSteps.dfy`
  carry the invariant, `DispatchSafety.dfy` the guarantees, `DispatchOutcomes.dfy` what each event
  commits and which outcome it hands to the goal, and `DispatchComposition.dfy` shows that the dispatcher
  drives its parts only through their own operations.
- **The scheduled dispatcher.** `Sessions.dfy`, `SessionSafety.dfy` and `SessionProgress.dfy` model the session
  lifecycle; `ScheduledWork.dfy`, `ScheduledSafety.dfy`, `ScheduledProgress.dfy` and `ScheduledDispatcher.dfy`
  its requests, retries, two retained stores and their toggles.
- **Around the robot.** `AeroHand.dfy` proves the two-lock emergency stop of the hand driver over all
  interleavings; `SafeStop.dfy` proves that a safe stop never invents a value to hold.

`Prelude.dfy` holds optional values, results and two integer helpers.

Each stateful part has two halves. A class updates its fields in place, one method per section under
the original's lock, and every method is proved to change its state exactly as a step function says.
The theorems are about those step functions: invariants kept by every step, then statements over every
run, with ghost records of what an outside observer would have written down (requests sent, what callers
were told, actions submitted and served, feedbacks, closes). They come in two kinds: what can never happen,
and what each event does lead to, so that a part that failed every call would not meet them. Numbers are reals, weights are any positive sequence, identifiers are
numbers drawn in increasing order, and time is a parameter of the steps, so that every timeout or
deadline may fire at any moment.

## What was found

Four promises turned out to hold only under a condition; each condition is proved exactly.

- The smoother averages all predictions made for an action if and only if no chunk that predicts it is
  followed by one that ends before it, and smoothing stays on (`SmoothingRuns.WholeHistoryIffUnbroken`).
  A shorter chunk drops the end of the plan, and the next longer one starts those slots afresh
  (`SmoothingRuns.ShorterChunkForgets`). Without any condition each slot averages its predictions since
  then.
- `set_emergency_stop(True)` keeps normal writes away only while the stop stays latched. A command that
  the I/O thread dequeued before is written if the stop is released before its last look at the latch
  (`AeroHandRuns.DequeuedCommandSurvivesCycle`, `AeroHandRuns.DequeuedCommandPassesIff`).
- A joint sample that passes the length and set checks is always a permutation of the expected joints if
  and only if those are all different, or all the same (`SafeStop.OnlyPermutationsIff`). For different
  joints `SafeStop.AcceptedIff` says which samples are accepted.
- A goal handle is bound to its own goal exactly while that goal's generation is still the current one
  and waits for a handle (`DispatchSafety.HandleBindsOwnGoalIff`), because binding reads the current
  generation again (action_dispatcher_node.py:1847). A handle that arrives after the next acceptance is
  bound to the next goal (`DispatchSafety.LateHandleBindsNextGoal`). In the runs of the model handles
  arrive in time.

## What is assumed

- A resolved future means that the runtime has decided the request, and a runtime that reports success
  for an idle request has gone idle. Completion callbacks do not acquire again. Callers do not overlap a
  release with an acquire, as both dispatchers ensure; the final write of a release
  (policy_admission.py:524-525) belongs to its completion.
- The schedulers and executors of the wait-for-feedback dispatcher may decide anything: any receipt, any
  transition, any completion, any number of times. Submissions get fresh correlation numbers, requests
  fresh identifiers, goals fresh handles, and callbacks carry what their request captured.
- A session is admitted only while no stop, restart or failure is under way. Explicit starts hold the
  same lifecycle lock, a safe stop cancels a pending admission, and the automatic start is disarmed as
  soon as it has succeeded or anything was started or stopped by hand.
- Sections under one lock are atomic. Accepting a goal and finishing a preparation take only the
  episode's lock; both are steps of their own, and both need a closed gate.

## Model

| member | source | states |
|---|---|---|
| AdmissionSafety.NoStrandedMode | src/action_dispatch/action_dispatch/policy_admission.py:254-288 | In every reachable state: if the runtime holds our mode by our doing, or a request for our mode is undecided, then the client owns it, an attempt that asked for the switch is pending, a rollback runs, a switch is unresolved, or idle is not confirmed |
| AdmissionSafety.ConfirmedIdleIsGone | src/action_dispatch/action_dispatch/policy_admission.py:645-656 | Once idle is confirmed with no rollback running and no switch asked for, our mode is gone and no request for it can still commit |
| AdmissionSafety.ReleaseReturnsOnlyWhenGone | src/action_dispatch/action_dispatch/policy_admission.py:486-511 | A release that answers true at once leaves none of our mode behind, neither held nor still to be committed |
| AdmissionSafety.ReleaseSucceedsOnlyWhenGone | src/action_dispatch/action_dispatch/policy_admission.py:466-484 | A release of an owned mode that completes with success completes only when our mode is gone |
| AdmissionSafety.ReleaseStep | src/action_dispatch/action_dispatch/policy_admission.py:521-526 | When a pending release ends with idle confirmed, neither a rollback nor a requested switch is open any more |
| AdmissionSafety.AttemptsNeverOverlap | src/action_dispatch/action_dispatch/policy_admission.py:290-305 | A running rollback or an unresolved switch excludes both pending and owned; pending holds exactly when a completion is stored; every acquire completes at most once, and exactly once by the time nothing is pending |
| AdmissionSafety.ModesAreCheckedThenSet | src/action_dispatch/action_dispatch/policy_admission.py:307-323 | In every history each request for idle directly follows, under the same generation or token, a reply of the bound runtime that reports our mode and no stop latch; each request for our mode follows an admissible idle reply of its own generation |
| AdmissionSafety.StaleCallbacksAreInert | src/action_dispatch/action_dispatch/policy_admission.py:344-371 | A callback or timer of an older generation or token changes nothing at all, except that the late answer to an unresolved switch clears it and, since nothing can be active then, starts a clean-up rollback |
| AdmissionSafety.OwnershipIsEarnedAndLossIsAnnounced | src/action_dispatch/action_dispatch/policy_admission.py:325-334 | The mode comes to be owned only through the successful, timely switch of the attempt in progress; whoever loses it other than by its own release is told |
| AdmissionSafety.StepOwnership | src/action_dispatch/action_dispatch/policy_admission.py:218-252 | The one-step form: which single event can give ownership, and that every other loss raises the revocation count |
| AdmissionSafety.FinishLosesOwnership | src/action_dispatch/action_dispatch/policy_admission.py:282-284 | The single exit of attempts keeps ownership exactly on success, and announces exactly the losses |
| AdmissionSafety.ObserveGainsNothing | src/action_dispatch/action_dispatch/policy_admission.py:218-252 | No observed status ever gives ownership, and one that takes it away announces the loss |
| AdmissionRuns.NextKeeps | src/action_dispatch/action_dispatch/policy_admission.py:17-656 | Every event of the client, the runtime, other producers and the timers keeps the whole protocol invariant |
| AdmissionHistory.NextLedger | src/action_dispatch/action_dispatch/policy_admission.py:254-288 | Every event keeps the history justified (each mode request is preceded by its check) and each completion run at most once |
| PolicyAdmissionClient.PolicyAdmission.constructor | src/action_dispatch/action_dispatch/policy_admission.py:24-135 | A new client owns nothing, has nothing pending and counts idle as confirmed |
| PolicyAdmissionClient.PolicyAdmission.RollbackFinished | src/action_dispatch/action_dispatch/policy_admission.py:645-656 | A rollback ends at most once: it moves the token on, so that its own late callbacks are stale, and records whether idle is confirmed |
| PolicyAdmissionClient.PolicyAdmission.RollbackQuery | src/action_dispatch/action_dispatch/policy_admission.py:582-591 | Reads the status under the current token; a failing call ends the rollback as failed |
| PolicyAdmissionClient.PolicyAdmission.BeginIdleRollback | src/action_dispatch/action_dispatch/policy_admission.py:538-569 | Starts at most one rollback and waits for our own unanswered mode request before reading the mode |
| PolicyAdmissionClient.PolicyAdmission.SwitchAnswered | src/action_dispatch/action_dispatch/policy_admission.py:571-580 | The late answer clears the latch; it resumes its own rollback, or starts a fresh one if nothing is active |
| PolicyAdmissionClient.PolicyAdmission.RollbackStatusDone | src/action_dispatch/action_dispatch/policy_admission.py:593-619 | Requests idle only after a bound reply in our mode without a latch; a foreign mode counts as done |
| PolicyAdmissionClient.PolicyAdmission.RollbackModeDone | src/action_dispatch/action_dispatch/policy_admission.py:621-636 | The rollback ends confirmed exactly when the runtime accepted idle |
| PolicyAdmissionClient.PolicyAdmission.RunCompletion | src/action_dispatch/action_dispatch/policy_admission.py:285-286 | Runs the stored completion once; for an auto start it disarms on success or after the bounded number of failures |
| PolicyAdmissionClient.PolicyAdmission.CloseAttempt | src/action_dispatch/action_dispatch/policy_admission.py:263-286 | Ends the attempt, drops ownership on failure with notice, then completes |
| PolicyAdmissionClient.PolicyAdmission.EndAttempt | src/action_dispatch/action_dispatch/policy_admission.py:263-281 | An unanswered request for our mode is kept for a rollback to wait for; every other outstanding request is forgotten |
| PolicyAdmissionClient.PolicyAdmission.Finish | src/action_dispatch/action_dispatch/policy_admission.py:254-288 | Rolls back exactly for a failed, pending, non-releasing attempt that had asked for or taken the mode |
| PolicyAdmissionClient.PolicyAdmission.Call | src/action_dispatch/action_dispatch/policy_admission.py:344-371 | A call of an older generation is not made; an unavailable service fails the attempt |
| PolicyAdmissionClient.PolicyAdmission.Acquire | src/action_dispatch/action_dispatch/policy_admission.py:290-342 | Fails fast while a rollback, an attempt or an unresolved switch is open; otherwise starts one attempt |
| PolicyAdmissionClient.PolicyAdmission.RefuseAcquire | src/action_dispatch/action_dispatch/policy_admission.py:292-294 | An acquire that finds something open completes at once, without success |
| PolicyAdmissionClient.PolicyAdmission.BeginAttempt | src/action_dispatch/action_dispatch/policy_admission.py:295-301 | A new attempt forgets the last status and stores exactly one completion |
| PolicyAdmissionClient.PolicyAdmission.AutoStartObserve | src/action_dispatch/action_dispatch/policy_admission.py:413-436 | Disarms on a latch or a foreign mode; acquires only for a healthy idle runtime with nothing open |
| PolicyAdmissionClient.PolicyAdmission.Observe | src/action_dispatch/action_dispatch/policy_admission.py:218-252 | Drops ownership on any status that is not a healthy one in our mode; fails a pending attempt that the status contradicts |
| PolicyAdmissionClient.PolicyAdmission.CheckedReply | src/action_dispatch/action_dispatch/policy_admission.py:307-323 | Asks for the switch only after an admissible idle reply of the same generation, and marks it first |
| PolicyAdmissionClient.PolicyAdmission.SwitchedReply | src/action_dispatch/action_dispatch/policy_admission.py:325-334 | Owns the mode before verifying it |
| PolicyAdmissionClient.PolicyAdmission.VerifiedReply | src/action_dispatch/action_dispatch/policy_admission.py:336-340 | Completes with success only if the verifying status did not end the attempt |
| PolicyAdmissionClient.PolicyAdmission.ReleaseCheckedReply | src/action_dispatch/action_dispatch/policy_admission.py:466-484 | Requests idle only from our own mode without a latch; a foreign mode means it has already left |
| PolicyAdmissionClient.PolicyAdmission.Done | src/action_dispatch/action_dispatch/policy_admission.py:344-371 | Replies of an older generation are ignored; late, empty or failing ones fail the attempt |
| PolicyAdmissionClient.PolicyAdmission.Cancel | src/action_dispatch/action_dispatch/policy_admission.py:373-386 | Ends a pending attempt as failed, or just moves the generation on |
| PolicyAdmissionClient.PolicyAdmission.Timeout | src/action_dispatch/action_dispatch/policy_admission.py:213-216 | Fails the attempt only if it is still the one the timer was set for |
| PolicyAdmissionClient.PolicyAdmission.CheckFreshness | src/action_dispatch/action_dispatch/policy_admission.py:205-211 | An owner that hears no admissible status in time loses the mode |
| PolicyAdmissionClient.PolicyAdmission.Release | src/action_dispatch/action_dispatch/policy_admission.py:486-511 | Returns at once, waits for a rollback, or hands an owned mode back through its own check |
| ChunkPlanning.ValidateChunkPlan | src/action_dispatch/action_dispatch/chunk_planning.py:66-88 | A plan that passes is unchanged and its interval lies inside its chunk |
| ChunkPlanning.PlanStartsAtExecuted | src/action_dispatch/action_dispatch/chunk_planning.py:131-186 | Both planners succeed exactly for a finite, nonempty rank-2 chunk with a usable horizon; the plan then starts at the number of executed actions, capped at the chunk length or horizon, and only a truncated plan carries its own watermark |
| Smoothing.BlendIsMean | src/action_dispatch/action_dispatch/temporal_smoother.py:257-264 | Blending one more prediction into an exact weighted mean gives the exact weighted mean of all of them |
| Smoothing.Blend | src/action_dispatch/action_dispatch/temporal_smoother.py:257-264 | A blended action keeps its width |
| Smoothing.SmoothedSlot | src/action_dispatch/action_dispatch/temporal_smoother.py:230-272 | Slot by slot: overlapping slots absorb one prediction or stay frozen at the cap, later ones are the new rows with count one |
| Smoothing.ApplySmoothing | src/action_dispatch/action_dispatch/temporal_smoother.py:230-272 | The smoothed plan is exactly as long as the new chunk: what the old plan held beyond it is gone |
| Smoothing.ApplySmoothingValid | src/action_dispatch/action_dispatch/temporal_smoother.py:251-272 | Counts stay between one and the number of weights and never increase along the plan; all actions keep one width |
| Smoothing.Prepare | src/action_dispatch/action_dispatch/temporal_smoother.py:199-223 | Whatever is prepared is a valid plan as long as the selected rows |
| Smoothing.PrepareAgreesWithUpdate | src/action_dispatch/action_dispatch/temporal_smoother.py:151-223 | For a nonempty chunk, preparing the aligned rest and committing it gives the same plan as the one-shot update |
| Smoothing.WeightedSumBounds | src/action_dispatch/action_dispatch/temporal_smoother.py:89-95 | A weighted sum lies between the bounds of its terms times the cumulative weight |
| Smoothing.MeanWithinContributions | src/action_dispatch/action_dispatch/temporal_smoother.py:251-264 | Every planned value lies between any bounds of the predictions it averages |
| Smoothing.CumulativePositive | src/action_dispatch/action_dispatch/temporal_smoother.py:89-95 | Cumulative weights are positive, so that no blend divides by zero |
| Smoothing.TemporalSmoother.constructor | src/action_dispatch/action_dispatch/temporal_smoother.py:80-87 | Starts with an empty plan |
| Smoothing.TemporalSmoother.Reset | src/action_dispatch/action_dispatch/temporal_smoother.py:111-115 | Forgets the plan and nothing else |
| Smoothing.TemporalSmoother.SetEnabled | src/action_dispatch/action_dispatch/temporal_smoother.py:352-355 | Switches smoothing without touching the plan |
| Smoothing.TemporalSmoother.PlanLength | src/action_dispatch/action_dispatch/temporal_smoother.py:118-123 | The number of planned actions |
| Smoothing.TemporalSmoother.GetNextAction | src/action_dispatch/action_dispatch/temporal_smoother.py:130-149 | Takes exactly the head off the plan; an empty plan is an error and stays as it is |
| Smoothing.TemporalSmoother.PrepareNext | src/action_dispatch/action_dispatch/temporal_smoother.py:199-223 | Computes the next plan without changing the current one; refuses exactly when widths would have to be combined that differ |
| Smoothing.TemporalSmoother.Commit | src/action_dispatch/action_dispatch/temporal_smoother.py:225-228 | Swaps in exactly what was prepared |
| Smoothing.TemporalSmoother.UpdatePlan | src/action_dispatch/action_dispatch/temporal_smoother.py:151-197 | The one-shot update leaves what preparing the aligned rest would; a refused chunk changes nothing |
| SmoothingRuns.SlotsAverageContributions | src/action_dispatch/action_dispatch/temporal_smoother.py:230-272 | At every point of every run of requests, pops, chunks, toggles and resets, the slot that will become action number total+k has counted as many of its contributions as there are weights, and is exactly the weighted mean of those, each taken from its own chunk at the row that predicts this very action |
| SmoothingRuns.SlotsWithinContributions | src/action_dispatch/action_dispatch/temporal_smoother.py:251-264 | So every planned value lies between the least and greatest of the predictions made for that action |
| SmoothingRuns.FrozenSlot | src/action_dispatch/action_dispatch/temporal_smoother.py:253-264 | A slot that used up the weights is changed by no further chunk while smoothing is on |
| SmoothingRuns.WholeHistoryIffUnbroken | src/action_dispatch/action_dispatch/temporal_smoother.py:243-272 | A slot averages all predictions ever made for its action if and only if no chunk that predicts it was followed by one that does not, or that was installed without smoothing |
| SmoothingRuns.GrowingChunksAreUnbroken | src/action_dispatch/action_dispatch/temporal_smoother.py:243-272 | Blended chunks that never end before an earlier one leave no prediction out |
| SmoothingRuns.ShorterChunkForgets | src/action_dispatch/action_dispatch/temporal_smoother.py:243-272 | Counterexample to averaging the whole history: after a shorter chunk, a slot predicted twice has absorbed only the last prediction |
| SmoothingRuns.DeliverAligns | src/action_dispatch/action_dispatch/action_dispatcher_node.py:1244-1272 | The rows that enter the plan are exactly those of the chunk that predict actions not yet consumed |
| SmoothingRuns.PreparedSlots | src/action_dispatch/action_dispatch/temporal_smoother.py:199-223 | A prepared plan is right for every slot at once |
| SmoothingRuns.BlendedSlot | src/action_dispatch/action_dispatch/temporal_smoother.py:251-264 | A slot that absorbs one more prediction, or is frozen, still averages the first of its contributions |
| SmoothingRuns.RunKeeps | src/action_dispatch/action_dispatch/active_plan.py:68-175 | Every reachable state has exact slots, an aligned request and chunks in sending order |
| Plans.Accept | src/action_dispatch/action_dispatch/active_plan.py:68-103 | Accepting fails exactly when there is a reason to refuse, and otherwise gives a valid plan |
| ActivePlanStore.ActivePlan.constructor | src/action_dispatch/action_dispatch/active_plan.py:44-59 | Starts empty with the default watermark |
| ActivePlanStore.ActivePlan.Remaining | src/action_dispatch/action_dispatch/active_plan.py:61-66 | The number of actions left |
| ActivePlanStore.ActivePlan.Accept | src/action_dispatch/action_dispatch/active_plan.py:68-103 | A refused candidate leaves the store exactly as it was; an accepted one replaces plan and metadata together and revokes any reservation |
| ActivePlanStore.ActivePlan.AcceptQueued | src/action_dispatch/action_dispatch/active_plan.py:76-84 | A chunk over capacity is refused when failing closed, otherwise its newest actions are kept |
| ActivePlanStore.ActivePlan.AcceptSmoothed | src/action_dispatch/action_dispatch/active_plan.py:85-90 | Every check precedes the swap of the smoothed plan |
| ActivePlanStore.ActivePlan.Install | src/action_dispatch/action_dispatch/active_plan.py:96-102 | Source, position, watermark, revision and consumption change together |
| ActivePlanStore.ActivePlan.Snapshot | src/action_dispatch/action_dispatch/active_plan.py:61-66 | Reports the store without changing it |
| ActivePlanStore.ActivePlan.Clear | src/action_dispatch/action_dispatch/active_plan.py:105-116 | Discards plan, metadata and reservation, and moves the revision on |
| ActivePlanStore.ActivePlan.SetSmoothingEnabled | src/action_dispatch/action_dispatch/active_plan.py:118-122 | Toggles the owned smoother and nothing else |
| ActivePlanStore.ActivePlan.Reserve | src/action_dispatch/action_dispatch/active_plan.py:124-141 | Names the next action without consuming it; an outstanding reservation is handed out again |
| ActivePlanStore.ActivePlan.IsCurrent | src/action_dispatch/action_dispatch/active_plan.py:143-152 | A reservation is current exactly while revision, consumption and source are those it was taken at and an action is left |
| ActivePlanStore.ActivePlan.CommitReserved | src/action_dispatch/action_dispatch/active_plan.py:161-175 | Consumes exactly the reserved head |
| ActivePlanStore.ActivePlan.Commit | src/action_dispatch/action_dispatch/active_plan.py:154-159 | Commits exactly the current reservation and ignores any other |
| ActivePlanStore.ActivePlan.TakeAction | src/action_dispatch/action_dispatch/active_plan.py:177-184 | Takes the head, else repeats the last action, else nothing |
| PlanRuns.RefinesQueue | src/action_dispatch/action_dispatch/active_plan.py:124-184 | Between two replacements the actions handed out, in order, followed by what remains, are exactly the installed interval: no skip, no repeat, consumed plus remaining is its length |
| PlanRuns.AcceptedInterval | src/action_dispatch/action_dispatch/active_plan.py:68-103 | Which interval, position and watermark an accepted candidate installs, for the queue, its bounded overflow and the smoother |
| PlanRuns.PositionFollowsConsumption | src/action_dispatch/action_dispatch/active_plan.py:161-175 | Until the next replacement the chunk position advances by exactly what was consumed, and source, watermark and revision stay |
| PlanRuns.CommitsAtMostOnce | src/action_dispatch/action_dispatch/active_plan.py:143-159 | A reservation commits at most once, whatever happens in between |
| PlanRuns.ReplacementRevokes | src/action_dispatch/action_dispatch/active_plan.py:96-116 | A reservation taken before an accept or clear is never current again |
| PlanRuns.StampGrows | src/action_dispatch/action_dispatch/active_plan.py:96-116 | Revision and consumption only move forward |
| PlanRuns.Step | src/action_dispatch/action_dispatch/active_plan.py:43-184 | Every operation keeps the store valid |
| EpisodeRuns.TokenLiveExactlyInPrepared | src/action_dispatch/action_dispatch/episode.py:397-436 | In every reachable state a token is live exactly while the machine is prepared |
| EpisodeRuns.TokensStrictlyIncrease | src/action_dispatch/action_dispatch/episode.py:397-409 | Later preparations hand out larger tokens |
| EpisodeRuns.ConsumedTokenStaysDead | src/action_dispatch/action_dispatch/episode.py:508-541 | A token that a goal consumed is never live again |
| EpisodeRuns.TokenConsumedOnce | src/action_dispatch/action_dispatch/episode.py:508-541 | Each token is consumed by at most one goal |
| EpisodeRuns.GenerationClosedOnce | src/action_dispatch/action_dispatch/episode.py:868-914 | Each goal generation is closed at most once |
| EpisodeRuns.StaleCallsChangeNothing | src/action_dispatch/action_dispatch/episode.py:748-790 | Once a newer goal was accepted, every guarded call made for an earlier one leaves the state as it is, commits nothing and closes nothing |
| EpisodeRuns.CommittedStepsAreConsecutive | src/action_dispatch/action_dispatch/episode.py:762-790 | The steps committed since the goal was accepted are exactly 0, 1, ... in order, of this episode, as many as the count, and the last of them is the snapshot |
| EpisodeRuns.ResultCountsCommittedSteps | src/action_dispatch/action_dispatch/episode.py:942-986 | The result of a close counts the committed steps, names the last, and reports exactly its flags, reward and metrics |
| EpisodeRuns.DeadlinesRunFromBinding | src/action_dispatch/action_dispatch/episode.py:556-571 | Both deadlines of a goal fire exactly when its limits have passed since the handle was bound |
| EpisodeRuns.InferenceAsksForLatest | src/action_dispatch/action_dispatch/episode.py:592-603 | Inference is asked for at the goal timestamp until it first succeeds, then at the latest usable committed observation, and never with the gate closed |
| EpisodeRuns.HighestPriorityWins | src/action_dispatch/action_dispatch/episode.py:652-669 | A committed step ends the episode for the first applicable reason in the priority list, and for none exactly if none applies |
| Episodes.StepKeeps | src/action_dispatch/action_dispatch/episode.py:207-986 | Every guarded call keeps the token and step-counting invariant |
| EpisodeMachine.EpisodeStateMachine.constructor | src/action_dispatch/action_dispatch/episode.py:241-276 | Starts idle, without token or goal |
| EpisodeMachine.EpisodeStateMachine.TryBeginPreparing | src/action_dispatch/action_dispatch/episode.py:422-436 | Begins exactly when no goal is active and no preparation runs, and voids the old token |
| EpisodeMachine.EpisodeStateMachine.CompletePrepare | src/action_dispatch/action_dispatch/episode.py:397-409 | Issues the next token, or fails outside PREPARING without a change |
| EpisodeMachine.EpisodeStateMachine.FailPrepare | src/action_dispatch/action_dispatch/episode.py:411-420 | Back to idle without a token, or an error without a change |
| EpisodeMachine.EpisodeStateMachine.Validate | src/action_dispatch/action_dispatch/episode.py:442-478 | Reports the first violated requirement in order, or none |
| EpisodeMachine.EpisodeStateMachine.TryAcceptGoal | src/action_dispatch/action_dispatch/episode.py:508-541 | Accepts exactly a valid goal: consumes the token, advances the generation, keeps the gate closed |
| EpisodeMachine.EpisodeStateMachine.TryBindGoal | src/action_dispatch/action_dispatch/episode.py:556-571 | Opens the gate exactly for the current pending generation and starts both deadlines |
| EpisodeMachine.EpisodeStateMachine.TryOnInferenceSuccess | src/action_dispatch/action_dispatch/episode.py:748-760 | Only the current generation can start running |
| EpisodeMachine.EpisodeStateMachine.TryCommitStep | src/action_dispatch/action_dispatch/episode.py:762-790 | Commits exactly a matching step of the current generation under an open gate; otherwise nothing changes |
| EpisodeMachine.EpisodeStateMachine.TryCheckStartupDeadline | src/action_dispatch/action_dispatch/episode.py:792-799 | Fires only while starting and only for the current generation |
| EpisodeMachine.EpisodeStateMachine.TryCheckEpisodeDeadline | src/action_dispatch/action_dispatch/episode.py:801-808 | Fires only for the current generation |
| EpisodeMachine.EpisodeStateMachine.TryCloseWithResult | src/action_dispatch/action_dispatch/episode.py:868-910 | Closes exactly the active current generation and returns the snapshot taken in the same step |
| EpisodeMachine.EpisodeStateMachine.Build | src/action_dispatch/action_dispatch/episode.py:942-986 | Reports the last committed step, or none |
| DispatchSafety.CommitAndConsumeAreOne | src/action_dispatch/action_dispatch/action_dispatcher_node.py:941-1025 | For any scheduler decisions and completions: since a goal was accepted, the actions served from plans, the committed steps and the feedbacks are equally many, the steps are exactly 0..n-1, the action served for each is the one that was submitted for it, and n never exceeds the goal limit and stays below it while the gate is open |
| DispatchSafety.SubmissionsCommitOnce | src/action_dispatch/action_dispatch/action_dispatcher_node.py:946-949 | However often a completion is repeated, no submission is committed twice under a goal |
| DispatchSafety.OnlyServedActionsLeave | src/action_dispatch/action_dispatch/action_dispatcher_node.py:994-1013 | Unless a step refills or discards the plan, what it records as served is exactly what has left the plan |
| DispatchSafety.GateOpensOnEmptyPlan | src/action_dispatch/action_dispatch/action_dispatcher_node.py:1661-1668 | With the gate closed there is no plan, so it opens on an empty one with nothing committed |
| DispatchSafety.ServedByOwnRequests | src/action_dispatch/action_dispatch/action_dispatcher_node.py:744-749 | Every action committed under a goal came from a plan that only requests sent under that goal had filled |
| DispatchSafety.OlderResultsAreInert | src/action_dispatch/action_dispatch/action_dispatcher_node.py:1125-1135 | The answer to a request sent under another goal leaves plan and episode as they are |
| DispatchSafety.ClosuresStay | src/action_dispatch/action_dispatch/action_dispatcher_node.py:1991-2013 | How a goal ended is written once and never changes |
| DispatchSafety.ClosingStep | src/action_dispatch/action_dispatch/action_dispatcher_node.py:1941-1984 | Every recorded ending was written by the one step that closed that generation |
| DispatchSafety.ExecuteReturnsOwnOutcome | src/action_dispatch/action_dispatch/action_dispatcher_node.py:1881-1931 | The execute callback of a goal returns the outcome frozen by the step that closed its own generation, however many later episodes ran first; that result counts one published action per served action and feedback and names the last step |
| DispatchSafety.RunningGoalIsBound | src/action_dispatch/action_dispatch/action_dispatcher_node.py:1849-1862 | While the gate is open the active handle belongs to the current generation and its context is not frozen |
| DispatchSafety.HandleBindsOwnGoalIff | src/action_dispatch/action_dispatch/action_dispatcher_node.py:1846-1862 | A handle is bound to a given generation exactly while that one is current and waits for a handle |
| DispatchSafety.LateHandleBindsNextGoal | src/action_dispatch/action_dispatch/action_dispatcher_node.py:1846-1862 | Counterexample: after a reset and the next acceptance, the late handle of the first goal is bound to the second one |
| DispatchSteps.NextKeeps | src/action_dispatch/action_dispatch/action_dispatcher_node.py:752-1149 | Every event keeps the dispatcher invariant |
| DispatchSteps.NeverUngated | src/action_dispatch/action_dispatch/action_dispatcher_node.py:967-1045 | Under the invariant a current reservation always belongs to the bound goal, so the path without a goal is never taken |
| DispatchInvariant.EndKeeps | src/action_dispatch/action_dispatch/action_dispatcher_node.py:1941-2039 | Closing, clearing and freezing in one step keep everything and leave no plan behind |
| DispatchInvariant.FrozenIsFinal | src/action_dispatch/action_dispatch/action_dispatcher_node.py:1991-2013 | The frozen outcome is the one that the closed episode itself still tells |
| DispatchComposition.RunExplained | src/action_dispatch/action_dispatch/action_dispatcher_node.py:752-1149 | Every run of the dispatcher is a run of guarded episode calls and of plan store operations |
| DispatchComposition.DispatcherKeepsTokenDiscipline | src/action_dispatch/action_dispatch/episode.py:397-436 | So the token discipline holds of the episode inside the dispatcher |
| Dispatching.FindContext | src/action_dispatch/action_dispatch/action_dispatcher_node.py:1894-1901 | Finds a context of this goal if there is one |
| BenchmarkDispatcher.FreezeFirst | src/action_dispatch/action_dispatch/action_dispatcher_node.py:1999-2013 | Freezing concerns the first context of its generation and only if it has no outcome yet |
| BenchmarkDispatcher.ActionDispatcher.constructor | src/action_dispatch/action_dispatch/action_dispatcher_node.py:366-372 | Starts with an idle episode, an empty plan and nothing in flight |
| BenchmarkDispatcher.ActionDispatcher.InvalidateInference | src/action_dispatch/action_dispatch/action_dispatcher_node.py:2024-2028 | Every request sent before is stale from here on |
| BenchmarkDispatcher.ActionDispatcher.ClearLocalState | src/action_dispatch/action_dispatch/action_dispatcher_node.py:2015-2039 | Discards plan, reservation and last action, and requests if asked to |
| BenchmarkDispatcher.ActionDispatcher.FreezeContext | src/action_dispatch/action_dispatch/action_dispatcher_node.py:1991-2013 | Writes an outcome once, into the context of its generation |
| BenchmarkDispatcher.ActionDispatcher.EndEpisode | src/action_dispatch/action_dispatch/action_dispatcher_node.py:1941-1984 | Closes, clears and freezes in one step, or does nothing |
| BenchmarkDispatcher.ActionDispatcher.ClearAndFreeze | src/action_dispatch/action_dispatch/action_dispatcher_node.py:1951-1953 | The clearing and freezing half of an ending |
| BenchmarkDispatcher.ActionDispatcher.PrepareEpisode | src/action_dispatch/action_dispatch/action_dispatcher_node.py:1660-1668 | Begins exactly when preparing is allowed, and then clears everything local |
| BenchmarkDispatcher.ActionDispatcher.FinishPrepare | src/action_dispatch/action_dispatch/action_dispatcher_node.py:1716-1724 | Returns a token exactly for a successful preparation |
| BenchmarkDispatcher.ActionDispatcher.RunPolicyGoal | src/action_dispatch/action_dispatch/action_dispatcher_node.py:1803-1825 | Accepts exactly a valid goal |
| BenchmarkDispatcher.ActionDispatcher.HandleAccepted | src/action_dispatch/action_dispatch/action_dispatcher_node.py:1846-1868 | Binds, registers the context and opens the gate together, or leaves nothing behind |
| BenchmarkDispatcher.ActionDispatcher.ExecuteReturn | src/action_dispatch/action_dispatch/action_dispatcher_node.py:1892-1918 | Hands out a frozen outcome once and removes only its own context |
| BenchmarkDispatcher.ActionDispatcher.GateOpen | src/action_dispatch/action_dispatch/episode.py:287-293 | Whether inference and submission are allowed |
| BenchmarkDispatcher.ActionDispatcher.RequestInference | src/action_dispatch/action_dispatch/action_dispatcher_node.py:688-749 | One request at a time; its callbacks carry the two generations captured here |
| BenchmarkDispatcher.ActionDispatcher.CompleteInflightRequest | src/action_dispatch/action_dispatch/action_dispatcher_node.py:1364-1369 | Frees the slot of this request only |
| BenchmarkDispatcher.ActionDispatcher.ResultArrived | src/action_dispatch/action_dispatch/action_dispatcher_node.py:1125-1149 | A stale reply changes nothing; a current one for another goal only frees the slot |
| BenchmarkDispatcher.ActionDispatcher.AcceptResult | src/action_dispatch/action_dispatch/action_dispatcher_node.py:1244-1287 | Installs the aligned chunk and starts running, or aborts without touching the plan |
| BenchmarkDispatcher.ActionDispatcher.ExpireInferenceRequest | src/action_dispatch/action_dispatch/action_dispatcher_node.py:1371-1394 | An abandoned request becomes stale |
| BenchmarkDispatcher.ActionDispatcher.AbortIfBound | src/action_dispatch/action_dispatch/action_dispatcher_node.py:1060-1063 | Aborts exactly a bound goal under an open gate |
| BenchmarkDispatcher.ActionDispatcher.CommitReservedAction | src/action_dispatch/action_dispatch/action_dispatcher_node.py:941-1046 | The episode commits the step and the plan gives up the action, or neither does |
| BenchmarkDispatcher.ActionDispatcher.CommitUnderGoal | src/action_dispatch/action_dispatch/action_dispatcher_node.py:970-1025 | The same under a bound goal, down to the end of the episode |
| BenchmarkDispatcher.ActionDispatcher.ConsumeCommitted | src/action_dispatch/action_dispatch/action_dispatcher_node.py:994-1025 | What a committed step entails |
| BenchmarkDispatcher.ActionDispatcher.ConsumeReserved | src/action_dispatch/action_dispatch/action_dispatcher_node.py:994-1013 | Consumes the reserved action and forgets the submission |
| BenchmarkDispatcher.ActionDispatcher.ExtendReadiness | src/action_dispatch/action_dispatch/action_dispatcher_node.py:1018-1021 | A usable observation extends the readiness deadline |
| BenchmarkDispatcher.ActionDispatcher.ApplyTransition | src/action_dispatch/action_dispatch/action_dispatcher_node.py:916-1066 | Commit, fail closed or ignore |
| BenchmarkDispatcher.ActionDispatcher.SubmitNextAction | src/action_dispatch/action_dispatch/action_dispatcher_node.py:863-913 | Reserves, submits once, and applies an immediate completion exactly once |
| BenchmarkDispatcher.ActionDispatcher.CancelSeen | src/action_dispatch/action_dispatch/action_dispatcher_node.py:796-798 | A cancel closes the bound goal as canceled |
| BenchmarkDispatcher.ActionDispatcher.CheckDeadlines | src/action_dispatch/action_dispatch/action_dispatcher_node.py:800-814 | Startup first, then the duration limit |
| BenchmarkDispatcher.ActionDispatcher.ResetCalled | src/action_dispatch/action_dispatch/action_dispatcher_node.py:1326-1362 | An external reset aborts an active goal, else clears locally |
| BenchmarkDispatcher.ActionDispatcher.RuntimeRevoked | src/action_dispatch/action_dispatch/action_dispatcher_node.py:497-511 | Everything local goes, the goal stays |
| BenchmarkDispatcher.ActionDispatcher.ToggleSmoothing | src/action_dispatch/action_dispatch/action_dispatcher_node.py:1462-1497 | Toggles the plan store |
| SessionSafety.StatesMeanSessions | src/action_dispatch/action_dispatch/scheduled_action_dispatcher_node.py:520-546 | Active implies a session with a positive generation; waiting and stopped imply none |
| SessionSafety.MarkedNeverActive | src/action_dispatch/action_dispatch/scheduled_action_dispatcher_node.py:419-428 | A session that was ever stopped, revoked, failing or closing is never active afterwards |
| SessionSafety.LateOpenIsClosed | src/action_dispatch/action_dispatch/scheduled_action_dispatcher_node.py:470-495 | An open that succeeds after its session was stopped or revoked never becomes active, and once its callback is through a close was sent for exactly that session and the generation it was granted |
| SessionSafety.ClosesNameOwnGeneration | src/action_dispatch/action_dispatch/scheduled_action_dispatcher_node.py:1304-1370 | Every close names its session under the generation that session was granted, or under none if its open came back without one; an active session is never being closed |
| SessionSafety.OpensAreTracked | src/action_dispatch/action_dispatch/scheduled_action_dispatcher_node.py:497-499 | As long as an open is unanswered its session is the current one, so no successful open is forgotten |
| SessionSafety.NextKeeps | src/action_dispatch/action_dispatch/scheduled_action_dispatcher_node.py:377-620 | Every section of opening, closing, stopping, failing and revoking keeps the lifecycle invariant |
| ScheduledSafety.RequestRelativeAlignment | src/action_dispatch/action_dispatch/scheduled_action_dispatcher_node.py:700-768 | While a request is in flight, the length it started from minus that of the store in use is the number of actions executed since it was first sent, across ticks, retries and toggles between the two stores |
| ScheduledSafety.AcceptedChunkStartsAtConsumed | src/action_dispatch/action_dispatch/scheduled_action_dispatcher_node.py:1084-1099 | So the plan an accepted reply installs starts at that number, capped at the chunk length or horizon, and comes from exactly that request |
| ScheduledSafety.AcceptedOnce | src/action_dispatch/action_dispatch/scheduled_action_dispatcher_node.py:1077-1099 | No request enters a plan twice |
| ScheduledSafety.BoundedRetry | src/action_dispatch/action_dispatch/scheduled_action_dispatcher_node.py:741-768 | One logical request is sent at most once more than the allowed retries, always with the same deadline and observation time |
| ScheduledSafety.RetriesAgree | src/action_dispatch/action_dispatch/scheduled_action_dispatcher_node.py:901-928 | The sends of one logical request stand in a row with ascending attempts |
| ScheduledSafety.ReplacedRequestsAreIgnored | src/action_dispatch/action_dispatch/scheduled_action_dispatcher_node.py:885-892 | Once a request was replaced, answered or dropped, no reply to it changes anything |
| ScheduledSafety.WorkOnlyWhileActive | src/action_dispatch/action_dispatch/scheduled_action_dispatcher_node.py:719-749 | Outside an active session no request is sent, no chunk accepted and no action executed |
| ScheduledSafety.StepsProject | src/action_dispatch/action_dispatch/scheduled_action_dispatcher_node.py:985-1011 | Seen from the lifecycle every step is one lifecycle step or none |
| ScheduledSafety.RunsProject | src/action_dispatch/action_dispatch/scheduled_action_dispatcher_node.py:377-620 | So the lifecycle steps of a whole run are a run of the session lifecycle |
| ScheduledSafety.ActiveSessionIsNotBeingClosed | src/action_dispatch/action_dispatch/scheduled_action_dispatcher_node.py:1304-1370 | An active dispatcher has a session for which no close was ever sent |
| ScheduledSafety.CandidateStarts | src/action_dispatch/action_dispatch/scheduled_action_dispatcher_node.py:1084-1094 | The plan made for an accepted reply starts at the executed count and ends at the usable length |
| ScheduledSafety.NextKeeps | src/action_dispatch/action_dispatch/scheduled_action_dispatcher_node.py:719-1101 | Every event keeps alignment, retry chains, acceptance order and the lifecycle invariant |
| ScheduledDispatcherNode.ScheduledDispatcher.constructor | src/action_dispatch/action_dispatch/scheduled_action_dispatcher_node.py:100-125 | Starts waiting, without session, request or plan |
| ScheduledDispatcherNode.ScheduledDispatcher.ClearWork | src/action_dispatch/action_dispatch/scheduled_action_dispatcher_node.py:1148-1159 | No request and no plan is left in either store |
| ScheduledDispatcherNode.ScheduledDispatcher.OpenAdmittedSession | src/action_dispatch/action_dispatch/scheduled_action_dispatcher_node.py:430-442 | Opens only from waiting or stopped, and starts from nothing |
| ScheduledDispatcherNode.ScheduledDispatcher.HandleOpenNotStarted | src/action_dispatch/action_dispatch/scheduled_action_dispatcher_node.py:510-518 | Only the tracked open gives its session back |
| ScheduledDispatcherNode.ScheduledDispatcher.CompletePendingOpen | src/action_dispatch/action_dispatch/scheduled_action_dispatcher_node.py:501-506 | Only the pending open is completed |
| ScheduledDispatcherNode.ScheduledDispatcher.OnOpenAnswered | src/action_dispatch/action_dispatch/scheduled_action_dispatcher_node.py:520-546 | Success activates exactly an undisturbed opening; otherwise it asks for a close of just this generation |
| ScheduledDispatcherNode.ScheduledDispatcher.BeginCloseSession | src/action_dispatch/action_dispatch/scheduled_action_dispatcher_node.py:1304-1321 | At most one close at a time, for the current identity only, after discarding the work |
| ScheduledDispatcherNode.ScheduledDispatcher.FinishCloseSession | src/action_dispatch/action_dispatch/scheduled_action_dispatcher_node.py:1360-1370 | Only the close under way can end, and only its own session is given up |
| ScheduledDispatcherNode.ScheduledDispatcher.BeginOperation | src/action_dispatch/action_dispatch/scheduled_action_dispatcher_node.py:551-561 | A second lifecycle operation is refused |
| ScheduledDispatcherNode.ScheduledDispatcher.SafeStopOutput | src/action_dispatch/action_dispatch/scheduled_action_dispatcher_node.py:1227-1247 | Freezes the output and discards the work |
| ScheduledDispatcherNode.ScheduledDispatcher.CloseSessionSync | src/action_dispatch/action_dispatch/scheduled_action_dispatcher_node.py:1372-1384 | An open that is still out is marked to be closed by its own callback |
| ScheduledDispatcherNode.ScheduledDispatcher.CloseForOperation | src/action_dispatch/action_dispatch/scheduled_action_dispatcher_node.py:1389-1391 | Nothing to close counts as done |
| ScheduledDispatcherNode.ScheduledDispatcher.AwaitOpen | src/action_dispatch/action_dispatch/scheduled_action_dispatcher_node.py:1385-1388 | A timeout counts as a failed close |
| ScheduledDispatcherNode.ScheduledDispatcher.AwaitClose | src/action_dispatch/action_dispatch/scheduled_action_dispatcher_node.py:1392-1395 | The outcome of the close that was waited for |
| ScheduledDispatcherNode.ScheduledDispatcher.FinishOperation | src/action_dispatch/action_dispatch/scheduled_action_dispatcher_node.py:614-648 | Stopped exactly if both halves succeeded, else failed; a restart forgets all results |
| ScheduledDispatcherNode.ScheduledDispatcher.RuntimeRevoked | src/action_dispatch/action_dispatch/scheduled_action_dispatcher_node.py:419-428 | Discards the work, keeps the identity of a session for its close |
| ScheduledDispatcherNode.ScheduledDispatcher.ReportFailure | src/action_dispatch/action_dispatch/scheduled_action_dispatcher_node.py:990-1011 | Acts only for the current identity, at once or through the mailbox |
| ScheduledDispatcherNode.ScheduledDispatcher.DrainPendingFailure | src/action_dispatch/action_dispatch/scheduled_action_dispatcher_node.py:1013-1018 | Mail about a request counts only while that request is in flight |
| ScheduledDispatcherNode.ScheduledDispatcher.CurrentLength | src/action_dispatch/action_dispatch/scheduled_action_dispatcher_node.py:1152-1153 | The length of the store in use |
| ScheduledDispatcherNode.ScheduledDispatcher.RequestDispatch | src/action_dispatch/action_dispatch/scheduled_action_dispatcher_node.py:741-768 | One logical request at a time, which fixes deadline, observation time and starting length |
| ScheduledDispatcherNode.ScheduledDispatcher.RetryDispatch | src/action_dispatch/action_dispatch/scheduled_action_dispatcher_node.py:741-768 | A retry replaces exactly the request it repeats and keeps its deadline and observation time |
| ScheduledDispatcherNode.ScheduledDispatcher.FailCurrentRequest | src/action_dispatch/action_dispatch/scheduled_action_dispatcher_node.py:985-988 | Only the current request can fail the session |
| ScheduledDispatcherNode.ScheduledDispatcher.EnqueueChunk | src/action_dispatch/action_dispatch/scheduled_action_dispatcher_node.py:1044-1099 | A chunk of the current request enters the store in use at most once; an invalid one fails the session |
| ScheduledDispatcherNode.ScheduledDispatcher.InstallCandidate | src/action_dispatch/action_dispatch/scheduled_action_dispatcher_node.py:1095-1099 | The accepted plan, its key and the end of the request belong together |
| ScheduledDispatcherNode.ScheduledDispatcher.ExecuteNextAction | src/action_dispatch/action_dispatch/scheduled_action_dispatcher_node.py:1161-1201 | One action per tick from the store in use, only while active |
| ScheduledDispatcherNode.ScheduledDispatcher.ToggleSmoothing | src/action_dispatch/action_dispatch/scheduled_action_dispatcher_node.py:674-713 | Switches stores, discards a disabled smoother, and moves the starting length along |
| AeroHandRuns.EmergencyStopBarrier | src/aero_hand_hardware/aero_hand_hardware/aero_hand_driver.py:177-194 | For every interleaving: from the return of set_emergency_stop(True) until the latch is released, no normal write starts and none is still in progress |
| AeroHandRuns.StopReturnsLatched | src/aero_hand_hardware/aero_hand_hardware/aero_hand_driver.py:191-194 | A caller about to return from setting the stop still sees its own latch |
| AeroHandRuns.StopDropsQueuedCommand | src/aero_hand_hardware/aero_hand_hardware/aero_hand_driver.py:177-194 | A command still queued when the stop is latched is never written |
| AeroHandRuns.DequeuedCommandSurvivesCycle | src/aero_hand_hardware/aero_hand_hardware/aero_hand_driver.py:238-254 | A run in which a command dequeued before the stop is written after a full cycle of stop and release: the barrier holds only while latched |
| AeroHandRuns.DequeuedCommandPassesIff | src/aero_hand_hardware/aero_hand_hardware/aero_hand_driver.py:244-250 | A dequeued command passes its last check exactly when the latch is off at that moment, and is gone otherwise |
| AeroHandRuns.PortIsExclusive | src/aero_hand_hardware/aero_hand_hardware/aero_hand_driver.py:163-170 | At most one thread uses the serial port |
| AeroHandRuns.NoDeadlock | src/aero_hand_hardware/aero_hand_hardware/aero_hand_driver.py:163-254 | Locks are taken port first: a thread that waits for the port holds no lock, and as long as some thread is not at rest, some such thread can move |
| AeroHandRuns.NextKeeps | src/aero_hand_hardware/aero_hand_hardware/aero_hand_driver.py:129-318 | Every step of every thread keeps the lock, latch and command invariants |
| AeroHandDriverNode.AeroHandDriver.constructor | src/aero_hand_hardware/aero_hand_hardware/aero_hand_driver.py:38-79 | Starts disconnected, released and with an empty queue |
| AeroHandDriverNode.AeroHandDriver.Connect | src/aero_hand_hardware/aero_hand_hardware/aero_hand_driver.py:97-127 | Connecting clears queue and latch, once |
| AeroHandDriverNode.AeroHandDriver.SetJointPositions | src/aero_hand_hardware/aero_hand_hardware/aero_hand_driver.py:129-175 | Which commands are rejected and why; what an accepted one changes when queued, written directly or mocked |
| AeroHandDriverNode.AeroHandDriver.SetEmergencyStop | src/aero_hand_hardware/aero_hand_hardware/aero_hand_driver.py:177-194 | Latching drops the queued command; releasing brings none back |
| AeroHandDriverNode.AeroHandDriver.TakeCommand | src/aero_hand_hardware/aero_hand_hardware/aero_hand_driver.py:238-242 | Dequeues at most once and hands nothing out while latched |
| AeroHandDriverNode.AeroHandDriver.WriteCommand | src/aero_hand_hardware/aero_hand_hardware/aero_hand_driver.py:245-250 | Writes exactly if the latch is off |
| SafeStop.BuildSafeStopPlan | src/action_dispatch/action_dispatch/safe_stop.py:80-125 | One channel per specification in order, each position of a hold channel mapped to its joint; the first unknown behaviour is the error |
| SafeStop.NameIndex | src/action_dispatch/action_dispatch/safe_stop.py:253-269 | A mapped index is always inside the joint order |
| SafeStop.IndexOf | src/action_dispatch/action_dispatch/safe_stop.py:261-262 | The first occurrence, exactly if there is one |
| SafeStop.ValidateJointState | src/action_dispatch/action_dispatch/safe_stop.py:128-152 | An accepted sample has the expected length throughout |
| SafeStop.DistinctIffFull | src/action_dispatch/action_dispatch/safe_stop.py:140-144 | A list has as many different names as entries exactly when no name repeats (the pigeonhole step) |
| SafeStop.AcceptedSampleIsPermutation | src/action_dispatch/action_dispatch/safe_stop.py:140-152 | Equal length and equal name sets force a permutation of distinct joints, and the reordering puts every reading at its own joint |
| SafeStop.AcceptedIff | src/action_dispatch/action_dispatch/safe_stop.py:140-152 | For distinct joints, exactly the finite samples that are permutations of the expected names are accepted |
| SafeStop.OnlyPermutationsIff | src/action_dispatch/action_dispatch/safe_stop.py:140-152 | The checks admit permutations of the expected joints only, if and only if those are all different or all the same |
| SafeStop.RepetitionAdmitsAnother | src/action_dispatch/action_dispatch/safe_stop.py:140-152 | Counterexample: with a repeated joint, a sample that lists another joint instead of the repetition is accepted |
| SafeStop.FillHold | src/action_dispatch/action_dispatch/safe_stop.py:177-193 | Two passes fill each position with the last target, else the mapped reading, else nothing |
| SafeStop.ConstructSafetyCommand | src/action_dispatch/action_dispatch/safe_stop.py:155-205 | Succeeds exactly when every hold position has a value; then one command per channel of its own length, zeros or, within their limits, the values to hold; otherwise the first channel with nothing to hold is the error |
| SafeStopTheorems.FlatPositionsAreDisjoint | src/action_dispatch/action_dispatch/safe_stop.py:181-186 | Positions of different channels never read the same entry of the last action |
| SafeStopTheorems.FlattenShape | src/action_dispatch/action_dispatch/safe_stop.py:155-205 | The commands together are as long as the contract |
| SafeStopTheorems.HoldRepublishesLastAction | src/action_dispatch/action_dispatch/safe_stop.py:176-204 | Holding a complete last action within its clamps publishes exactly that action |
| SafeStopTheorems.FallbackReadsOwnJoint | src/action_dispatch/action_dispatch/safe_stop.py:187-193 | A fallback value is what the sample reported for the joint that the channel names, in whatever order the sample listed its joints |
| SafeStopTheorems.NothingIsFabricated | src/action_dispatch/action_dispatch/safe_stop.py:194-204 | A held value comes from the last action or a valid reading, and respects its clamp |
| AdmissionVerdicts.CheckVerdict | src/action_dispatch/action_dispatch/policy_admission.py:307-323 | The reply to the first status read decides an acquire, if and only if: an owner whose own session runs in our mode succeeds at once; a healthy idle runtime not heard in our mode meanwhile is asked for it; everything else, including a late, empty or failing reply and an unavailable service, fails it and tells the caller so |
| AdmissionVerdicts.SwitchVerdict | src/action_dispatch/action_dispatch/policy_admission.py:325-334 | A timely accepted switch makes the client the owner and sends the verifying read; every other answer fails the acquire and tells the caller so |
| AdmissionVerdicts.VerifyVerdict | src/action_dispatch/action_dispatch/policy_admission.py:336-340 | A timely verifying status that is bound, healthy, unlatched and in our mode completes this acquire with success: owned, nothing pending, its caller and nobody else told true, no loss announced; every other one tells its caller false and leaves nothing owned |
| AdmissionVerdicts.SuccessMeansOwned | src/action_dispatch/action_dispatch/policy_admission.py:263-288 | Whenever a caller is told of a success, the client owned the mode before and owns it after, the step is the delivery of a status in our mode, and the caller is that of the pending acquire |
| AdmissionVerdicts.NotificationVerdict | src/action_dispatch/action_dispatch/policy_admission.py:218-252 | An observed status changes nothing but what was last heard if and only if the owner or attempt survives it; otherwise ownership is gone with notice, the acquire is told false, and a revoked owner neither stays armed nor starts again by itself |
| AdmissionVerdicts.FreeAcquireAsks | src/action_dispatch/action_dispatch/policy_admission.py:290-342 | An acquire with nothing open becomes the pending attempt under a fresh number and reads the status, remembering whether its own session already holds the mode; with no service it is told false at once |
| AdmissionVerdicts.OccupiedAcquireIsRefused | src/action_dispatch/action_dispatch/policy_admission.py:290-294 | An acquire that finds a rollback, an attempt or an unresolved switch changes nothing but that its caller is told false |
| AdmissionVerdicts.LostAttemptIsAnswered | src/action_dispatch/action_dispatch/policy_admission.py:373-386 | A cancel, or the timeout of this attempt, tells its caller false, leaves nothing owned or pending and announces exactly a loss |
| AdmissionVerdicts.ExpiredOwnerLosesMode | src/action_dispatch/action_dispatch/policy_admission.py:205-211 | The heartbeat check takes the mode from exactly an owner that heard nothing admissible in time, with one notice |
| AdmissionVerdicts.AutoStartVerdict | src/action_dispatch/action_dispatch/policy_admission.py:413-436 | While nothing is going on, an armed automatic start disarms on a latch or a foreign mode, acquires a healthy idle runtime once its interval has passed, and else waits |
| AdmissionVerdicts.AutoStartIsBounded | src/action_dispatch/action_dispatch/policy_admission.py:438-455 | Only arming arms, and an automatic start that is still armed after a failure has used fewer than ten attempts |
| AdmissionVerdicts.ArmingVerdict | src/action_dispatch/action_dispatch/policy_admission.py:388-411 | Arming and disarming change nothing else |
| AdmissionReturns.FailedAcquireGoesBack | src/action_dispatch/action_dispatch/policy_admission.py:254-288 | An acquire that asked for our mode and fails, by whatever reply, status, timeout or cancel, starts a return to idle: it waits for its own switch if that is still out, else reads the status at once, and where it cannot ask it ends unconfirmed |
| AdmissionReturns.AwaitedSwitchVerdict | src/action_dispatch/action_dispatch/policy_admission.py:571-580 | The answer to the awaited switch clears it and makes the rollback read the status |
| AdmissionReturns.RollbackStatusVerdict | src/action_dispatch/action_dispatch/policy_admission.py:593-619 | The rollback is confirmed by a bound status out of our mode, requests idle on one in our mode without a latch, and ends unconfirmed on anything else |
| AdmissionReturns.RollbackModeVerdict | src/action_dispatch/action_dispatch/policy_admission.py:621-643 | The rollback is confirmed exactly if the runtime accepted idle, and not if it ran out of time |
| AdmissionReturns.OwnerReleases | src/action_dispatch/action_dispatch/policy_admission.py:503-511 | A release of an owned mode with nothing pending gives up ownership and reads the status; with no service it ends unconfirmed |
| AdmissionReturns.OthersRelease | src/action_dispatch/action_dispatch/policy_admission.py:486-502 | Any other release fails the pending attempt first, then answers or waits exactly by what is left: a running rollback, an unanswered switch, a return it has to start, or a confirmed idle |
| AdmissionReturns.ReleaseCheckVerdict | src/action_dispatch/action_dispatch/policy_admission.py:466-484 | The release is confirmed by a bound status out of our mode, requests idle on one in our mode without a latch, and ends unconfirmed on anything else |
| AdmissionReturns.ReleaseIdleVerdict | src/action_dispatch/action_dispatch/policy_admission.py:479-484 | The release ends confirmed exactly if the runtime accepted idle in time |
| AdmissionReturns.LostReleaseIsUnconfirmed | src/action_dispatch/action_dispatch/policy_admission.py:521-526 | A release that times out or is canceled ends unconfirmed; a cancel with nothing pending only makes older callbacks stale |
| AdmissionProgress.UndisturbedAcquire | src/action_dispatch/action_dispatch/policy_admission.py:290-342 | From every reachable state with nothing open and a healthy idle runtime there is a run of seven events, starting with the acquire, at whose end the runtime is in our mode, the client owns it and exactly this caller was told true |
| AdmissionProgress.UndisturbedRelease | src/action_dispatch/action_dispatch/policy_admission.py:456-526 | From every reachable state in which the client owns the mode, the runtime is in it and no stop is latched there is a run of five events, starting with the release, at whose end the runtime is idle and the client has confirmed it |
| AdmissionProgress.LateSwitchIsUndone | src/action_dispatch/action_dispatch/policy_admission.py:538-580 | An acquire that times out with its switch out is told false; if the runtime makes the switch afterwards, six more events bring it back to idle, confirmed |
| ChunkPlanning.ChunkPlanValidIff | src/action_dispatch/action_dispatch/chunk_planning.py:66-88 | A plan is valid exactly if it is a finite nonempty matrix of the expected width with an interval inside it and no negative watermark; the error of any other names a defect it has |
| PlanRuns.TickIsHanded | src/action_dispatch/action_dispatch/active_plan.py:177-184 | Over runs: a tick is handed exactly the action it takes off the plan; from an empty plan it is handed what the latest tick was handed, and nothing if there was none |
| PlanRuns.TicksHandOutTheInterval | src/action_dispatch/action_dispatch/active_plan.py:177-184 | Between two replacements the actions that ticks are handed from the plan, in order, followed by what remains, are exactly the installed interval |
| PlanRuns.CandidateAcceptedIff | src/action_dispatch/action_dispatch/active_plan.py:68-103 | A store takes a valid candidate exactly if it has room for it or may drop its oldest actions, and a smoother exactly if the rows it would combine have one width; a refused one changes nothing |
| PlanRuns.ClearedAndToggled | src/action_dispatch/action_dispatch/active_plan.py:105-122 | Clearing discards plan, source, position, reservation and watermark; toggling touches a smoother only, and only its flag |
| PlanRuns.ReservationIsCurrentIff | src/action_dispatch/action_dispatch/active_plan.py:124-152 | A reservation stays current for exactly as long as no plan is installed or discarded and nothing is consumed |
| PlanRuns.CommitConsumesReserved | src/action_dispatch/action_dispatch/active_plan.py:154-175 | Committing it then consumes the action that was next when it was taken |
| EpisodeRuns.ResultOfNoStep | src/action_dispatch/action_dispatch/episode.py:970-986 | The result of a goal closed before any step: nothing published, no last step, and success, reward, ending and metrics reported as absent |
| EpisodeRuns.GoalAcceptedIff | src/action_dispatch/action_dispatch/episode.py:442-541 | A goal is accepted exactly in PREPARED, with the latest token and usable parameters; then it is the next generation, and the token is consumed |
| EpisodeRuns.AcceptedGoalIsKept | src/action_dispatch/action_dispatch/episode.py:508-541 | Until the next acceptance the limits are those of the accepted goal, and so are episode and prompt while it is active |
| EpisodeRuns.NextStepIsCommitted | src/action_dispatch/action_dispatch/episode.py:762-790 | Under an open gate exactly the next step of the accepted episode is committed, and judged by its own flags and the accepted limits; any other is a mismatch |
| EpisodeRuns.PhasesFollow | src/action_dispatch/action_dispatch/episode.py:397-914 | Which phase may follow which, through which call of which generation |
| EpisodeRuns.PhasesMove | src/action_dispatch/action_dispatch/episode.py:397-914 | Each call that is made in its phase and for its generation does move the machine on; a close leaves no token, prompt or timestamp |
| DispatchSafety.PendingIsNextAction | src/action_dispatch/action_dispatch/action_dispatcher_node.py:893-904 | In every reachable state: while the reservation of the pending submission stands, the submitted action is the next one of the plan |
| DispatchOutcomes.SubmissionVerdict | src/action_dispatch/action_dispatch/action_dispatcher_node.py:863-913 | An action is submitted exactly with the gate open, no inference out and one in the plan; then the plan's next action is pending under a reservation that stands and nothing is consumed yet; a refused submission aborts the goal as rejected |
| DispatchOutcomes.CompletionVerdict | src/action_dispatch/action_dispatch/action_dispatcher_node.py:941-1046 | A completion of the pending submission whose reservation stands and whose step is next is committed: its action leaves the plan, is the one that was submitted and becomes the last action, and the episode goes on or succeeds for the first reason that applies; a replaced plan means uncertain, a step out of sequence a wrong identity, and any other completion changes nothing |
| DispatchOutcomes.ImmediateVerdict | src/action_dispatch/action_dispatch/action_dispatcher_node.py:905-913 | The same for a completion that comes at once with its submission |
| DispatchOutcomes.FaultsAbort | src/action_dispatch/action_dispatch/action_dispatcher_node.py:1048-1064 | Every fault aborts the running goal with the reason of the table: failed, wrong identity, rejected, and uncertain for all others |
| DispatchOutcomes.ImmediateFaultAborts | src/action_dispatch/action_dispatch/action_dispatcher_node.py:905-913 | The same for a fault that comes at once with its submission |
| DispatchOutcomes.FailedInferenceVerdict | src/action_dispatch/action_dispatch/action_dispatcher_node.py:1156-1221 | A failed inference aborts its goal; one that was not ready does so exactly from the readiness deadline on, and before that only frees the slot |
| DispatchOutcomes.PredictionVerdict | src/action_dispatch/action_dispatch/action_dispatcher_node.py:1244-1287 | With a plain store: a prediction refills it with exactly the rest of its chunk after the actions consumed meanwhile, and starts the episode, if and only if it is usable and fits; otherwise the goal is aborted |
| DispatchOutcomes.RequestVerdict | src/action_dispatch/action_dispatch/action_dispatcher_node.py:688-749 | A request goes out exactly with the gate open and none out, and captures generations and plan length; refusal and expiry free the slot |
| DispatchOutcomes.CutOffRepliesAreInert | src/action_dispatch/action_dispatch/action_dispatcher_node.py:1093-1149 | The reply to a request that expired, or from before a revocation, a preparation, a reset or an unsuccessful ending, changes nothing at all |
| DispatchOutcomes.HandleVerdict | src/action_dispatch/action_dispatch/action_dispatcher_node.py:1846-1862 | The handle of the accepted goal opens the gate, and both deadlines and the readiness deadline run from then on |
| DispatchOutcomes.ReadinessVerdict | src/action_dispatch/action_dispatch/action_dispatcher_node.py:1018-1021 | The readiness deadline moves only by binding a handle or by a committed step that brings an observation, to one startup timeout from then |
| DispatchOutcomes.ReturnVerdict | src/action_dispatch/action_dispatch/action_dispatcher_node.py:1892-1918 | The execute callback takes its outcome once, removes its own context only, and gives up its own handle only |
| DispatchOutcomes.AcceptanceVerdict | src/action_dispatch/action_dispatch/action_dispatcher_node.py:1803-1825 | Preparations hand out the next token or none; a usable goal with that token is accepted as the next generation and waits for its own handle; no other is |
| DispatchOutcomes.ClearedVerdict | src/action_dispatch/action_dispatch/action_dispatcher_node.py:1642-1668 | Preparing and losing the runtime leave no plan, no action, no request and nothing pending |
| DispatchOutcomes.CancelAndResetEnd | src/action_dispatch/action_dispatch/action_dispatcher_node.py:1326-1362 | A cancel withdraws exactly a running goal; a reset aborts exactly an active one, and otherwise leaves nothing local |
| DispatchOutcomes.StartupDeadlineEnds | src/action_dispatch/action_dispatch/action_dispatcher_node.py:800-814 | Exactly a goal without its first inference at its startup deadline is aborted for that |
| DispatchOutcomes.DurationEnds | src/action_dispatch/action_dispatch/action_dispatcher_node.py:800-814 | Exactly a running goal that has had its time succeeds with that reason |
| DispatchOutcomes.OnlyTheseEnd | src/action_dispatch/action_dispatch/action_dispatcher_node.py:1941-1984 | No other event ends a goal; it is withdrawn exactly when canceled, and succeeds exactly for one of the five reasons of the priority list |
| DispatchOutcomes.EndedGoalHasItsOutcome | src/action_dispatch/action_dispatch/action_dispatcher_node.py:1991-2013 | Whatever ends a running goal leaves its final outcome waiting for its own execute callback in that same step |
| SessionProgress.OpenActivatesIff | src/action_dispatch/action_dispatch/scheduled_action_dispatcher_node.py:520-546 | An open that succeeds makes exactly its session active under exactly the granted generation, with nothing left to do, if and only if that session was never stopped, revoked, failed or closed since; otherwise its callback will close it |
| SessionProgress.ActivatedOpenFollowsUp | src/action_dispatch/action_dispatch/scheduled_action_dispatcher_node.py:470-495 | The callback of an open that activated its session neither closes nor fails anything, whenever it gets there |
| SessionProgress.FailedOpenVerdict | src/action_dispatch/action_dispatch/scheduled_action_dispatcher_node.py:470-546 | An open that did not start gives its session back; every other unsuccessful one, or one without a generation, will fail its session |
| SessionProgress.OpenBeginsIff | src/action_dispatch/action_dispatch/scheduled_action_dispatcher_node.py:430-442 | A session is opened exactly from waiting or stopped, under no generation yet |
| SessionProgress.FollowUpVerdict | src/action_dispatch/action_dispatch/scheduled_action_dispatcher_node.py:488-495 | A callback takes up the failure of its session if that is current, or sends the close of exactly its session unless that is being closed or gone |
| SessionProgress.FailureVerdict | src/action_dispatch/action_dispatch/scheduled_action_dispatcher_node.py:990-1018 | A failure of the current session is taken up at once, or waits in the mailbox while an operation runs; any other is void |
| SessionProgress.OperationBegins | src/action_dispatch/action_dispatch/scheduled_action_dispatcher_node.py:551-561 | One lifecycle operation at a time; a safe stop freezes the output unless it is stopped or failed already |
| SessionProgress.OperationOutcome | src/action_dispatch/action_dispatch/scheduled_action_dispatcher_node.py:605-648 | Whatever happens between its steps, an operation ends stopped exactly if it is no failure and its safe stop, close and release all succeeded, and then no session is left; otherwise it ends failed |
| SessionProgress.CloseVerdict | src/action_dispatch/action_dispatch/scheduled_action_dispatcher_node.py:1360-1370 | The answer to the close in progress ends it, and with success the session is gone; any other answer is void |
| SessionProgress.RevocationVerdict | src/action_dispatch/action_dispatch/scheduled_action_dispatcher_node.py:419-428 | A revocation stops a dispatcher without a session, and otherwise fails it and marks the session so that a late open will close it |
| SessionProgress.OperationRunsThrough | src/action_dispatch/action_dispatch/scheduled_action_dispatcher_node.py:605-648 | From every state with an open session and a free lock, a stop or restart can run through; it sends exactly one close, of that session under its generation, and ends as its three halves say |
| SessionProgress.FailureRunsThrough | src/action_dispatch/action_dispatch/scheduled_action_dispatcher_node.py:1020-1042 | A failed request of an active session runs through to failed, with exactly that session closed |
| SessionProgress.StopWithoutSession | src/action_dispatch/action_dispatch/scheduled_action_dispatcher_node.py:605-619 | A stop without a session sends no close and ends by its safe stop and release alone |
| SessionProgress.StopWhileOpening | src/action_dispatch/action_dispatch/scheduled_action_dispatcher_node.py:1372-1395 | A stop that finds the open still out waits for it, the callback closes the session under the generation it was granted, and the stop ends by that close |
| ScheduledProgress.RequestVerdict | src/action_dispatch/action_dispatch/scheduled_action_dispatcher_node.py:741-768 | Exactly an active dispatcher with nothing in flight starts a request, with its deadline one timeout away and its count at zero |
| ScheduledProgress.RetryVerdict | src/action_dispatch/action_dispatch/scheduled_action_dispatcher_node.py:741-783 | A retry takes the place of the request in flight with the same deadline, observation time and count, or fails the session once the deadline has passed; of any other request it is void |
| ScheduledProgress.RefusalVerdict | src/action_dispatch/action_dispatch/scheduled_action_dispatcher_node.py:894-928 | A retryable refusal below the limit leaves session, request and plans as they are and sets the retry timer; every other refusal or failure of the expected request fails its session |
| ScheduledProgress.ChunkVerdict | src/action_dispatch/action_dispatch/scheduled_action_dispatcher_node.py:1044-1099 | The expected chunk is taken if and only if its size, width, horizon and values are right and the store in use can take what is still to be executed of it, which is then the plan; otherwise the session fails and no plan changes |
| ScheduledProgress.TickVerdict | src/action_dispatch/action_dispatch/scheduled_action_dispatcher_node.py:1161-1201 | A tick of an active dispatcher executes exactly the action it takes off the store in use, holds the last one when that is empty, and leaves the other store alone |
| ScheduledProgress.ToggleVerdict | src/action_dispatch/action_dispatch/scheduled_action_dispatcher_node.py:674-713 | Toggling changes the store in use, empties the smoother when it is switched off, and keeps everything else and the count of executed actions |
| ScheduledProgress.NothingIsLeft | src/action_dispatch/action_dispatch/scheduled_action_dispatcher_node.py:1148-1159 | Opening, freezing, closing and losing the runtime leave no request and no plan in either store; which of them keep the last action |
| ScheduledProgress.RestartForgets | src/action_dispatch/action_dispatch/scheduled_action_dispatcher_node.py:633-637 | A restart forgets every result, plan and last action; a stop or failure that ends changes none of it |
| ScheduledProgress.OwnCloseDiscards | src/action_dispatch/action_dispatch/scheduled_action_dispatcher_node.py:1304-1321 | The close by an open's own callback discards the work exactly if its session is the current one |
| ScheduledProgress.ReceivedAreOver | src/action_dispatch/action_dispatch/scheduled_action_dispatcher_node.py:1077-1099 | In every reachable state no chunk of the request in flight was taken yet |
| AeroHandRuns.DirectWritePassesIff | src/aero_hand_hardware/aero_hand_hardware/aero_hand_driver.py:129-175 | A direct write passes its check if and only if it is the safe pose and the stop is latched, or any other write and it is not |
| AeroHandRuns.SafePoseOnlyWhileLatched | src/aero_hand_hardware/aero_hand_hardware/aero_hand_driver.py:129-175 | For every interleaving: the safe pose is being written only while the stop is latched |
| AeroHandRuns.StopVerdict | src/aero_hand_hardware/aero_hand_hardware/aero_hand_driver.py:177-194 | Setting the stop latches it and empties the queue; releasing it only unlatches |
| AeroHandRuns.QueueAcceptedIff | src/aero_hand_hardware/aero_hand_hardware/aero_hand_driver.py:129-175 | Queueing is refused exactly while latched and not asked for the safe pose, and then changes nothing |
| AeroHandRuns.NewestIsTaken | src/aero_hand_hardware/aero_hand_hardware/aero_hand_driver.py:238-242 | For every interleaving: the I/O thread takes the command queued last, or none if the stop is latched by then |
| AeroHandRuns.ReplacedCommandIsNeverWritten | src/aero_hand_hardware/aero_hand_hardware/aero_hand_driver.py:129-175 | A queued command that a newer one replaces is never written |
| SafeStopTheorems.CommandIsNearestPoint | src/action_dispatch/action_dispatch/safe_stop.py:176-204 | The command of a hold position is the one point within its limits nearest to its entry of the last action, or to the reading of its joint if that is missing: the lower limit below, the upper limit above, else the value itself |
| SafeStopTheorems.ConstructibleIff | src/action_dispatch/action_dispatch/safe_stop.py:176-199 | A channel can be commanded exactly if it is zeroed or each of its positions has an entry of the last action or a reading to hold |
| SafeStopTheorems.DeclaredBehavior | src/action_dispatch/action_dispatch/safe_stop.py:227-231 | In any case of letters, zeros or nothing means zeroed and hold means held; any other word is unknown |
| SafeStopTheorems.ParseDecimal | src/action_dispatch/action_dispatch/safe_stop.py:263-269 | The number of a joint name is read in decimal |
| SafeStopTheorems.ParsePadded | src/action_dispatch/action_dispatch/safe_stop.py:263-269 | Zeros in front of it do not matter |
| SafeStopTheorems.NamesOfJoints | src/action_dispatch/action_dispatch/safe_stop.py:253-269 | A joint is named by its own name, at its first place, or as action.N by its number if no joint has that very name and there are that many; no other name is one |

## Left out

- ROS plumbing, parameters, tracing, logging, statistics and timing metadata: no state that the properties depend on.
- Torch devices, dtypes, broadcasting of width-one rows and float rounding: actions are sequences of reals. A chunk carries one flag for "all entries are finite", and a sum of finite numbers is finite.
- The separate tensor that a caller may pass beside a candidate, with its shape check (active_plan.py:86-88): the model smooths the candidate itself.
- A smoothed plan that is absent and one that is empty are the same empty plan.
- A reservation is compared by its contents instead of by object identity. Revision and consumption never repeat together, so that the two agree.
- Schedulers, executors, the tensor codec and the SDK transport: they appear only as what they may answer. The scheduler's fault latch and the executor's invalidation have no effect in the model, which only allows more behaviour.
- The contexts that match a policy reset to its preparation (action_dispatcher_node.py:1674-1797): a preparation may succeed or fail at any time while it is under way.
- The episode methods without a generation (`accept_goal`, `commit_step`, `close_terminal`, `close_faulted` and their kin): they skip the checks that the invariants rest on.
- The continuous mode of the first dispatcher: its plan store, planner and smoother are covered, and its runs are those of SmoothingRuns.
- Deciding when to replenish the plan (the watermark rule): requests may be sent at any time, so the theorems do not depend on it.
- A request timeout that is not positive, in the scheduled dispatcher: a fresh request is then expired before it is sent.
- Shutdown of the scheduled dispatcher, the one path on which the lifecycle lock is entered again by the thread that holds it.
- Back-off delays between retries, and the readiness poll's own deadline: time only decides when an event happens.
- `AeroHandDriver.disconnect` and reconnecting: it latches without the port lock and joins with a timeout. Reading joint state appears only as a user of the port.
- A finite check on commanded joint positions: they are reals.
- Publishing safety commands and their order, and the freshness of the joint sample: the model ends at the constructed commands, and a stale sample is an invalid one.
- Lower-casing a declared behaviour and recognising digits are modelled for ASCII.
- Liveness: undisturbed runs are shown to reach their goals, but nothing is claimed about how soon a rollback, a close or a retry happens.
