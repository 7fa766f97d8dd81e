# CarbonScaler: what the planner, the cursor, the trace service and the controller guarantee

This project models the decision-making core of CarbonScaler and proves properties of it.

- **Planner** (`Profiles`, `Planner`, `PlannerInvariants`, `PlannerResults`, `Pricing`, `Optimality`,
  `Waypoints`, `ExactRanking`, `ExactMinimality`, `ExactFailures`, `Limits`, `PlannerLoop`). A planning call ranks every (node count,
  slot) pair by marginal throughput per unit of carbon, sorts the pairs, and repeatedly applies and
  deletes the first pair that extends the schedule until the remaining work is covered. `Planner` gives
  this as a function of the sorted order; since `sort.Slice` is unstable, every lemma holds for every
  descending order of the candidates. `PlannerLoop` is the loop itself, over an array that is sorted in
  place and from which each pass deletes in place, proved to compute that function. `Pricing` shows that
  the loop keeps a price between the pairs applied and the pairs left, which the optimality results need;
  `Waypoints` shows which schedules a plan must pass through, which the counterexamples need.
- **Autoscaler** (`Cursor`, `Scaler`). `Scaler.CarbonScaler` is the object with its two maps; each method
  is proved to make one transition of the state machine in `Cursor`, and `Cursor` proves what holds over
  every run of calls, on any number of jobs.
- **Trace service** (`CarbonService`). Circular windows over the trace, the percentile, and the index that
  sleeps advance and clients reset.
- **Controller** (`Decimal`, `Reconciler`, `Controller`). `Reconciler` has one reconcile pass as a function
  of the cluster state, and runs of passes over any number of jobs; `Controller` has the object that
  performs a pass, and the scheduling of all unfinished jobs on each push.
- **All of it together** (`Alignment`). One push is one status update and one scheduling call per job, so
  the trace index and the cursor move in step.

## The main results

1. **When the summary's promise holds** (`ExactMinimality.MinimalIffEven`). The repository's README.md:5
   calls the policy greedy-optimal, yielding the minimum carbon footprint. The code does not always
   achieve the second half: the last raise can overshoot the demand (`ExactMinimality.PromiseFails` gives
   the forecast, the demand and the cheaper schedule). For a profile with positive marginals whose returns
   diminish from MinReplicas on, the plan is carbon-minimal for every forecast, every demand and every
   order of ties if and only if the profile is *even*: scaling is off, or every further node adds exactly
   the throughput that MinReplicas nodes have together and the first step is ranked by its true worth. That
   is a condition on the profile alone. Whatever the returns, a last node that adds less than MinReplicas
   nodes do refutes the promise (`ExactMinimality.Overshoot`), so both shipped profiles meet it only with
   scaling off (`Limits.Nbody100kIsNotAlwaysMinimal`, `Limits.Nbody10kIsNotAlwaysMinimal`).
2. **When the policy is greedy-optimal** (`ExactRanking.GreedyOptimalIffFair`). If returns diminish from
   MinReplicas on, each of the following holds for every forecast, demand and order of ties if and only if
   scaling is off or the last of the MinReplicas nodes has exactly the throughput per power of all of them,
   as it has when MinReplicas is 1: the plan has the least carbon of all schedules that do its work; and
   without its last raise it emits strictly less than any schedule that meets the demand. A first step
   ranked too low fails, and so does one ranked too high (`ExactRanking.UnderrankedIsRefuted`,
   `ExactRanking.OverrankedIsRefuted`); `ExactRanking.LeastFails`, `ExactRanking.LeastFailsToo` and
   `ExactRanking.WithinFails` are inputs.
   Under the same condition the optimality gap holds at every pass (`Optimality.OptimalityGap`): a greedy
   schedule exceeds the carbon of any other by at most the extra work divided by the work per carbon of the
   pass. Diminishing returns cannot be dropped (`Limits.GapNeedsDiminishingReturns`). For the two shipped
   profiles the question is settled at every pair of limits within the rows, with or without diminishing
   returns: with scaling, `nbody100k` is greedy-optimal exactly from one node (`Limits.Nbody100kGreedyOptimal`), and
   `nbody10k` exactly from one node to at most four (`Limits.Nbody10kGreedyOptimal`).
3. **Failures are exact, and plans grow with demand** (`PlannerResults.FailsIffInfeasible`,
   `PlannerResults.PlanGrowsWithDemand`), for any order the sort may return and without any assumption on
   returns, if MinReplicas is at least 1 and, for the first, throughput does not fall with the node count.
   For loaded rows that is exactly when "Deadline too tight" can be relied on (`ExactFailures.ExactIffWithinRows`): from
   MinReplicas 0, or with a node limit beyond the rows, the planner can give up on a demand it could meet
   (`Limits.SevenOfEightFails`).
4. **What a call decides, and the cursor over every run** (`Cursor.CallIsDecided`, `Cursor.CursorRun`,
   `Cursor.DeadlineIsMet`), in the job's own terms: its deadline, limits and progress, the columns of its
   profile file, and the length of a slot.
5. **Planned carbon is realised carbon** (`Alignment.PlannedIsRealised`, `Alignment.RealisedIsLeast`), from
   the served push that plans a job (`Alignment.ServedPushPlansJob`) down to the worker count of the MPI job
   (`Alignment.PassRunsThePlan`).
6. **Every run converges, and launchers restart per namespace** (`Reconciler.RunConverges`,
   `Reconciler.RunDeletes`). Over any number of jobs, with jobs created and removed, specifications written
   and statuses reported between the passes, an MPI job always matches the last pass on its own job, keeps
   the variables it was created with, and is mirrored in the job's conditions (`Reconciler.RunKeepsVariables`,
   `Reconciler.RunMirrors`). Worker pods survive (`Reconciler.WorkersSurvive`). A launcher pod, though, is deleted once for every rescaling of any job in its namespace, because a restart
   deletes every pod there with "launcher" in its name. So over any run a job's launcher is deleted for the
   job's own rescalings only, exactly if no other job of its namespace is rescaled while the launcher is
   there (`Reconciler.UndisturbedIffAlone`); `Reconciler.NeighbourIsDisturbed` is a run of two jobs in which
   the one that never changes loses its launcher.

Reals stand for the source's floats. `Sound` collects what the optimality results assume: MinReplicas at
least 1, a positive slot length, positive intensities up to the deadline, and a profile whose row 0 is
zero and whose rows gain throughput and power; `PlannerResults.LoadedIsGood` shows that loading
consecutive increasing rows gives such a profile. `WellFormed` is the part of it that the ranking needs, no
division by zero, and `Regular` the part that the loop needs, MinReplicas at least 1 and a forecast that
reaches the deadline. The autoscaler and its planner are modelled without either but for the forecast, which
the source would index past its end. Where a value is not a number, the order the sort returns is arbitrary;
what is proved of `Regular` inputs holds for any order.

## Model

| member | source | states |
|---|---|---|
| Profiles.LoadProfile | src/controllers/profiles.go:52-73 | The loop over the parsed rows builds the map whose entry for a row is taken against the row before it |
| Profiles.LoadedIsLastRow | src/controllers/profiles.go:54-71 | A node count maps to the last row that lists it, with the gains of that row over the row before it in the file as its marginals |
| Profiles.LoadedOnlyRows | src/controllers/profiles.go:54-71 | The map holds no other node counts |
| Profiles.MarginalsSumBack | src/controllers/profiles.go:60-69 | For consecutive rows the marginals up to row n add up to the throughput and the power of row n |
| PlannerResults.LoadedIsGood | src/controllers/profiles.go:52-72 | Consecutive increasing rows load to a profile with positive marginals that are differences of neighbours |
| PlannerInvariants.CandidatesOnce | src/controllers/carbon_scaler.go:100-109 | From MinReplicas 1, the list built holds every pair of a node count and a slot exactly once |
| PlannerInvariants.CandidatesCount | src/controllers/carbon_scaler.go:100-109 | It has one entry per slot and allowed node count |
| PlannerInvariants.ReachInv | src/controllers/carbon_scaler.go:120-142 | From MinReplicas 1 and for any order, at every pass the list is, each once, exactly the pairs above the schedule, in descending order if every value is a number; every entry is 0 or within the limits; one pair goes per pass |
| PlannerInvariants.ReachWithin | src/controllers/carbon_scaler.go:100-142 | At every pass, and for any order whatever, every entry is 0 or within the limits and the list stays within them |
| PlannerInvariants.StuckMeansEmpty | src/controllers/carbon_scaler.go:133-136 | From MinReplicas 1 and for any order, no pair applies only when every slot is at the top and the list is empty |
| PlannerInvariants.ScanIsBestRaise | src/controllers/carbon_scaler.go:121-138 | Scanning the sorted list and deleting the hit is the rule "raise the slot whose next level has the greatest value", for any tie order |
| Planner.PlanStops | src/controllers/carbon_scaler.go:119-142 | A plan is the state of the first pass that does the target work, and a failure is a pass with nothing left to apply |
| PlannerResults.PassBound | src/controllers/carbon_scaler.go:120-142 | From MinReplicas 1 and for any order, the loop ends within one pass per candidate |
| PlannerResults.WorkIsTotalGain | src/controllers/carbon_scaler.go:141-157 | Counting the whole schedule again equals the sum of what the passes added: MinReplicas' throughput per opened slot, one marginal per later pick |
| PlannerResults.PlanIsSound | src/controllers/carbon_scaler.go:119-148 | A plan is feasible and does the work; with nothing to do it is idle, otherwise some slot taken one raise down would fall short |
| PlannerResults.PlanDoesTheWork | src/controllers/carbon_scaler.go:119-148 | For any order whatever, a plan does the target work |
| PlannerResults.FailsIffInfeasible | src/controllers/carbon_scaler.go:115-136 | From MinReplicas 1, with throughput that does not fall and for any order, planning fails exactly when no schedule within the limits does the work |
| PlannerResults.PlanGrowsWithDemand | src/controllers/carbon_scaler.go:116-142 | From MinReplicas 1 and for any order, more work never gives a slot fewer nodes and never turns a failure into a success |
| PlannerResults.GreenerSlotsFirst | src/controllers/carbon_scaler.go:100-138 | At every pass a slot with a lower intensity has at least as many nodes |
| Pricing.ReachThreshold | src/controllers/carbon_scaler.go:111-138 | With diminishing returns every applied pair is worth at least as much as every pair left, at every pass and for any tie order |
| Pricing.PicksFall | src/controllers/carbon_scaler.go:120-138 | With diminishing returns successive picks never gain in value |
| Optimality.OneNodeIsFair | src/controllers/carbon_scaler.go:102-104 | With diminishing returns, MinReplicas 1 is always ranked fairly |
| Optimality.OptimalityGap | src/controllers/carbon_scaler.go:99-142 | With a fair ranking, before and after every pass the carbon above any other schedule is at most the extra work divided by the work per carbon of the pass, which is the value of its pick where there is scaling |
| Optimality.LeastCarbonForItsWork | README.md:5 | With a fair ranking (scaling off, or returns diminishing from MinReplicas on and a first step worth as much as its last node) no schedule that does the plan's work emits less |
| Optimality.WithinOneRaise | README.md:5 | With a fair ranking, the plan without its last raise emits strictly less than any schedule that meets the demand, and that raise costs the power it adds times the slot's intensity |
| Waypoints.ReachOnTheWay | src/controllers/carbon_scaler.go:121-138 | If no raise just beyond a schedule stands in the order before one it has taken in another slot, every pass is below that schedule or above it |
| Waypoints.PlanIsWaypoint | src/controllers/carbon_scaler.go:119-142 | The plan for exactly the work of such a schedule is that schedule |
| Waypoints.PlanIsNextRaise | src/controllers/carbon_scaler.go:119-142 | The plan for a demand just above its work is that schedule with one raise |
| Waypoints.StrictIsFavoured | src/controllers/carbon_scaler.go:111-138 | A schedule that takes only pairs worth more than a price, and whose next raises are worth at most that, is one in every sorted order |
| Waypoints.FittingOrder | src/controllers/carbon_scaler.go:111-113 | If what it takes is worth at least the price, some order of the ties makes it one |
| ExactRanking.GreedyOptimalIffFair | README.md:5 | If returns diminish from MinReplicas on, the plan is always the least for its work, and always within one raise of the least for the demand, if and only if scaling is off or the first step is ranked by its worth |
| ExactRanking.UnderrankedIsRefuted | README.md:5 | Whatever the returns, a first step worth more than the last node, at an intensity at which every level is taken before it, has a forecast and a demand on which both claims fail |
| ExactRanking.OverrankedIsRefuted | README.md:5 | A first step worth less than the last node, at an intensity at which it is taken before that, has a forecast, a demand and an order of ties on which both claims fail |
| ExactRanking.UnfairIsRefuted | README.md:5 | If returns diminish from MinReplicas on, every first step not ranked by its worth is one or the other |
| ExactRanking.LeastFails | README.md:5 | For a concrete profile with MinReplicas 2 the plan emits 9 for 18 units of work where another schedule does 24 units with 7.5 |
| ExactRanking.LeastFailsToo | README.md:5 | With a first step ranked too high the plan emits 23.1 for 22 units of work where another schedule does 23 units with 12.5 |
| ExactRanking.WithinFails | README.md:5 | For a concrete profile and eleven slots the plan without its last raise emits 29 where a schedule that meets the demand emits 24 |
| ExactMinimality.FewestSteps | src/controllers/carbon_scaler.go:119-142 | With steps of equal work, the plan takes the fewest that cover the demand |
| ExactMinimality.NoScalingIsExact | README.md:157 | With MinReplicas equal to the node limit the plan has the fewest active slots and the least carbon of all schedules that cover the demand, for any positive profile |
| ExactMinimality.NoScalingIsMinimal | README.md:157 | With scaling off the plan is carbon-minimal for every forecast, demand and tie order, whatever the profile |
| ExactMinimality.EvenIsMinimal | README.md:5 | An even profile that is ranked fairly, so with returns diminishing from MinReplicas on unless scaling is off, makes the plan carbon-minimal for every forecast, demand and tie order |
| ExactMinimality.PlanFirstSlot | src/controllers/carbon_scaler.go:119-142 | Over two slots, a demand that level j of the favoured slot just covers is planned there alone |
| ExactMinimality.PlanSecondSlot | src/controllers/carbon_scaler.go:119-142 | A demand just above what the full first slot does opens the other one at MinReplicas |
| ExactMinimality.Overtake | src/controllers/carbon_scaler.go:99-142 | A level worth at least as much as opening the other slot, though opening it would do for less carbon, refutes minimality |
| ExactMinimality.Overshoot | src/controllers/carbon_scaler.go:119-142 | A last node that adds less than MinReplicas nodes refutes minimality, whatever the returns: the last raise overshoots |
| ExactMinimality.MinimalIsLeast | README.md:5 | A plan that is minimal for every demand is the least for the work it does |
| ExactMinimality.MinimalIffEven | README.md:5 | For a profile with returns diminishing from MinReplicas on, the promise of the minimum footprint holds for every forecast, demand and tie order if and only if the profile is even |
| ExactMinimality.PromiseFails | README.md:5 | For a concrete profile, forecast and demand the plan emits 5 where a schedule that does exactly the demand emits 4 |
| ExactFailures.ExactIffWithinRows | src/controllers/carbon_scaler.go:115-136 | For consecutive, increasing rows, two slots or more and limits that admit some throughput, planning fails exactly when no schedule does the work, for every demand and order, if and only if MinReplicas is at least 1 and the node limit stays within the rows |
| ExactFailures.SlotBySlotFails | src/controllers/carbon_scaler.go:120-136 | Otherwise some order gives up on the work of a full schedule at the best level |
| Limits.DiminishingInRows | src/controllers/profiles.go:52-72 | Diminishing returns of a loaded profile can be read off its rows, in both directions |
| Limits.Nbody100kIsDiminishing | src/profiles/nbody100k.csv:1-9 | The shipped 100k profile is good and has diminishing returns |
| Limits.Nbody100kIsNotAlwaysMinimal | src/profiles/nbody100k.csv:1-9 | On it the plan is always minimal exactly when scaling is off |
| Limits.Nbody100kGreedyOptimal | src/profiles/nbody100k.csv:1-9 | On it the policy is greedy-optimal exactly when scaling is off or MinReplicas is 1 |
| Limits.Nbody10kIsDiminishingButForFour | src/profiles/nbody10k.csv:1-9 | The returns of the shipped 10k profile diminish everywhere but from the fourth node to the fifth |
| Limits.Nbody10kIsNotAlwaysMinimal | src/profiles/nbody10k.csv:1-9 | On it, too, the plan is always minimal exactly when scaling is off, at every node limit |
| Limits.Nbody10kGreedyOptimal | src/profiles/nbody10k.csv:1-9 | On it the policy is greedy-optimal exactly when scaling is off, or MinReplicas is 1 and the node limit at most 4 |
| Limits.Nbody10kRiseCosts | src/profiles/nbody10k.csv:1-9 | From one node with a limit above four, cheap slots stop at three nodes while slots 2.61 times as dear open, though five nodes in the cheap ones do more work with less carbon |
| Limits.GapNeedsDiminishingReturns | src/controllers/carbon_scaler.go:99-142 | On an even profile without diminishing returns the plan emits 13 where another schedule does the same work with 12 |
| Limits.WellFormedIffWithinRows | src/controllers/profiles.go:60-69 | Every candidate has a number as its value exactly when MinReplicas is at least 1 and the node limit stays within the rows |
| Limits.EightNodesAreTooMany | src/main.go:116 | With the cluster size of 8 and a shipped profile, MaxReplicas of 8 or more ranks some candidate by 0/0 |
| Limits.SevenOfEightFails | src/main.go:116 | With MinReplicas 7, MaxReplicas 8, two slots and the shipped 10k profile, some order gives up though seven nodes in both slots do the work |
| PlannerLoop.BuildCandidates | src/controllers/carbon_scaler.go:95-109 | The nested loops append exactly the candidate list |
| PlannerLoop.SortDescending | src/controllers/carbon_scaler.go:111-113 | An in-place sort leaves a descending permutation |
| PlannerLoop.ScanAndApply | src/controllers/carbon_scaler.go:121-132 | The scan writes the first pair that applies into the schedule and returns its index, or -1 and changes nothing |
| PlannerLoop.RemoveAt | src/controllers/carbon_scaler.go:138 | Deletion moves the later pairs down by one and keeps the others |
| PlannerLoop.ComputeDone | src/controllers/carbon_scaler.go:151-157 | The loop over the schedule adds up its work |
| PlannerLoop.ComputePlan | src/controllers/carbon_scaler.go:95-148 | Build, sort and loop compute the plan for the order the sort returned, or fail |
| Scaler.CarbonScaler.constructor | src/controllers/interfaces.go:51-60 | A new scaler has no schedules |
| Scaler.CarbonScaler.UpdateCarbonStatus | src/controllers/carbon_scaler.go:47-53 | The status is replaced and nothing else changes |
| Scaler.CarbonScaler.GetReplicas | src/controllers/carbon_scaler.go:55-66 | The entry under the job's cursor, or 0 without a schedule |
| Scaler.CarbonScaler.ComputeSchedule | src/controllers/carbon_scaler.go:68-149 | The first call plans or fails without effect; later ones advance the cursor or fall back to MinReplicas; every call is a transition of the state machine |
| Cursor.StepReadable | src/controllers/carbon_scaler.go:55-66 | Reading the cursor stays in range exactly unless a call plans a finished job with deadline 0 |
| Cursor.PathConsistent | src/controllers/carbon_scaler.go:75-81 | Over every run both maps have the same jobs and every index lies inside its schedule |
| Cursor.ScheduledIffSucceeded | src/controllers/carbon_scaler.go:55-92 | Over any run a job has a schedule exactly if it had one or one of its scheduling calls succeeded; until then every read gives 0 |
| Cursor.Isolation | src/controllers/carbon_scaler.go:68-149 | No run of updates, reads and calls for other jobs changes a job's schedule or cursor |
| Cursor.CursorRun | src/controllers/carbon_scaler.go:55-84 | After any run, k scheduling calls past the planning one, the cursor reads plan[k] before the deadline and the latest MinReplicas from then on |
| Cursor.FirstCallPlans | src/controllers/carbon_scaler.go:115-148 | A successful first call stores the plan for its inputs with the cursor at the start |
| Cursor.StoredPlanWorks | src/controllers/carbon_scaler.go:94-148 | A stored plan has one entry per slot to the deadline, each 0 or between MinReplicas and both MaxReplicas and the cluster size, and by the throughput column of the file it does (1 - progress/100) of the job in slots of the scaler's length |
| Cursor.CallIsDecided | src/controllers/carbon_scaler.go:68-148 | Only a first call can fail: for want of the profile file, or, from MinReplicas 1 and with throughput that does not fall, as too tight exactly when no schedule within the job's limits does its remaining work by the file; a stored plan does |
| Cursor.DeadlineIsMet | src/controllers/carbon_scaler.go:116-157 | Over any run, once the job has started as many slots as its deadline it has done (1 - progress/100) of its size by the throughput column of the file, and later slots only add |
| Cursor.TooTightIffInfeasible | src/controllers/carbon_scaler.go:94-136 | The too-tight half of `Cursor.CallIsDecided`, for any order the sort may return |
| Cursor.PlanFallsWithProgress | src/controllers/carbon_scaler.go:116-142 | More progress or a smaller job gives no slot more nodes |
| CarbonService.PredictIsCircular | carbon_service/carbon_service.py:154-171 | The forecast has min(window, 2N - index) entries and entry k is the trace k steps ahead around the circle |
| CarbonService.PredictShifts | carbon_service/carbon_service.py:132-171 | Advancing the index by one shifts the forecast left by one |
| CarbonService.PastIsCircular | carbon_service/carbon_service.py:190-199 | The percentile window is exactly the preceding entries around the circle |
| CarbonService.CountIsCardinality | carbon_service/carbon_service.py:201 | The mean of the comparison counts the positions of the window that are at most the current intensity |
| CarbonService.PercentileIsProportion | carbon_service/carbon_service.py:190-201 | The percentile lies in [0, 1] and is 1 exactly when no past entry is higher |
| CarbonService.IndexInRange | carbon_service/carbon_service.py:112-184 | Over any run of pushes, sleeps and requests the index stays in the trace |
| CarbonService.RejectedIsIgnored | carbon_service/carbon_service.py:176-184 | Removing a rejected request from a run changes nothing later |
| CarbonService.NextPush | carbon_service/carbon_service.py:112-132 | The next push is for the last index set since the previous one, without an extra advance; otherwise for the next index, or the same one when a reset came too late for the sleep before |
| CarbonService.WalksTheCircle | carbon_service/carbon_service.py:129-132 | Without resets the index advances by one modulo N per sleep |
| CarbonService.CarbonAgent.SendUpdate | carbon_service/carbon_service.py:134-201 | A push sends the trace at the index, the trace ahead of it around the circle, and the share of the entries behind it that are at most as high |
| CarbonService.CarbonAgent.EndSleep | carbon_service/carbon_service.py:129-132 | The end of the sleep clears a pending reset or advances the index |
| CarbonService.CarbonAgent.SetTraceIdx | carbon_service/carbon_service.py:176-184 | An index inside the trace is set and marks a reset; any other is refused without effect |
| Alignment.ReportIsStatus | src/controllers/carbon_webhook.go:122-133 | The status the autoscaler gets is the intensity and the forecast of the report |
| Decimal.RoundTrip | src/controllers/carbonscalermpijob_controller.go:117-119 | Writing a 64-bit count into an environment value and reading it back gives the same count |
| Decimal.AtoiReads | src/controllers/carbonscalermpijob_controller.go:117-119 | Digits with or without a sign read as the number they write in decimal, or as the nearest 64-bit integer |
| Decimal.AtoiRejects | src/controllers/carbonscalermpijob_controller.go:117-119 | Anything else reads as 0, unless the digits before the bad character are already too many |
| Decimal.ItoaIsDecimal | src/controllers/carbonscalermpijob_controller.go:119 | A number is written in decimal, without leading zeros and with a sign only if negative |
| Controller.Cluster.RewriteWorkers | src/controllers/carbonscalermpijob_controller.go:178-186 | The loop rewrites exactly the WORKERS variables that read as another number, and reports whether there was one |
| Controller.Cluster.Reconcile | src/controllers/carbonscalermpijob_controller.go:78-222 | A pass makes the cluster the specified function of its state, the pods and the autoscaler's answer: create, update, delete, launcher restart and status |
| Controller.Cluster.DeleteLauncher | src/controllers/carbonscalermpijob_controller.go:281-301 | Among all pods of the namespace exactly those with "launcher" in their name are deleted |
| Controller.Cluster.UpdateJobStatus | src/controllers/carbonscalermpijob_controller.go:250-278 | Paused when stopped, undefined when the MPI job has no conditions, and otherwise its kinds of condition in order, all recorded as true |
| Reconciler.ActiveIffNotEnded | src/controllers/carbonscalermpijob_controller.go:91 | A job is left alone exactly once a true condition Succeeded or Failed is recorded |
| Reconciler.PassConverges | src/controllers/carbonscalermpijob_controller.go:96-191 | After one pass the MPI job exists exactly when the count is not 0, and its workers and every WORKERS variable equal the count; other MPI jobs are untouched |
| Reconciler.PassKeeps | src/controllers/carbonscalermpijob_controller.go:131-191 | A new MPI job has the variables of its job in their places, one launcher and the condition Created; one there is keeps its variables but for WORKERS, its launchers and its conditions |
| Reconciler.PassKeepsJobs | src/controllers/carbonscalermpijob_controller.go:78-222 | Every job keeps its UID and specification, other jobs keep everything, and a finished or missing job changes nothing |
| Reconciler.ConvergedIsStable | src/controllers/carbonscalermpijob_controller.go:126-208 | A second pass with the same count changes no MPI job and deletes no pod |
| Reconciler.StatusIsMirrored | src/controllers/carbonscalermpijob_controller.go:250-278 | After a pass a stopped job is Paused, one whose MPI job has no conditions is Undefined, and any other has the kinds of all the conditions of its MPI job in order; all of them true |
| Reconciler.FinishIsMirrored | src/controllers/carbonscalermpijob_controller.go:250-278 | A running job finishes exactly when its MPI job has a condition Succeeded or Failed, and a finished one is never touched again |
| Reconciler.RunConverges | src/controllers/carbonscalermpijob_controller.go:78-222 | Over any run of passes, creations, removals, writes and status reports on any number of jobs, every MPI job matches the last pass that acted on its job since it was created |
| Reconciler.RunKeepsVariables | src/controllers/carbonscalermpijob_controller.go:131-191 | Over any run an MPI job has the variables of its job at the pass that created it, but for WORKERS |
| Reconciler.RunMirrors | src/controllers/carbonscalermpijob_controller.go:250-278 | Over any run a job's conditions are those its MPI job had at the last pass that acted on it |
| Reconciler.RunDeletes | src/controllers/carbonscalermpijob_controller.go:176-208 | Over any such run, a pod is deleted once for every rescaling of any job of its namespace, while it is there with "launcher" in its name |
| Reconciler.OthersSurvive | src/controllers/carbonscalermpijob_controller.go:281-301 | No run deletes a pod without "launcher" in its name |
| Reconciler.WorkersSurvive | src/controllers/carbonscalermpijob_controller.go:281-301 | No run deletes a worker pod of a job without "launcher" in its name |
| Reconciler.RescalingDeletes | src/controllers/carbonscalermpijob_controller.go:176-208 | A pass that rescales a job deletes every pod there of its namespace with "launcher" in its name |
| Reconciler.UndisturbedIffAlone | src/controllers/carbonscalermpijob_controller.go:281-301 | Over any run, a job's launcher is deleted for the job's own rescalings only, exactly if no other job of its namespace is rescaled while the launcher is there |
| Reconciler.NeighbourIsDisturbed | src/controllers/carbonscalermpijob_controller.go:281-301 | A run of two jobs in which the one that never changes loses its launcher |
| Controller.LastValueByPosition | src/controllers/carbonscalermpijob_controller.go:402-409 | The value read is that of the last variable of the name, and 0 without one |
| Controller.WorkSizeIsExact | src/controllers/carbonscalermpijob_controller.go:401-410 | The job size is the product of the last BODIES and the last ITERATIONS exactly when that fits 64 bits, and otherwise differs by a multiple of 2^64 |
| Controller.WorkSizeIsZero | src/controllers/carbonscalermpijob_controller.go:402-410 | It is 0 without either of them |
| Controller.OncePerJob | src/controllers/carbonscalermpijob_controller.go:391-397 | A listed unfinished job with its own UID is scheduled exactly once |
| Controller.Cluster.ReadSize | src/controllers/carbonscalermpijob_controller.go:402-410 | The loop over the environment reads the last BODIES and ITERATIONS and multiplies them |
| Controller.Cluster.ScheduleJob | src/controllers/carbonscalermpijob_controller.go:401-424 | One scheduling call, with the UID, the specification and the size of the job, a read if it succeeded, and the replicas recorded in the job as a write to its specification |
| Controller.Cluster.ScheduleJobs | src/controllers/carbonscalermpijob_controller.go:384-399 | Each unfinished job of the list is scheduled once and no other, with its own arguments; a job alone with its UID has the answer as its workers afterwards, and all else is kept |
| Controller.Cluster.ServePush | src/controllers/carbon_webhook.go:130-144 | A push is one status update followed by the scheduling of every unfinished job, with the same calls and records |
| Alignment.ServedPushIsRound | src/controllers/carbon_webhook.go:130-144 | A served push is one round of every listed, unfinished job |
| Alignment.ServedPushPlans | src/controllers/carbon_webhook.go:130-144 | A served push after which a job has its first schedule is the push that plans it, and its plan is the stored schedule |
| Alignment.ServedPushPlansJob | src/controllers/carbonscalermpijob_controller.go:401-424 | The call that plans a job in a served push is made for that job, and its plan does the part of the size its environment gives that is not yet done |
| Alignment.PlanningStarts | src/controllers/carbon_scaler.go:100-148 | The push that plans a job fixes a forecast equal to the trace ahead, and starts agent, cursor and usage in step |
| Alignment.RoundKeepsStep | carbon_service/carbon_service.py:112-132 | Each later push without a reset moves agent, cursor and usage on by one slot of the plan |
| Alignment.PlannedIsRealised | carbon_service/carbon_service.py:112-171 | Through the deadline, the work and carbon realised against the trace equal those of the plan against the forecast |
| Alignment.RealisedIsLeast | README.md:5 | With a fair ranking, no schedule doing the work realised by the deadline would have emitted less under the trace that occurred |
| Alignment.StoredPlanIsLeast | README.md:5 | With increasing rows that reach the limits, a positive forecast and a fair ranking, no schedule that fits the job and does the work of the stored plan emits less, by the power column of the file under the forecast |
| Alignment.PassRunsThePlan | src/controllers/carbonscalermpijob_controller.go:96-191 | A reconcile pass after the m-th push leaves the MPI job with plan[m - 1] workers |

## Left out

- Scaler.CarbonScaler.ComputeSchedule: where a candidate's value is not a number (MinReplicas 0, or a node limit beyond the profile's rows, as MaxReplicas 8 with the cluster size of 8 and a shipped profile of seven nodes) the sort may return any order; the optimality and ranking results are not claimed there, and failures are not exact (`ExactFailures.ExactIffWithinRows`). What holds there is that a plan does the work and stays within the limits. A negative deadline, or a forecast that ends before the deadline, makes the source panic.
- ExactMinimality.MinimalIffEven: returns are assumed to diminish from MinReplicas on. Without that evenness is not enough (`Limits.GapNeedsDiminishingReturns`) and a last node that adds at least what MinReplicas nodes do is still needed (`ExactMinimality.Overshoot`), but the exact condition is given for the shipped profiles only.
- ExactRanking.GreedyOptimalIffFair: the same assumption on the profile; without it the answer is given for the shipped profiles only.
- Cursor.CallIsDecided: from MinReplicas 1 and with throughputs that do not fall with the node count; for loaded rows it is false otherwise (`ExactFailures.ExactIffWithinRows`, `Limits.SevenOfEightFails`), and only a success is then reliable.
- Controller.Cluster.Reconcile: API errors, finalizers, owner references and timestamps are not modelled; the pass is the error-free one, and the pods there are before a pass are its input, so their creation by the MPI controller is not modelled.
- Reconciler.FinishIsMirrored: of a condition the kind and the status are modelled; the Kubeflow helper that stores conditions, and may drop or replace some, is not part of this model.
- Controller.Cluster.UpdateJobStatus: as `Reconciler.FinishIsMirrored`.
- Reconciler.RunConverges: between passes the MPI controller may change the status of MPI jobs, not their specification; a removed job takes its MPI job with it at once, where Kubernetes collects it some time later.
- Controller.WorkSizeIsExact: the source converts the product of 64-bit integers to a float64, which rounds above 2^53.
- Controller.Cluster.ScheduleJob: the job list is the current one, so write conflicts with concurrent updates do not occur.
- Controller.Cluster.ServePush: the source schedules in a goroutine after it has replied, so a second update could come before it; here scheduling follows its own update.
- Controller.Cluster.ScheduleJobs: of jobs that share a UID, which Kubernetes does not allow, it is left open which answer each has as its workers.
- Alignment.ServedPushIsRound: the job must be the only listed one with its UID, as Kubernetes ensures.
- Alignment.PlannedIsRealised: every push is delivered and processed before the next, and no index reset happens during the run.
- CarbonService.CarbonAgent.SendUpdate: the percentile window is not empty; the mean of an empty window is not a number.
- CarbonService.CarbonAgent.EndSleep: sleeping takes no model time, and a request arrives either before or after the end of a sleep, not during it.
- Floating-point rounding, NaN and infinities: reals are used throughout.
- Locks and memory races: each method is atomic.
- CSV parsing of the profile and loading, averaging and interpolation of the trace: both start from parsed rows and values.
- HTTP serving and registration, the SQLite registry, the thread pool, logging and command-line flags.
- The `fixed` policy, which always answers MinReplicas, and the power and status servers, which measure and display: they take no part in planning or scaling by carbon.
- Generated code and resource definitions: they declare data without behaviour.
