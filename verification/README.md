# Verification of the Community AI coordinator and planners

A Dafny model of the parts of Community AI that decide who does what: the coordinator's
Job Manager, its scheduler, analyzer, allocator, pipeline planner and device registry, the
worker's Resource Governor, and the Rust planner, shard manifest and shard placement.
`dafny verify dfyconfig.toml` checks everything.

## How it is built

The Job Manager is written twice. `JobCore`, `Submission` and `Coordinator` say what each
operation does as functions on values; `Manager.JobManager` and `Registry.DeviceRegistry`
are the mutable objects with the loops and the re-entrant calls of the source, and each of
their methods is proved to do exactly what its function says. What the design promises is
proved about the functions, over every run:

- `JobInvariants` states the invariant of one job and the measure that answers use up;
  `JobSteps`, `JobPump`, `JobEvents` prove that every operation keeps it through the cycle
  dispatch, requeue, finish, dispatch.
- `RunProofs` and `Safety` lift that to any number of jobs and any order of events;
  `Guarantees` says what it means for tasks, slots, retries, completions and outputs.
- `Sends` says which tasks a pump sends, to whom and in which order; `Traces` and `Records`
  tie what tasks remember to the record of sends, over every run; `Requeues` and `Overdue`
  say where tasks that come back go and which are taken back; `Outcomes`, `Transcript` and
  `TextLaws` follow the text from the request to the job's output.
- `JobLiveness` and `Timeouts` are about the progress of one event, `Termination`,
  `Progress`, `Scheduled` and `RunLiveness` about that of whole runs; `PumpWalk` says when
  the walk of a pump ends. `StuckRun`, `LimitRun` and `HangingRun` are concrete runs.
- `Scheduler`, `Clusters`, `Forming`, `Allocation`, `Analyzer`, `Pipeline`,
  `PipelineProofs` cover the decisions around the Job Manager; `Sorting` and `Choices` hold
  the stable sort and the arithmetic of pooling a weight over a choice of members, `Reals`
  the facts about quotients of reals.
- `Scores` and `Placement` say what scores, shares and eligibility come to in the machines'
  own numbers.
- `Governor`, `Layers`, `LatencyPlanner`, `Shards` are the other components; `OwnerFirst`
  says what the governor owes to the owner's options.

Where the comment on the shard score and its code differ
(`crates/community-model-manager/src/lib.rs:58-75`: one over the round trip plus one, or 100
over the round trip plus ten) the model follows the code.

Numbers are exact: integers are unbounded unless 32-bit arithmetic matters, shares, scores
and capacities are reals, and every floor, round and ceiling of the source is written out.

## What the model takes for granted

These are the conditions of `RunProofs.Admissible`; the source does not check them.

- A worker answers only for a task it currently holds. After a cancellation the worker
  still reports the task (`community-ai/packages/worker-node/src/scheduler.ts:104-110`),
  and such a late report would give the slot back twice.
- A heartbeat reports the true number of tasks, or does not come.
- A node joins only after its earlier loss was seen.
- A job id is not submitted again while tasks of the old job are in flight; otherwise
  their slots are never given back.

Progress is stated for one running job while every socket is open, because a freed slot
only pumps the job that freed it; that the nodes then count exactly its tasks is proved
(`RunLiveness.SoloIsAlone`). Safety needs none of that, only that at least one attempt is
allowed.

## What turned out not to hold

- A job can get stuck. When `requeue` gives a task up it checks for the end of the job but
  never pumps, so tasks queued elsewhere stay there if nothing else is in flight.
  `JobLiveness.DeclinedLiveExactly`, `TaskFailedLiveExactly` and
  `Timeouts.SweepLiveExactly` say exactly when for one event, `RunLiveness.EndsUnlessStuck`
  for whole runs; `StuckRun.JobGetsStuck` is a run that does. Completions, losses and
  submissions always leave the job live.
- The walk of a pump over the queues need not end. When a send of a pipeline job fails
  because a socket is not open, the rebuilt pipeline may put the task back on a head whose
  socket is not open either, and the walk goes on to that new entry without ever counting an
  attempt. `PumpWalk.WalkEndsExactly` is the exact condition, `HangingRun.SubmissionHangs` a
  submission that does it.
- A batch of several items that ends up on one node becomes one task for its first item;
  the others are dropped (`SubmissionProofs.ItemsCovered`, `HangingRun.SecondItemIsDropped`).
- Cutting layers by ceiling division can give reversed ranges, for instance five layers
  over four parts; the length of such a range underflows (`Layers.WellFormedIff`).
- Two ticks empty every governor only up to a ceiling of 1.01 (`Governor.TwoTicksToZero`).
  The worker's command line keeps the ceiling within 0 and 1
  (`community-ai/packages/worker-node/src/cli.ts:101-104`), so only a governor constructed
  directly with other options can miss that.

## Model

| member | source | states |
|---|---|---|
| Safety.EveryRunIsSafe | community-ai/packages/coordinator/src/jobs.ts:304-665 | the whole invariant (tasks conserved, slots exact, retries bounded, one reduce, finished jobs final, tokens and completions counted) holds after every admissible run of events from the start, for any interleaving of jobs |
| Safety.StepOk | community-ai/packages/coordinator/src/jobs.ts:304-665 | every admissible event keeps that invariant |
| Safety.StepMoves | community-ai/packages/coordinator/src/jobs.ts:304-665 | whatever event comes, no job grows in measure, a finished job keeps its status, and a worker's answer strictly lowers the measure of its job |
| Safety.SubmitOk | community-ai/packages/coordinator/src/jobs.ts:106-198 | submitting keeps the invariant of all jobs, including a job that could not be placed |
| Safety.DropOk | community-ai/packages/coordinator/src/server.ts:326-333 | removing a node from the registry and telling every job of it keeps the invariant: in between, jobs not yet told may still name the node, afterwards none does |
| RunProofs.LoseFromOk | community-ai/packages/coordinator/src/jobs.ts:531-557 | telling the jobs one after the other of a lost node ends with no task and no queue left on it |
| RunProofs.SweepJobsOk | community-ai/packages/coordinator/src/jobs.ts:651-665 | sweeping all jobs for timed-out tasks keeps the invariant |
| JobSteps.DispatchOk | community-ai/packages/coordinator/src/jobs.ts:352-392 | sending one dequeued task to a node with a free slot keeps the invariant, through a failed send, the requeue and whatever finish that leads to; no node gains more than one task |
| JobSteps.RequeueOk | community-ai/packages/coordinator/src/jobs.ts:395-469 | requeueing keeps the invariant on all its paths (given up, pipeline rebuilt, queued elsewhere) and strictly lowers the measure when the task was in flight |
| JobSteps.MaybeFinishOk | community-ai/packages/coordinator/src/jobs.ts:559-631 | the end-of-job check keeps the invariant, including creating and sending the one reduce task |
| JobSteps.ReformOk | community-ai/packages/coordinator/src/jobs.ts:418-441 | dropping all queues to rebuild a pipeline loses no task, because a pipeline job has only the one being requeued |
| JobSteps.ReleaseSlots | community-ai/packages/coordinator/src/jobs.ts:396-399 | giving a task back lowers its node by exactly the slot it held: the clamp at zero never hides a lost count |
| JobPump.RecordSlots | community-ai/packages/coordinator/src/jobs.ts:507-508 | a completion lowers its node by exactly the slot the task held |
| Requeues.RequeuePrefers | community-ai/packages/coordinator/src/jobs.ts:395-469 | without a pipeline, a task that comes back with an attempt left waits at the head of the queue of the best connected machine, with a pump scheduled and nothing else touched: one that holds the model unless no capable one does, one the record shows it was never sent to unless it was sent to all such, the fastest of those; it is given up if and only if no connected machine is capable |
| Requeues.QueueMoves | community-ai/packages/coordinator/src/jobs.ts:531-548 | the queue of a lost node joins the tail of the first remaining queue in order, and no other queue or task changes |
| JobPump.PumpOk | community-ai/packages/coordinator/src/jobs.ts:304-338 | draining, stealing and finishing keep the invariant |
| JobPump.StealOk | community-ai/packages/coordinator/src/jobs.ts:319-335 | any number of steals keeps the invariant |
| JobEvents.DoneOk | community-ai/packages/coordinator/src/jobs.ts:496-520 | a completed task keeps the invariant and strictly lowers the measure |
| JobEvents.DeclinedOk | community-ai/packages/coordinator/src/jobs.ts:479-485 | a rejected task keeps the invariant and strictly lowers the measure |
| JobEvents.TaskFailedOk | community-ai/packages/coordinator/src/jobs.ts:522-528 | a failed task keeps the invariant and strictly lowers the measure |
| JobEvents.NodeLostOk | community-ai/packages/coordinator/src/jobs.ts:531-557 | after a loss every task the node ran or had queued is finished, in flight elsewhere or in exactly one other queue |
| JobEvents.CancelOk | community-ai/packages/coordinator/src/jobs.ts:633-648 | cancelling gives back exactly the slots of the tasks in flight and leaves a finished job |
| JobEvents.SweepOk | community-ai/packages/coordinator/src/jobs.ts:651-665 | requeueing the timed-out tasks of one job keeps the invariant |
| QueueBounds.QueueCount | community-ai/packages/coordinator/src/jobs.ts:307-317 | while a job is pumped it never has more queues than it had plus one a connected node, queues added during the walk included |
| Guarantees.TaskInOneQueue | community-ai/packages/coordinator/src/jobs.ts:304-469 | in every reachable state a planned or reassigned task is at exactly one place of exactly one queue, and every other task is in none |
| Guarantees.FlightIsConnected | community-ai/packages/coordinator/src/jobs.ts:384-390 | an assigned or running task is on a connected node that counts it |
| Guarantees.CountersAreExact | community-ai/packages/coordinator/src/jobs.ts:311-316 | after every admissible run each node's counter equals its assigned and running tasks over all jobs, every send on record found it at zero or below the number of tasks its governor had reported, and completedCount equals the jobs that completed |
| Guarantees.RetriesBounded | community-ai/packages/coordinator/src/jobs.ts:387-410 | no task is sent more than maxTaskAttempts times, a waiting one has an attempt left, and a job causes at most maxTaskAttempts * (map tasks + 1) sends |
| Guarantees.CompletionIsSound | community-ai/packages/coordinator/src/jobs.ts:559-631 | a completed job has all its tasks finished, no job has two reduce tasks, and totalTokens is the sum over its completed tasks |
| Guarantees.TerminalIsAbsorbing | community-ai/packages/coordinator/src/jobs.ts:560-560 | completed, failed and cancelled jobs keep status and output under every admissible event but a second submission of their id |
| Guarantees.OutputIgnoresSchedule | community-ai/packages/coordinator/src/jobs.ts:584-627 | two jobs with the same request whose maps ended alike, in any two reachable states, put the same prompt to their reduce, and without a usable reduce have the same output |
| Guarantees.OutputsByIndex | community-ai/packages/coordinator/src/jobs.ts:585-627 | the combined outputs are the trimmed outputs of the successful maps sorted by item index |
| JobLiveness.WorkConserved | community-ai/packages/coordinator/src/jobs.ts:307-350 | after a pump with working sockets every node that is idle or below its governor's reported number has an empty queue, and if the cluster has such a node no queue holds two tasks, unless exactly 200 tasks were stolen |
| JobCore.Donor | community-ai/packages/coordinator/src/jobs.ts:326-329 | the donor is a longest queue of two or more, and there is none exactly when every queue holds at most one |
| Records.SendsAsReported | community-ai/packages/coordinator/src/jobs.ts:311-391 | over every admissible run each send on record was made in one of its steps, to a machine registered then, and records the number its governor had last reported and the time |
| Records.TriedIsSent | community-ai/packages/coordinator/src/jobs.ts:387-391 | in every reachable state a task remembers exactly the machines the record shows it was sent to |
| Sends.VisitServesHead | community-ai/packages/coordinator/src/jobs.ts:307-316 | a visit of the pump to a node with an open socket sends it the head of its own queue, in order, until it runs what its governor allows (one at least when idle) or nothing is left |
| Sends.StealTakesTail | community-ai/packages/coordinator/src/jobs.ts:319-335 | one steal sends the last task of the first longest queue to the first node of the cluster that has room and nothing queued |
| Outcomes.FinishDecides | community-ai/packages/coordinator/src/jobs.ts:559-631 | the end-of-job check waits while a map is open, fails the job without a successful map, asks for a reduce once if the request wants one of at least two outputs and a machine is free, waits for an open reduce, and otherwise completes the job |
| Outcomes.ReduceIsOutput | community-ai/packages/coordinator/src/jobs.ts:621-623 | the output of a completed job is the trimmed answer of its completed reduce, if that is more than spaces |
| Outcomes.MapsAreOutput | community-ai/packages/coordinator/src/jobs.ts:621-627 | otherwise it is the outputs of the successful maps, of which there is at least one |
| Outcomes.ReduceAsks | community-ai/packages/coordinator/src/jobs.ts:584-600 | the reduce is asked the instruction and the trimmed outputs of at least two successful maps, numbered from one |
| Outcomes.ChatAnswers | community-ai/packages/coordinator/src/jobs.ts:487-631 | over every run a completed chat answers with what its workers said about it, trimmed |
| Transcript.AskedAndHeard | community-ai/packages/coordinator/src/jobs.ts:487-514 | over every run each task but the reduce was asked about its own item of the request, or the chat, and its text is what its workers said: the tokens one after the other, replaced by a final answer that is not empty |
| Transcript.TokensCounted | community-ai/packages/coordinator/src/jobs.ts:487-494 | over every run the token counter is the number of tokens heard about known jobs |
| Overdue.SweepTakesOverdue | community-ai/packages/coordinator/src/jobs.ts:651-665 | a sweep takes a task in flight back if and only if its latest send on record is more than the timeout ago, and otherwise leaves it as it was |
| Overdue.SweepLeavesRest | community-ai/packages/coordinator/src/jobs.ts:651-665 | a sweep leaves every task that is not in flight as it was |
| TextLaws.TrimExactly | community-ai/packages/coordinator/src/jobs.ts:584-627 | trimming drops spaces at both ends and nothing else, and leaves none there |
| JobLiveness.StealServes | community-ai/packages/coordinator/src/jobs.ts:324-334 | one steal takes exactly one task out of the queues and leaves no free node with a queue of its own |
| JobLiveness.PumpLive | community-ai/packages/coordinator/src/jobs.ts:304-338 | for a single running job with exact slots and working sockets, a pump leaves it finished or with a task in flight |
| JobLiveness.StartLive | community-ai/packages/coordinator/src/jobs.ts:106-198 | a job submitted to idle machines is, right after, finished or in flight |
| JobLiveness.DoneLive | community-ai/packages/coordinator/src/jobs.ts:496-520 | a completed task leaves the job finished or in flight |
| JobLiveness.NodeLostLive | community-ai/packages/coordinator/src/jobs.ts:531-557 | losing a node leaves the job finished or in flight |
| JobLiveness.DeferredPumpLive | community-ai/packages/coordinator/src/jobs.ts:439-468 | a scheduled pump never undoes that |
| JobLiveness.DeclinedLiveExactly | community-ai/packages/coordinator/src/jobs.ts:404-459 | after a rejection and its scheduled pump the job is finished or in flight if and only if the task is not given up (no attempts or no machine left), or nothing else waits, or something else is in flight |
| JobLiveness.TaskFailedLiveExactly | community-ai/packages/coordinator/src/jobs.ts:522-528 | the same equivalence after a failure |
| Timeouts.SweepLiveExactly | community-ai/packages/coordinator/src/jobs.ts:651-665 | after a sweep and its scheduled pump a live job is still live if and only if some task in flight has not timed out or is not given up, or nothing waits |
| StuckRun.JobGetsStuck | community-ai/packages/coordinator/src/jobs.ts:404-410 | a concrete run that meets every assumption and leaves a job stuck: two machines, three items, one attempt each; after one answer and one rejection the last item waits behind an idle machine that is eligible for it |
| Termination.AnswersBounded | community-ai/packages/coordinator/src/jobs.ts:471-528 | over any admissible run the answers about a job plus what is left of its measure never exceed the measure it had |
| Termination.EveryAnsweredRunEnds | community-ai/packages/coordinator/src/jobs.ts:395-631 | in any run a job of n tasks gets at most maxTaskAttempts * n answers, maxTaskAttempts * (n + 1) if its request may lead to a reduce; at any point it has ended if and only if none of its tasks waits or is in flight, and it has ended once the limit is reached |
| LimitRun.LimitReached | community-ai/packages/coordinator/src/jobs.ts:395-631 | a run in which a job gets as many answers as the limit allows, its reduce included, and has ended with the last |
| Progress.EndedExactly | community-ai/packages/coordinator/src/jobs.ts:559-631 | in every reachable state a job has ended if and only if none of its tasks waits or is in flight |
| RunLiveness.SoloIsAlone | community-ai/packages/coordinator/src/jobs.ts:304-469 | in a state that satisfies the invariant, with every other job ended and every socket open, each node counts exactly the tasks of the running job: what is proved of a job that has the machines to itself applies |
| RunLiveness.SoloStep | community-ai/packages/coordinator/src/jobs.ts:471-665 | one event of such a run: it strands the job exactly on the give-up condition, otherwise the job is live or has a pump scheduled exactly if it was so before or the event was a loss or its cancellation |
| RunLiveness.EndsUnlessStuck | community-ai/packages/coordinator/src/jobs.ts:106-665 | over every admissible run of a job submitted to resting machines whose sockets stay open: the job is live or has a pump scheduled if and only if no answer or sweep met the give-up condition without a later loss or cancellation; with no pump scheduled and nothing in flight, the job has ended if and only if that never happened |
| LimitRun.EitherWay | community-ai/packages/coordinator/src/jobs.ts:395-520 | one submission that meets the assumptions of that theorem, with a run that strands its job and a run that ends it |
| PumpWalk.WalkEndsExactly | community-ai/packages/coordinator/src/jobs.ts:304-441 | the walk over the live queue map, which goes on to entries added after a clear, ends if and only if it is not about to rebuild a pipeline around a head that has a free slot but no open socket; when it ends, it ends in the state of `JobCore.DrainAll` |
| HangingRun.SubmissionHangs | community-ai/packages/coordinator/src/jobs.ts:418-441 | a chat submitted to one machine whose socket is closing makes the walk of its first pump go on for ever |
| SubmissionProofs.EveryItemQueuedOnce | community-ai/packages/coordinator/src/jobs.ts:246-301 | a fanned-out batch has every item index in exactly one queue exactly once, whatever the quotas |
| SubmissionProofs.QueuesFollowShares | community-ai/packages/coordinator/src/jobs.ts:274-300 | with a formed cluster the queues have exactly the allocated lengths, so the branch for a tail left by rounding never adds a task |
| SubmissionProofs.ItemsInRuns | community-ai/packages/coordinator/src/jobs.ts:246-286 | the items go to the nodes in consecutive runs in the order of the cluster, first item first |
| SubmissionProofs.ItemsCovered | community-ai/packages/coordinator/src/jobs.ts:219-244 | a placed batch gets one task an item if and only if it has exactly one item, or at least two items and two eligible machines; a longer batch on one machine is cut to its first item |
| HangingRun.SecondItemIsDropped | community-ai/packages/coordinator/src/jobs.ts:219-244 | two items and one eligible machine: the job is placed with a single task, for the first item |
| SubmissionProofs.PlannedOk | community-ai/packages/coordinator/src/jobs.ts:106-194 | a planned job satisfies the invariant before anything is sent |
| Analyzer.StrategyDecided | community-ai/packages/coordinator/src/analyzer.ts:32-151 | the strategy in terms of the machines: fan-out exactly for a batch of two or more items with two or more eligible machines, layer-split exactly for a chat no machine can take whole when a pipeline exists |
| Analyzer.EligibleFit | community-ai/packages/coordinator/src/analyzer.ts:40-42 | the analyzer's own memory test never removes an eligible machine |
| Allocation.AllocateByShare | community-ai/packages/coordinator/src/jobs.ts:714-740 | the two loops, with the wrap-around of the second, compute the specified counts |
| Allocation.CountsAddUp | community-ai/packages/coordinator/src/jobs.ts:731-738 | with shares that sum to one the counts sum to the total |
| Allocation.LargestRemainderIsOptimal | community-ai/packages/coordinator/src/jobs.ts:713-740 | with shares that sum to one, no other counts with that total have a smaller sum of absolute deviations from the exact quotas |
| Allocation.FloorOrCeiling | community-ai/packages/coordinator/src/jobs.ts:722-737 | each count is the floor or the ceiling of its exact quota |
| Allocation.TotalsExactly | community-ai/packages/coordinator/src/jobs.ts:731-738 | for any shares, the counts sum to the total if and only if the floors do not exceed it |
| Clusters.TrimIsShortPrefix | community-ai/packages/coordinator/src/scheduler.ts:167-180 | on a descending ranking the kept nodes are a prefix, at most 13 and at most one a unit; a node is kept exactly when all before it are and it has 8% of their aggregate |
| Clusters.AtMostThirteen | community-ai/packages/coordinator/src/scheduler.ts:175-175 | the fourteenth of a descending ranking never has 8% of the thirteen before it |
| Clusters.ChosenPicked | community-ai/packages/coordinator/src/scheduler.ts:182-294 | every policy picks at least one candidate, distinct ones, and no more than the job has units |
| Clusters.ChosenAreBest | community-ai/packages/coordinator/src/scheduler.ts:182-294 | under every policy but round-robin no candidate left out ranks ahead of a chosen one |
| Clusters.ClusterForms | community-ai/packages/coordinator/src/scheduler.ts:182-294 | a cluster is formed exactly when some node is eligible; its nodes are distinct and connected and its shares positive and summing to one |
| Clusters.SharesFromSum | community-ai/packages/coordinator/src/scheduler.ts:146-154 | score-weighted shares are positive and sum to one |
| Scores.ScoreExactly | community-ai/packages/coordinator/src/scheduler.ts:138-144 | the score times 100 plus the weighted latency is 100 times the speed, by three quarters without the model and three fifths for what is no desktop |
| Scores.SpeedCounts | community-ai/packages/coordinator/src/scheduler.ts:138-144 | with all else equal scores are in the ratio of the speeds |
| Scores.LatencyCounts | community-ai/packages/coordinator/src/scheduler.ts:138-144 | with all else equal the score times 100 plus the weighted latency is the same |
| Scores.StandingCounts | community-ai/packages/coordinator/src/scheduler.ts:138-144 | a machine without the model scores exactly three quarters of the same one with it, a browser exactly three fifths of the same desktop |
| Scores.ScoreAnchor | community-ai/packages/coordinator/src/scheduler.ts:138-144 | a warm desktop of one token a second at 100 ms scores one half at weight one |
| Scores.ScoreRewardsStrictly | community-ai/packages/coordinator/src/scheduler.ts:138-144 | better in one respect and no worse in the others scores strictly higher |
| Scores.ClusterSharesFollowSpeed | community-ai/packages/coordinator/src/scheduler.ts:146-154 | in the cluster of a fanned-out batch two warm desktops with equal latency have shares in the ratio of their measured or estimated speeds, under every policy that shares by score |
| Scores.SharesFollowSpeed | community-ai/packages/coordinator/src/scheduler.ts:146-294 | in general shares are in the ratio of speed by standing over 100 plus the weighted latency, with the weight of each policy |
| Scores.ChosenHaveMost | community-ai/packages/coordinator/src/scheduler.ts:182-294 | no machine left out has more of what the policy looks for: speed, spare memory, or worth at its weight |
| Scores.ReduceHasMost | community-ai/packages/coordinator/src/scheduler.ts:301-308 | the reduce node is worth most in its pool, in its own speed, latency and standing |
| Clusters.ScoreRewards | community-ai/packages/coordinator/src/scheduler.ts:134-144 | a candidate at least as fast, as close, as warm and as native as another never scores lower, for any network weight |
| Clusters.ReduceIsBest | community-ai/packages/coordinator/src/scheduler.ts:301-308 | the reduce node has the best effective score of its pool, natives first when preferred |
| Scheduler.PickReduceNode | community-ai/packages/coordinator/src/scheduler.ts:301-308 | a reduce node is found exactly when some node is eligible with a free slot; a non-native one is picked under the preference only when no native is eligible |
| Scheduler.EligibleNodes | community-ai/packages/coordinator/src/scheduler.ts:50-75 | the filter keeps exactly the nodes that pass every eligibility test |
| Placement.PlacedExactly | community-ai/packages/coordinator/src/scheduler.ts:50-75 | a submitted job fails at once if and only if every machine has one of eleven reasons (offline, paused, full, too small, cold and so on) and it is not a chat that machines can hold together |
| Placement.QueuedOnWilling | community-ai/packages/coordinator/src/scheduler.ts:50-75 | no machine is given a queue against such a reason |
| Placement.CapableUnlessRefused | community-ai/packages/coordinator/src/scheduler.ts:50-75 | a task that comes back may wait for a busy machine, and for one without the model when asked; every other reason counts as before |
| Placement.EachHasItsTurn | community-ai/packages/coordinator/src/scheduler.ts:245-250 | over as many single-machine jobs in a row as there are candidates round-robin chooses each exactly once |
| Placement.CursorMoves | community-ai/packages/coordinator/src/jobs.ts:106-198 | the round-robin cursor moves on by one with every job except a chat that is split over machines |
| Forming.FormCluster | community-ai/packages/coordinator/src/scheduler.ts:182-294 | the loops of every policy compute the specified cluster |
| Forming.TrimUnproductive | community-ai/packages/coordinator/src/scheduler.ts:167-180 | the trimming loop, with its skip and its break, computes the specified choice |
| Forming.ShareOut | community-ai/packages/coordinator/src/scheduler.ts:146-154 | the share loop computes the specified shares |
| Forming.TakeTurns | community-ai/packages/coordinator/src/scheduler.ts:245-250 | the round-robin loop computes the specified wrap-around choice |
| PipelineProofs.PlanIffFeasible | community-ai/packages/coordinator/src/pipeline.ts:96-150 | a pipeline is planned if and only if some choice of at most maxMembers offering nodes pools the needed memory |
| PipelineProofs.PlanIsFound | community-ai/packages/coordinator/src/pipeline.ts:96-150 | completeness: any such choice is enough for a plan |
| PipelineProofs.PlanIsFeasible | community-ai/packages/coordinator/src/pipeline.ts:129-150 | soundness: the machines of a plan are such a choice |
| PipelineProofs.PlanIsMinimal | community-ai/packages/coordinator/src/pipeline.ts:129-139 | no feasible choice, of whatever size, has fewer members than the plan |
| PipelineProofs.NobodyToSpare | community-ai/packages/coordinator/src/pipeline.ts:134-139 | leaving any one member out of a plan makes it infeasible |
| PipelineProofs.NobodyOverAsked | community-ai/packages/coordinator/src/pipeline.ts:134-162 | shares sum to one, each rounded assignment is at most what the member offers, and the assignments add up to the need within half a megabyte a member |
| Placement.NeedExactly | community-ai/packages/coordinator/src/pipeline.ts:82-84 | a model needs its size and 15% more, to the nearest megabyte |
| Placement.OffersExactly | community-ai/packages/coordinator/src/pipeline.ts:53-76 | the candidates are exactly the offers of the online, unpaused machines with an endpoint that offer 256 MB or more, in whole megabytes |
| Placement.PlanSays | community-ai/packages/coordinator/src/pipeline.ts:129-188 | a plan names its chain in order of latency with shares in the ratio of the offers, what it pools, and as head the best-linked member that holds the weight file, or of all |
| PipelineProofs.FormPipeline | community-ai/packages/coordinator/src/pipeline.ts:96-188 | the planner, with its greedy loop, computes the specified plan |
| PipelineProofs.ListCandidates | community-ai/packages/coordinator/src/pipeline.ts:53-76 | the candidate loop computes the specified list |
| PipelineProofs.TakeGreedy | community-ai/packages/coordinator/src/pipeline.ts:131-139 | the greedy loop with its two breaks takes the specified members |
| Pipeline.PickHead | community-ai/packages/coordinator/src/pipeline.ts:195-199 | the head is a member, one that holds the weight file if any does, and the best-linked of its kind |
| Pipeline.CandidateSource | community-ai/packages/coordinator/src/pipeline.ts:55-74 | every candidate is a view that passes the tests, with its offer floored and its latency at least 0.1 |
| Registry.AverageSettles | community-ai/packages/coordinator/src/registry.ts:92-103 | the same result k times over leaves 0.7 to the power k of the distance of each average from it, or starts the average at it |
| Registry.LearnedFrom | community-ai/packages/coordinator/src/registry.ts:92-108 | a finished task changes only the averages and counters of its machine, and only if a speed was measured; a failed one only its counter |
| Registry.RoundTripsKept | community-ai/packages/coordinator/src/registry.ts:129-138 | of all round trips the last twenty are kept, in order |
| Registry.DeviceRegistry.Add | community-ai/packages/coordinator/src/registry.ts:42-54 | a joining node is stored; under a new session id it keeps what was learned about the machine before |
| Registry.DeviceRegistry.Remove | community-ai/packages/coordinator/src/registry.ts:56-60 | the node is deleted and returned |
| Registry.DeviceRegistry.UpdateHeartbeat | community-ai/packages/coordinator/src/registry.ts:70-89 | profile, governor report and task count are replaced, the latency in the profile by the measured one if there is any, learned speeds only by reported ones |
| Registry.DeviceRegistry.RecordTaskResult | community-ai/packages/coordinator/src/registry.ts:92-103 | speed and time to first token are folded into the rolling averages, and the task is counted |
| Registry.DeviceRegistry.RecordPong | community-ai/packages/coordinator/src/registry.ts:129-138 | the round trip joins the last twenty that are kept |
| Registry.DeviceRegistry.MeasuredLatency | community-ai/packages/coordinator/src/registry.ts:141-147 | within 0.05 ms of the mean of the kept round trips, if there is any |
| Registry.DeviceRegistry.RecordTaskFailure | community-ai/packages/coordinator/src/registry.ts:105-108 | the failure is counted |
| Registry.DeviceRegistry.ReturnSlot | community-ai/packages/coordinator/src/jobs.ts:397-398 | a slot is given back, never below zero and not to a node that is gone |
| Manager.JobManager.Submit | community-ai/packages/coordinator/src/jobs.ts:106-198 | enrols a new job object, plans it and pumps it; the state of all jobs, nodes and counters becomes that of `Coordinator.Step` |
| Manager.JobManager.BuildTasks | community-ai/packages/coordinator/src/jobs.ts:210-301 | the nested loops give every item its task and its place in a queue, or the one task of a job that is not fanned out |
| Manager.JobManager.Pump | community-ai/packages/coordinator/src/jobs.ts:304-338 | draining, stealing and finishing in place leave exactly the job, slots and send record of `JobCore.Pump`, whenever the walk of the drain ends (`PumpWalk.WalkEndsExactly`) |
| Manager.JobManager.DrainQueues | community-ai/packages/coordinator/src/jobs.ts:307-317 | the walk over the queues, including those a failed send adds on the way and those that follow a clear, drains each as far as its node has slots, and reports whether the walk of the source would end |
| Manager.JobManager.IdleClusterNodes | community-ai/packages/coordinator/src/jobs.ts:340-350 | lists exactly the nodes with an empty queue and a free slot, the first one first |
| Manager.JobManager.StealWork | community-ai/packages/coordinator/src/jobs.ts:319-335 | the loop guarded at 200 moves tails of the longest queue to the first idle node, exactly as `JobCore.Steal` |
| Manager.JobManager.Dispatch | community-ai/packages/coordinator/src/jobs.ts:352-392 | sends and takes a slot, or requeues when the node or its socket is gone, exactly as `JobCore.Dispatch` |
| Manager.JobManager.Requeue | community-ai/packages/coordinator/src/jobs.ts:395-469 | gives the slot back, then gives up, rebuilds the pipeline or queues the task first elsewhere, exactly as `JobCore.Requeue`, re-entering the finish |
| Manager.JobManager.MaybeFinish | community-ai/packages/coordinator/src/jobs.ts:559-631 | waits, fails, creates and sends the reduce, or completes, exactly as `JobCore.MaybeFinish`, re-entering dispatch |
| Manager.JobManager.OnTaskAccepted | community-ai/packages/coordinator/src/jobs.ts:471-477 | one task becomes running and nothing else in any job, node or counter changes |
| Manager.JobManager.OnTaskRejected | community-ai/packages/coordinator/src/jobs.ts:479-485 | the state after the requeue is that of `Coordinator.Step`, other jobs untouched |
| Manager.JobManager.OnToken | community-ai/packages/coordinator/src/jobs.ts:487-494 | the token is appended and counted, nothing else changes |
| Manager.JobManager.OnTaskCompleted | community-ai/packages/coordinator/src/jobs.ts:496-520 | slot, speed, output and tokens are recorded and the job pumped; the state is that of `Coordinator.Step`, other jobs untouched |
| Manager.JobManager.OnTaskFailed | community-ai/packages/coordinator/src/jobs.ts:522-528 | the failure is counted and the task requeued; the state is that of `Coordinator.Step`, other jobs untouched |
| Manager.JobManager.OnNodeLost | community-ai/packages/coordinator/src/jobs.ts:531-557 | every job, in submission order, loses the node; the state is that of `Coordinator.LoseFrom` |
| Manager.JobManager.Cancel | community-ai/packages/coordinator/src/jobs.ts:633-648 | the job and all its uncompleted tasks are cancelled and their slots given back; other jobs untouched |
| Manager.JobManager.SweepTimeouts | community-ai/packages/coordinator/src/jobs.ts:651-665 | every job has its timed-out tasks requeued, in order; the state is that of `Coordinator.SweepJobs` |
| Manager.JobManager.RunDeferred | community-ai/packages/coordinator/src/jobs.ts:439-468 | one scheduled pump of one job runs, if any is left; other jobs untouched |
| Manager.JobManager.DropNode | community-ai/packages/coordinator/src/server.ts:326-333 | the registry forgets the node and the manager is told at once |
| Governor.ResourceGovernor.Update | community-ai/packages/worker-node/src/agents/governor.ts:75-159 | the stepwise update computes the specified next state and report |
| Governor.ResourceGovernor.Aim | community-ai/packages/worker-node/src/agents/governor.ts:76-140 | lowering the target step by step gives the least of all caps, never below zero |
| Governor.ResourceGovernor.SetManualPause | community-ai/packages/worker-node/src/agents/governor.ts:62-69 | pausing empties the governor at once, resuming only lifts the flag |
| Governor.ResourceGovernor.MarkContributing | community-ai/packages/worker-node/src/agents/governor.ts:162-164 | only an available governor is marked |
| OwnerFirst.OwnerGetsMachineBack | community-ai/packages/worker-node/src/agents/governor.ts:75-155 | two sensings in a row with a busy owner, too little memory, critical heat, a battery that forbids it or no ready runtime leave capacity zero and the state paused, after any history, if and only if the ceiling is at most 1.01 |
| OwnerFirst.GivenBackIsLeftAlone | community-ai/packages/coordinator/src/scheduler.ts:60-66 | the coordinator that hears such a report finds the machine eligible for nothing |
| OwnerFirst.TargetExactly | community-ai/packages/worker-node/src/agents/governor.ts:87-140 | the target is nothing when anything forbids, and otherwise the least of the ceiling and every cap that applies: 60% of the ceiling times the remaining part of the span for a busy owner, 0.3 in tight memory, 0.25 hot, three quarters of the ceiling warm, the battery capacity on battery |
| OwnerFirst.CapBinds | community-ai/packages/worker-node/src/agents/governor.ts:87-155 | one sensing brings capacity down to every such cap as far as one step of 0.5 goes |
| OwnerFirst.CapReached | community-ai/packages/worker-node/src/agents/governor.ts:87-155 | two sensings under the same cap bring it down all the way, with a ceiling of at most one |
| OwnerFirst.Settles | community-ai/packages/worker-node/src/agents/governor.ts:142-155 | sensing the same long enough at 0.12 a step settles capacity exactly on the target |
| OwnerFirst.CeilingReached | community-ai/packages/worker-node/src/agents/governor.ts:142-155 | with nothing that forbids or caps the ceiling itself is reached |
| OwnerFirst.StateTells | community-ai/packages/worker-node/src/agents/governor.ts:142-155 | the state after a sensing tells whether capacity is zero, rising towards the target, being lowered, or at the target |
| OwnerFirst.HandPauseHolds | community-ai/packages/worker-node/src/agents/governor.ts:62-85 | once paused by hand nothing is lent, whatever is sensed, until the owner resumes |
| OwnerFirst.ReportSays | community-ai/packages/worker-node/src/agents/governor.ts:166-184 | the report tells the capacity to the nearest percent, allows tasks exactly while there is capacity, and offers the stated model memory, or 85% of the free video memory, or the memory above the floor |
| Governor.Domination | community-ai/packages/worker-node/src/agents/governor.ts:75-159 | over whole runs, a governor that sees no gentler signals (owner no less busy, no more free memory, paused whenever the other is) never has the larger capacity, for any options |
| Governor.WithinLimits | community-ai/packages/worker-node/src/agents/governor.ts:140-155 | capacity stays between zero and the ceiling over every run |
| Governor.StepLimits | community-ai/packages/worker-node/src/agents/governor.ts:142-155 | capacity rises at most 0.12 a signal, and falls by more than one step down only when paused |
| Governor.TwoTicksToZero | community-ai/packages/worker-node/src/agents/governor.ts:145-155 | two ticks with nothing allowed empty the governor from every reachable state if and only if its ceiling is at most 1.01 |
| Governor.RampFromZero | community-ai/packages/worker-node/src/agents/governor.ts:142-144 | from zero, k ticks at a steady target above 0.01 give min(target, 0.12 * k) |
| Governor.PausedIffEmpty | community-ai/packages/worker-node/src/agents/governor.ts:142-164 | from the first update on, the state is paused exactly when capacity is zero, and marking work in progress cannot break that |
| Layers.CutLayers | crates/community-scheduler/src/lib.rs:79-87 | the range loop computes the specified ranges, or stops where 32-bit arithmetic does |
| Layers.NoOverflow | crates/community-model-manager/src/lib.rs:30-35 | when layers plus parts fit 32 bits no later product overflows |
| Layers.ExactlyOne | crates/community-scheduler/src/lib.rs:86-87 | every layer lies in exactly one range, whatever the numbers |
| Layers.WellFormedIff | crates/community-scheduler/src/lib.rs:86-88 | no range is reversed if and only if (parts - 1) * ceil(layers / parts) <= layers |
| Layers.EnoughLayers | crates/community-model-manager/src/lib.rs:29-44 | (parts - 1) squared at most the number of layers is enough for that |
| Layers.Contiguous | crates/community-scheduler/src/lib.rs:82-88 | ranges that are not reversed follow one another from 0 to the total and their lengths add up to it |
| Layers.ReversedRange | crates/community-scheduler/src/lib.rs:86-88 | five layers over four parts give the reversed range [6, 5) |
| LatencyPlanner.PlanPipeline | crates/community-scheduler/src/lib.rs:38-123 | the planner computes the specified outcome: a plan, the error result, or a stop when a range is reversed or 32 bits overflow |
| LatencyPlanner.ExhaustedExactly | crates/community-scheduler/src/lib.rs:44-77 | the error result is returned if and only if no node offers 256 MB or those that do pool too little |
| LatencyPlanner.PlanHolds | crates/community-scheduler/src/lib.rs:62-77 | whenever some non-empty choice of offering nodes holds the model, the chosen prefix does |
| LatencyPlanner.BottleneckOptimal | crates/community-scheduler/src/lib.rs:54-77 | whatever latency limit some such choice keeps to, every node of the chosen prefix keeps to: its worst latency is the smallest possible |
| LatencyPlanner.NeedExactly | crates/community-scheduler/src/lib.rs:44-48 | a model needs its size and 15% more, rounded down |
| LatencyPlanner.HeadIsClosest | crates/community-scheduler/src/lib.rs:54-110 | the chain of a plan is of machines offering 256 MB or more, closest first; its head is the first, and no such machine is closer |
| LatencyPlanner.PlanTiles | crates/community-scheduler/src/lib.rs:82-103 | in a plan every layer belongs to exactly one member |
| Shards.CreateDefaultFlagship | crates/community-model-manager/src/lib.rs:29-53 | the manifest loop computes the specified shards |
| Shards.ScoreExactly | crates/community-model-manager/src/lib.rs:63-76 | the score is demand times free memory times 100 over one more than the replicas, the size in megabytes and ten more than the latency |
| Shards.ManifestCovers | crates/community-model-manager/src/lib.rs:29-53 | a default manifest has its shards in order, of 512 MB each, and every layer in exactly one |
| Shards.FewerIsBetter | crates/community-model-manager/src/lib.rs:63-76 | with equal sizes and some memory, a shard scores strictly higher exactly when it has fewer replicas |
| Shards.BestIsNext | crates/community-model-manager/src/lib.rs:79-97 | with replicas dealt in turn the best-scoring shard is the next in turn |
| Shards.GreedyIsRoundRobin | crates/community-simulator/src/main.rs:93-103 | placing nodes greedily by score gives the n-th node with any memory shard n mod k of a default manifest |
| Shards.Balanced | crates/community-simulator/src/main.rs:93-103 | replica counts never differ by more than one |
| Shards.NoMemoryGetsFirst | crates/community-model-manager/src/lib.rs:79-97 | a node without memory is always given the first shard |
| Shards.PlaceAll | crates/community-simulator/src/main.rs:93-103 | the placement loop computes the specified replica counts |

## Left out

- JobCore.DrainAll: where the walk of the source never ends, the model stops at the second rebuild and goes on, which only adds runs; `JobCore.DrainEnds` and the result of `Manager.JobManager.DrainQueues` mark that case.
- Manager.JobManager.RunDeferred: scheduled pumps run at any later point instead of directly after the current event, which only adds runs.
- Manager.ManagedJob.SetTask: task records are values in the job's list, so aliasing between a task held by a caller and the stored one is not captured; jobs, registry and manager are objects.
- Registry.DeviceRegistry.UpdateHeartbeat: jitter and model status are not part of the record.
- Registry.DeviceRegistry.RecordPong: the round trip is an input; matching a pong with its pending ping is not modelled.
- Coordinator.Step: node, job and task ids are numbers, fresh task ids are positions in the job's task list, and sorting ids by locale is sorting numbers.
- Forming.FormCluster: the memory a profile makes usable and the throughput guessed from hardware are inputs of the model.
- Scheduler.EligibleNodes: the lists of warmable nodes and of reasons for ineligibility feed messages only.
- LatencyPlanner.PlanPipeline: the floating-point layer shares and the megabytes derived from them; the sum of latencies is exact, and not-a-number latencies are excluded.
- LatencyPlanner.NeedExactly: the need is exact; the product of 32-bit floats may differ from it by a rounding.
- Shards.FewerIsBetter: scores are exact reals, so ties caused by rounding in 32-bit floats are not captured, and round-trip times are not negative.
- Governor.ResourceGovernor.Update: capacities are exact reals, so drift of repeated 0.12 steps in floating point is not captured; reasons are dropped.
- Layers.CutLayers: arithmetic beyond 32 bits stops the program, as in a build with overflow checks.
- Human-readable reasons, labels, error texts, events, views, wall-clock statistics and the `model:prepare` messages.
- HTTP, WebSocket, timers and process handling of the server; the worker's own task queue; llama.cpp, downloads and hardware probing.
- Estimated hop times and the latency ceiling of a plan; ascending latency order is not claimed to be the cheapest chain.
- The Rust workload analysis, which only compares the largest and the pooled memory with the need.
- The browser governor and the Rust governor, the shard cache, the peer registry, signatures and hashes.
- Progress of several jobs at once, late or duplicate answers, and sends that keep failing.
