/** What the invariant means for whoever submits a job or lends a machine. */
module Guarantees {
  import opened Collections
  import opened Protocol
  import opened JobCore
  import opened JobInvariants
  import opened JobSteps
  import opened JobEvents
  import opened Coordinator
  import opened Submission
  import opened RunProofs
  import opened Safety
  import opened Sorting
  import opened Choices

  // ---- no task is lost or duplicated ----

  /** t sits at position i of n's queue. */
  ghost predicate QueuedAt(job: Job, t: TaskId, n: NodeId, i: nat) {
    n in job.queues.items && i < |job.queues.items[n]| && job.queues.items[n][i] == t
  }

  lemma {:induction false} GatherFinds(keys: seq<NodeId>, queues: Queues, t: TaskId) returns (n: NodeId)
    requires Gather(keys, queues)[t] >= 1
    ensures n in keys && t in QueueOf(queues, n)
  {
    if t in QueueOf(queues, keys[0]) {
      n := keys[0];
    } else {
      var own: multiset<TaskId> := multiset(QueueOf(queues, keys[0]));
      assert own[t] == 0;
      n := GatherFinds(keys[1..], queues, t);
    }
  }

  lemma {:induction false} GatherTwo(keys: seq<NodeId>, queues: Queues, n: NodeId, m: NodeId, t: TaskId)
    requires Distinct(keys) && n in keys && m in keys && n != m
    requires t in QueueOf(queues, n) && t in QueueOf(queues, m)
    ensures Gather(keys, queues)[t] >= 2
  {
    assert keys == [keys[0]] + keys[1..];
    var own: multiset<TaskId> := multiset(QueueOf(queues, keys[0]));
    if keys[0] == n {
      QueuedMember(keys[1..], queues, m);
    } else if keys[0] == m {
      QueuedMember(keys[1..], queues, n);
    } else {
      GatherTwo(keys[1..], queues, n, m, t);
    }
  }

  /** In every reachable state a task that waits is at exactly one place of exactly one
      queue, and any other task is in no queue. */
  lemma TaskInOneQueue(s: State, j: JobId, t: TaskId)
    requires StateInv(s) && j in s.jobs.items
    ensures var job := s.jobs.items[j];
            && (t < |job.tasks| && job.tasks[t].Waiting() <==> exists n, i :: QueuedAt(job, t, n, i))
            && (forall n, i, m, k :: QueuedAt(job, t, n, i) && QueuedAt(job, t, m, k) ==> n == m && i == k)
  {
    hide Gather, TasksOk, Reachable, ReduceOk, PipelineOk, TerminalOk, TokensOk, LogsOk, SlotsExact;
    var job := s.jobs.items[j];
    assert Conserved(job, {});
    if t < |job.tasks| && job.tasks[t].Waiting() {
      var n := GatherFinds(job.queues.keys, job.queues, t);
      var i :| 0 <= i < |QueueOf(job.queues, n)| && QueueOf(job.queues, n)[i] == t;
      assert QueuedAt(job, t, n, i);
    }
    forall n, i | QueuedAt(job, t, n, i)
      ensures t < |job.tasks| && job.tasks[t].Waiting()
    {
      QueuedMember(job.queues.keys, job.queues, n);
      assert t in QueueOf(job.queues, n);
    }
    forall n, i, m, k | QueuedAt(job, t, n, i) && QueuedAt(job, t, m, k)
      ensures n == m && i == k
    {
      SamePlace(job, t, n, i, m, k);
    }
  }

  lemma SamePlace(job: Job, t: TaskId, n: NodeId, i: nat, m: NodeId, k: nat)
    requires Conserved(job, {}) && QueuedAt(job, t, n, i) && QueuedAt(job, t, m, k)
    ensures n == m && i == k
  {
    assert Queued(job.queues)[t] <= 1;
    if n != m {
      GatherTwo(job.queues.keys, job.queues, n, m, t);
    } else {
      QueueDistinct(job, n);
    }
  }

  /** A task in flight is on a machine that is still connected. */
  lemma FlightIsConnected(s: State, j: JobId, t: TaskId)
    requires StateInv(s) && j in s.jobs.items && t < |s.jobs.items[j].tasks| && s.jobs.items[j].tasks[t].InFlight()
    ensures var task := s.jobs.items[j].tasks[t];
            task.nodeId.Some? && task.nodeId.value in s.nodes.items && s.nodes.items[task.nodeId.value].activeTasks >= 1
  {
    hide Conserved, Reachable, ReduceOk, PipelineOk, TerminalOk, TokensOk, LogsOk;
    var job := s.jobs.items[j];
    assert TaskOk(s.cfg.maxTaskAttempts, job, t, s.nodes.items.Keys);
    var n := job.tasks[t].nodeId.value;
    SumAtLeast(job.tasks, t, HoldsSlot(n));
    SumMember(s.jobs.keys, LoadAt(s.jobs.items, n), j);
  }

  // ---- slots and counters ----

  lemma CounterFacts(s: State)
    requires StateInv(s)
    ensures forall n :: n in s.nodes.items ==> s.nodes.items[n].activeTasks == TotalLoad(s, n)
    ensures s.completedCount == CompletedTotal(s)
    ensures forall i | 0 <= i < |s.log| :: s.log[i].Permitted()
  {
    hide TotalLoad, CompletedTotal, JobsOk;
  }

  /** After any admissible run from the start, each node's slot counter is the number of
      tasks assigned to or running on it, over all jobs; every send there ever was found
      the counter below the limit; and the completed jobs have been counted exactly. */
  lemma CountersAreExact(cfg: Config, now: int, events: seq<Event>)
    requires cfg.maxTaskAttempts >= 1 && AdmissibleRun(Start0(cfg, now), events)
    ensures var s := Run(Start0(cfg, now), events);
            && (forall n :: n in s.nodes.items ==> s.nodes.items[n].activeTasks == TotalLoad(s, n))
            && s.completedCount == CompletedTotal(s)
            && (forall i | 0 <= i < |s.log| :: s.log[i].load == 0 || s.log[i].load < s.log[i].allowed)
  {
    hide StateInv, TotalLoad, CompletedTotal, AdmissibleRun, Run, Start0;
    EveryRunIsSafe(cfg, now, events);
    CounterFacts(Run(Start0(cfg, now), events));
  }

  // ---- retries ----

  ghost function OfJob(serial: nat): Assignment -> nat {
    (a: Assignment) => if a.serial == serial then 1 else 0
  }

  /** All successful sends of a job's tasks. */
  ghost function JobSends(log: seq<Assignment>, serial: nat): nat {
    Sum(log, OfJob(serial))
  }

  ghost function SendsBelow(log: seq<Assignment>, serial: nat, k: nat): nat {
    if k == 0 then 0 else SendsBelow(log, serial, k - 1) + TimesSent(log, serial, k - 1)
  }

  lemma {:induction false} SendsBelowCons(log: seq<Assignment>, serial: nat, k: nat)
    requires log != []
    ensures SendsBelow(log, serial, k) == SendsBelow(log[1..], serial, k)
              + if log[0].serial == serial && log[0].task < k then 1 else 0
  {
    if k > 0 {
      SendsBelowCons(log, serial, k - 1);
    }
  }

  lemma {:induction false} SendsAreTasks(log: seq<Assignment>, serial: nat, k: nat)
    requires forall i | 0 <= i < |log| && log[i].serial == serial :: log[i].task < k
    ensures JobSends(log, serial) == SendsBelow(log, serial, k)
  {
    if log == [] {
      NothingSent(serial, k);
    } else {
      SendsAreTasks(log[1..], serial, k);
      SendsBelowCons(log, serial, k);
    }
  }

  lemma {:induction false} NothingSent(serial: nat, k: nat)
    ensures SendsBelow([], serial, k) == 0
  {
    if k > 0 {
      NothingSent(serial, k - 1);
    }
  }

  lemma {:induction false} SendsBounded(log: seq<Assignment>, serial: nat, k: nat, max: nat)
    requires forall t: TaskId | t < k :: TimesSent(log, serial, t) <= max
    ensures SendsBelow(log, serial, k) <= max * k
  {
    if k > 0 {
      SendsBounded(log, serial, k - 1, max);
      assert max * k == max * (k - 1) + max;
    }
  }

  /** The number of map tasks: all but the one reduce. */
  function MapTasks(job: Job): nat {
    if job.reduceDispatched && job.tasks != [] then |job.tasks| - 1 else |job.tasks|
  }

  lemma RetryFacts(s: State, j: JobId)
    requires StateInv(s) && j in s.jobs.items
    ensures TasksOk(s.cfg.maxTaskAttempts, s.jobs.items[j], s.nodes.items.Keys)
    ensures forall t: TaskId :: TimesSent(s.log, s.jobs.items[j].serial, t) == Attempts(s.jobs.items[j], t)
    ensures forall i | 0 <= i < |s.log| :: s.log[i].Permitted()
  {
    hide TimesSent, Attempts, TasksOk;
  }

  lemma SendsWithin(log: seq<Assignment>, job: Job, max: nat)
    requires forall t: TaskId :: TimesSent(log, job.serial, t) == Attempts(job, t)
    requires forall t: TaskId :: Attempts(job, t) <= max
    ensures JobSends(log, job.serial) <= max * (MapTasks(job) + 1)
  {
    hide TimesSent, SendsBelow, JobSends;
    forall i | 0 <= i < |log| && log[i].serial == job.serial
      ensures log[i].task < |job.tasks|
    {
      SentAtLeastOnce(log, i);
    }
    SendsAreTasks(log, job.serial, |job.tasks|);
    SendsBounded(log, job.serial, |job.tasks|, max);
    ProductMonotone(max, |job.tasks|, MapTasks(job) + 1);
  }

  lemma ProductMonotone(max: nat, a: nat, b: nat)
    requires a <= b
    ensures max * a <= max * b
  {
  }

  /** No task is ever sent out more often than the limit allows, a task that still waits
      has an attempt left, and a job causes at most limit * (maps + 1) sends. Every send
      found a free slot. */
  lemma RetriesBounded(s: State, j: JobId)
    requires StateInv(s) && j in s.jobs.items && s.cfg.maxTaskAttempts >= 1
    ensures var job, max := s.jobs.items[j], s.cfg.maxTaskAttempts;
            && (forall t: TaskId :: TimesSent(s.log, job.serial, t) <= max)
            && (forall t: TaskId :: t < |job.tasks| && job.tasks[t].Waiting() ==> TimesSent(s.log, job.serial, t) < max)
            && JobSends(s.log, job.serial) <= max * (MapTasks(job) + 1)
            && (forall i | 0 <= i < |s.log| :: s.log[i].load == 0 || s.log[i].load < s.log[i].allowed)
  {
    hide StateInv, TimesSent, JobSends;
    var job, max := s.jobs.items[j], s.cfg.maxTaskAttempts;
    RetryFacts(s, j);
    forall t: TaskId
      ensures Attempts(job, t) <= max
      ensures t < |job.tasks| && job.tasks[t].Waiting() ==> Attempts(job, t) < max
    {
      if t < |job.tasks| { assert TaskOk(max, job, t, s.nodes.items.Keys); }
    }
    SendsWithin(s.log, job, max);
  }

  lemma SentAtLeastOnce(log: seq<Assignment>, i: nat)
    requires i < |log|
    ensures TimesSent(log, log[i].serial, log[i].task) >= 1
  {
    SumAtLeast(log, i, Of(log[i].serial, log[i].task));
  }

  // ---- finished jobs ----

  /** A job completes only when all its map tasks and its reduce, if any, are finished; it
      has at most one reduce task, and it has counted exactly the tokens of its completed
      tasks. */
  lemma CompletionIsSound(s: State, j: JobId)
    requires StateInv(s) && j in s.jobs.items
    ensures var job := s.jobs.items[j];
            && (job.status == JobCompleted ==> forall t | 0 <= t < |job.tasks| :: job.tasks[t].Finished())
            && (forall t, u | 0 <= t < |job.tasks| && 0 <= u < |job.tasks|
                  && job.tasks[t].phase == ReducePhase && job.tasks[u].phase == ReducePhase :: t == u)
            && job.totalTokens == Sum(job.tasks, TokensOf)
  {
    hide Conserved, Reachable, ReduceOk, PipelineOk, LogsOk, SlotsExact;
    var job := s.jobs.items[j];
    forall t | 0 <= t < |job.tasks|
      ensures job.status == JobCompleted ==> job.tasks[t].Finished()
      ensures job.tasks[t].phase == ReducePhase ==> t == |job.tasks| - 1
    {
      assert TaskOk(s.cfg.maxTaskAttempts, job, t, s.nodes.items.Keys);
    }
  }

  // ---- the output does not depend on the schedule ----

  /** Same requests, and the maps ended alike: who ran them, how often, and in which order
      may differ. */
  ghost predicate SameMaps(a: Job, b: Job) {
    && a.request == b.request
    && MapTasks(a) == MapTasks(b)
    && forall t | 0 <= t < MapTasks(a) :: SameContribution(a.tasks[t], b.tasks[t])
  }

  ghost predicate UsableReduce(job: Job) {
    exists r :: 0 <= r < |job.tasks| && job.tasks[r].phase == ReducePhase && job.tasks[r].status == Completed
                && Trim(job.tasks[r].output) != ""
  }

  lemma MapsOnly(max: int, job: Job, reach: set<NodeId>)
    requires TasksOk(max, job, reach)
    ensures MapOutputs(job.tasks) == MapOutputs(job.tasks[..MapTasks(job)])
  {
    hide MapOutputs;
    if job.reduceDispatched && job.tasks != [] {
      var last := |job.tasks| - 1;
      assert TaskOk(max, job, last, reach);
      assert job.tasks == job.tasks[..last] + [job.tasks[last]];
      MapOutputsPush(job.tasks[..last], job.tasks[last]);
    } else {
      assert job.tasks[..|job.tasks|] == job.tasks;
    }
  }

  lemma JobFacts(s: State, j: JobId)
    requires StateInv(s) && j in s.jobs.items
    ensures TasksOk(s.cfg.maxTaskAttempts, s.jobs.items[j], s.nodes.items.Keys)
    ensures ReduceOk(s.jobs.items[j]) && TerminalOk(s.jobs.items[j])
  {
  }

  /** Two jobs, in any two reachable states, whose maps ended alike have the same combined
      map output: the reduce is asked the same question, and without a usable reduce the
      final output is the same. */
  lemma OutputIgnoresSchedule(s: State, j: JobId, r: State, k: JobId)
    requires StateInv(s) && j in s.jobs.items && StateInv(r) && k in r.jobs.items
    requires SameMaps(s.jobs.items[j], r.jobs.items[k])
    ensures var a, b := s.jobs.items[j], r.jobs.items[k];
            && (a.reduceDispatched && b.reduceDispatched ==>
                  a.tasks[|a.tasks| - 1].messages == b.tasks[|b.tasks| - 1].messages)
            && (a.status == JobCompleted && b.status == JobCompleted && !UsableReduce(a) && !UsableReduce(b) ==>
                  a.output == b.output)
  {
    hide MapOutputs, Trim, Join, Numbered, StateInv, TasksOk, FinalOutput, UsableReduce, SameContribution;
    var a, b := s.jobs.items[j], r.jobs.items[k];
    JobFacts(s, j);
    JobFacts(r, k);
    SameOutputs(s.cfg.maxTaskAttempts, a, s.nodes.items.Keys, r.cfg.maxTaskAttempts, b, r.nodes.items.Keys);
    if !UsableReduce(a) && !UsableReduce(b) {
      PlainOutput(a);
      PlainOutput(b);
    }
  }

  lemma SameOutputs(maxA: int, a: Job, reachA: set<NodeId>, maxB: int, b: Job, reachB: set<NodeId>)
    requires TasksOk(maxA, a, reachA) && TasksOk(maxB, b, reachB) && SameMaps(a, b)
    ensures MapOutputs(a.tasks) == MapOutputs(b.tasks)
  {
    hide MapOutputs, SameContribution;
    MapsOnly(maxA, a, reachA);
    MapsOnly(maxB, b, reachB);
    MapOutputsFrame(a.tasks[..MapTasks(a)], b.tasks[..MapTasks(b)]);
  }

  lemma PlainOutput(job: Job)
    requires !UsableReduce(job)
    ensures FinalOutput(job.tasks) == Join(MapOutputs(job.tasks), "\n\n")
  {
    hide MapOutputs, Trim, Join;
  }

  function Succeeded(tasks: seq<Task>): (r: seq<Task>)
    ensures forall x :: x in r ==> x in tasks
  {
    if tasks == [] then []
    else if tasks[0].phase != ReducePhase && tasks[0].status == Completed then [tasks[0]] + Succeeded(tasks[1..])
    else Succeeded(tasks[1..])
  }

  function ByIndex(task: Task): Rank {
    Rank(task.index as real, 0.0)
  }

  function Texts(tasks: seq<Task>): seq<string> {
    if tasks == [] then [] else [Trim(tasks[0].output)] + Texts(tasks[1..])
  }

  lemma {:induction false} SucceededAscend(tasks: seq<Task>, from: nat)
    requires forall t | 0 <= t < |tasks| :: tasks[t].index == from + t
    ensures Sorted(Succeeded(tasks), ByIndex)
    ensures forall x | x in Succeeded(tasks) :: x.index >= from
    ensures Texts(Succeeded(tasks)) == MapOutputs(tasks)
  {
    hide Trim;
    if tasks != [] {
      SucceededAscend(tasks[1..], from + 1);
      var rest := Succeeded(tasks[1..]);
      assert ([tasks[0]] + rest)[1..] == rest;
    }
  }

  /** The outputs are those of the successful maps in the order of their item index: the
      order in which tasks were made is already the order the source sorts them into. */
  lemma OutputsByIndex(s: State, j: JobId)
    requires StateInv(s) && j in s.jobs.items
    ensures var tasks := s.jobs.items[j].tasks;
            MapOutputs(tasks) == Texts(StableSort(Succeeded(tasks), ByIndex))
  {
    hide StateInv, MapOutputs, Succeeded, Texts, StableSort, ReduceOk, TerminalOk;
    var job := s.jobs.items[j];
    JobFacts(s, j);
    forall t | 0 <= t < |job.tasks|
      ensures job.tasks[t].index == t
    {
      assert TaskOk(s.cfg.maxTaskAttempts, job, t, s.nodes.items.Keys);
    }
    SucceededAscend(job.tasks, 0);
    AlreadySorted(Succeeded(job.tasks), ByIndex);
  }

  // ---- terminal states are absorbing ----

  ghost predicate Frozen(a: Job, b: Job) {
    a.Terminal() ==> b.status == a.status && b.output == a.output && b.serial == a.serial
  }

  /** Every other job than the one an update is about stays as it was. */
  ghost predicate JobsFrozen(s: State, r: State) {
    forall j :: j in s.jobs.items ==> j in r.jobs.items && Frozen(s.jobs.items[j], r.jobs.items[j])
  }

  lemma PutFrozen(s: State, j: JobId, d: Ctx)
    requires j in s.jobs.items && Frozen(s.jobs.items[j], d.job)
    ensures JobsFrozen(s, Put(s, j, d))
  {
  }

  lemma FrozenTrans(a: State, b: State, c: State)
    requires JobsFrozen(a, b) && JobsFrozen(b, c)
    ensures JobsFrozen(a, c)
  {
  }

  lemma {:induction false} LoseFrozen(s: State, k: nat, n: NodeId)
    requires s.jobs.Valid()
    ensures JobsFrozen(s, LoseFrom(s, k, n))
    decreases |s.jobs.keys| - k
  {
    if k < |s.jobs.keys| {
      hide Pump, RequeueHeld, MoveQueue;
      var j := s.jobs.keys[k];
      var d := NodeLost(CtxOf(s, s.jobs.items[j]), n);
      PutFrozen(s, j, d);
      LoseFrozen(Put(s, j, d), k + 1, n);
      FrozenTrans(s, Put(s, j, d), LoseFrom(s, k, n));
    }
  }

  lemma {:induction false} SweepFrozen(s: State, k: nat)
    requires s.jobs.Valid()
    ensures JobsFrozen(s, SweepJobs(s, k))
    decreases |s.jobs.keys| - k
  {
    if k < |s.jobs.keys| {
      hide SweepFrom;
      var j := s.jobs.keys[k];
      var d := Sweep(CtxOf(s, s.jobs.items[j]));
      PutFrozen(s, j, d);
      SweepFrozen(Put(s, j, d), k + 1);
      FrozenTrans(s, Put(s, j, d), SweepJobs(s, k));
    }
  }

  lemma {:induction false} CancelKeepsOutput(c: Ctx, t: nat)
    ensures var d := CancelFrom(c, t).job;
            d.output == c.job.output && d.status == c.job.status && d.serial == c.job.serial
    decreases |c.job.tasks| - t
  {
    if t < |c.job.tasks| {
      var task := c.job.tasks[t];
      var nodes := if task.InFlight() then FreeSlot(c.nodes, task.nodeId) else c.nodes;
      var job := if task.status != Completed then WithTask(c.job, t, task.(status := Cancelled)) else c.job;
      CancelKeepsOutput(c.(job := job, nodes := nodes), t + 1);
    }
  }

  /** A finished job has nothing in flight, so no answer about it can be due. */
  lemma OnlyControl(s: State, j: JobId, e: Event)
    requires StateInv(s) && Admissible(s, e) && j in s.jobs.items && s.jobs.items[j].Terminal()
    requires e.TaskAccepted? || e.TaskRejected? || e.TaskToken? || e.TaskCompleted? || e.TaskFailure?
             || e.CancelRequested? || e.PumpDue?
    requires e.job == j
    ensures e.CancelRequested? || e.PumpDue?
  {
    hide StateInv, TotalLoad;
    JobFacts(s, j);
  }

  lemma ControlFrozen(c: Ctx)
    requires c.job.Terminal()
    ensures Frozen(c.job, Cancel(c).job) && Frozen(c.job, DeferredPump(c).job)
  {
    hide CancelFrom, MaybeFinish, Steal, DrainAll;
    CancelKeepsOutput(c.(job := c.job.(status := JobCancelled)), 0);
  }

  lemma JobsPresentInv(s: State)
    requires StateInv(s)
    ensures s.jobs.Valid()
  {
  }

  /** Completed, failed and cancelled are absorbing: no admissible event other than
      submitting the same id again changes such a job's status or output. */
  lemma TerminalIsAbsorbing(s: State, e: Event, j: JobId)
    requires StateInv(s) && Admissible(s, e) && j in s.jobs.items && s.jobs.items[j].Terminal()
    requires !(e.Submit? && e.job == j)
    ensures j in Step(s, e).jobs.items && Frozen(s.jobs.items[j], Step(s, e).jobs.items[j])
  {
    hide StateInv, LoseFrom, SweepJobs, Start, NextCursor, Done, JobCore.TaskFailed, Declined, Accepted, Token, Cancel,
         DeferredPump, TotalLoad;
    JobsPresentInv(s);
    var c := CtxOf(s, s.jobs.items[j]);
    match e
    case NodeDropped(n) => LoseFrozen(s.(nodes := s.nodes.Delete(n)), 0, n);
    case SweepDue => SweepFrozen(s, 0);
    case NodeJoined(_, _) =>
    case NodeHeartbeat(_, _, _, _, _) =>
    case NodePong(_, _) =>
    case NodePresence(_, _, _) =>
    case Clock(_) =>
    case Submit(_, _) =>
    case CancelRequested(_) => ControlFrozen(c);
    case PumpDue(_) => ControlFrozen(c);
    case _ =>
      if e.job == j { OnlyControl(s, j, e); }
  }
}
