/** What every operation of the Job Manager keeps: no task is lost or queued twice, slots
    are exact, retries are bounded, finished jobs stay finished. */
module JobInvariants {
  import opened Collections
  import opened Protocol
  import opened JobCore
  import opened Choices

  // ---- counting ----

  /** 1 for a task that holds one of n's slots. */
  ghost function HoldsSlot(n: NodeId): Task -> nat {
    (task: Task) => if task.On(n) then 1 else 0
  }

  /** How many of the job's tasks are assigned to or running on n. */
  ghost function Load(job: Job, n: NodeId): nat {
    Sum(job.tasks, HoldsSlot(n))
  }

  ghost function Of(serial: nat, t: TaskId): Assignment -> nat {
    (a: Assignment) => if a.serial == serial && a.task == t then 1 else 0
  }

  /** How often the task was successfully sent to a worker. */
  ghost function TimesSent(log: seq<Assignment>, serial: nat, t: TaskId): nat {
    Sum(log, Of(serial, t))
  }

  ghost function Attempts(job: Job, t: TaskId): nat {
    if t < |job.tasks| then job.tasks[t].attempts else 0
  }

  ghost function TokensOf(task: Task): nat {
    if task.status == Completed && task.metrics.Some? then task.metrics.value.tokens else 0
  }

  /** The ids in all queues together. */
  ghost function Gather(keys: seq<NodeId>, queues: Queues): multiset<TaskId> {
    if keys == [] then multiset{}
    else multiset(QueueOf(queues, keys[0])) + Gather(keys[1..], queues)
  }

  ghost function Queued(queues: Queues): multiset<TaskId> {
    Gather(queues.keys, queues)
  }

  lemma {:induction false} GatherFrame(keys: seq<NodeId>, a: Queues, b: Queues)
    requires forall n :: n in keys ==> QueueOf(a, n) == QueueOf(b, n)
    ensures Gather(keys, a) == Gather(keys, b)
  {
    if keys != [] {
      GatherFrame(keys[1..], a, b);
    }
  }

  lemma {:induction false} GatherSet(keys: seq<NodeId>, queues: Queues, n: NodeId, q: seq<TaskId>)
    requires Distinct(keys) && n in keys
    ensures Gather(keys, queues.Set(n, q)) + multiset(QueueOf(queues, n)) == Gather(keys, queues) + multiset(q)
  {
    var rest := keys[1..];
    if keys[0] == n {
      assert n !in rest;
      GatherFrame(rest, queues, queues.Set(n, q));
    } else {
      GatherSet(rest, queues, n, q);
      assert QueueOf(queues.Set(n, q), keys[0]) == QueueOf(queues, keys[0]);
      var own := multiset(QueueOf(queues, keys[0]));
      assert (own + Gather(rest, queues.Set(n, q))) + multiset(QueueOf(queues, n))
          == own + (Gather(rest, queues.Set(n, q)) + multiset(QueueOf(queues, n)));
      assert (own + Gather(rest, queues)) + multiset(q) == own + (Gather(rest, queues) + multiset(q));
    }
  }

  lemma {:induction false} GatherPush(keys: seq<NodeId>, n: NodeId, queues: Queues)
    ensures Gather(keys + [n], queues) == Gather(keys, queues) + multiset(QueueOf(queues, n))
  {
    if keys == [] {
      assert keys + [n] == [n];
      assert [n][1..] == [];
    } else {
      assert (keys + [n])[1..] == keys[1..] + [n];
      GatherPush(keys[1..], n, queues);
    }
  }

  /** Replacing one queue exchanges its ids and touches no other. */
  lemma QueuedSet(queues: Queues, n: NodeId, q: seq<TaskId>)
    requires queues.Valid()
    ensures Queued(queues.Set(n, q)) + multiset(QueueOf(queues, n)) == Queued(queues) + multiset(q)
  {
    if n in queues.items {
      GatherSet(queues.keys, queues, n, q);
    } else {
      GatherPush(queues.keys, n, queues.Set(n, q));
      GatherFrame(queues.keys, queues, queues.Set(n, q));
    }
  }

  lemma {:induction false} GatherWithout(keys: seq<NodeId>, queues: Queues, n: NodeId)
    requires Distinct(keys)
    ensures Gather(keys, queues)
         == Gather(Without(keys, n), queues) + (if n in keys then multiset(QueueOf(queues, n)) else multiset{})
  {
    if keys != [] {
      GatherWithout(keys[1..], queues, n);
    }
  }

  lemma QueuedDelete(queues: Queues, n: NodeId)
    requires queues.Valid()
    ensures Queued(queues.Delete(n)) + multiset(QueueOf(queues, n)) == Queued(queues)
  {
    GatherWithout(queues.keys, queues, n);
    GatherFrame(Without(queues.keys, n), queues, queues.Delete(n));
  }

  lemma {:induction false} QueuedMember(keys: seq<NodeId>, queues: Queues, n: NodeId)
    requires n in keys
    ensures multiset(QueueOf(queues, n)) <= Gather(keys, queues)
  {
    if keys[0] != n {
      QueuedMember(keys[1..], queues, n);
    }
  }

  lemma UnionSize<T>(a: set<T>, b: set<T>)
    ensures |a + b| <= |a| + |b|
  {
  }

  /** The position bound in `DrainAll` is never what stops it. */
  lemma QueuesFit(queues: Queues, before: Queues, nodes: Nodes)
    requires queues.Valid()
    requires forall n :: n in queues.keys ==> n in before.keys || n in nodes.keys
    ensures |queues.keys| <= |before.keys| + |nodes.keys|
  {
    hide Distinct;
    UnionSize(Elements(before.keys), Elements(nodes.keys));
    DistinctFits(queues.keys, Elements(before.keys) + Elements(nodes.keys));
  }

  ghost function Elements(s: seq<NodeId>): (r: set<NodeId>)
    ensures forall n :: n in r <==> n in s
    ensures |r| <= |s|
  {
    if s == [] then {} else {s[0]} + Elements(s[1..])
  }

  // ---- the invariant of one job ----

  /** Each waiting task is in exactly one queue exactly once, and nothing else is queued.
      `loose` are waiting tasks that have just been taken out of a queue. */
  ghost predicate Conserved(job: Job, loose: set<TaskId>) {
    && job.queues.Valid()
    && (forall t: TaskId ::
          Queued(job.queues)[t] == (if t < |job.tasks| && job.tasks[t].Waiting() && t !in loose then 1 else 0))
    && (forall t :: t in loose ==> t < |job.tasks| && job.tasks[t].Waiting())
  }

  /** `reach`: the nodes that queues and in-flight tasks may name. */
  ghost predicate TaskOk(max: int, job: Job, t: TaskId, reach: set<NodeId>)
    requires t < |job.tasks|
  {
    var task := job.tasks[t];
    && task.index == t
    && task.attempts <= max
    && (task.InFlight() ==> task.nodeId.Some? && task.nodeId.value in reach)
    && (task.Waiting() ==> task.nodeId.None? && task.attempts < max)
    && (task.status == Cancelled ==> job.status == JobCancelled)
    && (task.phase == ReducePhase <==> job.reduceDispatched && t == |job.tasks| - 1)
  }

  ghost predicate TasksOk(max: int, job: Job, reach: set<NodeId>) {
    forall t | 0 <= t < |job.tasks| :: TaskOk(max, job, t, reach)
  }

  ghost predicate Reachable(job: Job, reach: set<NodeId>) {
    job.Active() ==> forall n :: n in job.queues.keys ==> n in reach
  }

  /** A reduce exists only once the maps are over, at most once, and its prompt is the
      combination of what they produced. */
  ghost predicate ReduceOk(job: Job) {
    && (job.reduceDispatched ==>
          && job.tasks != []
          && job.request.kind == Batch
          && (job.status != JobCancelled ==> !MapsPending(job.tasks))
          && |MapOutputs(job.tasks)| > 1
          && job.tasks[|job.tasks| - 1].messages == ReducePrompt(job.request, job.tasks))
    && (job.Active() ==> (job.reduceDispatched <==> job.status == JobReducing))
  }

  /** A pipeline job is one chat task. */
  ghost predicate PipelineOk(job: Job) {
    job.pipeline.Some? ==> |job.tasks| == 1 && job.request.kind == Chat
  }

  ghost predicate TerminalOk(job: Job) {
    && (job.Terminal() ==> forall t | 0 <= t < |job.tasks| :: !job.tasks[t].InFlight() && !job.tasks[t].Waiting())
    && (job.status == JobCompleted ==> job.output == FinalOutput(job.tasks) && MapOutputs(job.tasks) != [])
  }

  ghost predicate TokensOk(job: Job) {
    job.totalTokens == Sum(job.tasks, TokensOf)
  }

  ghost predicate JobOk(max: int, job: Job, reach: set<NodeId>, loose: set<TaskId>) {
    && job.status != JobPlanning
    && Conserved(job, loose)
    && TasksOk(max, job, reach)
    && Reachable(job, reach)
    && ReduceOk(job)
    && PipelineOk(job)
    && TerminalOk(job)
    && TokensOk(job)
  }

  /** Every send is on record, and found a free slot. */
  ghost predicate LogOk(c: Ctx) {
    && (forall t: TaskId :: TimesSent(c.log, c.job.serial, t) == Attempts(c.job, t))
    && (forall i | 0 <= i < |c.log| :: c.log[i].Permitted())
  }

  /** No node counts fewer tasks than this job has there. */
  ghost predicate Covered(c: Ctx) {
    && c.nodes.Valid()
    && forall n :: n in c.nodes.items ==> c.nodes.items[n].activeTasks >= Load(c.job, n)
  }

  ghost predicate Inv(c: Ctx, reach: set<NodeId>, loose: set<TaskId>) {
    && JobOk(c.cfg.maxTaskAttempts, c.job, reach, loose)
    && LogOk(c)
    && Covered(c)
    && c.nodes.items.Keys <= reach
  }

  // ---- what one step may do ----

  /** How many more answers a task can get: one for each send it has left, and one more
      while it is in flight. */
  ghost function Weight(max: int): Task -> nat {
    (task: Task) =>
      var left := if task.attempts < max then max - task.attempts else 0;
      if task.Waiting() then left else if task.InFlight() then left + 1 else 0
  }

  /** Only a batch with an instruction to combine its outputs may get a reduce. */
  predicate MayReduce(request: JobRequest) {
    request.kind == Batch && Trim(request.reduceInstruction) != ""
  }

  /** The answers the job can still get; a reduce that does not exist yet is reserved for. */
  ghost function Measure(max: int, job: Job): nat {
    Sum(job.tasks, Weight(max)) + Reserve(max, job)
  }

  ghost function Reserve(max: int, job: Job): nat {
    if job.reduceDispatched || !MayReduce(job.request) || max < 0 then 0 else max
  }

  /** Node n lost or gained exactly the slots this job gave back or took. */
  ghost predicate SlotsFollow(c: Ctx, d: Ctx) {
    && d.nodes.keys == c.nodes.keys
    && d.nodes.items.Keys == c.nodes.items.Keys
    && forall n :: n in c.nodes.items ==>
         && d.nodes.items[n].activeTasks + Load(c.job, n) == c.nodes.items[n].activeTasks + Load(d.job, n)
         && d.nodes.items[n].governor == c.nodes.items[n].governor
         && d.nodes.items[n].socketOpen == c.nodes.items[n].socketOpen
  }

  ghost predicate LogFollows(c: Ctx, d: Ctx) {
    forall serial: nat, t: TaskId :: serial != c.job.serial ==>
      TimesSent(d.log, serial, t) == TimesSent(c.log, serial, t)
  }

  ghost function CompletedJobs(job: Job): nat {
    if job.status == JobCompleted then 1 else 0
  }

  ghost predicate JobFollows(max: int, a: Job, b: Job) {
    && b.serial == a.serial
    && b.request == a.request
    && (a.Terminal() ==> b.status == a.status)
    && Measure(max, b) <= Measure(max, a)
    && Grown(a, b)
  }

  ghost predicate Follows(c: Ctx, d: Ctx) {
    && d.cfg == c.cfg
    && d.now == c.now
    && JobFollows(c.cfg.maxTaskAttempts, c.job, d.job)
    && SlotsFollow(c, d)
    && LogFollows(c, d)
    && d.completedCount + CompletedJobs(c.job) == c.completedCount + CompletedJobs(d.job)
  }

  lemma FollowsTrans(a: Ctx, b: Ctx, c: Ctx)
    requires Follows(a, b) && Follows(b, c)
    ensures Follows(a, c)
  {
  }
}
