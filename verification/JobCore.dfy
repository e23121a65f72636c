/** What one job does to itself and to the node slots, as functions. `Ctx` is everything
    the Job Manager can see while it works on one job; each function is one method of the
    manager, and `Dispatch`, `Requeue` and `MaybeFinish` re-enter each other as there. */
module JobCore {
  import opened Collections
  import opened Protocol
  import opened Scheduler
  import opened Sorting
  import Pipeline

  datatype Phase = MapPhase | ReducePhase | ChatPhase
  datatype TaskStatus = Planned | Assigned | Running | Completed | Failed | Reassigned | Cancelled
  datatype JobStatus = JobPlanning | JobRunning | JobReducing | JobCompleted | JobFailed | JobCancelled

  datatype Task = Task(
    index: nat,
    phase: Phase,
    messages: seq<ChatMessage>,
    status: TaskStatus,
    nodeId: Option<NodeId>,
    attempts: nat,
    output: string,
    metrics: Option<TaskMetrics>,
    assignedAtMs: Option<int>,
    triedNodes: set<NodeId>)
  {
    predicate InFlight() { status == Assigned || status == Running }
    predicate Waiting() { status == Planned || status == Reassigned }
    predicate Finished() { status == Completed || status == Failed }
    predicate On(n: NodeId) { InFlight() && nodeId == Some(n) }
  }

  type Queues = OrderedMap<NodeId, seq<TaskId>>

  /** Task ids are fresh and opaque, so a task is named by its place in `tasks`; `serial`
      makes the pair unique across jobs. `deferred` counts the scheduled pumps. */
  datatype Job = Job(
    serial: nat,
    request: JobRequest,
    status: JobStatus,
    pipeline: Option<Pipeline.PipelinePlan>,
    tasks: seq<Task>,
    queues: Queues,
    output: string,
    totalTokens: nat,
    reduceDispatched: bool,
    deferred: nat)
  {
    predicate Active() { status == JobRunning || status == JobReducing }
    predicate Terminal() { status == JobCompleted || status == JobFailed || status == JobCancelled }
  }

  /** One `task:assign` message that was sent, and when: `load` tasks were on the node, and
      `allowed` is the number its governor had last reported. */
  datatype Assignment = Assignment(serial: nat, task: TaskId, nodeId: NodeId, load: nat, allowed: nat, at: int)
  {
    /** An idle node always gets a task; a busy one only below what its owner allows. */
    predicate Permitted() { load == 0 || load < allowed }
  }

  type Nodes = OrderedMap<NodeId, RegisteredNode>

  datatype Ctx = Ctx(cfg: Config, now: int, job: Job, nodes: Nodes, log: seq<Assignment>, completedCount: nat)

  // ---- records ----

  function QueueOf(queues: Queues, n: NodeId): seq<TaskId> {
    if n in queues.items then queues.items[n] else []
  }

  function NewTask(index: nat, phase: Phase, messages: seq<ChatMessage>): Task {
    Task(index, phase, messages, Planned, None, 0, "", None, None, {})
  }

  function WithTask(job: Job, t: TaskId, task: Task): Job
    requires t < |job.tasks|
  {
    job.(tasks := job.tasks[t := task])
  }

  /** `activeTasks` lowered by one but never below zero, if the node is still there. */
  function FreeSlot(nodes: Nodes, n: Option<NodeId>): Nodes {
    if n.Some? && n.value in nodes.items then
      var node := nodes.items[n.value];
      nodes.Set(n.value, node.(activeTasks := if node.activeTasks > 0 then node.activeTasks - 1 else 0))
    else nodes
  }

  /** A finished task's real speed goes into the node's rolling average. */
  function NoteResult(nodes: Nodes, n: NodeId, metrics: TaskMetrics): Nodes {
    if n in nodes.items && metrics.tokensPerSecond > 0.0 then
      nodes.Set(n, nodes.items[n].(metrics := nodes.items[n].metrics.Fold(metrics)))
    else nodes
  }

  function NoteFailure(nodes: Nodes, n: NodeId): Nodes {
    if n in nodes.items then
      var m := nodes.items[n].metrics;
      nodes.Set(n, nodes.items[n].(metrics := m.(tasksFailed := m.tasksFailed + 1)))
    else nodes
  }

  // ---- text ----

  /** The characters `String.trim` removes. */
  predicate IsSpace(c: char) {
    c in "\t\n\U{0B}\U{0C}\r \U{A0}\U{1680}\U{2000}\U{2001}\U{2002}\U{2003}\U{2004}\U{2005}\U{2006}\U{2007}\U{2008}\U{2009}\U{200A}\U{2028}\U{2029}\U{202F}\U{205F}\U{3000}\U{FEFF}"
  }

  function TrimStart(s: string): string {
    if s != [] && IsSpace(s[0]) then TrimStart(s[1..]) else s
  }

  function TrimEnd(s: string): string {
    if s != [] && IsSpace(s[|s| - 1]) then TrimEnd(s[..|s| - 1]) else s
  }

  function Trim(s: string): string {
    TrimEnd(TrimStart(s))
  }

  function Join(parts: seq<string>, separator: string): string {
    if parts == [] then ""
    else if |parts| == 1 then parts[0]
    else parts[0] + separator + Join(parts[1..], separator)
  }

  function Digits(n: nat): string {
    if n < 10 then [('0' as int + n) as char]
    else Digits(n / 10) + [('0' as int + n % 10) as char]
  }

  // ---- selecting tasks ----

  predicate MapsPending(tasks: seq<Task>) {
    exists t :: 0 <= t < |tasks| && tasks[t].phase != ReducePhase && !tasks[t].Finished()
  }

  /** The trimmed outputs of the completed map tasks, in the order the tasks were made,
      which is their order by index (`Guarantees.OutputsByIndex`). */
  function MapOutputs(tasks: seq<Task>): seq<string> {
    if tasks == [] then []
    else
      var rest := MapOutputs(tasks[1..]);
      if tasks[0].phase != ReducePhase && tasks[0].status == Completed then [Trim(tasks[0].output)] + rest
      else rest
  }

  function Numbered(parts: seq<string>, from: nat): (r: seq<string>) {
    if parts == [] then []
    else ["[" + Digits(from) + "] " + parts[0]] + Numbered(parts[1..], from + 1)
  }

  function ReducePrompt(request: JobRequest, tasks: seq<Task>): seq<ChatMessage> {
    [ChatMessage("user", request.reduceInstruction + "\n\n" + Join(Numbered(MapOutputs(tasks), 1), "\n\n"))]
  }

  function FindReduce(tasks: seq<Task>): (r: Option<TaskId>)
    ensures r.Some? ==> r.value < |tasks| && tasks[r.value].phase == ReducePhase
    ensures r.None? ==> forall t | 0 <= t < |tasks| :: tasks[t].phase != ReducePhase
    ensures r.Some? ==> forall t | 0 <= t < r.value :: tasks[t].phase != ReducePhase
  {
    FindReduceFrom(tasks, 0)
  }

  function FindReduceFrom(tasks: seq<Task>, from: nat): (r: Option<TaskId>)
    requires from <= |tasks|
    ensures r.Some? ==> from <= r.value < |tasks| && tasks[r.value].phase == ReducePhase
    ensures r.None? ==> forall t | from <= t < |tasks| :: tasks[t].phase != ReducePhase
    ensures r.Some? ==> forall t | from <= t < r.value :: tasks[t].phase != ReducePhase
    decreases |tasks| - from
  {
    if from == |tasks| then None
    else if tasks[from].phase == ReducePhase then Some(from)
    else FindReduceFrom(tasks, from + 1)
  }

  function FinalOutput(tasks: seq<Task>): string {
    match FindReduce(tasks)
    case Some(r) =>
      if tasks[r].status == Completed && Trim(tasks[r].output) != "" then Trim(tasks[r].output)
      else Join(MapOutputs(tasks), "\n\n")
    case None => Join(MapOutputs(tasks), "\n\n")
  }

  predicate WantsReduce(job: Job) {
    job.request.kind == Batch && Trim(job.request.reduceInstruction) != "" && |MapOutputs(job.tasks)| > 1
  }

  // ---- single updates ----

  /** The task goes out: the send succeeded. */
  function Assign(c: Ctx, t: TaskId, n: NodeId): Ctx
    requires t < |c.job.tasks| && n in c.nodes.items
  {
    var task := c.job.tasks[t];
    var node := c.nodes.items[n];
    c.(job := WithTask(c.job, t, task.(status := Assigned, nodeId := Some(n), attempts := task.attempts + 1,
                                       assignedAtMs := Some(c.now), triedNodes := task.triedNodes + {n})),
       nodes := c.nodes.Set(n, node.(activeTasks := node.activeTasks + 1)),
       log := c.log + [Assignment(c.job.serial, t, n, node.activeTasks, node.governor.maxConcurrentTasks, c.now)])
  }

  /** The task's slot is handed back and it is on no node. */
  function Release(c: Ctx, t: TaskId, status: TaskStatus): Ctx
    requires t < |c.job.tasks|
  {
    var task := c.job.tasks[t];
    c.(job := WithTask(c.job, t, task.(status := status, nodeId := None, assignedAtMs := None)),
       nodes := FreeSlot(c.nodes, task.nodeId))
  }

  /** Waiting again, at the head of n's queue, with a pump scheduled. */
  function Reassign(c: Ctx, t: TaskId, n: NodeId): Ctx
    requires t < |c.job.tasks|
  {
    var c1 := Release(c, t, Reassigned);
    c1.(job := c1.job.(queues := c1.job.queues.Set(n, [t] + QueueOf(c1.job.queues, n)),
                       deferred := c1.job.deferred + 1))
  }

  /** A pipeline is rebuilt whole: the old queues are dropped, the new head gets the task. */
  function Reform(c: Ctx, t: TaskId, plan: Pipeline.PipelinePlan): Ctx
    requires t < |c.job.tasks|
  {
    var c1 := Release(c, t, Reassigned);
    c1.(job := c1.job.(pipeline := Some(plan),
                       queues := EmptyMap<NodeId, seq<TaskId>>().Set(plan.headNodeId, [t]),
                       deferred := c1.job.deferred + 1))
  }

  function FailJob(c: Ctx): Ctx {
    c.(job := c.job.(status := JobFailed))
  }

  function CompleteJob(c: Ctx): Ctx {
    c.(job := c.job.(status := JobCompleted, output := FinalOutput(c.job.tasks)),
       completedCount := c.completedCount + 1)
  }

  /** The reduce task is created, but not yet sent. */
  function StartReduce(c: Ctx): Ctx {
    var task := NewTask(|c.job.tasks|, ReducePhase, ReducePrompt(c.job.request, c.job.tasks));
    c.(job := c.job.(reduceDispatched := true, status := JobReducing, tasks := c.job.tasks + [task]))
  }

  // ---- choices ----

  /** A capable node that has not tried the task, else any capable one; cold nodes only
      when no warm one is left. */
  function RequeueTarget(cfg: Config, nodes: Nodes, model: Model, tried: set<NodeId>): (r: Option<NodeId>)
    ensures r.Some? ==> r.value in nodes.items && Eligible(cfg, nodes.items[r.value], model, true, true)
    ensures r.None? ==> forall v | v in Views(nodes) :: !Eligible(cfg, v.node, model, true, true)
  {
    var views := Views(nodes);
    var warm := EligibleNodes(cfg, views, model, true, false);
    var capable := if warm != [] then warm else EligibleNodes(cfg, views, model, true, true);
    assert forall v | v in capable :: v in views;
    var untried := Untried(capable, tried);
    if untried != [] then
      assert untried[0] in untried;
      Some(untried[0].nodeId)
    else if capable != [] then
      assert capable[0] in capable;
      Some(capable[0].nodeId)
    else None
  }

  function Untried(views: seq<NodeView>, tried: set<NodeId>): (r: seq<NodeView>)
    ensures forall v :: v in r <==> v in views && v.nodeId !in tried
  {
    if views == [] then []
    else if views[0].nodeId in tried then Untried(views[1..], tried)
    else [views[0]] + Untried(views[1..], tried)
  }

  function Replan(c: Ctx): Option<Pipeline.PipelinePlan> {
    Pipeline.PlanPipeline(Views(c.nodes), c.job.request.model, None, c.cfg.maxPipelineMembers)
  }

  // ---- the re-entrant core ----

  /** The only way the task list changes: at most once, by the one reduce task. */
  predicate Grown(before: Job, after: Job) {
    if before.reduceDispatched == after.reduceDispatched then |after.tasks| == |before.tasks|
    else after.reduceDispatched && |after.tasks| == |before.tasks| + 1
  }

  function ReduceBudget(job: Job): nat {
    if job.reduceDispatched then 0 else 1
  }

  function Dispatch(c: Ctx, t: TaskId, n: NodeId): (r: Ctx)
    ensures Grown(c.job, r.job)
    decreases ReduceBudget(c.job), 2
  {
    if t >= |c.job.tasks| then c
    else if n in c.nodes.items && c.nodes.items[n].socketOpen then Assign(c, t, n)
    else Requeue(c, t)
  }

  function Requeue(c: Ctx, t: TaskId): (r: Ctx)
    requires t < |c.job.tasks|
    ensures Grown(c.job, r.job)
    decreases ReduceBudget(c.job), 1
  {
    var freed := Release(c, t, c.job.tasks[t].status);
    if c.job.tasks[t].attempts >= c.cfg.maxTaskAttempts then MaybeFinish(Release(c, t, Failed))
    else if c.job.pipeline.Some? then
      match Replan(freed)
      case None => MaybeFinish(Release(c, t, Failed))
      case Some(plan) => Reform(c, t, plan)
    else
      match RequeueTarget(c.cfg, freed.nodes, c.job.request.model, c.job.tasks[t].triedNodes)
      case None => MaybeFinish(Release(c, t, Failed))
      case Some(n) => Reassign(c, t, n)
  }

  function MaybeFinish(c: Ctx): (r: Ctx)
    ensures Grown(c.job, r.job)
    decreases ReduceBudget(c.job), 0
  {
    if c.job.Terminal() || MapsPending(c.job.tasks) then c
    else if MapOutputs(c.job.tasks) == [] then FailJob(c)
    else
      var reducer := PickReduceNode(c.cfg, Views(c.nodes), c.job.request.model);
      if WantsReduce(c.job) && !c.job.reduceDispatched && reducer.Some? then
        Dispatch(StartReduce(c), |c.job.tasks|, reducer.value.nodeId)
      else
        match FindReduce(c.job.tasks)
        case Some(r) => if c.job.tasks[r].Finished() then CompleteJob(c) else c
        case None => CompleteJob(c)
  }

  // ---- pumping ----

  function Shift(c: Ctx, n: NodeId): Ctx
    requires QueueOf(c.job.queues, n) != []
  {
    c.(job := c.job.(queues := c.job.queues.Set(n, QueueOf(c.job.queues, n)[1..])))
  }

  function Pop(c: Ctx, n: NodeId): Ctx
    requires QueueOf(c.job.queues, n) != []
  {
    var q := QueueOf(c.job.queues, n);
    c.(job := c.job.(queues := c.job.queues.Set(n, q[..|q| - 1])))
  }

  /** From c to d the queue map was cleared: a pipeline job schedules a pump only when its
      pipeline is rebuilt, and that drops all its queues. */
  predicate Cleared(c: Ctx, d: Ctx) {
    d.job.pipeline.Some? && d.job.deferred > c.job.deferred
  }

  /** Up to `slots` tasks from n's queue go to n. Once the map is cleared that queue is no
      longer in it; a pipeline job has nothing more there. */
  function Drain(c: Ctx, n: NodeId, slots: int): (r: Ctx)
    decreases slots
  {
    if slots <= 0 || QueueOf(c.job.queues, n) == [] then c
    else
      var d := Dispatch(Shift(c, n), QueueOf(c.job.queues, n)[0], n);
      if Cleared(c, d) then d else Drain(d, n, slots - 1)
  }

  function FreeSlots(node: RegisteredNode): int {
    node.Limit() - node.activeTasks
  }

  /** Every queue in turn, from position `k`, including queues added on the way; after the
      map was cleared, its new entries from the first. At most `visits` are looked at; there
      are never more (`QueueBounds.QueueCount`). A second rebuild in one walk is the same as
      the first and would be followed by another: the source never gets further, and the
      model stops there (`PumpWalk.WalkEndsExactly`). */
  function DrainAll(c: Ctx, k: nat, visits: nat, rebuilt: bool): (r: Ctx)
    decreases if rebuilt then 0 else 1, visits
  {
    if visits == 0 || k >= |c.job.queues.keys| then c
    else
      var d := VisitQueue(c, k);
      if !Cleared(c, d) then DrainAll(d, k + 1, visits - 1, rebuilt)
      else if rebuilt then d
      else DrainAll(d, 0, Visits(d), true)
  }

  function VisitQueue(c: Ctx, k: nat): (r: Ctx)
    requires k < |c.job.queues.keys|
  {
    var n := c.job.queues.keys[k];
    if n in c.nodes.items then Drain(c, n, FreeSlots(c.nodes.items[n])) else c
  }

  /** The walk comes to an end: there is no second rebuild. */
  predicate DrainEnds(c: Ctx, k: nat, visits: nat, rebuilt: bool)
    decreases if rebuilt then 0 else 1, visits
  {
    if visits == 0 || k >= |c.job.queues.keys| then true
    else
      var d := VisitQueue(c, k);
      if !Cleared(c, d) then DrainEnds(d, k + 1, visits - 1, rebuilt)
      else !rebuilt && DrainEnds(d, 0, Visits(d), true)
  }

  predicate IdleAt(c: Ctx, n: NodeId) {
    QueueOf(c.job.queues, n) == [] && n in c.nodes.items && c.nodes.items[n].Free()
  }

  function FirstIdle(c: Ctx, k: nat): (r: Option<NodeId>)
    requires k <= |c.job.queues.keys|
    ensures r.Some? ==> r.value in c.job.queues.keys && IdleAt(c, r.value)
    ensures r.None? ==> forall i | k <= i < |c.job.queues.keys| :: !IdleAt(c, c.job.queues.keys[i])
    decreases |c.job.queues.keys| - k
  {
    if k == |c.job.queues.keys| then None
    else if IdleAt(c, c.job.queues.keys[k]) then Some(c.job.queues.keys[k])
    else FirstIdle(c, k + 1)
  }

  function ByLength(queues: Queues): NodeId -> Rank {
    (n: NodeId) => Rank(-(|QueueOf(queues, n)| as real), 0.0)
  }

  /** The nodes whose queue holds two or more, in queue order. */
  function LongQueues(keys: seq<NodeId>, queues: Queues): (r: seq<NodeId>)
    ensures forall n :: n in r <==> n in keys && |QueueOf(queues, n)| >= 2
  {
    if keys == [] then []
    else if |QueueOf(queues, keys[0])| >= 2 then [keys[0]] + LongQueues(keys[1..], queues)
    else LongQueues(keys[1..], queues)
  }

  /** The longest queue of two or more, the earliest on a tie. */
  function Donor(queues: Queues): (r: Option<NodeId>)
    ensures r.Some? ==> r.value in queues.keys && |QueueOf(queues, r.value)| >= 2
    ensures r.Some? ==> forall n | n in queues.keys :: |QueueOf(queues, n)| <= |QueueOf(queues, r.value)|
    ensures r.None? ==> forall n | n in queues.keys :: |QueueOf(queues, n)| <= 1
  {
    var long := LongQueues(queues.keys, queues);
    if long == [] then
      assert forall n | n in queues.keys :: n !in long;
      None
    else
      var sorted := StableSort(long, ByLength(queues));
      SameElements(sorted, long);
      SortSorts(long, ByLength(queues));
      assert forall n | n in long :: |QueueOf(queues, n)| <= |QueueOf(queues, sorted[0])| by {
        forall n | n in long
          ensures |QueueOf(queues, n)| <= |QueueOf(queues, sorted[0])|
        {
          assert n in sorted;
          var i :| 0 <= i < |sorted| && sorted[i] == n;
          if i > 0 { assert !ByLength(queues)(sorted[i]).Ahead(ByLength(queues)(sorted[0])); }
        }
      }
      Some(sorted[0])
  }

  /** One round of stealing: the first idle node takes the tail of the longest queue. */
  predicate CanSteal(c: Ctx) {
    FirstIdle(c, 0).Some? && Donor(c.job.queues).Some?
  }

  function StealOnce(c: Ctx): (r: Ctx)
    requires CanSteal(c)
  {
    var donor := Donor(c.job.queues).value;
    var q := QueueOf(c.job.queues, donor);
    Dispatch(Pop(c, donor), q[|q| - 1], FirstIdle(c, 0).value)
  }

  function Steal(c: Ctx, rounds: nat): (r: Ctx)
    decreases rounds
  {
    if rounds > 0 && CanSteal(c) then Steal(StealOnce(c), rounds - 1) else c
  }

  /** The guard on the stealing loop. */
  const STEAL_ROUNDS := 200

  function Visits(c: Ctx): nat {
    |c.job.queues.keys| + |c.nodes.keys|
  }

  function Pump(c: Ctx): (r: Ctx) {
    if !c.job.Active() then c
    else MaybeFinish(Steal(DrainAll(c, 0, Visits(c), false), STEAL_ROUNDS))
  }

  // ---- worker answers and other events, for one job ----

  function Accepted(c: Ctx, t: TaskId): (r: Ctx) {
    if t >= |c.job.tasks| then c
    else c.(job := WithTask(c.job, t, c.job.tasks[t].(status := Running)))
  }

  function Token(c: Ctx, t: TaskId, token: string): (r: Ctx) {
    if t >= |c.job.tasks| then c
    else c.(job := WithTask(c.job, t, c.job.tasks[t].(output := c.job.tasks[t].output + token)))
  }

  /** The slot of the sender is freed and the result recorded; nothing is pumped yet. */
  function Record(c: Ctx, t: TaskId, sender: NodeId, output: string, metrics: TaskMetrics): (r: Ctx)
    requires t < |c.job.tasks|
  {
    var task := c.job.tasks[t];
    c.(job := WithTask(c.job, t, task.(status := Completed, metrics := Some(metrics),
                                       output := if output != "" then output else task.output))
              .(totalTokens := c.job.totalTokens + metrics.tokens),
       nodes := NoteResult(FreeSlot(c.nodes, Some(sender)), sender, metrics))
  }

  function Done(c: Ctx, t: TaskId, sender: NodeId, output: string, metrics: TaskMetrics): (r: Ctx) {
    if t >= |c.job.tasks| then c else Pump(Record(c, t, sender, output, metrics))
  }

  function Declined(c: Ctx, t: TaskId): (r: Ctx) {
    if t >= |c.job.tasks| then c else Requeue(c, t)
  }

  function TaskFailed(c: Ctx, t: TaskId, sender: NodeId): (r: Ctx) {
    Declined(if t >= |c.job.tasks| then c else c.(nodes := NoteFailure(c.nodes, sender)), t)
  }

  function RequeueEach(c: Ctx, ids: seq<TaskId>): (r: Ctx)
    ensures Grown(c.job, r.job)
    decreases |ids|
  {
    if ids == [] then c
    else if ids[0] < |c.job.tasks| then RequeueEach(Requeue(c, ids[0]), ids[1..])
    else RequeueEach(c, ids[1..])
  }

  /** In-flight tasks of a lost node, in order; a reduce created on the way is looked at too. */
  function RequeueHeld(c: Ctx, n: NodeId, t: nat): (r: Ctx)
    decreases ReduceBudget(c.job), |c.job.tasks| - t
  {
    if t >= |c.job.tasks| then c
    else if c.job.tasks[t].On(n) then RequeueHeld(Requeue(c, t), n, t + 1)
    else RequeueHeld(c, n, t + 1)
  }

  /** The lost node's queue moves to the first remaining one, or is requeued task by task. */
  function MoveQueue(c: Ctx, n: NodeId): (r: Ctx) {
    var q := QueueOf(c.job.queues, n);
    var c1 := c.(job := c.job.(queues := c.job.queues.Delete(n)));
    if q == [] then c1
    else if c1.job.queues.keys != [] then
      var first := c1.job.queues.keys[0];
      c1.(job := c1.job.(queues := c1.job.queues.Set(first, QueueOf(c1.job.queues, first) + q)))
    else RequeueEach(c1, q)
  }

  function NodeLost(c: Ctx, n: NodeId): (r: Ctx) {
    if !c.job.Active() then c
    else Pump(RequeueHeld(MoveQueue(c, n), n, 0))
  }

  predicate Expired(c: Ctx, task: Task) {
    task.InFlight() && task.assignedAtMs.Some? && c.now - task.assignedAtMs.value > c.cfg.taskTimeoutMs
  }

  function SweepFrom(c: Ctx, t: nat): (r: Ctx)
    decreases ReduceBudget(c.job), |c.job.tasks| - t
  {
    if t >= |c.job.tasks| then c
    else if Expired(c, c.job.tasks[t]) then SweepFrom(Requeue(c, t), t + 1)
    else SweepFrom(c, t + 1)
  }

  function Sweep(c: Ctx): (r: Ctx) {
    if c.job.Active() then SweepFrom(c, 0) else c
  }

  /** Slots of the in-flight tasks are freed, and everything not completed is cancelled. */
  function CancelFrom(c: Ctx, t: nat): (r: Ctx)
    decreases |c.job.tasks| - t
  {
    if t >= |c.job.tasks| then c
    else
      var task := c.job.tasks[t];
      var nodes := if task.InFlight() then FreeSlot(c.nodes, task.nodeId) else c.nodes;
      var job := if task.status != Completed then WithTask(c.job, t, task.(status := Cancelled)) else c.job;
      CancelFrom(c.(job := job, nodes := nodes), t + 1)
  }

  function Cancel(c: Ctx): (r: Ctx) {
    if c.job.status == JobCompleted || c.job.status == JobFailed then c
    else
      var c1 := CancelFrom(c.(job := c.job.(status := JobCancelled)), 0);
      c1.(job := c1.job.(queues := EmptyMap()))
  }

  /** A pump that an earlier requeue scheduled. */
  function DeferredPump(c: Ctx): (r: Ctx) {
    if c.job.deferred == 0 then c else Pump(c.(job := c.job.(deferred := c.job.deferred - 1)))
  }
}
