/** From a request to a running job: analyse, form a cluster, build the tasks, pump. */
module Submission {
  import opened Collections
  import opened Protocol
  import opened Scheduler
  import opened Analyzer
  import opened JobCore
  import Allocation
  import Pipeline

  function Range(a: nat, b: nat): (r: seq<TaskId>)
    requires a <= b
    ensures |r| == b - a && forall i | 0 <= i < |r| :: r[i] == a + i
  {
    seq(b - a, i requires 0 <= i < b - a => a + i)
  }

  function ItemMessages(request: JobRequest, item: string): seq<ChatMessage> {
    [ChatMessage("user", request.itemInstruction + "\n\n" + item)]
  }

  /** How many of the items from `cursor` on a quota covers. */
  function Covers(quota: int, cursor: nat, total: nat): (r: nat)
    requires cursor <= total
    ensures cursor + r <= total
  {
    if quota <= 0 then 0 else if quota <= total - cursor then quota else total - cursor
  }

  datatype Dealt = Dealt(queues: Queues, cursor: nat)

  /** The next items, as many as n's quota allows, become n's queue. */
  function DealOne(n: NodeId, counts: Allocation.Counts, total: nat, d: Dealt): (r: Dealt)
    requires d.cursor <= total
    ensures d.cursor <= r.cursor <= total
  {
    var next := d.cursor + Covers(Allocation.CountOf(counts, n), d.cursor, total);
    Dealt(d.queues.Set(n, Range(d.cursor, next)), next)
  }

  /** Consecutive items to each node in turn. */
  function Deal(nodeIds: seq<NodeId>, counts: Allocation.Counts, total: nat, d: Dealt): (r: Dealt)
    requires d.cursor <= total
    ensures d.cursor <= r.cursor <= total
  {
    if nodeIds == [] then d
    else Deal(nodeIds[1..], counts, total, DealOne(nodeIds[0], counts, total, d))
  }

  /** All items dealt; a tail left by rounding goes to the first node. */
  function DealAll(cluster: Cluster, total: nat): (r: Queues) {
    var counts := Allocation.Allocate(cluster.nodeIds, cluster.shares, total);
    var d := Deal(cluster.nodeIds, counts, total, Dealt(EmptyMap(), 0));
    if cluster.nodeIds != [] && d.cursor < total then
      var first := cluster.nodeIds[0];
      d.queues.Set(first, QueueOf(d.queues, first) + Range(d.cursor, total))
    else d.queues
  }

  function ItemTasks(request: JobRequest): (r: seq<Task>)
    ensures |r| == |request.items|
  {
    seq(|request.items|, i requires 0 <= i < |request.items| =>
      NewTask(i, MapPhase, ItemMessages(request, request.items[i])))
  }

  function SoleTask(request: JobRequest): Task {
    NewTask(0, if request.kind == Chat then ChatPhase else MapPhase,
            if request.kind == Chat then request.messages
            else ItemMessages(request, if request.items == [] then "" else request.items[0]))
  }

  function BuildTasks(job: Job, strategy: Strategy, cluster: Cluster): (r: Job)
    requires cluster.nodeIds != []
  {
    if strategy != TaskParallel || job.request.kind == Chat then
      job.(tasks := [SoleTask(job.request)],
           queues := EmptyMap<NodeId, seq<TaskId>>().Set(cluster.nodeIds[0], [0]))
    else
      job.(tasks := ItemTasks(job.request), queues := DealAll(cluster, |job.request.items|))
  }

  function NewJob(serial: nat, request: JobRequest): Job {
    Job(serial, request, JobPlanning, None, [], EmptyMap(), "", 0, false, 0)
  }

  /** The plan for a job: who serves it, through which pipeline if any. */
  datatype Decision = Decision(analysis: Analysis, cluster: Cluster, pipeline: Option<Pipeline.PipelinePlan>)

  function Decide(cfg: Config, request: JobRequest, nodes: Nodes, cursor: nat): (r: Decision) {
    var views := Views(nodes);
    var eligible := EligibleNodes(cfg, views, request.model, false, false);
    var analysis := AnalyzeWorkload(cfg, request, eligible, views);
    if analysis.strategy == ModelParallel then
      match Pipeline.PlanPipeline(views, request.model, None, cfg.maxPipelineMembers)
      case None => Decision(analysis, EMPTY_CLUSTER, None)
      case Some(plan) => Decision(analysis, Cluster([plan.headNodeId], Pipeline.SharesOf(plan)), Some(plan))
    else
      Decision(analysis, ClusterFor(request.policy, eligible, request.model, analysis.strategy == TaskParallel,
                                    analysis.unitCount, cursor), None)
  }

  /** The job once it is planned but before anything is sent, or failed for want of nodes. */
  function Planned(c: Ctx, cursor: nat): (r: Ctx) {
    var d := Decide(c.cfg, c.job.request, c.nodes, cursor);
    if d.cluster.nodeIds == [] then FailJob(c)
    else c.(job := BuildTasks(c.job, d.analysis.strategy, d.cluster).(pipeline := d.pipeline, status := JobRunning))
  }

  function Start(c: Ctx, cursor: nat): (r: Ctx) {
    Pump(Planned(c, cursor))
  }

  /** The round-robin cursor moves on whenever a cluster was asked for. */
  function NextCursor(cfg: Config, request: JobRequest, nodes: Nodes, cursor: nat): (r: nat) {
    if Decide(cfg, request, nodes, cursor).analysis.strategy == ModelParallel then cursor else cursor + 1
  }
}
