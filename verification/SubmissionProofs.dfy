/** A submitted job starts with every item queued exactly once, on connected nodes, in
    the proportions its cluster asked for. */
module SubmissionProofs {
  import opened Collections
  import opened Protocol
  import opened Scheduler
  import opened Analyzer
  import opened JobCore
  import opened JobInvariants
  import opened JobSteps
  import opened JobEvents
  import opened Submission
  import opened Clusters
  import opened Choices
  import Allocation
  import Pipeline

  lemma RangeSplits(a: nat, b: nat, c: nat)
    requires a <= b <= c
    ensures Range(a, c) == Range(a, b) + Range(b, c)
  {
  }

  ghost function Ranged(a: nat, b: nat): multiset<TaskId>
    requires a <= b
  {
    multiset(Range(a, b))
  }

  lemma RangedAt(a: nat, b: nat, t: TaskId)
    requires a <= b
    ensures Ranged(a, b)[t] == if a <= t < b then 1 else 0
  {
    DistinctCount(Range(a, b), t);
    if a <= t < b {
      assert Range(a, b)[t - a] == t;
    }
  }

  lemma RangedSplits(a: nat, b: nat, c: nat)
    requires a <= b <= c
    ensures Ranged(a, c) == Ranged(a, b) + Ranged(b, c)
  {
    RangeSplits(a, b, c);
  }

  lemma FreshQueue(queues: Queues, n: NodeId, q: seq<TaskId>)
    requires queues.Valid() && n !in queues.items
    ensures Queued(queues.Set(n, q)) == Queued(queues) + multiset(q)
  {
    QueuedSet(queues, n, q);
    assert QueueOf(queues, n) == [];
  }

  lemma DealOneOk(n: NodeId, counts: Allocation.Counts, total: nat, d: Dealt)
    requires d.cursor <= total && d.queues.Valid() && n !in d.queues.items
    ensures var e := DealOne(n, counts, total, d);
            && e.queues.Valid()
            && Queued(e.queues) == Queued(d.queues) + Ranged(d.cursor, e.cursor)
            && e.queues.items.Keys == d.queues.items.Keys + {n}
            && (forall m :: m in d.queues.items ==> QueueOf(e.queues, m) == QueueOf(d.queues, m))
            && QueueOf(e.queues, n) == Range(d.cursor, e.cursor)
  {
    hide Queued;
    FreshQueue(d.queues, n, Range(d.cursor, DealOne(n, counts, total, d).cursor));
  }

  /** Dealing queues the items from one cursor to the other, each once. */
  lemma {:induction false} DealQueues(nodeIds: seq<NodeId>, counts: Allocation.Counts, total: nat, d: Dealt)
    requires d.cursor <= total && d.queues.Valid() && Distinct(nodeIds)
    requires forall n | n in nodeIds :: n !in d.queues.items
    ensures var r := Deal(nodeIds, counts, total, d);
            && r.queues.Valid()
            && Queued(r.queues) == Queued(d.queues) + Ranged(d.cursor, r.cursor)
            && (forall n :: n in r.queues.items <==> n in d.queues.items || n in nodeIds)
            && (forall n :: n in d.queues.items ==> QueueOf(r.queues, n) == QueueOf(d.queues, n))
  {
    hide Queued, QueueOf, DealOne, Range;
    if nodeIds == [] {
      assert Ranged(d.cursor, d.cursor) == multiset{};
    } else {
      var n := nodeIds[0];
      DealOneOk(n, counts, total, d);
      assert nodeIds == [n] + nodeIds[1..];
      DealQueues(nodeIds[1..], counts, total, DealOne(n, counts, total, d));
      RangedSplits(d.cursor, DealOne(n, counts, total, d).cursor, Deal(nodeIds, counts, total, d).cursor);
    }
  }

  /** Whatever the counts, every item ends up in exactly one queue exactly once. */
  lemma EveryItemQueuedOnce(cluster: Cluster, total: nat)
    requires cluster.nodeIds != [] && Distinct(cluster.nodeIds)
    ensures var queues := DealAll(cluster, total);
            && queues.Valid()
            && (forall t: TaskId :: Queued(queues)[t] == if t < total then 1 else 0)
            && (forall n :: n in queues.items <==> n in cluster.nodeIds)
  {
    hide Queued, Deal;
    var counts := Allocation.Allocate(cluster.nodeIds, cluster.shares, total);
    var start := Dealt(EmptyMap(), 0);
    var d := Deal(cluster.nodeIds, counts, total, start);
    EmptyQueued();
    DealQueues(cluster.nodeIds, counts, total, start);
    assert Queued(d.queues) == Ranged(0, d.cursor);
    if d.cursor < total {
      Tail(d, cluster.nodeIds[0], total);
    }
    forall t: TaskId
      ensures Queued(DealAll(cluster, total))[t] == if t < total then 1 else 0
    {
      RangedAt(0, total, t);
    }
  }

  lemma Tail(d: Dealt, n: NodeId, total: nat)
    requires d.queues.Valid() && d.cursor <= total && Queued(d.queues) == Ranged(0, d.cursor)
    ensures Queued(d.queues.Set(n, QueueOf(d.queues, n) + Range(d.cursor, total))) == Ranged(0, total)
  {
    var q := QueueOf(d.queues, n);
    var rest := Range(d.cursor, total);
    QueuedSet(d.queues, n, q + rest);
    var mq: multiset<TaskId> := multiset(q);
    assert multiset(q + rest) == multiset(rest) + multiset(q);
    RangedSplits(0, d.cursor, total);
    DropCommon(Queued(d.queues.Set(n, q + rest)), Ranged(0, d.cursor), mq, Ranged(d.cursor, total));
  }

  // ---- the deal follows the allocation ----

  ghost function CountFrom(nodeIds: seq<NodeId>, counts: Allocation.Counts): int {
    if nodeIds == [] then 0 else Allocation.CountOf(counts, nodeIds[0]) + CountFrom(nodeIds[1..], counts)
  }

  /** When the counts exactly cover what is left, each node's queue is exactly its count. */
  lemma {:induction false} DealExact(nodeIds: seq<NodeId>, counts: Allocation.Counts, total: nat, d: Dealt)
    requires d.cursor <= total && d.queues.Valid() && Distinct(nodeIds)
    requires forall n | n in nodeIds :: n !in d.queues.items
    requires forall n | n in nodeIds :: Allocation.CountOf(counts, n) >= 0
    requires d.cursor + CountFrom(nodeIds, counts) == total
    ensures var r := Deal(nodeIds, counts, total, d);
            && r.cursor == total
            && (forall n | n in nodeIds :: |QueueOf(r.queues, n)| == Allocation.CountOf(counts, n))
  {
    hide Queued, QueueOf, DealOne, Range;
    if nodeIds != [] {
      var n := nodeIds[0];
      CountFromNonNegative(nodeIds[1..], counts);
      DealOneOk(n, counts, total, d);
      DealOneExact(n, counts, total, d);
      assert nodeIds == [n] + nodeIds[1..];
      DealQueues(nodeIds[1..], counts, total, DealOne(n, counts, total, d));
      DealExact(nodeIds[1..], counts, total, DealOne(n, counts, total, d));
    }
  }

  lemma DealOneExact(n: NodeId, counts: Allocation.Counts, total: nat, d: Dealt)
    requires d.cursor <= total && 0 <= Allocation.CountOf(counts, n) <= total - d.cursor
    ensures DealOne(n, counts, total, d).cursor == d.cursor + Allocation.CountOf(counts, n)
  {
  }

  lemma {:induction false} CountFromNonNegative(nodeIds: seq<NodeId>, counts: Allocation.Counts)
    requires forall n | n in nodeIds :: Allocation.CountOf(counts, n) >= 0
    ensures CountFrom(nodeIds, counts) >= 0
  {
    if nodeIds != [] {
      CountFromNonNegative(nodeIds[1..], counts);
    }
  }

  lemma {:induction false} CountFromPush(nodeIds: seq<NodeId>, n: NodeId, counts: Allocation.Counts)
    ensures CountFrom(nodeIds + [n], counts) == CountFrom(nodeIds, counts) + Allocation.CountOf(counts, n)
  {
    if nodeIds == [] {
      assert [n][1..] == [];
    } else {
      assert (nodeIds + [n])[1..] == nodeIds[1..] + [n];
      CountFromPush(nodeIds[1..], n, counts);
    }
  }

  lemma {:induction false} SameSum(quotas: seq<Allocation.Quota>, counts: Allocation.Counts)
    ensures Allocation.CountSum(quotas, counts) == CountFrom(Allocation.QIds(quotas), counts)
  {
    if quotas != [] {
      var front, last := quotas[..|quotas| - 1], quotas[|quotas| - 1];
      SameSum(front, counts);
      CountFromPush(Allocation.QIds(front), last.id, counts);
      assert Allocation.QIds(quotas) == Allocation.QIds(front) + [last.id];
    }
  }

  /** With a cluster's shares the initial queues are exactly the largest-remainder counts,
      and the tail branch of the build never adds a task. */
  lemma QueuesFollowShares(cluster: Cluster, nodes: Nodes, total: nat)
    requires ClusterOk(cluster, nodes)
    ensures var counts := Allocation.Allocate(cluster.nodeIds, cluster.shares, total);
            && Deal(cluster.nodeIds, counts, total, Dealt(EmptyMap(), 0)).cursor == total
            && (forall n | n in cluster.nodeIds ::
                  |QueueOf(DealAll(cluster, total), n)| == Allocation.CountOf(counts, n))
  {
    hide Deal, SumShares, Allocation.Allocate;
    var ids, counts := cluster.nodeIds, Allocation.Allocate(cluster.nodeIds, cluster.shares, total);
    CountsFit(cluster, nodes, total);
    DealExact(ids, counts, total, Dealt(EmptyMap(), 0));
  }

  /** Dealt in order: node i's queue is the next items after those of the nodes before it. */
  lemma {:induction false} DealInOrder(nodeIds: seq<NodeId>, counts: Allocation.Counts, total: nat, d: Dealt, i: nat)
    requires d.cursor <= total && d.queues.Valid() && Distinct(nodeIds) && i < |nodeIds|
    requires forall n | n in nodeIds :: n !in d.queues.items
    requires forall n | n in nodeIds :: Allocation.CountOf(counts, n) >= 0
    requires d.cursor + CountFrom(nodeIds, counts) == total
    ensures var from := d.cursor + CountFrom(nodeIds[..i], counts);
            var count := Allocation.CountOf(counts, nodeIds[i]);
            && 0 <= from <= from + count <= total
            && QueueOf(Deal(nodeIds, counts, total, d).queues, nodeIds[i]) == Range(from, from + count)
    decreases |nodeIds|
  {
    hide Queued, QueueOf, DealOne, Range, Distinct;
    if i == 0 {
      assert nodeIds[..0] == [];
      DealFirst(nodeIds, counts, total, d);
    } else {
      var e := DealRest(nodeIds, counts, total, d);
      DealInOrder(nodeIds[1..], counts, total, e, i - 1);
      assert nodeIds[1..][i - 1] == nodeIds[i];
      CountFromTail(nodeIds, counts, i);
    }
  }

  lemma CountFromTail(nodeIds: seq<NodeId>, counts: Allocation.Counts, i: nat)
    requires 0 < i <= |nodeIds|
    ensures CountFrom(nodeIds[..i], counts)
         == Allocation.CountOf(counts, nodeIds[0]) + CountFrom(nodeIds[1..][..i - 1], counts)
  {
    assert nodeIds[..i][1..] == nodeIds[1..][..i - 1];
  }

  lemma DealRest(nodeIds: seq<NodeId>, counts: Allocation.Counts, total: nat, d: Dealt) returns (e: Dealt)
    requires d.cursor <= total && d.queues.Valid() && Distinct(nodeIds) && nodeIds != []
    requires forall n | n in nodeIds :: n !in d.queues.items
    requires forall n | n in nodeIds :: Allocation.CountOf(counts, n) >= 0
    requires d.cursor + CountFrom(nodeIds, counts) == total
    ensures e == DealOne(nodeIds[0], counts, total, d)
    ensures Deal(nodeIds, counts, total, d) == Deal(nodeIds[1..], counts, total, e)
    ensures e.cursor == d.cursor + Allocation.CountOf(counts, nodeIds[0]) <= total && e.queues.Valid()
    ensures Distinct(nodeIds[1..]) && forall n | n in nodeIds[1..] :: n !in e.queues.items
    ensures e.cursor + CountFrom(nodeIds[1..], counts) == total
    ensures nodeIds[0] in e.queues.items && QueueOf(e.queues, nodeIds[0]) == Range(d.cursor, e.cursor)
  {
    hide Queued, QueueOf, DealOne, Range;
    e := DealOne(nodeIds[0], counts, total, d);
    CountFromNonNegative(nodeIds[1..], counts);
    DealOneOk(nodeIds[0], counts, total, d);
    DealOneExact(nodeIds[0], counts, total, d);
  }

  lemma DealFirst(nodeIds: seq<NodeId>, counts: Allocation.Counts, total: nat, d: Dealt)
    requires d.cursor <= total && d.queues.Valid() && Distinct(nodeIds) && nodeIds != []
    requires forall n | n in nodeIds :: n !in d.queues.items
    requires forall n | n in nodeIds :: Allocation.CountOf(counts, n) >= 0
    requires d.cursor + CountFrom(nodeIds, counts) == total
    ensures var to := d.cursor + Allocation.CountOf(counts, nodeIds[0]);
            d.cursor <= to <= total && QueueOf(Deal(nodeIds, counts, total, d).queues, nodeIds[0]) == Range(d.cursor, to)
  {
    hide Queued, QueueOf, DealOne, Range, Distinct;
    var e := DealRest(nodeIds, counts, total, d);
    DealQueues(nodeIds[1..], counts, total, e);
  }

  /** The items of a fanned-out batch go to the nodes of its cluster in runs, in the order of
      the cluster: each node's queue is its run, first item first. */
  lemma ItemsInRuns(cluster: Cluster, nodes: Nodes, total: nat, i: nat)
    requires ClusterOk(cluster, nodes) && i < |cluster.nodeIds|
    ensures var counts := Allocation.Allocate(cluster.nodeIds, cluster.shares, total);
            var from := CountFrom(cluster.nodeIds[..i], counts);
            var q := QueueOf(DealAll(cluster, total), cluster.nodeIds[i]);
            && |q| == Allocation.CountOf(counts, cluster.nodeIds[i])
            && forall k | 0 <= k < |q| :: q[k] == from + k
  {
    hide Deal, SumShares, Allocation.Allocate, CountFrom;
    var ids, counts := cluster.nodeIds, Allocation.Allocate(cluster.nodeIds, cluster.shares, total);
    QueuesFollowShares(cluster, nodes, total);
    CountsFit(cluster, nodes, total);
    DealInOrder(ids, counts, total, Dealt(EmptyMap(), 0), i);
  }

  lemma CountsFit(cluster: Cluster, nodes: Nodes, total: nat)
    requires ClusterOk(cluster, nodes)
    ensures var counts := Allocation.Allocate(cluster.nodeIds, cluster.shares, total);
            && CountFrom(cluster.nodeIds, counts) == total
            && forall n | n in cluster.nodeIds :: Allocation.CountOf(counts, n) >= 0
  {
    hide SumShares, Allocation.Allocate;
    var ids, counts := cluster.nodeIds, Allocation.Allocate(cluster.nodeIds, cluster.shares, total);
    var quotas := Allocation.Quotas(ids, cluster.shares, total);
    Allocation.CountsAddUp(ids, cluster.shares, total);
    SameSum(quotas, counts);
    assert Allocation.QIds(quotas) == ids;
    forall n | n in ids
      ensures Allocation.CountOf(counts, n) >= 0
    {
      var k :| 0 <= k < |ids| && ids[k] == n;
      Allocation.FloorOrCeiling(ids, cluster.shares, total, k);
      QuotaNonNegative(cluster.shares[n], total);
    }
  }

  lemma QuotaNonNegative(share: real, total: nat)
    requires share >= 0.0
    ensures (share * total as real).Floor >= 0 && Allocation.Ceiling(share * total as real) >= 0
  {
  }

  // ---- the invariant at the start ----

  ghost predicate AllPlanned(tasks: seq<Task>) {
    forall t | 0 <= t < |tasks| ::
      tasks[t].index == t && tasks[t].status == TaskStatus.Planned && tasks[t].nodeId.None?
      && tasks[t].attempts == 0 && tasks[t].phase != ReducePhase
  }

  /** A job whose tasks are all planned and each queued once satisfies the invariant. */
  lemma StartInv(c: Ctx, job: Job, reach: set<NodeId>)
    requires AllPlanned(job.tasks) && job.queues.Valid() && c.cfg.maxTaskAttempts >= 1
    requires forall t: TaskId :: Queued(job.queues)[t] == if t < |job.tasks| then 1 else 0
    requires forall n :: n in job.queues.keys ==> n in reach
    requires job.status == JobRunning && !job.reduceDispatched && PipelineOk(job) && job.totalTokens == 0
    requires forall t: TaskId :: TimesSent(c.log, job.serial, t) == 0
    requires forall i | 0 <= i < |c.log| :: c.log[i].Permitted()
    requires c.nodes.Valid() && c.nodes.items.Keys <= reach
    ensures Inv(c.(job := job), reach, {})
  {
    hide Queued, TimesSent;
    ZeroSum(job.tasks, TokensOf);
    forall n
      ensures Load(job, n) == 0
    {
      ZeroSum(job.tasks, HoldsSlot(n));
    }
    assert Conserved(job, {});
  }

  lemma BuildTasksOk(job: Job, strategy: Strategy, cluster: Cluster)
    requires cluster.nodeIds != [] && Distinct(cluster.nodeIds)
    ensures var b := BuildTasks(job, strategy, cluster);
            && AllPlanned(b.tasks) && b.queues.Valid()
            && (forall t: TaskId :: Queued(b.queues)[t] == if t < |b.tasks| then 1 else 0)
            && (forall n :: n in b.queues.keys ==> n in cluster.nodeIds)
            && (strategy != TaskParallel || job.request.kind == Chat ==> |b.tasks| == 1)
            && b == job.(tasks := b.tasks, queues := b.queues)
  {
    hide Queued, DealAll;
    if strategy != TaskParallel || job.request.kind == Chat {
      SingleQueue(cluster.nodeIds[0], 0);
    } else {
      EveryItemQueuedOnce(cluster, |job.request.items|);
    }
  }

  lemma DecideOk(cfg: Config, request: JobRequest, nodes: Nodes, cursor: nat)
    requires nodes.Valid()
    ensures var d := Decide(cfg, request, nodes, cursor);
            && Distinct(d.cluster.nodeIds)
            && (forall n | n in d.cluster.nodeIds :: n in nodes.items)
            && (d.pipeline.Some? ==> request.kind == Chat)
            && (d.pipeline.None? && d.cluster.nodeIds != [] ==> ClusterOk(d.cluster, nodes))
  {
    hide Views, ClusterFor, Pipeline.PlanPipeline, SumShares;
    var views := Views(nodes);
    var eligible := EligibleNodes(cfg, views, request.model, false, false);
    var analysis := AnalyzeWorkload(cfg, request, eligible, views);
    if analysis.strategy == ModelParallel {
      if Pipeline.PlanPipeline(views, request.model, None, cfg.maxPipelineMembers).Some? {
        Pipeline.HeadIsCandidate(views, request.model, None, cfg.maxPipelineMembers);
      }
    } else {
      ClusterForms(cfg, nodes, request.policy, request.model,
                   analysis.strategy == TaskParallel, analysis.unitCount, cursor);
    }
  }

  lemma PlannedOk(c: Ctx, cursor: nat, reach: set<NodeId>)
    requires c.job == NewJob(c.job.serial, c.job.request) && c.cfg.maxTaskAttempts >= 1
    requires forall t: TaskId :: TimesSent(c.log, c.job.serial, t) == 0
    requires forall i | 0 <= i < |c.log| :: c.log[i].Permitted()
    requires c.nodes.Valid() && c.nodes.items.Keys <= reach
    ensures Inv(Submission.Planned(c, cursor), reach, {})
  {
    hide Decide, BuildTasks, Queued, TimesSent, Inv, ClusterOk;
    var d := Decide(c.cfg, c.job.request, c.nodes, cursor);
    DecideOk(c.cfg, c.job.request, c.nodes, cursor);
    if d.cluster.nodeIds == [] {
      FailedStartInv(c, reach);
    } else {
      BuildTasksOk(c.job, d.analysis.strategy, d.cluster);
      StartInv(c, Submission.Planned(c, cursor).job, reach);
    }
  }

  lemma FailedStartInv(c: Ctx, reach: set<NodeId>)
    requires c.job == NewJob(c.job.serial, c.job.request)
    requires forall t: TaskId :: TimesSent(c.log, c.job.serial, t) == 0
    requires forall i | 0 <= i < |c.log| :: c.log[i].Permitted()
    requires c.nodes.Valid() && c.nodes.items.Keys <= reach
    ensures Inv(FailJob(c), reach, {})
  {
  }

  /** A batch gets one task an item exactly when it fans out or has a single item; on a
      single node a longer batch is cut to its first item. */
  lemma ItemsCovered(c: Ctx, cursor: nat)
    requires c.job == NewJob(c.job.serial, c.job.request) && c.job.request.kind == Batch && c.nodes.Valid()
    ensures var d, job := Decide(c.cfg, c.job.request, c.nodes, cursor), Submission.Planned(c, cursor).job;
            var machines := |EligibleNodes(c.cfg, Views(c.nodes), c.job.request.model, false, false)|;
            var items := |c.job.request.items|;
            d.cluster.nodeIds != [] ==> (|job.tasks| == items <==> items == 1 || (items >= 2 && machines >= 2))
  {
    hide Views, ClusterFor, Pipeline.PlanPipeline, DealAll;
    StrategyDecided(c.cfg, c.job.request, Views(c.nodes));
  }
}
