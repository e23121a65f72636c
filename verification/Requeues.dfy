/** Where a task goes that comes back, in terms of the machines and the record of sends. */
module Requeues {
  import opened Collections
  import opened Protocol
  import opened Sorting
  import opened Scheduler
  import opened JobCore
  import opened Traces

  // ---- the views come fastest first, and filters keep that ----

  ghost predicate FastestFirst(views: seq<NodeView>) {
    forall i, j | 0 <= i < j < |views| :: views[i].node.Throughput() >= views[j].node.Throughput()
  }

  lemma ViewsDescend(nodes: Nodes)
    ensures FastestFirst(Views(nodes))
  {
    hide StableSort;
    var listed := Listed(nodes.keys, nodes.items);
    var sorted := StableSort(listed, ByThroughput);
    SortSorts(listed, ByThroughput);
    forall i, j | 0 <= i < j < |sorted|
      ensures sorted[i].node.Throughput() >= sorted[j].node.Throughput()
    {
      assert !ByThroughput(sorted[j]).Ahead(ByThroughput(sorted[i]));
    }
  }

  lemma {:induction false} EligibleDescend(cfg: Config, views: seq<NodeView>, model: Model, busy: bool, cold: bool)
    requires FastestFirst(views)
    ensures FastestFirst(EligibleNodes(cfg, views, model, busy, cold))
  {
    hide Eligible;
    if views != [] {
      EligibleDescend(cfg, views[1..], model, busy, cold);
      HeadFirst(views, EligibleNodes(cfg, views[1..], model, busy, cold));
    }
  }

  lemma HeadFirst(views: seq<NodeView>, rest: seq<NodeView>)
    requires views != [] && FastestFirst(views) && FastestFirst(rest) && forall v | v in rest :: v in views[1..]
    ensures FastestFirst([views[0]] + rest)
  {
    var r := [views[0]] + rest;
    forall i, j | 0 <= i < j < |r|
      ensures r[i].node.Throughput() >= r[j].node.Throughput()
    {
      if i == 0 {
        assert rest[j - 1] in views[1..];
        var k :| 0 <= k < |views[1..]| && views[1..][k] == rest[j - 1];
        assert views[k + 1] == rest[j - 1];
      }
    }
  }

  lemma {:induction false} UntriedDescend(views: seq<NodeView>, tried: set<NodeId>)
    requires FastestFirst(views)
    ensures FastestFirst(Untried(views, tried))
  {
    if views != [] {
      UntriedDescend(views[1..], tried);
      HeadFirst(views, Untried(views[1..], tried));
    }
  }

  // ---- the choice ----

  /** Could take the task, perhaps later, and already holds the model if `warm`. */
  ghost predicate Capable(c: Ctx, n: NodeId, warm: bool) {
    n in c.nodes.items && Eligible(c.cfg, c.nodes.items[n], c.job.request.model, true, !warm)
  }

  /** n is chosen well: it holds the model unless nobody capable does; it has not been sent
      the task before unless all its rivals have; and it is the fastest of those left. */
  ghost predicate BestFor(c: Ctx, t: TaskId, n: NodeId) {
    var warm := exists m :: Capable(c, m, true);
    && Capable(c, n, warm)
    && forall m :: Capable(c, m, warm) ==>
         && (SentTo(c.log, c.job.serial, t, n) ==> SentTo(c.log, c.job.serial, t, m))
         && ((SentTo(c.log, c.job.serial, t, n) <==> SentTo(c.log, c.job.serial, t, m)) ==>
               c.nodes.items[n].Throughput() >= c.nodes.items[m].Throughput())
  }

  /** Giving a slot back changes nothing that eligibility or speed depend on. */
  ghost predicate SlotsOnly(a: Nodes, b: Nodes) {
    && b.keys == a.keys && b.items.Keys == a.items.Keys
    && forall n :: n in a.items ==> b.items[n] == a.items[n].(activeTasks := b.items[n].activeTasks)
  }

  lemma FreedSlots(nodes: Nodes, n: Option<NodeId>)
    ensures SlotsOnly(nodes, FreeSlot(nodes, n))
  {
  }

  lemma CapableViews(c: Ctx, nodes: Nodes, n: NodeId, warm: bool)
    requires nodes.Valid() && SlotsOnly(c.nodes, nodes)
    ensures Capable(c, n, warm) <==>
              n in nodes.items && NodeView(n, nodes.items[n])
                in EligibleNodes(c.cfg, Views(nodes), c.job.request.model, true, !warm)
    ensures n in nodes.items ==> nodes.items[n].Throughput() == c.nodes.items[n].Throughput()
  {
    hide Views;
    if n in nodes.items { ViewOf(nodes, n); }
  }

  lemma EligibleAreViews(c: Ctx, nodes: Nodes, warm: bool)
    requires nodes.Valid() && SlotsOnly(c.nodes, nodes)
    ensures forall v | v in EligibleNodes(c.cfg, Views(nodes), c.job.request.model, true, !warm) ::
              v.nodeId in nodes.items && v.node == nodes.items[v.nodeId] && Capable(c, v.nodeId, warm)
  {
    hide Views, Eligible;
    forall v | v in EligibleNodes(c.cfg, Views(nodes), c.job.request.model, true, !warm)
      ensures v.nodeId in nodes.items && v.node == nodes.items[v.nodeId] && Capable(c, v.nodeId, warm)
    {
      CapableViews(c, nodes, v.nodeId, warm);
    }
  }

  lemma WarmExactly(c: Ctx, nodes: Nodes)
    requires nodes.Valid() && SlotsOnly(c.nodes, nodes)
    ensures EligibleNodes(c.cfg, Views(nodes), c.job.request.model, true, false) != [] <==>
              exists m :: Capable(c, m, true)
  {
    hide Views, Eligible, Capable, EligibleNodes;
    var warm := EligibleNodes(c.cfg, Views(nodes), c.job.request.model, true, false);
    EligibleAreViews(c, nodes, true);
    if warm != [] { assert warm[0] in warm; }
    if m :| Capable(c, m, true) { CapableViews(c, nodes, m, true); }
  }

  lemma TriedSent(c: Ctx, t: TaskId, n: NodeId)
    requires Traced(c) && t < |c.job.tasks|
    ensures n in c.job.tasks[t].triedNodes <==> SentTo(c.log, c.job.serial, t, n)
  {
    assert n in Tried(c.job, t) <==> SentTo(c.log, c.job.serial, t, n);
  }

  lemma FirstOfPool(views: seq<NodeView>, tried: set<NodeId>)
    requires views != [] && FastestFirst(views)
    ensures var untried := Untried(views, tried);
            var best := if untried != [] then untried[0] else views[0];
            && best in views
            && forall v | v in views ::
                 && (best.nodeId in tried ==> v.nodeId in tried)
                 && ((best.nodeId in tried <==> v.nodeId in tried) ==> best.node.Throughput() >= v.node.Throughput())
  {
    var untried := Untried(views, tried);
    UntriedDescend(views, tried);
    if untried != [] { assert untried[0] in untried; }
    forall v | v in views
      ensures untried != [] && v.nodeId !in tried ==> untried[0].node.Throughput() >= v.node.Throughput()
      ensures untried == [] ==> views[0].node.Throughput() >= v.node.Throughput() && v.nodeId in tried
    {
      if v.nodeId !in tried {
        assert v in untried;
        var k :| 0 <= k < |untried| && untried[k] == v;
      } else {
        var k :| 0 <= k < |views| && views[k] == v;
      }
    }
  }

  lemma TargetIsBest(c: Ctx, t: TaskId, nodes: Nodes)
    requires Traced(c) && t < |c.job.tasks| && nodes.Valid() && SlotsOnly(c.nodes, nodes)
    ensures match RequeueTarget(c.cfg, nodes, c.job.request.model, c.job.tasks[t].triedNodes)
            case None => forall m :: !Capable(c, m, false)
            case Some(n) => BestFor(c, t, n)
  {
    hide Views, Eligible, EligibleNodes, Traced, SentTo, Untried, Capable;
    var views, model, tried := Views(nodes), c.job.request.model, c.job.tasks[t].triedNodes;
    var warm := EligibleNodes(c.cfg, views, model, true, false) != [];
    WarmExactly(c, nodes);
    var pool := EligibleNodes(c.cfg, views, model, true, !warm);
    EligibleAreViews(c, nodes, warm);
    forall m
      ensures Capable(c, m, warm) ==> m in nodes.items && NodeView(m, nodes.items[m]) in pool
      ensures m in nodes.items ==> nodes.items[m].Throughput() == c.nodes.items[m].Throughput()
      ensures m in tried <==> SentTo(c.log, c.job.serial, t, m)
    {
      CapableViews(c, nodes, m, warm);
      TriedSent(c, t, m);
    }
    if pool != [] {
      ViewsDescend(nodes);
      EligibleDescend(c.cfg, views, model, true, !warm);
      FirstOfPool(pool, tried);
      TargetOfPool(c.cfg, nodes, model, tried, warm);
    } else {
      TargetOfPool(c.cfg, nodes, model, tried, warm);
    }
  }

  lemma TargetOfPool(cfg: Config, nodes: Nodes, model: Model, tried: set<NodeId>, warm: bool)
    requires warm <==> EligibleNodes(cfg, Views(nodes), model, true, false) != []
    ensures var pool := EligibleNodes(cfg, Views(nodes), model, true, !warm);
            var untried := Untried(pool, tried);
            RequeueTarget(cfg, nodes, model, tried)
              == if untried != [] then Some(untried[0].nodeId) else if pool != [] then Some(pool[0].nodeId) else None
  {
    hide Views, Eligible, EligibleNodes;
  }

  /** A task that comes back with an attempt left: it is given up if no connected machine
      could ever take it; otherwise it waits at the head of the queue of the best one, with a
      pump scheduled, and no other queue or task changes. */
  lemma RequeuePrefers(c: Ctx, t: TaskId)
    requires Traced(c) && c.nodes.Valid() && t < |c.job.tasks| && c.job.pipeline.None?
    requires c.job.tasks[t].attempts < c.cfg.maxTaskAttempts
    ensures var d := JobCore.Requeue(c, t);
            if forall m :: !Capable(c, m, false) then d == MaybeFinish(Release(c, t, Failed))
            else
              exists n :: BestFor(c, t, n)
                && d.job.queues == c.job.queues.Set(n, [t] + QueueOf(c.job.queues, n))
                && d.job.deferred == c.job.deferred + 1 && d.log == c.log
                && |d.job.tasks| == |c.job.tasks| && d.job.tasks[t].Waiting() && d.job.tasks[t].nodeId.None?
                && (forall u | 0 <= u < |c.job.tasks| && u != t :: d.job.tasks[u] == c.job.tasks[u])
  {
    hide MaybeFinish, RequeueTarget, Traced, Capable, BestFor, FreeSlot;
    var freed := Release(c, t, c.job.tasks[t].status);
    FreedSlots(c.nodes, c.job.tasks[t].nodeId);
    FreedValid(c.nodes, c.job.tasks[t].nodeId);
    TargetIsBest(c, t, freed.nodes);
    var target := RequeueTarget(c.cfg, freed.nodes, c.job.request.model, c.job.tasks[t].triedNodes);
    if target.Some? { BestIsCapable(c, t, target.value); }
  }

  lemma FreedValid(nodes: Nodes, n: Option<NodeId>)
    requires nodes.Valid()
    ensures FreeSlot(nodes, n).Valid()
  {
  }

  lemma BestIsCapable(c: Ctx, t: TaskId, n: NodeId)
    requires BestFor(c, t, n)
    ensures Capable(c, n, false)
  {
  }

  // ---- a lost node's queue ----

  lemma WithoutAbsent(keys: seq<NodeId>, n: NodeId)
    requires n !in keys
    ensures Without(keys, n) == keys
  {
  }

  lemma FirstLeft(keys: seq<NodeId>, n: NodeId)
    requires Distinct(keys) && |keys| >= 2
    ensures var rest := Without(keys, n); rest != [] && rest[0] == if keys[0] == n then keys[1] else keys[0]
  {
    if keys[0] == n { WithoutAbsent(keys[1..], n); }
  }

  lemma HasQueue(queues: Queues, n: NodeId)
    requires queues.Valid() && |queues.keys| >= 2
    ensures Distinct(queues.keys) && queues.keys[0] in queues.items && queues.keys[1] in queues.items
    ensures queues.keys[0] != queues.keys[1]
  {
  }

  /** The queue of a lost node joins the tail of the first remaining one, in order; no other
      queue and no task changes. */
  lemma QueueMoves(c: Ctx, n: NodeId)
    requires c.job.queues.Valid() && QueueOf(c.job.queues, n) != [] && |c.job.queues.keys| >= 2
    ensures var keys, d := c.job.queues.keys, MoveQueue(c, n);
            var first := if keys[0] == n then keys[1] else keys[0];
            && d == c.(job := c.job.(queues := d.job.queues)) && n !in d.job.queues.items
            && QueueOf(d.job.queues, first) == QueueOf(c.job.queues, first) + QueueOf(c.job.queues, n)
            && forall m :: m != n && m != first ==> QueueOf(d.job.queues, m) == QueueOf(c.job.queues, m)
  {
    hide RequeueEach, Without, Distinct;
    FirstLeft(c.job.queues.keys, n);
    HasQueue(c.job.queues, n);
  }
}
