/** Device Registry: the connected nodes, in the order they joined, and the slot counter
    the Job Manager keeps in each. */
module Registry {
  import opened Collections
  import opened Protocol
  import opened JobCore
  import Scheduler

  /** A machine that reconnects under a new session keeps what was learned about it. */
  function Joined(nodes: Nodes, n: NodeId, record: RegisteredNode): Nodes {
    var known := n in nodes.items && nodes.items[n].session != record.session;
    nodes.Set(n, if known then record.(metrics := nodes.items[n].metrics) else record)
  }

  function Heard(nodes: Nodes, n: NodeId, profile: Profile, governor: GovernorReport, metrics: NodeMetrics,
                 activeTasks: nat): Nodes
  {
    if n in nodes.items then
      var node := nodes.items[n];
      nodes.Set(n, node.(profile := node.Measured(profile), governor := governor, activeTasks := activeTasks,
                         online := true, metrics := node.metrics.Heard(metrics)))
    else nodes
  }

  /** How many measured round trips are kept. */
  const RTT_KEPT := 20

  function Ponged(nodes: Nodes, n: NodeId, rttMs: int): Nodes {
    if n in nodes.items then
      var node := nodes.items[n];
      var samples := node.rttSamples + [rttMs];
      nodes.Set(n, node.(rttSamples := if |samples| > RTT_KEPT then samples[1..] else samples, online := true))
    else nodes
  }

  function SlotTaken(nodes: Nodes, n: NodeId): Nodes
    requires n in nodes.items
  {
    nodes.Set(n, nodes.items[n].(activeTasks := nodes.items[n].activeTasks + 1))
  }

  // ---- the rolling averages ----

  function Power(base: real, k: nat): real {
    if k == 0 then 1.0 else base * Power(base, k - 1)
  }

  function FoldedTimes(m: NodeMetrics, task: TaskMetrics, k: nat): NodeMetrics {
    if k == 0 then m else FoldedTimes(m, task, k - 1).Fold(task)
  }

  /** The same result k times over: the average starts at it if there was none, and otherwise
      keeps 0.7 to the power k of its distance from it; every task is counted. */
  lemma {:induction false} AverageSettles(m: NodeMetrics, task: TaskMetrics, k: nat)
    requires k >= 1
    ensures var f, x := FoldedTimes(m, task, k), task.tokensPerSecond;
            && f.tokensPerSecond.Some? && f.ttftMs.Some?
            && (m.tokensPerSecond.None? ==> f.tokensPerSecond.value == x)
            && (m.ttftMs.None? ==> f.ttftMs.value == task.ttftMs)
            && (m.tokensPerSecond.Some? ==>
                  f.tokensPerSecond.value - x == Power(0.7, k) * (m.tokensPerSecond.value - x))
            && (m.ttftMs.Some? ==>
                  f.ttftMs.value - task.ttftMs == Power(0.7, k) * (m.ttftMs.value - task.ttftMs))
            && f.tasksCompleted == m.tasksCompleted + k && f.samples == m.samples + k && f.tasksFailed == m.tasksFailed
  {
    assert Power(0.7, 1) == 0.7 * Power(0.7, 0);
    if k > 1 {
      AverageSettles(m, task, k - 1);
      var past := FoldedTimes(m, task, k - 1);
      if m.tokensPerSecond.Some? {
        Shrinks(past.tokensPerSecond.value, task.tokensPerSecond, Power(0.7, k - 1), m.tokensPerSecond.value);
      }
      if m.ttftMs.Some? { Shrinks(past.ttftMs.value, task.ttftMs, Power(0.7, k - 1), m.ttftMs.value); }
    }
  }

  lemma Shrinks(past: real, x: real, power: real, first: real)
    requires past - x == power * (first - x)
    ensures 0.3 * x + 0.7 * past - x == 0.7 * power * (first - x)
  {
    assert 0.3 * x + 0.7 * past - x == 0.7 * (past - x);
  }

  /** What a finished task teaches: its speed if it was measured, and that it is done; a
      failed one only counts. Only the one machine learns, and only what it earned. */
  lemma LearnedFrom(nodes: Nodes, n: NodeId, task: TaskMetrics)
    requires n in nodes.items
    ensures var noted := NoteResult(nodes, n, task);
            && n in noted.items
            && noted.items[n] == nodes.items[n].(metrics := noted.items[n].metrics)
            && noted.items[n].metrics ==
                 (if task.tokensPerSecond > 0.0 then FoldedTimes(nodes.items[n].metrics, task, 1)
                  else nodes.items[n].metrics)
            && (forall m :: m != n ==> (m in noted.items <==> m in nodes.items))
            && (forall m :: m != n && m in nodes.items ==> noted.items[m] == nodes.items[m])
    ensures var m := NoteFailure(nodes, n).items[n].metrics;
            m == nodes.items[n].metrics.(tasksFailed := nodes.items[n].metrics.tasksFailed + 1)
  {
    assert FoldedTimes(nodes.items[n].metrics, task, 0) == nodes.items[n].metrics;
  }

  // ---- round trips ----

  function PongedAll(nodes: Nodes, n: NodeId, trips: seq<int>): Nodes {
    if trips == [] then nodes else Ponged(PongedAll(nodes, n, trips[..|trips| - 1]), n, trips[|trips| - 1])
  }

  function LastTwenty(trips: seq<int>): seq<int> {
    if |trips| <= 20 then trips else trips[|trips| - 20..]
  }

  /** Of all round trips the last twenty are kept, in order. */
  lemma {:induction false} RoundTripsKept(nodes: Nodes, n: NodeId, trips: seq<int>)
    requires n in nodes.items && nodes.items[n].rttSamples == []
    ensures n in PongedAll(nodes, n, trips).items
    ensures PongedAll(nodes, n, trips).items[n].rttSamples == LastTwenty(trips)
  {
    if trips != [] {
      var front, last := trips[..|trips| - 1], trips[|trips| - 1];
      RoundTripsKept(nodes, n, front);
      assert trips == front + [last];
      assert LastTwenty(trips) ==
        (var s := LastTwenty(front) + [last]; if |s| > 20 then s[1..] else s);
    }
  }

  class DeviceRegistry {
    var nodes: Nodes

    constructor ()
      ensures nodes == EmptyMap()
    {
      nodes := EmptyMap();
    }

    method Add(n: NodeId, record: RegisteredNode)
      modifies this
      ensures nodes == Joined(old(nodes), n, record)
      ensures n in nodes.items && nodes.items[n] == record.(metrics := nodes.items[n].metrics)
      ensures nodes.items[n].metrics ==
              if n in old(nodes).items && old(nodes).items[n].session != record.session then old(nodes).items[n].metrics
              else record.metrics
      ensures forall m :: m != n ==> (m in nodes.items <==> m in old(nodes).items)
      ensures forall m :: m != n && m in nodes.items ==> nodes.items[m] == old(nodes).items[m]
    {
      var node := record;
      if n in nodes.items && nodes.items[n].session != node.session {
        node := node.(metrics := nodes.items[n].metrics);
      }
      nodes := nodes.Set(n, node);
    }

    method Remove(n: NodeId) returns (removed: Option<RegisteredNode>)
      modifies this
      ensures nodes == old(nodes).Delete(n)
      ensures removed == if n in old(nodes).items then Some(old(nodes).items[n]) else None
    {
      removed := if n in nodes.items then Some(nodes.items[n]) else None;
      nodes := nodes.Delete(n);
    }

    method UpdateHeartbeat(n: NodeId, profile: Profile, governor: GovernorReport, metrics: NodeMetrics, activeTasks: nat)
      modifies this
      ensures nodes == Heard(old(nodes), n, profile, governor, metrics, activeTasks)
    {
      if n !in nodes.items { return; }
      var node := nodes.items[n];
      var latency := MeasuredLatency(n);
      if latency.Some? {
        node := node.(profile := profile.(latencyMs := latency.value));
      } else {
        node := node.(profile := profile);
      }
      node := node.(governor := governor, activeTasks := activeTasks, online := true);
      var learned := node.metrics;
      if metrics.tokensPerSecond.Some? { learned := learned.(tokensPerSecond := metrics.tokensPerSecond); }
      if metrics.ttftMs.Some? { learned := learned.(ttftMs := metrics.ttftMs); }
      nodes := nodes.Set(n, node.(metrics := learned));
    }

    /** The mean of the measured round trips to a tenth of a millisecond. */
    method MeasuredLatency(n: NodeId) returns (latency: Option<real>)
      requires n in nodes.items
      ensures latency.Some? <==> nodes.items[n].rttSamples != []
      ensures latency.Some? ==> forall p :: nodes.items[n].Measured(p) == p.(latencyMs := latency.value)
      ensures latency.Some? ==>
                var mean := Total(nodes.items[n].rttSamples) as real / |nodes.items[n].rttSamples| as real;
                latency.value - 0.05 <= mean <= latency.value + 0.05
    {
      var samples := nodes.items[n].rttSamples;
      if samples == [] { return None; }
      var sum := 0;
      for i := 0 to |samples|
        invariant sum == Total(samples[..i])
      {
        assert samples[..i + 1][..i] == samples[..i];
        sum := sum + samples[i];
      }
      assert samples[..|samples|] == samples;
      return Some(Round(sum as real / |samples| as real * 10.0) as real / 10.0);
    }

    method RecordPong(n: NodeId, rttMs: int)
      modifies this
      ensures nodes == Ponged(old(nodes), n, rttMs)
    {
      if n !in nodes.items { return; }
      var node := nodes.items[n];
      node := node.(rttSamples := node.rttSamples + [rttMs]);
      if |node.rttSamples| > RTT_KEPT { node := node.(rttSamples := node.rttSamples[1..]); }
      nodes := nodes.Set(n, node.(online := true));
    }

    method RecordTaskResult(n: NodeId, metrics: TaskMetrics)
      requires metrics.tokensPerSecond > 0.0
      modifies this
      ensures nodes == NoteResult(old(nodes), n, metrics)
    {
      if n !in nodes.items { return; }
      var node := nodes.items[n];
      nodes := nodes.Set(n, node.(metrics := node.metrics.Fold(metrics)));
    }

    method RecordTaskFailure(n: NodeId)
      modifies this
      ensures nodes == NoteFailure(old(nodes), n)
    {
      if n in nodes.items {
        var node := nodes.items[n];
        nodes := nodes.Set(n, node.(metrics := node.metrics.(tasksFailed := node.metrics.tasksFailed + 1)));
      }
    }

    method TakeSlot(n: NodeId)
      requires n in nodes.items
      modifies this
      ensures nodes == SlotTaken(old(nodes), n)
    {
      var node := nodes.items[n];
      nodes := nodes.Set(n, node.(activeTasks := node.activeTasks + 1));
    }

    /** Never below zero, and nothing when the node is gone. */
    method ReturnSlot(n: NodeId)
      modifies this
      ensures nodes == FreeSlot(old(nodes), Some(n))
    {
      if n !in nodes.items { return; }
      var node := nodes.items[n];
      nodes := nodes.Set(n, node.(activeTasks := if node.activeTasks > 0 then node.activeTasks - 1 else 0));
    }

    method ToViews() returns (views: seq<NodeView>)
      ensures views == Scheduler.Views(nodes)
    {
      views := Scheduler.Views(nodes);
    }
  }
}
