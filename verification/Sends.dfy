/** Which tasks a pump sends, to whom, and in which order, while sends succeed. */
module Sends {
  import opened Collections
  import opened Protocol
  import opened Sorting
  import opened JobCore
  import opened JobLiveness

  // ---- a node is served from the head of its queue ----

  /** The sends of the first k tasks of q to n, one after the other. */
  ghost function Burst(c: Ctx, n: NodeId, q: seq<TaskId>, k: nat): (r: seq<Assignment>)
    requires k <= |q| && n in c.nodes.items
    ensures |r| == k
  {
    var node := c.nodes.items[n];
    seq(k, i requires 0 <= i < k =>
      Assignment(c.job.serial, q[i], n, node.activeTasks + i, node.governor.maxConcurrentTasks, c.now))
  }

  /** How many more tasks fit: up to what the governor allows, one on an idle node that
      allows none. */
  function Room(node: RegisteredNode): nat {
    if node.activeTasks < node.governor.maxConcurrentTasks then node.governor.maxConcurrentTasks - node.activeTasks
    else if node.activeTasks == 0 then 1 else 0
  }

  function Least(a: nat, b: nat): nat {
    if a <= b then a else b
  }

  lemma BurstCons(c: Ctx, n: NodeId, q: seq<TaskId>, k: nat)
    requires 0 < k <= |q| && n in c.nodes.items && q[0] < |c.job.tasks|
    ensures Burst(c, n, q, k) == Burst(c, n, q, 1) + Burst(Assign(c, q[0], n), n, q[1..], k - 1)
    ensures Assign(c, q[0], n).log == c.log + Burst(c, n, q, 1)
  {
  }

  lemma {:induction false} DrainSends(c: Ctx, n: NodeId, slots: nat)
    requires n in c.nodes.items && c.nodes.items[n].socketOpen
    requires forall i | 0 <= i < |QueueOf(c.job.queues, n)| :: QueueOf(c.job.queues, n)[i] < |c.job.tasks|
    ensures var q := QueueOf(c.job.queues, n);
            var k := Least(slots, |q|);
            var d := Drain(c, n, slots);
            && d.log == c.log + Burst(c, n, q, k) && QueueOf(d.job.queues, n) == q[k..]
            && n in d.nodes.items && d.nodes.items[n].activeTasks == c.nodes.items[n].activeTasks + k
    decreases slots
  {
    hide Dispatch;
    var q := QueueOf(c.job.queues, n);
    if slots > 0 && q != [] {
      var s := Shift(c, n);
      OpenDispatch(s, q[0], n);
      var d := Assign(s, q[0], n);
      DrainSends(d, n, slots - 1);
      BurstCons(c, n, q, Least(slots, |q|));
      assert Burst(Assign(c, q[0], n), n, q[1..], Least(slots, |q|) - 1) == Burst(d, n, q[1..], Least(slots, |q|) - 1);
    }
  }

  /** One visit of the pump: with its socket open, a node is sent exactly the head of its
      own queue, in order, until it has all its governor allows or nothing is left. */
  lemma VisitServesHead(c: Ctx, k: nat)
    requires k < |c.job.queues.keys| && c.job.queues.Valid() && IdsValid(c.job)
    requires var n := c.job.queues.keys[k]; n in c.nodes.items && c.nodes.items[n].socketOpen
    ensures var n := c.job.queues.keys[k];
            var q := QueueOf(c.job.queues, n);
            var sent := Least(Room(c.nodes.items[n]), |q|);
            var d := VisitQueue(c, k);
            && d.log == c.log + Burst(c, n, q, sent) && QueueOf(d.job.queues, n) == q[sent..]
            && n in d.nodes.items && d.nodes.items[n].activeTasks == c.nodes.items[n].activeTasks + sent
  {
    hide Drain;
    var n := c.job.queues.keys[k];
    var slots := FreeSlots(c.nodes.items[n]);
    if slots >= 0 {
      DrainSends(c, n, slots);
    } else {
      NoSlotsNoSends(c, n, slots);
    }
    assert Room(c.nodes.items[n]) == if slots >= 0 then slots else 0;
    assert QueueOf(c.job.queues, n)[0..] == QueueOf(c.job.queues, n);
  }

  lemma NoSlotsNoSends(c: Ctx, n: NodeId, slots: int)
    requires slots <= 0
    ensures Drain(c, n, slots) == c
  {
  }

  // ---- stealing ----

  /** The i-th long queue, and all that come before it. */
  lemma {:induction false} LongOrder(keys: seq<NodeId>, queues: Queues, i: nat) returns (k: nat)
    requires i < |LongQueues(keys, queues)|
    ensures k < |keys| && keys[k] == LongQueues(keys, queues)[i]
    ensures forall m | 0 <= m < k :: |QueueOf(queues, keys[m])| < 2 || keys[m] in LongQueues(keys, queues)[..i]
  {
    var long := LongQueues(keys, queues);
    if |QueueOf(queues, keys[0])| >= 2 {
      if i == 0 {
        k := 0;
      } else {
        k := LongOrder(keys[1..], queues, i - 1);
        k := k + 1;
        assert long == [keys[0]] + LongQueues(keys[1..], queues);
        assert long[..i] == [keys[0]] + LongQueues(keys[1..], queues)[..i - 1];
      }
    } else {
      k := LongOrder(keys[1..], queues, i);
      k := k + 1;
    }
  }

  lemma DonorIsFirst(queues: Queues) returns (k: nat)
    requires Donor(queues).Some?
    ensures k < |queues.keys| && Donor(queues) == Some(queues.keys[k]) && |QueueOf(queues, queues.keys[k])| >= 2
    ensures forall m | 0 <= m < |queues.keys| ::
              |QueueOf(queues, queues.keys[m])| <= |QueueOf(queues, queues.keys[k])|
    ensures forall m | 0 <= m < k :: |QueueOf(queues, queues.keys[m])| < |QueueOf(queues, queues.keys[k])|
  {
    hide StableSort;
    var long := LongQueues(queues.keys, queues);
    var i := FirstOfSort(long, ByLength(queues));
    k := LongOrder(queues.keys, queues, i);
    forall m | 0 <= m < k
      ensures |QueueOf(queues, queues.keys[m])| < |QueueOf(queues, queues.keys[k])|
    {
      assert long[i] in long;
      if queues.keys[m] in long[..i] {
        var j :| 0 <= j < i && long[..i][j] == queues.keys[m];
        assert ByLength(queues)(long[i]).Ahead(ByLength(queues)(long[j]));
      }
    }
  }

  lemma {:induction false} ThiefIsFirst(c: Ctx, from: nat) returns (k: nat)
    requires from <= |c.job.queues.keys| && FirstIdle(c, from).Some?
    ensures from <= k < |c.job.queues.keys| && FirstIdle(c, from) == Some(c.job.queues.keys[k])
    ensures QueueOf(c.job.queues, c.job.queues.keys[k]) == [] && HasRoom(c, c.job.queues.keys[k])
    ensures forall m | from <= m < k ::
              !(QueueOf(c.job.queues, c.job.queues.keys[m]) == [] && HasRoom(c, c.job.queues.keys[m]))
    decreases |c.job.queues.keys| - from
  {
    if IdleAt(c, c.job.queues.keys[from]) {
      k := from;
    } else {
      k := ThiefIsFirst(c, from + 1);
    }
  }

  /** One steal: the last task of the first longest queue goes to the first node of the
      cluster that has room and nothing queued. */
  lemma StealTakesTail(c: Ctx) returns (donor: nat, thief: nat)
    requires CanSteal(c) && AllOpen(c) && IdsValid(c.job) && c.job.queues.Valid()
    ensures donor < |c.job.queues.keys| && thief < |c.job.queues.keys|
    ensures forall m | 0 <= m < |c.job.queues.keys| ::
              |QueueOf(c.job.queues, c.job.queues.keys[m])| <= |QueueOf(c.job.queues, c.job.queues.keys[donor])|
    ensures forall m | 0 <= m < donor ::
              |QueueOf(c.job.queues, c.job.queues.keys[m])| < |QueueOf(c.job.queues, c.job.queues.keys[donor])|
    ensures QueueOf(c.job.queues, c.job.queues.keys[thief]) == [] && HasRoom(c, c.job.queues.keys[thief])
    ensures forall m | 0 <= m < thief ::
              !(QueueOf(c.job.queues, c.job.queues.keys[m]) == [] && HasRoom(c, c.job.queues.keys[m]))
    ensures var q, n := QueueOf(c.job.queues, c.job.queues.keys[donor]), c.job.queues.keys[thief];
            && |q| >= 2
            && StealOnce(c).log == c.log + Burst(c, n, [q[|q| - 1]], 1)
            && QueueOf(StealOnce(c).job.queues, c.job.queues.keys[donor]) == q[..|q| - 1]
  {
    hide Donor, FirstIdle, Requeue;
    donor := DonorIsFirst(c.job.queues);
    thief := ThiefIsFirst(c, 0);
    var q := QueueOf(c.job.queues, c.job.queues.keys[donor]);
    var d := Pop(c, c.job.queues.keys[donor]);
    OpenDispatch(d, q[|q| - 1], c.job.queues.keys[thief]);
    assert Burst(d, c.job.queues.keys[thief], [q[|q| - 1]], 1) == Burst(c, c.job.queues.keys[thief], [q[|q| - 1]], 1);
  }
}
