/** Pumping, stealing and the events of one job keep the invariant. */
module JobPump {
  import opened Collections
  import opened Protocol
  import opened JobCore
  import opened JobInvariants
  import opened JobSteps
  import opened Choices

  // ---- taking a task out of a queue ----

  ghost function WithQueue(c: Ctx, n: NodeId, q: seq<TaskId>): Ctx {
    c.(job := c.job.(queues := c.job.queues.Set(n, q)))
  }

  lemma TakeCounts(queues: Queues, n: NodeId, t: TaskId, rest: seq<TaskId>)
    requires queues.Valid() && n in queues.items
    requires multiset(QueueOf(queues, n)) == multiset{t} + multiset(rest)
    ensures Queued(queues) == Queued(queues.Set(n, rest)) + multiset{t}
  {
    QueuedSet(queues, n, rest);
    DropCommon(Queued(queues), Queued(queues.Set(n, rest)), multiset(rest), multiset{t});
  }

  lemma TakeConserved(job: Job, n: NodeId, t: TaskId, rest: seq<TaskId>)
    requires Conserved(job, {}) && n in job.queues.items
    requires multiset(QueueOf(job.queues, n)) == multiset{t} + multiset(rest)
    ensures Conserved(job.(queues := job.queues.Set(n, rest)), {t})
  {
    var job' := job.(queues := job.queues.Set(n, rest));
    TakeCounts(job.queues, n, t, rest);
    hide Queued, QueueOf;
    assert Queued(job.queues)[t] == Queued(job'.queues)[t] + 1;
    forall u: TaskId
      ensures Queued(job'.queues)[u] == (if u < |job'.tasks| && job'.tasks[u].Waiting() && u !in {t} then 1 else 0)
    {
      assert Queued(job.queues)[u] == Queued(job'.queues)[u] + multiset{t}[u];
    }
  }

  lemma TakeOk(c: Ctx, n: NodeId, t: TaskId, rest: seq<TaskId>, reach: set<NodeId>)
    requires Inv(c, reach, {}) && n in c.job.queues.items
    requires multiset(QueueOf(c.job.queues, n)) == multiset{t} + multiset(rest)
    ensures Inv(WithQueue(c, n, rest), reach, {t}) && Follows(c, WithQueue(c, n, rest))
    ensures Measure(c.cfg.maxTaskAttempts, WithQueue(c, n, rest).job) == Measure(c.cfg.maxTaskAttempts, c.job)
  {
    var d := WithQueue(c, n, rest);
    hide Conserved, QueueOf, TasksOk;
    TakeConserved(c.job, n, t, rest);
    TasksFrame(c.cfg.maxTaskAttempts, c.job, d.job, reach);
  }

  lemma ShiftOk(c: Ctx, n: NodeId, reach: set<NodeId>)
    requires Inv(c, reach, {}) && QueueOf(c.job.queues, n) != []
    ensures Inv(Shift(c, n), reach, {QueueOf(c.job.queues, n)[0]}) && Follows(c, Shift(c, n))
  {
    var q := QueueOf(c.job.queues, n);
    assert q == [q[0]] + q[1..];
    TakeOk(c, n, q[0], q[1..], reach);
  }

  lemma PopOk(c: Ctx, n: NodeId, reach: set<NodeId>)
    requires Inv(c, reach, {}) && QueueOf(c.job.queues, n) != []
    ensures var q := QueueOf(c.job.queues, n); Inv(Pop(c, n), reach, {q[|q| - 1]}) && Follows(c, Pop(c, n))
  {
    var q := QueueOf(c.job.queues, n);
    assert q == q[..|q| - 1] + [q[|q| - 1]];
    TakeOk(c, n, q[|q| - 1], q[..|q| - 1], reach);
  }

  // ---- pump ----

  /** What `Follows` says about one node's slots. */
  lemma FollowsNode(c: Ctx, d: Ctx, n: NodeId)
    requires Follows(c, d) && n in c.nodes.items
    ensures n in d.nodes.items && d.nodes.items[n].Limit() == c.nodes.items[n].Limit()
    ensures d.cfg == c.cfg
  {
  }

  lemma FollowsCfg(c: Ctx, d: Ctx)
    requires Follows(c, d)
    ensures d.cfg == c.cfg && d.now == c.now
    ensures d.nodes.items.Keys == c.nodes.items.Keys
    ensures Grown(c.job, d.job) && (c.job.Terminal() ==> d.job.Terminal())
  {
  }

  lemma {:induction false} DrainOk(c: Ctx, n: NodeId, slots: int, reach: set<NodeId>)
    requires Inv(c, reach, {}) && c.cfg.maxTaskAttempts >= 1 && n in c.nodes.items
    requires c.nodes.items[n].activeTasks + slots <= c.nodes.items[n].Limit()
    ensures Inv(Drain(c, n, slots), reach, {}) && Follows(c, Drain(c, n, slots))
    decreases slots
  {
    hide Inv, Follows, Dispatch;
    if slots <= 0 || QueueOf(c.job.queues, n) == [] {
      InvStatus(c, reach, {});
    } else {
      var t := QueueOf(c.job.queues, n)[0];
      var d := Shift(c, n);
      var e := Dispatch(d, t, n);
      ShiftOk(c, n, reach);
      DispatchOk(d, t, n, reach, {t});
      assert {t} - {t} == {};
      FollowsNode(d, e, n);
      FollowsTrans(c, d, e);
      if !Cleared(c, e) {
        DrainOk(e, n, slots - 1, reach);
        FollowsTrans(c, e, Drain(c, n, slots));
      }
    }
  }

  lemma VisitOk(c: Ctx, k: nat, reach: set<NodeId>)
    requires Inv(c, reach, {}) && c.cfg.maxTaskAttempts >= 1 && k < |c.job.queues.keys|
    ensures Inv(VisitQueue(c, k), reach, {}) && Follows(c, VisitQueue(c, k))
  {
    hide Inv, Follows, Drain;
    var n := c.job.queues.keys[k];
    InvStatus(c, reach, {});
    if n in c.nodes.items { DrainOk(c, n, FreeSlots(c.nodes.items[n]), reach); }
  }

  lemma {:induction false} DrainAllOk(c: Ctx, k: nat, visits: nat, rebuilt: bool, reach: set<NodeId>)
    requires Inv(c, reach, {}) && c.cfg.maxTaskAttempts >= 1
    ensures Inv(DrainAll(c, k, visits, rebuilt), reach, {}) && Follows(c, DrainAll(c, k, visits, rebuilt))
    decreases if rebuilt then 0 else 1, visits
  {
    hide Inv, Follows, VisitQueue, Cleared;
    if visits == 0 || k >= |c.job.queues.keys| {
      InvStatus(c, reach, {});
    } else {
      var d := VisitQueue(c, k);
      VisitOk(c, k, reach);
      FollowsCfg(c, d);
      if !Cleared(c, d) {
        DrainAllOk(d, k + 1, visits - 1, rebuilt, reach);
        FollowsTrans(c, d, DrainAll(c, k, visits, rebuilt));
      } else if !rebuilt {
        DrainAllOk(d, 0, Visits(d), true, reach);
        FollowsTrans(c, d, DrainAll(c, k, visits, rebuilt));
      }
    }
  }

  lemma StealOnceOk(c: Ctx, reach: set<NodeId>)
    requires Inv(c, reach, {}) && c.cfg.maxTaskAttempts >= 1 && CanSteal(c)
    ensures Inv(StealOnce(c), reach, {}) && Follows(c, StealOnce(c))
  {
    hide Inv, Follows, Dispatch;
    var donor := Donor(c.job.queues).value;
    var q := QueueOf(c.job.queues, donor);
    var d, t := Pop(c, donor), q[|q| - 1];
    PopOk(c, donor, reach);
    DispatchOk(d, t, FirstIdle(c, 0).value, reach, {t});
    assert {t} - {t} == {};
    FollowsTrans(c, d, StealOnce(c));
  }

  lemma {:induction false} StealOk(c: Ctx, rounds: nat, reach: set<NodeId>)
    requires Inv(c, reach, {}) && c.cfg.maxTaskAttempts >= 1
    ensures Inv(Steal(c, rounds), reach, {}) && Follows(c, Steal(c, rounds))
    decreases rounds
  {
    hide Inv, Follows, StealOnce, CanSteal;
    if rounds > 0 && CanSteal(c) {
      var d := StealOnce(c);
      StealOnceOk(c, reach);
      FollowsCfg(c, d);
      StealOk(d, rounds - 1, reach);
      FollowsTrans(c, d, Steal(c, rounds));
    } else {
      InvStatus(c, reach, {});
    }
  }

  lemma PumpOk(c: Ctx, reach: set<NodeId>)
    requires Inv(c, reach, {}) && c.cfg.maxTaskAttempts >= 1
    ensures Inv(Pump(c), reach, {}) && Follows(c, Pump(c))
  {
    hide Inv, Follows, DrainAll, Steal, MaybeFinish;
    if c.job.Active() {
      var d := DrainAll(c, 0, Visits(c), false);
      var e := Steal(d, STEAL_ROUNDS);
      DrainAllOk(c, 0, Visits(c), false, reach);
      FollowsCfg(c, d);
      StealOk(d, STEAL_ROUNDS, reach);
      FollowsCfg(d, e);
      MaybeFinishOk(e, reach, {});
      FollowsTrans(c, d, e);
      FollowsTrans(c, e, Pump(c));
    } else {
      InvStatus(c, reach, {});
    }
  }

  // ---- answers ----

  lemma AcceptedOk(c: Ctx, t: TaskId, reach: set<NodeId>)
    requires Inv(c, reach, {}) && t < |c.job.tasks| && c.job.tasks[t].InFlight()
    ensures Inv(Accepted(c, t), reach, {}) && Follows(c, Accepted(c, t))
  {
    FlightSetOk(c, t, c.job.tasks[t].(status := Running), reach);
  }

  lemma TokenOk(c: Ctx, t: TaskId, token: string, reach: set<NodeId>)
    requires Inv(c, reach, {}) && t < |c.job.tasks| && c.job.tasks[t].InFlight()
    ensures Inv(Token(c, t, token), reach, {}) && Follows(c, Token(c, t, token))
  {
    FlightSetOk(c, t, c.job.tasks[t].(output := c.job.tasks[t].output + token), reach);
  }

  /** A task in flight that stays in flight on the same node. */
  lemma FlightSetOk(c: Ctx, t: TaskId, x: Task, reach: set<NodeId>)
    requires Inv(c, reach, {}) && t < |c.job.tasks| && c.job.tasks[t].InFlight() && x.InFlight()
    requires x.index == c.job.tasks[t].index && x.phase == c.job.tasks[t].phase
    requires x.messages == c.job.tasks[t].messages && x.nodeId == c.job.tasks[t].nodeId
    requires x.attempts == c.job.tasks[t].attempts
    ensures Inv(c.(job := WithTask(c.job, t, x)), reach, {}) && Follows(c, c.(job := WithTask(c.job, t, x)))
  {
    hide Sum, MapOutputs, FinalOutput, ReducePrompt, Queued;
    var max := c.cfg.maxTaskAttempts;
    var d := c.(job := WithTask(c.job, t, x));
    assert TaskOk(max, c.job, t, reach);
    TaskSetOk(max, c.job, t, x, reach, {});
    TokensSet(c.job, t, x);
    MeasureSet(max, c.job, t, x);
    forall n
      ensures Load(d.job, n) == Load(c.job, n)
    {
      LoadSet(c.job, t, x, n);
    }
    assert LogOk(d);
  }

  lemma RecordJobOk(c: Ctx, t: TaskId, sender: NodeId, output: string, metrics: TaskMetrics, reach: set<NodeId>)
    requires Inv(c, reach, {}) && t < |c.job.tasks| && c.job.tasks[t].On(sender)
    ensures JobOk(c.cfg.maxTaskAttempts, Record(c, t, sender, output, metrics).job, reach, {})
  {
    var max := c.cfg.maxTaskAttempts;
    var d := Record(c, t, sender, output, metrics);
    var x := d.job.tasks[t];
    assert TaskOk(max, c.job, t, reach);
    TaskSetOk(max, c.job, t, x, reach, {});
    TokensSet(c.job, t, x);
    TasksFrame(max, WithTask(c.job, t, x), d.job, reach);
  }

  lemma RecordSlots(c: Ctx, t: TaskId, sender: NodeId, output: string, metrics: TaskMetrics)
    requires Covered(c) && t < |c.job.tasks| && c.job.tasks[t].On(sender)
    ensures var d := Record(c, t, sender, output, metrics); Covered(d) && SlotsFollow(c, d)
  {
    var d := Record(c, t, sender, output, metrics);
    forall n | n in c.nodes.items
      ensures d.nodes.items[n].activeTasks + Load(c.job, n) == c.nodes.items[n].activeTasks + Load(d.job, n)
    {
      LoadSet(c.job, t, d.job.tasks[t], n);
    }
  }

  lemma RecordOk(c: Ctx, t: TaskId, sender: NodeId, output: string, metrics: TaskMetrics, reach: set<NodeId>)
    requires Inv(c, reach, {}) && t < |c.job.tasks| && c.job.tasks[t].On(sender)
    ensures var d := Record(c, t, sender, output, metrics);
            && Inv(d, reach, {}) && Follows(c, d)
            && Measure(c.cfg.maxTaskAttempts, d.job) < Measure(c.cfg.maxTaskAttempts, c.job)
  {
    hide JobOk, Covered, SlotsFollow;
    var d := Record(c, t, sender, output, metrics);
    RecordJobOk(c, t, sender, output, metrics, reach);
    RecordStatus(c, t, reach);
    RecordSlots(c, t, sender, output, metrics);
    MeasureSet(c.cfg.maxTaskAttempts, c.job, t, d.job.tasks[t]);
  }

  lemma RecordStatus(c: Ctx, t: TaskId, reach: set<NodeId>)
    requires Inv(c, reach, {}) && t < |c.job.tasks| && c.job.tasks[t].InFlight()
    ensures Covered(c) && c.job.Active()
  {
  }
}
