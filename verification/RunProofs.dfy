/** Safety over whole runs of the coordinator: whatever the order of events, the invariant
    of every job, exact slots and exact counters are kept. */
module RunProofs {
  import opened Collections
  import opened Protocol
  import opened JobCore
  import opened JobInvariants
  import opened JobEvents
  import opened JobPump
  import opened Coordinator
  import opened Choices

  // ---- the invariant of the coordinator ----

  ghost function LoadAt(items: map<JobId, Job>, n: NodeId): JobId -> nat {
    (j: JobId) => if j in items then Load(items[j], n) else 0
  }

  /** Tasks of all jobs that are assigned to or running on n. */
  ghost function TotalLoad(s: State, n: NodeId): nat {
    Sum(s.jobs.keys, LoadAt(s.jobs.items, n))
  }

  ghost function CompletedAt(items: map<JobId, Job>): JobId -> nat {
    (j: JobId) => if j in items then CompletedJobs(items[j]) else 0
  }

  /** Jobs that have reached completed, those submitted over included. */
  ghost function CompletedTotal(s: State): nat {
    Sum(s.jobs.keys, CompletedAt(s.jobs.items)) + Sum(s.retired, CompletedJobs)
  }

  /** While a node is being lost, jobs not yet told may still name it. */
  ghost function ReachOf(s: State, untold: set<JobId>, lost: NodeId, j: JobId): set<NodeId> {
    if j in untold then s.nodes.items.Keys + {lost} else s.nodes.items.Keys
  }

  ghost predicate JobsOk(s: State, untold: set<JobId>, lost: NodeId) {
    forall j :: j in s.jobs.items ==> JobOk(s.cfg.maxTaskAttempts, s.jobs.items[j], ReachOf(s, untold, lost, j), {})
  }

  ghost predicate LogsOk(s: State) {
    && (forall j, t: TaskId :: j in s.jobs.items ==>
          TimesSent(s.log, s.jobs.items[j].serial, t) == Attempts(s.jobs.items[j], t))
    && (forall serial: nat, t: TaskId :: serial >= s.nextSerial ==> TimesSent(s.log, serial, t) == 0)
    && (forall i | 0 <= i < |s.log| :: s.log[i].Permitted())
  }

  ghost predicate SerialsOk(s: State) {
    && (forall j :: j in s.jobs.items ==> s.jobs.items[j].serial < s.nextSerial)
    && (forall j, k :: j in s.jobs.items && k in s.jobs.items && j != k ==>
      s.jobs.items[j].serial != s.jobs.items[k].serial)
  }

  ghost predicate SlotsExact(s: State) {
    forall n :: n in s.nodes.items ==> s.nodes.items[n].activeTasks == TotalLoad(s, n)
  }

  ghost predicate StateOk(s: State, untold: set<JobId>, lost: NodeId) {
    && s.jobs.Valid() && s.nodes.Valid()
    && JobsOk(s, untold, lost)
    && LogsOk(s)
    && SerialsOk(s)
    && SlotsExact(s)
    && s.completedCount == CompletedTotal(s)
  }

  ghost predicate StateInv(s: State) {
    StateOk(s, {}, 0)
  }

  // ---- one job changes ----

  lemma {:induction false} SumFrame<T>(keys: seq<T>, a: T -> nat, b: T -> nat)
    requires forall k | k in keys :: a(k) == b(k)
    ensures Sum(keys, a) == Sum(keys, b)
  {
    if keys != [] {
      SumFrame(keys[1..], a, b);
    }
  }

  lemma {:induction false} SumChange<T>(keys: seq<T>, a: T -> nat, b: T -> nat, at: T)
    requires Distinct(keys) && at in keys && forall k | k in keys && k != at :: a(k) == b(k)
    ensures Sum(keys, b) + a(at) == Sum(keys, a) + b(at)
  {
    assert keys == [keys[0]] + keys[1..];
    if keys[0] == at {
      SumFrame(keys[1..], a, b);
    } else {
      SumChange(keys[1..], a, b, at);
    }
  }

  lemma {:induction false} SumMember<T>(keys: seq<T>, a: T -> nat, at: T)
    requires at in keys
    ensures Sum(keys, a) >= a(at)
  {
    if keys[0] != at {
      SumMember(keys[1..], a, at);
    }
  }

  /** Seen from one job, the coordinator's invariant is that job's invariant. */
  lemma JobView(s: State, untold: set<JobId>, lost: NodeId, j: JobId)
    requires StateOk(s, untold, lost) && j in s.jobs.items
    ensures Inv(CtxOf(s, s.jobs.items[j]), ReachOf(s, untold, lost, j), {})
  {
    hide JobOk, Load, TimesSent, CompletedTotal, SerialsOk;
    var c := CtxOf(s, s.jobs.items[j]);
    forall n | n in s.nodes.items
      ensures s.nodes.items[n].activeTasks >= Load(c.job, n)
    {
      SumMember(s.jobs.keys, LoadAt(s.jobs.items, n), j);
    }
  }

  lemma PutSlots(s: State, j: JobId, d: Ctx)
    requires s.jobs.Valid() && SlotsExact(s) && j in s.jobs.items
    requires SlotsFollow(CtxOf(s, s.jobs.items[j]), d)
    ensures SlotsExact(Put(s, j, d))
  {
    hide Load;
    var r := Put(s, j, d);
    forall n | n in r.nodes.items
      ensures r.nodes.items[n].activeTasks == TotalLoad(r, n)
    {
      SumChange(s.jobs.keys, LoadAt(s.jobs.items, n), LoadAt(r.jobs.items, n), j);
    }
  }

  lemma PutCompleted(s: State, j: JobId, d: Ctx)
    requires s.jobs.Valid() && j in s.jobs.items && s.completedCount == CompletedTotal(s)
    requires d.completedCount + CompletedJobs(s.jobs.items[j]) == s.completedCount + CompletedJobs(d.job)
    ensures Put(s, j, d).completedCount == CompletedTotal(Put(s, j, d))
  {
    SumChange(s.jobs.keys, CompletedAt(s.jobs.items), CompletedAt(Put(s, j, d).jobs.items), j);
  }

  lemma PutLogs(s: State, j: JobId, d: Ctx)
    requires LogsOk(s) && SerialsOk(s) && j in s.jobs.items
    requires d.job.serial == s.jobs.items[j].serial && LogOk(d) && LogFollows(CtxOf(s, s.jobs.items[j]), d)
    ensures LogsOk(Put(s, j, d)) && SerialsOk(Put(s, j, d))
  {
    hide TimesSent, Attempts;
  }

  /** One job moves by a step that keeps its invariant: the coordinator's is kept, and the
      job no longer counts as untold. */
  lemma PutOk(s: State, untold: set<JobId>, lost: NodeId, j: JobId, d: Ctx)
    requires StateOk(s, untold, lost) && j in s.jobs.items
    requires Inv(d, s.nodes.items.Keys, {}) && Follows(CtxOf(s, s.jobs.items[j]), d)
    ensures StateOk(Put(s, j, d), untold - {j}, lost)
    ensures Put(s, j, d).nodes.items.Keys == s.nodes.items.Keys && Put(s, j, d).jobs.keys == s.jobs.keys
  {
    hide JobOk, SlotsExact, LogsOk, SerialsOk, LogOk, CompletedTotal;
    PutSlots(s, j, d);
    PutCompleted(s, j, d);
    PutLogs(s, j, d);
  }

  // ---- events ----

  /** What the source takes for granted about the messages it gets: an answer comes from
      the worker that holds the task, a heartbeat counts truly, a node joins only after
      its loss was seen, and a job id is not reused while its tasks are out. */
  ghost predicate Admissible(s: State, e: Event) {
    match e
    case Submit(j, _) => j in s.jobs.items ==> NoneInFlight(s.jobs.items[j])
    case TaskAccepted(j, t) => j in s.jobs.items ==> t < |s.jobs.items[j].tasks| && s.jobs.items[j].tasks[t].InFlight()
    case TaskRejected(j, t, sender) => j in s.jobs.items ==> AnswerDue(s.jobs.items[j], t, sender)
    case TaskToken(j, t, sender, _) => j in s.jobs.items ==> AnswerDue(s.jobs.items[j], t, sender)
    case TaskCompleted(j, t, sender, _, _) => j in s.jobs.items ==> AnswerDue(s.jobs.items[j], t, sender)
    case TaskFailure(j, t, sender) => j in s.jobs.items ==> AnswerDue(s.jobs.items[j], t, sender)
    case NodeJoined(n, record) => n !in s.nodes.items && record.activeTasks == 0
    case NodeHeartbeat(n, _, _, _, activeTasks) => n in s.nodes.items ==> activeTasks == TotalLoad(s, n)
    case _ => true
  }

  ghost predicate NoneInFlight(job: Job) {
    forall t | 0 <= t < |job.tasks| :: !job.tasks[t].InFlight()
  }

  lemma AnswerStep(s: State, j: JobId, d: Ctx)
    requires StateInv(s) && j in s.jobs.items
    requires Inv(d, s.nodes.items.Keys, {}) && Follows(CtxOf(s, s.jobs.items[j]), d)
    ensures StateInv(Put(s, j, d))
  {
    hide StateOk, Inv, Follows;
    PutOk(s, {}, 0, j, d);
    assert {} - {j} == {};
  }

  lemma {:induction false} NoLoad(tasks: seq<Task>, n: NodeId, reach: set<NodeId>)
    requires n !in reach
    requires forall t | 0 <= t < |tasks| && tasks[t].InFlight() ::
      tasks[t].nodeId.Some? && tasks[t].nodeId.value in reach
    ensures Sum(tasks, HoldsSlot(n)) == 0
  {
    if tasks != [] {
      NoLoad(tasks[1..], n, reach);
    }
  }

  lemma AbsentNoLoad(max: int, job: Job, n: NodeId, reach: set<NodeId>)
    requires TasksOk(max, job, reach) && n !in reach
    ensures Load(job, n) == 0
  {
    forall t | 0 <= t < |job.tasks| && job.tasks[t].InFlight()
      ensures job.tasks[t].nodeId.Some? && job.tasks[t].nodeId.value in reach
    {
      assert TaskOk(max, job, t, reach);
    }
    NoLoad(job.tasks, n, reach);
  }

  lemma WidenReach(max: int, job: Job, a: set<NodeId>, b: set<NodeId>)
    requires JobOk(max, job, a, {}) && a <= b
    ensures JobOk(max, job, b, {})
  {
    hide Conserved, ReduceOk, TerminalOk, TokensOk;
    forall i | 0 <= i < |job.tasks|
      ensures TaskOk(max, job, i, b)
    {
      assert TaskOk(max, job, i, a);
    }
  }

  /** A node that was not connected holds no task of any job. */
  lemma JoinLoad(s: State, n: NodeId)
    requires StateInv(s) && n !in s.nodes.items
    ensures TotalLoad(s, n) == 0
  {
    hide Load, Conserved, Reachable, ReduceOk, PipelineOk, TerminalOk, TokensOk, TasksOk, LogsOk, SlotsExact;
    var zero := (j: JobId) => 0;
    forall j | j in s.jobs.keys
      ensures LoadAt(s.jobs.items, n)(j) == zero(j)
    {
      AbsentNoLoad(s.cfg.maxTaskAttempts, s.jobs.items[j], n, s.nodes.items.Keys);
    }
    SumFrame(s.jobs.keys, LoadAt(s.jobs.items, n), zero);
    ZeroSum(s.jobs.keys, zero);
  }

  lemma JoinOk(s: State, n: NodeId, record: RegisteredNode)
    requires StateInv(s) && n !in s.nodes.items && record.activeTasks == 0
    ensures StateInv(UpdateNode(s, n, record))
  {
    hide JobOk, TotalLoad, LogsOk, CompletedTotal;
    JoinLoad(s, n);
    var r := UpdateNode(s, n, record);
    forall j | j in r.jobs.items
      ensures JobOk(r.cfg.maxTaskAttempts, r.jobs.items[j], r.nodes.items.Keys, {})
    {
      WidenReach(s.cfg.maxTaskAttempts, s.jobs.items[j], s.nodes.items.Keys, r.nodes.items.Keys);
    }
    SameTotals(s, r);
  }

  /** Loads and completions are functions of the jobs alone. */
  lemma SameTotals(s: State, r: State)
    requires r.jobs == s.jobs && r.retired == s.retired
    ensures forall n :: TotalLoad(r, n) == TotalLoad(s, n)
    ensures CompletedTotal(r) == CompletedTotal(s)
    ensures r.log == s.log && r.nextSerial == s.nextSerial && LogsOk(s) ==> LogsOk(r)
  {
  }

  lemma SerialsFrame(s: State, r: State)
    requires SerialsOk(s) && r.jobs == s.jobs && r.nextSerial == s.nextSerial
    ensures SerialsOk(r)
  {
  }

  /** Changing a node's record without touching its slots. */
  lemma NodeRecordOk(s: State, n: NodeId, node: RegisteredNode)
    requires StateInv(s) && n in s.nodes.items && node.activeTasks == s.nodes.items[n].activeTasks
    ensures StateInv(UpdateNode(s, n, node))
  {
    hide JobOk, TotalLoad, LogsOk, CompletedTotal, SerialsOk;
    var r := UpdateNode(s, n, node);
    assert r.nodes.items.Keys == s.nodes.items.Keys;
    SameTotals(s, r);
    SerialsFrame(s, r);
  }

  // ---- losing a node ----

  ghost function KeysFrom(s: State, k: nat): (r: set<JobId>)
    requires k <= |s.jobs.keys|
  {
    set j | j in s.jobs.keys[k..]
  }

  lemma RemoveNodeOk(s: State, n: NodeId)
    requires StateInv(s)
    ensures StateOk(s.(nodes := s.nodes.Delete(n)), KeysFrom(s, 0), n)
  {
    hide JobOk, TotalLoad, LogsOk, CompletedTotal;
    var r := s.(nodes := s.nodes.Delete(n));
    forall j | j in r.jobs.items
      ensures JobOk(r.cfg.maxTaskAttempts, r.jobs.items[j], ReachOf(r, KeysFrom(s, 0), n, j), {})
    {
      assert j in s.jobs.keys[0..];
      WidenReach(s.cfg.maxTaskAttempts, s.jobs.items[j], s.nodes.items.Keys, r.nodes.items.Keys + {n});
    }
    SameTotals(s, r);
  }

  /** Every job moved as one job may: no finished job changed its status, no measure grew. */
  ghost predicate AllFollow(max: int, s: State, r: State) {
    forall j :: j in s.jobs.items ==> j in r.jobs.items && JobFollows(max, s.jobs.items[j], r.jobs.items[j])
  }

  lemma FollowsJob(c: Ctx, d: Ctx)
    requires Follows(c, d)
    ensures JobFollows(c.cfg.maxTaskAttempts, c.job, d.job)
  {
  }

  lemma PutFollows(max: int, s: State, j: JobId, d: Ctx)
    requires j in s.jobs.items && JobFollows(max, s.jobs.items[j], d.job)
    ensures AllFollow(max, s, Put(s, j, d))
  {
    hide Measure;
  }

  lemma AllFollowTrans(max: int, a: State, b: State, c: State)
    requires AllFollow(max, a, b) && AllFollow(max, b, c)
    ensures AllFollow(max, a, c)
  {
    hide Measure;
  }

  lemma AllFollowRefl(max: int, s: State)
    ensures AllFollow(max, s, s)
  {
    hide Measure;
  }

  lemma {:induction false} LoseFromOk(s: State, k: nat, n: NodeId)
    requires k <= |s.jobs.keys| && s.cfg.maxTaskAttempts >= 1 && n !in s.nodes.items
    requires StateOk(s, KeysFrom(s, k), n)
    ensures StateInv(LoseFrom(s, k, n)) && AllFollow(s.cfg.maxTaskAttempts, s, LoseFrom(s, k, n))
    decreases |s.jobs.keys| - k
  {
    hide StateOk, NodeLost, Inv, Follows, JobFollows, AllFollow;
    JobsPresent(s, KeysFrom(s, k), n);
    if k < |s.jobs.keys| {
      var j := s.jobs.keys[k];
      var c := CtxOf(s, s.jobs.items[j]);
      var d := NodeLost(c, n);
      JobView(s, KeysFrom(s, k), n, j);
      assert j == s.jobs.keys[k..][0];
      NodeLostOk(c, n, s.nodes.items.Keys + {n});
      assert s.nodes.items.Keys + {n} - {n} == s.nodes.items.Keys;
      PutOk(s, KeysFrom(s, k), n, j, d);
      FollowsCfg(c, d);
      FollowsJob(c, d);
      TailKeys(s, k);
      LoseFromOk(Put(s, j, d), k + 1, n);
      PutFollows(s.cfg.maxTaskAttempts, s, j, d);
      AllFollowTrans(s.cfg.maxTaskAttempts, s, Put(s, j, d), LoseFrom(s, k, n));
    } else {
      NoneUntold(s, n);
      AllFollowRefl(s.cfg.maxTaskAttempts, s);
    }
  }

  lemma JobsPresent(s: State, untold: set<JobId>, lost: NodeId)
    requires StateOk(s, untold, lost)
    ensures s.jobs.Valid()
  {
  }

  lemma TailKeys(s: State, k: nat)
    requires k < |s.jobs.keys| && s.jobs.Valid()
    ensures KeysFrom(s, k) - {s.jobs.keys[k]} == KeysFrom(s, k + 1)
  {
  }

  lemma NoneUntold(s: State, lost: NodeId)
    requires StateOk(s, KeysFrom(s, |s.jobs.keys|), lost)
    ensures StateInv(s)
  {
    hide JobOk, LogsOk, SlotsExact, CompletedTotal;
    assert KeysFrom(s, |s.jobs.keys|) == {};
  }

  lemma {:induction false} SweepJobsOk(s: State, k: nat)
    requires StateInv(s) && s.cfg.maxTaskAttempts >= 1
    ensures StateInv(SweepJobs(s, k)) && AllFollow(s.cfg.maxTaskAttempts, s, SweepJobs(s, k))
    decreases |s.jobs.keys| - k
  {
    hide StateOk, Sweep, Inv, Follows, JobFollows, AllFollow;
    JobsPresent(s, {}, 0);
    if k < |s.jobs.keys| {
      var j := s.jobs.keys[k];
      var c := CtxOf(s, s.jobs.items[j]);
      var d := Sweep(c);
      JobView(s, {}, 0, j);
      SweepOk(c, s.nodes.items.Keys);
      AnswerStep(s, j, d);
      FollowsCfg(c, d);
      FollowsJob(c, d);
      SweepJobsOk(Put(s, j, d), k + 1);
      PutFollows(s.cfg.maxTaskAttempts, s, j, d);
      AllFollowTrans(s.cfg.maxTaskAttempts, s, Put(s, j, d), SweepJobs(s, k));
    } else {
      AllFollowRefl(s.cfg.maxTaskAttempts, s);
    }
  }
}
