/** All jobs together: the coordinator as a state machine over the events it receives. */
module Coordinator {
  import opened Collections
  import opened Protocol
  import opened JobCore
  import opened Registry
  import opened Submission

  /** `nextSerial` stands for the fresh task ids; `retired` remembers jobs whose id was
      submitted again. */
  datatype State = State(
    cfg: Config,
    now: int,
    jobs: OrderedMap<JobId, Job>,
    nodes: Nodes,
    log: seq<Assignment>,
    completedCount: nat,
    tokenCount: nat,
    cursor: nat,
    nextSerial: nat,
    retired: seq<Job>)

  function Start0(cfg: Config, now: int): State {
    State(cfg, now, EmptyMap(), EmptyMap(), [], 0, 0, 0, 0, [])
  }

  datatype Event =
    | Submit(job: JobId, request: JobRequest)
    | TaskAccepted(job: JobId, task: TaskId)
    | TaskRejected(job: JobId, task: TaskId, sender: NodeId)
    | TaskToken(job: JobId, task: TaskId, sender: NodeId, token: string)
    | TaskCompleted(job: JobId, task: TaskId, sender: NodeId, output: string, metrics: TaskMetrics)
    | TaskFailure(job: JobId, task: TaskId, sender: NodeId)
    | NodeJoined(node: NodeId, record: RegisteredNode)
    | NodeHeartbeat(node: NodeId, profile: Profile, governor: GovernorReport, reported: NodeMetrics, activeTasks: nat)
    | NodePong(node: NodeId, rttMs: int)
    | NodeDropped(node: NodeId)
    | NodePresence(node: NodeId, online: bool, socketOpen: bool)
    | CancelRequested(job: JobId)
    | SweepDue
    | PumpDue(job: JobId)
    | Clock(now: int)

  /** A worker's last word on one of its tasks. */
  predicate IsAnswer(e: Event) {
    e.TaskRejected? || e.TaskCompleted? || e.TaskFailure?
  }

  function CtxOf(s: State, job: Job): Ctx {
    Ctx(s.cfg, s.now, job, s.nodes, s.log, s.completedCount)
  }

  function Put(s: State, j: JobId, c: Ctx): State {
    s.(jobs := s.jobs.Set(j, c.job), nodes := c.nodes, log := c.log, completedCount := c.completedCount)
  }

  /** Every job in submission order is told of the loss. */
  function LoseFrom(s: State, k: nat, n: NodeId): (r: State)
    decreases |s.jobs.keys| - k
  {
    if k >= |s.jobs.keys| || s.jobs.keys[k] !in s.jobs.items then s
    else
      var j := s.jobs.keys[k];
      LoseFrom(Put(s, j, NodeLost(CtxOf(s, s.jobs.items[j]), n)), k + 1, n)
  }

  function SweepJobs(s: State, k: nat): (r: State)
    decreases |s.jobs.keys| - k
  {
    if k >= |s.jobs.keys| || s.jobs.keys[k] !in s.jobs.items then s
    else
      var j := s.jobs.keys[k];
      SweepJobs(Put(s, j, Sweep(CtxOf(s, s.jobs.items[j]))), k + 1)
  }

  function SubmitJob(s: State, j: JobId, request: JobRequest): (r: State) {
    var retired := if j in s.jobs.items then s.retired + [s.jobs.items[j]] else s.retired;
    var c := CtxOf(s, NewJob(s.nextSerial, request));
    Put(s, j, Start(c, s.cursor)).(
      cursor := NextCursor(s.cfg, request, s.nodes, s.cursor), nextSerial := s.nextSerial + 1, retired := retired)
  }

  function UpdateNode(s: State, n: NodeId, node: RegisteredNode): State {
    s.(nodes := s.nodes.Set(n, node))
  }

  function Step(s: State, e: Event): (r: State) {
    match e
    case Submit(j, request) => SubmitJob(s, j, request)
    case TaskAccepted(j, t) =>
      if j in s.jobs.items then Put(s, j, Accepted(CtxOf(s, s.jobs.items[j]), t)) else s
    case TaskRejected(j, t, sender) =>
      if j in s.jobs.items then Put(s, j, Declined(CtxOf(s, s.jobs.items[j]), t)) else s
    case TaskToken(j, t, sender, token) =>
      if j in s.jobs.items && t < |s.jobs.items[j].tasks| then
        Put(s, j, Token(CtxOf(s, s.jobs.items[j]), t, token)).(tokenCount := s.tokenCount + 1)
      else s
    case TaskCompleted(j, t, sender, output, metrics) =>
      if j in s.jobs.items then Put(s, j, Done(CtxOf(s, s.jobs.items[j]), t, sender, output, metrics)) else s
    case TaskFailure(j, t, sender) =>
      if j in s.jobs.items then Put(s, j, TaskFailed(CtxOf(s, s.jobs.items[j]), t, sender)) else s
    case NodeJoined(n, record) => s.(nodes := Joined(s.nodes, n, record))
    case NodeHeartbeat(n, profile, governor, reported, activeTasks) =>
      s.(nodes := Heard(s.nodes, n, profile, governor, reported, activeTasks))
    case NodePong(n, rttMs) => s.(nodes := Ponged(s.nodes, n, rttMs))
    case NodeDropped(n) => LoseFrom(s.(nodes := s.nodes.Delete(n)), 0, n)
    case NodePresence(n, online, socketOpen) =>
      if n in s.nodes.items then UpdateNode(s, n, s.nodes.items[n].(online := online, socketOpen := socketOpen)) else s
    case CancelRequested(j) =>
      if j in s.jobs.items then Put(s, j, Cancel(CtxOf(s, s.jobs.items[j]))) else s
    case SweepDue => SweepJobs(s, 0)
    case PumpDue(j) =>
      if j in s.jobs.items then Put(s, j, DeferredPump(CtxOf(s, s.jobs.items[j]))) else s
    case Clock(now) => s.(now := now)
  }

  function Run(s: State, events: seq<Event>): (r: State) {
    if events == [] then s else Step(Run(s, events[..|events| - 1]), events[|events| - 1])
  }
}
