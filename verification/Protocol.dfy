/** What coordinator and workers tell each other: device profiles, governor reports,
    job requests and the records kept about them. Identifiers are opaque and only ever
    compared, so they are numbers here. */
module Protocol {
  import opened Collections

  /** `Math.round`: halves go up. */
  function Round(x: real): int {
    (x + 0.5).Floor
  }

  type NodeId = nat
  type JobId = nat
  type TaskId = nat

  /** The environment-configured constants. All of them can be set to any integer. */
  datatype Config = Config(
    maxTaskAttempts: int,
    taskTimeoutMs: int,
    maxPipelineMembers: int,
    allowBrowserContributors: bool,
    preferDesktopForReduce: bool,
    enableModelParallel: bool)

  /** A catalogue entry: its id and its resident size, which is never zero. */
  datatype ModelEntry = ModelEntry(id: string, q4SizeMB: nat)

  type Model = m: ModelEntry | m.q4SizeMB >= 1 witness ModelEntry("", 1)

  datatype NodeKind = DesktopWorker | BrowserContributor | Client

  datatype GovernorState = Idle | Available | Contributing | Throttling | Paused | Resuming

  datatype GovernorReport = GovernorReport(
    state: GovernorState,
    capacity: real,
    maxConcurrentTasks: nat,
    maxModelMemoryMB: real,
    manualPause: bool)

  datatype RpcProfile = RpcProfile(endpoint: Option<string>, offeredMemoryMB: real, canHead: bool, build: string)

  datatype Runtime = Runtime(
    ready: bool,
    loadedModels: seq<string>,
    supportedModels: seq<string>,
    rpc: Option<RpcProfile>)

  /** `usableMemoryMB` and `throughputPrior` are functions of the reported hardware that
      this model does not open up. */
  datatype Profile = Profile(
    kind: NodeKind,
    latencyMs: real,
    usableMemoryMB: int,
    throughputPrior: real,
    runtime: Runtime)

  datatype TaskMetrics = TaskMetrics(tokens: nat, tokensPerSecond: real, ttftMs: real)

  /** Exponentially weighted, 30% on the newest sample. */
  function Blend(average: Option<real>, sample: real): real {
    match average
    case None => sample
    case Some(past) => 0.3 * sample + 0.7 * past
  }

  datatype NodeMetrics = NodeMetrics(
    tokensPerSecond: Option<real>,
    ttftMs: Option<real>,
    tasksCompleted: nat,
    tasksFailed: nat,
    samples: nat)
  {
    function Fold(task: TaskMetrics): NodeMetrics {
      NodeMetrics(Some(Blend(tokensPerSecond, task.tokensPerSecond)), Some(Blend(ttftMs, task.ttftMs)),
                  tasksCompleted + 1, tasksFailed, samples + 1)
    }

    /** A worker's own view replaces what it mentions; the counters are the coordinator's. */
    function Heard(reported: NodeMetrics): NodeMetrics {
      this.(tokensPerSecond := if reported.tokensPerSecond.Some? then reported.tokensPerSecond else tokensPerSecond,
            ttftMs := if reported.ttftMs.Some? then reported.ttftMs else ttftMs)
    }
  }

  const NO_METRICS := NodeMetrics(None, None, 0, 0, 0)

  /** `session`: which connection registered it. `online`: heard from within the timeout.
      `socketOpen`: a send would succeed. `rttSamples`: the latest measured round trips. */
  datatype RegisteredNode = RegisteredNode(
    session: nat,
    profile: Profile,
    governor: GovernorReport,
    metrics: NodeMetrics,
    rttSamples: seq<int>,
    activeTasks: nat,
    online: bool,
    socketOpen: bool)
  {
    /** Tasks the governor lets the node run at once; the coordinator never goes below 1. */
    function Limit(): (r: nat)
      ensures r >= 1
    {
      if governor.maxConcurrentTasks < 1 then 1 else governor.maxConcurrentTasks
    }

    predicate Free() {
      activeTasks < Limit()
    }

    /** A reported profile with the latency the coordinator measured itself, if it did. */
    function Measured(reported: Profile): Profile {
      if rttSamples == [] then reported
      else reported.(latencyMs := Round(Total(rttSamples) as real / |rttSamples| as real * 10.0) as real / 10.0)
    }

    function Throughput(): real {
      match metrics.tokensPerSecond
      case Some(measured) => if measured > 0.0 then measured else profile.throughputPrior
      case None => profile.throughputPrior
    }
  }

  function Total(samples: seq<int>): int {
    if samples == [] then 0 else Total(samples[..|samples| - 1]) + samples[|samples| - 1]
  }

  datatype NodeView = NodeView(nodeId: NodeId, node: RegisteredNode)

  datatype Policy = Adaptive | BestNode | ComputeOnly | NetworkAware | ResourceAware | RoundRobin
  datatype Strategy = SingleNode | TaskParallel | ModelParallel
  datatype RequestKind = Chat | Batch

  datatype ChatMessage = ChatMessage(role: string, content: string)

  datatype JobRequest = JobRequest(
    kind: RequestKind,
    model: Model,
    policy: Policy,
    messages: seq<ChatMessage>,
    items: seq<string>,
    itemInstruction: string,
    reduceInstruction: string)

}
