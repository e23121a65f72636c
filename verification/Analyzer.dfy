/** Workload Analyzer: the strategy is derived from the request and the machines. */
module Analyzer {
  import opened Collections
  import opened Protocol
  import opened Scheduler
  import Pipeline

  /** Below this many items, coordination outweighs the fan-out. */
  const MIN_ITEMS_TO_DISTRIBUTE := 2

  datatype Analysis = Analysis(strategy: Strategy, targetNodes: nat, unitCount: nat)

  predicate Fits(v: NodeView, model: Model) {
    v.node.profile.usableMemoryMB as real >= model.q4SizeMB as real * 1.25
  }

  function NodesThatFit(views: seq<NodeView>, model: Model): (r: seq<NodeView>)
    ensures |r| <= |views|
  {
    if views == [] then []
    else if Fits(views[0], model) then [views[0]] + NodesThatFit(views[1..], model)
    else NodesThatFit(views[1..], model)
  }

  function Min(a: nat, b: nat): nat {
    if a <= b then a else b
  }

  function AnalyzeWorkload(cfg: Config, request: JobRequest, eligible: seq<NodeView>,
                           allNodes: seq<NodeView>): (r: Analysis)
  {
    var fit := |NodesThatFit(eligible, request.model)|;
    match request.kind
    case Chat =>
      if fit > 0 then Analysis(SingleNode, 1, 1)
      else
        var attempt := Pipeline.PlanPipeline(allNodes, request.model, None, cfg.maxPipelineMembers);
        if cfg.enableModelParallel && attempt.Some? then Analysis(ModelParallel, |attempt.value.members|, 1)
        else Analysis(SingleNode, Min(1, |eligible|), 1)
    case Batch =>
      var unitCount := |request.items|;
      if unitCount == 0 then Analysis(SingleNode, 0, 0)
      else if unitCount < MIN_ITEMS_TO_DISTRIBUTE || fit < 2 then Analysis(SingleNode, Min(1, |eligible|), unitCount)
      else Analysis(TaskParallel, Min(fit, unitCount), unitCount)
  }

  /** The analyzer's own memory test repeats the eligibility test. */
  lemma {:induction false} EligibleFit(cfg: Config, views: seq<NodeView>, model: Model)
    ensures var eligible := EligibleNodes(cfg, views, model, false, false);
            NodesThatFit(eligible, model) == eligible
  {
    if views != [] {
      EligibleFit(cfg, views[1..], model);
      var rest := EligibleNodes(cfg, views[1..], model, false, false);
      assert ([views[0]] + rest)[1..] == rest;
    }
  }

  /** Which strategy a request gets, in terms of the machines alone: a batch fans out over
      two or more eligible machines, a chat is split over layers only when no machine can
      take it whole and a pipeline can be formed, and everything else stays on one node. */
  lemma StrategyDecided(cfg: Config, request: JobRequest, views: seq<NodeView>)
    ensures var eligible := EligibleNodes(cfg, views, request.model, false, false);
            var analysis := AnalyzeWorkload(cfg, request, eligible, views);
            var strategy := analysis.strategy;
            && (strategy == TaskParallel <==> request.kind == Batch && |request.items| >= 2 && |eligible| >= 2)
            && (strategy == ModelParallel <==>
                  && request.kind == Chat && eligible == [] && cfg.enableModelParallel
                  && Pipeline.PlanPipeline(views, request.model, None, cfg.maxPipelineMembers).Some?)
            && (strategy == TaskParallel ==> analysis.targetNodes == Min(|eligible|, |request.items|))
  {
    EligibleFit(cfg, views, request.model);
  }
}
