/** The metrics calculator `calculateMetrics` (harareData.ts, lines 81-131),
    with the node and pipe collections passed in instead of read from
    module state. Numbers are exact reals; a division by an empty count,
    which yields `NaN` in the source, is None here. */
module Metrics {
  import opened Wrappers
  import opened Seqs
  import opened Assets
  import opened Faults

  /** The fixed, strict thresholds above which a faulty record is a
      high-priority issue. */
  const PressureThreshold: real := 30.0
  const FlowRateThreshold: real := 1.5

  datatype StatusCounts = StatusCounts(normal: nat, faulty: nat, total: nat)

  datatype Metrics = Metrics(
    nodeStatusCounts: StatusCounts,
    pipeStatusCounts: StatusCounts,
    avgPressure: Option<real>,
    avgFlowRate: Option<real>,
    totalDemand: real,
    networkHealth: Option<real>,
    highPriorityIssues: nat,
    highPriorityNodes: seq<Node>,
    highPriorityPipes: seq<Pipe>)

  function PressureOf(n: Node): real { n.pressure }
  function DemandOf(n: Node): real { n.demand }
  function FlowRateOf(p: Pipe): real { p.flow_rate }

  predicate PressureIsHigh(n: Node) { n.pressure > PressureThreshold }
  predicate FlowRateIsHigh(p: Pipe) { p.flow_rate > FlowRateThreshold }

  predicate NodeIsHighPriority(n: Node) { n.status == Faulty && n.pressure > PressureThreshold }
  predicate PipeIsHighPriority(p: Pipe) { p.status == Faulty && p.flow_rate > FlowRateThreshold }

  /** `total / count`, or None (the source's `NaN`) when the count is 0. */
  function Average(total: real, count: nat): (r: Option<real>)
    ensures r.Some? <==> count > 0
    ensures r.Some? ==> r.value * count as real == total
  {
    if count == 0 then None else Some(total / count as real)
  }

  /** The mean of the normal fraction of nodes and of pipes, as a
      percentage; None (the source's `NaN`) when either total is 0. */
  function NetworkHealth(nodeCounts: StatusCounts, pipeCounts: StatusCounts): (r: Option<real>)
    ensures r.Some? <==> nodeCounts.total > 0 && pipeCounts.total > 0
  {
    if nodeCounts.total == 0 || pipeCounts.total == 0 then None
    else
      Some(((nodeCounts.normal as real / nodeCounts.total as real
             + pipeCounts.normal as real / pipeCounts.total as real) / 2.0) * 100.0)
  }

  function CalculateMetrics(nodes: seq<Node>, pipes: seq<Pipe>): (m: Metrics)
    ensures m.nodeStatusCounts.total == |nodes| && m.pipeStatusCounts.total == |pipes|
    ensures m.highPriorityIssues == |m.highPriorityNodes| + |m.highPriorityPipes|
    ensures forall i :: 0 <= i < |m.highPriorityNodes| ==>
      m.highPriorityNodes[i] in nodes && m.highPriorityNodes[i].status == Faulty && m.highPriorityNodes[i].pressure > 30.0
    ensures forall i :: 0 <= i < |m.highPriorityPipes| ==>
      m.highPriorityPipes[i] in pipes && m.highPriorityPipes[i].status == Faulty && m.highPriorityPipes[i].flow_rate > 1.5
  {
    var nodeCounts := StatusCounts(
      |Filter(nodes, NodeIsNormal)|, |Filter(nodes, NodeIsFaulty)|, |nodes|);
    var pipeCounts := StatusCounts(
      |Filter(pipes, PipeIsNormal)|, |Filter(pipes, PipeIsFaulty)|, |pipes|);
    var highPriorityNodes := Filter(nodes, NodeIsHighPriority);
    var highPriorityPipes := Filter(pipes, PipeIsHighPriority);
    Metrics(
      nodeCounts,
      pipeCounts,
      Average(FoldSum(0.0, nodes, PressureOf), |nodes|),
      Average(FoldSum(0.0, pipes, FlowRateOf), |pipes|),
      FoldSum(0.0, nodes, DemandOf),
      NetworkHealth(nodeCounts, pipeCounts),
      |highPriorityNodes| + |highPriorityPipes|,
      highPriorityNodes,
      highPriorityPipes)
  }

  /** No record is counted both as normal and as faulty, and a record whose
      status is "unknown" is counted as neither: normal, faulty and unknown
      together never exceed the total. */
  lemma StatusCountsBounded(nodes: seq<Node>, pipes: seq<Pipe>)
    ensures var m := CalculateMetrics(nodes, pipes);
      && m.nodeStatusCounts.normal + m.nodeStatusCounts.faulty + |Filter(nodes, NodeIsUnknown)| <= m.nodeStatusCounts.total
      && m.pipeStatusCounts.normal + m.pipeStatusCounts.faulty + |Filter(pipes, PipeIsUnknown)| <= m.pipeStatusCounts.total
  {
    FilterUnionLength(nodes, NodeIsNormal, NodeIsFaulty, NodeIsCounted);
    FilterUnionLength(nodes, NodeIsCounted, NodeIsUnknown, NodeHasKnownOrUnknownStatus);
    FilterUnionLength(pipes, PipeIsNormal, PipeIsFaulty, PipeIsCounted);
    FilterUnionLength(pipes, PipeIsCounted, PipeIsUnknown, PipeHasKnownOrUnknownStatus);
  }

  /** Each status count is the number of positions holding a record with
      that status, and each total is the number of positions. */
  lemma StatusCountsCountPositions(nodes: seq<Node>, pipes: seq<Pipe>)
    ensures var m := CalculateMetrics(nodes, pipes);
      && m.nodeStatusCounts.normal == |set i | 0 <= i < |nodes| && nodes[i].status == Normal|
      && m.nodeStatusCounts.faulty == |set i | 0 <= i < |nodes| && nodes[i].status == Faulty|
      && m.pipeStatusCounts.normal == |set i | 0 <= i < |pipes| && pipes[i].status == Normal|
      && m.pipeStatusCounts.faulty == |set i | 0 <= i < |pipes| && pipes[i].status == Faulty|
  {
    FilterLengthCountsIndices(nodes, NodeIsNormal);
    FilterLengthCountsIndices(nodes, NodeIsFaulty);
    FilterLengthCountsIndices(pipes, PipeIsNormal);
    FilterLengthCountsIndices(pipes, PipeIsFaulty);
    assert IndicesWhere(nodes, NodeIsNormal) == set i | 0 <= i < |nodes| && nodes[i].status == Normal;
    assert IndicesWhere(nodes, NodeIsFaulty) == set i | 0 <= i < |nodes| && nodes[i].status == Faulty;
    assert IndicesWhere(pipes, PipeIsNormal) == set i | 0 <= i < |pipes| && pipes[i].status == Normal;
    assert IndicesWhere(pipes, PipeIsFaulty) == set i | 0 <= i < |pipes| && pipes[i].status == Faulty;
  }

  predicate NodeIsCounted(n: Node) { NodeIsNormal(n) || NodeIsFaulty(n) }
  predicate NodeHasKnownOrUnknownStatus(n: Node) { NodeIsCounted(n) || NodeIsUnknown(n) }
  predicate PipeIsCounted(p: Pipe) { PipeIsNormal(p) || PipeIsFaulty(p) }
  predicate PipeHasKnownOrUnknownStatus(p: Pipe) { PipeIsCounted(p) || PipeIsUnknown(p) }

  /** The fault extractor and the calculator agree: the faulty lists are as
      long as the faulty counts. */
  lemma FaultyAssetsMatchCounts(nodes: seq<Node>, pipes: seq<Pipe>)
    ensures var m, f := CalculateMetrics(nodes, pipes), GetFaultyAssets(nodes, pipes);
      |f.faultyNodes| == m.nodeStatusCounts.faulty && |f.faultyPipes| == m.pipeStatusCounts.faulty
  {
  }

  /** The high-priority lists are the faulty lists filtered, in order, by
      the strict thresholds: a faulty node with pressure exactly 30 (or a
      faulty pipe with flow rate exactly 1.5) is not high priority. */
  lemma HighPrioritySelection(nodes: seq<Node>, pipes: seq<Pipe>)
    ensures var m, f := CalculateMetrics(nodes, pipes), GetFaultyAssets(nodes, pipes);
      && m.highPriorityNodes == Filter(f.faultyNodes, PressureIsHigh)
      && m.highPriorityPipes == Filter(f.faultyPipes, FlowRateIsHigh)
      && IsSubsequence(m.highPriorityNodes, f.faultyNodes)
      && IsSubsequence(m.highPriorityPipes, f.faultyPipes)
      && (forall i :: 0 <= i < |f.faultyNodes| ==>
            (f.faultyNodes[i] in m.highPriorityNodes <==> f.faultyNodes[i].pressure > 30.0))
      && (forall i :: 0 <= i < |f.faultyPipes| ==>
            (f.faultyPipes[i] in m.highPriorityPipes <==> f.faultyPipes[i].flow_rate > 1.5))
  {
    var f := GetFaultyAssets(nodes, pipes);
    FilterOfFilter(nodes, NodeIsFaulty, PressureIsHigh, NodeIsHighPriority);
    FilterOfFilter(pipes, PipeIsFaulty, FlowRateIsHigh, PipeIsHighPriority);
    FilterIsSubsequence(f.faultyNodes, PressureIsHigh);
    FilterIsSubsequence(f.faultyPipes, FlowRateIsHigh);
  }

  /** The reduce that totals demand is the sum of the node demands, and
      each average is defined exactly for a non-empty collection, where it
      is the sum divided by the count. */
  lemma SumsAndAverages(nodes: seq<Node>, pipes: seq<Pipe>)
    ensures var m := CalculateMetrics(nodes, pipes);
      && m.totalDemand == Sum(nodes, DemandOf)
      && (m.avgPressure.Some? <==> |nodes| > 0)
      && (m.avgPressure.Some? ==> m.avgPressure.value == Sum(nodes, PressureOf) / |nodes| as real)
      && (m.avgFlowRate.Some? <==> |pipes| > 0)
      && (m.avgFlowRate.Some? ==> m.avgFlowRate.value == Sum(pipes, FlowRateOf) / |pipes| as real)
  {
    FoldSumIsSum(0.0, nodes, DemandOf);
    FoldSumIsSum(0.0, nodes, PressureOf);
    FoldSumIsSum(0.0, pipes, FlowRateOf);
  }

  /** When every node's pressure lies in [lo, hi], so does the average. */
  lemma AveragePressureInRange(nodes: seq<Node>, pipes: seq<Pipe>, lo: real, hi: real)
    requires |nodes| > 0
    requires forall i :: 0 <= i < |nodes| ==> lo <= nodes[i].pressure <= hi
    ensures var m := CalculateMetrics(nodes, pipes);
      m.avgPressure.Some? && lo <= m.avgPressure.value <= hi
  {
    SumsAndAverages(nodes, pipes);
    MeanBounds(nodes, PressureOf, lo, hi);
  }

  /** A count of `part` records out of a non-empty `whole` is a fraction
      in [0, 1], and is 1 only when every record is counted. */
  lemma FractionBounds(part: nat, whole: nat)
    requires 0 < whole && part <= whole
    ensures 0.0 <= part as real / whole as real <= 1.0
    ensures part as real / whole as real == 1.0 <==> part == whole
  {
  }

  /** The health percentage is defined exactly when there is at least one
      node and one pipe, lies in [0, 100], and is exactly 100 iff every
      node and every pipe is "normal". */
  lemma NetworkHealthRange(nodes: seq<Node>, pipes: seq<Pipe>)
    ensures var m := CalculateMetrics(nodes, pipes);
      && (m.networkHealth.Some? <==> |nodes| > 0 && |pipes| > 0)
      && (m.networkHealth.Some? ==> 0.0 <= m.networkHealth.value <= 100.0)
      && (m.networkHealth == Some(100.0) <==>
            && |nodes| > 0 && |pipes| > 0
            && (forall i :: 0 <= i < |nodes| ==> nodes[i].status == Normal)
            && (forall i :: 0 <= i < |pipes| ==> pipes[i].status == Normal))
  {
    var m := CalculateMetrics(nodes, pipes);
    FilterKeepsAllIff(nodes, NodeIsNormal);
    FilterKeepsAllIff(pipes, PipeIsNormal);
    if |nodes| > 0 && |pipes| > 0 {
      FractionBounds(m.nodeStatusCounts.normal, |nodes|);
      FractionBounds(m.pipeStatusCounts.normal, |pipes|);
    }
  }
}
