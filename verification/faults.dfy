/** The fault extractor `getFaultyAssets` (harareData.ts, lines 133-139):
    the records whose status is "faulty", with no other filtering and no
    change of order. The node and pipe collections it reads from module
    state are parameters here. */
module Faults {
  import opened Seqs
  import opened Assets

  datatype FaultyAssets = FaultyAssets(faultyNodes: seq<Node>, faultyPipes: seq<Pipe>)

  function GetFaultyAssets(nodes: seq<Node>, pipes: seq<Pipe>): (r: FaultyAssets)
    ensures forall i :: 0 <= i < |r.faultyNodes| ==> r.faultyNodes[i] in nodes && r.faultyNodes[i].status == Faulty
    ensures forall i :: 0 <= i < |nodes| && nodes[i].status == Faulty ==> nodes[i] in r.faultyNodes
    ensures forall i :: 0 <= i < |r.faultyPipes| ==> r.faultyPipes[i] in pipes && r.faultyPipes[i].status == Faulty
    ensures forall i :: 0 <= i < |pipes| && pipes[i].status == Faulty ==> pipes[i] in r.faultyPipes
    ensures IsSubsequence(r.faultyNodes, nodes) && IsSubsequence(r.faultyPipes, pipes)
    ensures forall n: Node :: multiset(r.faultyNodes)[n] == if n.status == Faulty then multiset(nodes)[n] else 0
    ensures forall p: Pipe :: multiset(r.faultyPipes)[p] == if p.status == Faulty then multiset(pipes)[p] else 0
  {
    FilterMultisetAll(nodes, NodeIsFaulty);
    FilterMultisetAll(pipes, PipeIsFaulty);
    FilterIsSubsequence(nodes, NodeIsFaulty);
    FilterIsSubsequence(pipes, PipeIsFaulty);
    FaultyAssets(Filter(nodes, NodeIsFaulty), Filter(pipes, PipeIsFaulty))
  }
}
