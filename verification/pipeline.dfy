/** The whole pipeline of harareData.ts end to end: raw features are mapped
    to records (lines 45-79) and the records feed the calculator
    (lines 82-131) and the fault extractor (lines 134-139). */
module Pipeline {
  import opened Wrappers
  import opened Ascii
  import opened Seqs
  import opened Assets
  import opened Faults
  import opened Metrics

  /** A node feature whose `Status` is absent or empty maps to an
      "unknown" record, which neither the normal count nor the faulty count
      (nor the fault list) includes. */
  lemma UnknownNodeStatusCountsAsNeither(features: seq<NodeFeature>, pipes: seq<Pipe>)
    ensures var nodes := MapNodes(features);
      forall i :: 0 <= i < |features| && features[i].properties.Status in {None, Some("")} ==>
        && nodes[i].status == Unknown
        && nodes[i] !in Filter(nodes, NodeIsNormal)
        && nodes[i] !in Filter(nodes, NodeIsFaulty)
        && nodes[i] !in GetFaultyAssets(nodes, pipes).faultyNodes
  {
    var nodes := MapNodes(features);
    forall i | 0 <= i < |features| && features[i].properties.Status in {None, Some("")}
      ensures nodes[i].status == Unknown
    {
      assert nodes[i] == MapNode(features[i]);
    }
  }

  /** The same for pipes: a pipe feature whose `Status` is absent or empty
      is counted neither as normal nor as faulty. */
  lemma UnknownPipeStatusCountsAsNeither(nodes: seq<Node>, features: seq<PipeFeature>)
    ensures var pipes := MapPipes(features);
      forall i :: 0 <= i < |features| && features[i].properties.Status in {None, Some("")} ==>
        && pipes[i].status == Unknown
        && pipes[i] !in Filter(pipes, PipeIsNormal)
        && pipes[i] !in Filter(pipes, PipeIsFaulty)
        && pipes[i] !in GetFaultyAssets(nodes, pipes).faultyPipes
  {
    var pipes := MapPipes(features);
    forall i | 0 <= i < |features| && features[i].properties.Status in {None, Some("")}
      ensures pipes[i].status == Unknown
    {
      assert pipes[i] == MapPipe(features[i]);
    }
  }

  function SampleNode(status: string, pressure: real): Node {
    Node("J1", "P1", "A", "B", "J1", 1500.0, 0.0, 2.0, 10.0, -17.8, 31.0,
         pressure, 1540.0, 1.0, -17.9, 31.1, 1500.0, 120.0, status,
         PointGeometry("Point", (31.0, -17.8)))
  }

  function SamplePipe(status: string, flowRate: real): Pipe {
    Pipe("L1", "J1", "J2", 0.3, 100.0, 120.0, status, 0.8, flowRate,
         LineGeometry("MultiLineString", [[(31.0, -17.8), (31.1, -17.9)]]))
  }

  /** Two nodes (pressure 40, faulty; pressure 10, normal) and one faulty
      pipe with flow rate 2.0: one normal and one faulty node out of two,
      an average pressure of 25, and one high-priority node plus one
      high-priority pipe. */
  lemma TwoNodesOnePipeScenario()
    ensures var m := CalculateMetrics([SampleNode(Faulty, 40.0), SampleNode(Normal, 10.0)],
                                      [SamplePipe(Faulty, 2.0)]);
      && m.nodeStatusCounts == StatusCounts(1, 1, 2)
      && m.pipeStatusCounts == StatusCounts(0, 1, 1)
      && m.avgPressure == Some(25.0)
      && |m.highPriorityNodes| == 1 && |m.highPriorityPipes| == 1
      && m.highPriorityIssues == 2
  {
    var n0, n1, p0 := SampleNode(Faulty, 40.0), SampleNode(Normal, 10.0), SamplePipe(Faulty, 2.0);
    var nodes, pipes := [n0, n1], [p0];
    assert nodes[1..] == [n1] && nodes[1..][1..] == [] && pipes[1..] == [];
    assert Filter(nodes, NodeIsNormal) == [n1];
    assert Filter(nodes, NodeIsFaulty) == [n0];
    assert Filter(nodes, NodeIsHighPriority) == [n0];
    assert Filter(pipes, PipeIsNormal) == [];
    assert Filter(pipes, PipeIsFaulty) == [p0];
    assert Filter(pipes, PipeIsHighPriority) == [p0];
    SumsAndAverages(nodes, pipes);
    assert Sum(nodes[1..], PressureOf) == 10.0 + Sum(nodes[1..][1..], PressureOf);
    assert Sum(nodes, PressureOf) == 50.0;
  }
}
