/**
 The node collector: `GetNodeDTStats` per node, `GetAllNodeDTStats` as a positional parallel map,
 and the flattening of the results to four gauges per healthy node.
 */
module NodeStats {
  import opened Collections
  import opened AuthClient
  import opened Metrics

  datatype NodeDTStats = NodeDTStats(
    node: string, totalDT: real, unreadyDT: real, unknownDT: real, activeConnections: real, err: Option<Error>)

  datatype DTInitStat = DTInitStat(total: real, unready: real, unknown: real)

  /** What a node's two endpoints answer. */
  datatype NodeAnswer = NodeAnswer(dtStat: Result<DTInitStat>, ping: Result<real>)

  /** The ping matters only if the DT statistics are there, and failing it leaves them filled in. */
  function StatsOf(node: string, answer: NodeAnswer): NodeDTStats {
    match answer.dtStat
    case Err(e) => NodeDTStats(node, 0.0, 0.0, 0.0, 0.0, Some(e))
    case Ok(dt) =>
      match answer.ping
      case Err(e) => NodeDTStats(node, dt.total, dt.unready, dt.unknown, 0.0, Some(e))
      case Ok(active) => NodeDTStats(node, dt.total, dt.unready, dt.unknown, active, None)
  }

  predicate Healthy(answer: NodeAnswer) { answer.dtStat.Ok? && answer.ping.Ok? }

  method GetNodeDTStats(node: string, answer: NodeAnswer) returns (result: NodeDTStats)
    ensures result == StatsOf(node, answer)
    ensures result.err == None <==> Healthy(answer)
  {
    result := NodeDTStats(node, 0.0, 0.0, 0.0, 0.0, None);
    if answer.dtStat.Err? {
      result := result.(err := Some(answer.dtStat.error));
      return;
    }
    var dtStat := answer.dtStat.value;
    result := result.(totalDT := dtStat.total, unreadyDT := dtStat.unready, unknownDT := dtStat.unknown);
    if answer.ping.Err? {
      result := result.(err := Some(answer.ping.error));
      return;
    }
    result := result.(activeConnections := answer.ping.value);
  }

  function AllStats(nodes: seq<string>, answers: seq<NodeAnswer>): seq<NodeDTStats>
    requires |nodes| == |answers|
  {
    seq(|nodes|, i requires 0 <= i < |nodes| => StatsOf(nodes[i], answers[i]))
  }

  /** One goroutine per node, each writing its own cell; they finish in any order, which is why the
      next one is picked at random. */
  method GetAllNodeDTStats(nodes: seq<string>, answers: seq<NodeAnswer>) returns (results: array<NodeDTStats>)
    requires |nodes| == |answers|
    ensures fresh(results) && results[..] == AllStats(nodes, answers)
  {
    results := new NodeDTStats[|nodes|](_ => NodeDTStats("", 0.0, 0.0, 0.0, 0.0, None));
    var running := set i {:trigger nodes[i]} | 0 <= i < |nodes|;
    while running != {}
      invariant forall i :: i in running ==> 0 <= i < |nodes|
      invariant forall i: nat :: i < |nodes| && i !in running ==> results[i] == StatsOf(nodes[i], answers[i])
      decreases running
    {
      var i :| i in running;
      var stats := GetNodeDTStats(nodes[i], answers[i]);
      results[i] := stats;
      running := running - {i};
    }
  }

  function NodeMetrics(stat: NodeDTStats): seq<Metric> {
    if stat.err.Some? then []
    else [Metric("obs_node_directory_tables", [stat.node], stat.totalDT),
          Metric("obs_node_directory_tables_unready", [stat.node], stat.unreadyDT),
          Metric("obs_node_directory_tables_unknown", [stat.node], stat.unknownDT),
          Metric("obs_node_active_connections", [stat.node], stat.activeConnections)]
  }

  /** The gauges of one node, from its own answers: the three directory table counts and the ping's
      connections if both endpoints answered, and nothing otherwise. */
  lemma NodeGauges(node: string, answer: NodeAnswer)
    ensures NodeMetrics(StatsOf(node, answer)) ==
            if answer.dtStat.Ok? && answer.ping.Ok? then
              [Metric("obs_node_directory_tables", [node], answer.dtStat.value.total),
               Metric("obs_node_directory_tables_unready", [node], answer.dtStat.value.unready),
               Metric("obs_node_directory_tables_unknown", [node], answer.dtStat.value.unknown),
               Metric("obs_node_active_connections", [node], answer.ping.value)]
            else []
  {
  }

  /** What an entry keeps of a node that failed: the counts if only the ping did, and which error. */
  lemma FailedNodeKeeps(node: string, answer: NodeAnswer)
    ensures var stat := StatsOf(node, answer);
            && stat.node == node
            && (answer.dtStat.Ok? ==>
                  && stat.totalDT == answer.dtStat.value.total
                  && stat.unreadyDT == answer.dtStat.value.unready
                  && stat.unknownDT == answer.dtStat.value.unknown)
            && (answer.dtStat.Err? ==>
                  stat.err == Some(answer.dtStat.error) && stat.totalDT == stat.unreadyDT == stat.unknownDT == 0.0)
            && (answer.dtStat.Ok? && answer.ping.Err? ==> stat.err == Some(answer.ping.error))
            && (stat.err.Some? ==> stat.activeConnections == 0.0)
  {
  }

  method NodeDTMetrics(stats: seq<NodeDTStats>) returns (metrics: seq<Metric>)
    ensures metrics == FlatMap(NodeMetrics, stats)
  {
    metrics := [];
    for i := 0 to |stats|
      invariant metrics == FlatMap(NodeMetrics, stats[..i])
    {
      var stat := stats[i];
      assert stats[..i + 1][..i] == stats[..i];
      if stat.err.Some? {
        continue;
      }
      metrics := metrics + [Metric("obs_node_directory_tables", [stat.node], stat.totalDT),
                            Metric("obs_node_directory_tables_unready", [stat.node], stat.unreadyDT),
                            Metric("obs_node_directory_tables_unknown", [stat.node], stat.unknownDT),
                            Metric("obs_node_active_connections", [stat.node], stat.activeConnections)];
    }
    assert stats[..|stats|] == stats;
  }

  datatype Node = Node(mgmtIP: string, version: string)

  function Addresses(nodes: seq<Node>): seq<string> {
    seq(|nodes|, i requires 0 <= i < |nodes| => nodes[i].mgmtIP)
  }

  /** The sequential program: visit the nodes in input order. */
  function NodeProgram(nodes: seq<Node>, answers: seq<NodeAnswer>): seq<Metric>
    requires |nodes| == |answers|
  {
    if nodes == [] then []
    else
      var n := |nodes| - 1;
      NodeProgram(nodes[..n], answers[..n]) + NodeMetrics(StatsOf(nodes[n].mgmtIP, answers[n]))
  }

  /** `collectNode`: the pipeline gives what the sequential program gives, in every completion order. */
  method CollectNode(dtStatsEnabled: bool, nodes: Result<seq<Node>>, answers: seq<NodeAnswer>)
    returns (r: Result<seq<Metric>>)
    requires nodes.Ok? ==> |answers| == |nodes.value|
    ensures r == if !dtStatsEnabled then Ok([])
                 else if nodes.Err? then Err(nodes.error)
                 else Ok(NodeProgram(nodes.value, answers))
  {
    if !dtStatsEnabled {
      return Ok([]);
    }
    if nodes.Err? {
      return Err(nodes.error);
    }
    var addrs: seq<string> := [];
    for i := 0 to |nodes.value|
      invariant addrs == Addresses(nodes.value[..i])
    {
      addrs := addrs + [nodes.value[i].mgmtIP];
    }
    assert nodes.value[..|nodes.value|] == nodes.value;
    var stats := GetAllNodeDTStats(addrs, answers);
    var metrics := NodeDTMetrics(stats[..]);
    PipelineIsSequential(nodes.value, answers);
    return Ok(metrics);
  }

  lemma {:induction false} PipelineIsSequential(nodes: seq<Node>, answers: seq<NodeAnswer>)
    requires |nodes| == |answers|
    ensures FlatMap(NodeMetrics, AllStats(Addresses(nodes), answers)) == NodeProgram(nodes, answers)
  {
    if nodes != [] {
      var n := |nodes| - 1;
      PipelineIsSequential(nodes[..n], answers[..n]);
      assert AllStats(Addresses(nodes), answers)[..n] == AllStats(Addresses(nodes[..n]), answers[..n]);
    }
  }

  function HealthyCount(answers: seq<NodeAnswer>): nat {
    if answers == [] then 0
    else HealthyCount(answers[..|answers| - 1]) + (if Healthy(answers[|answers| - 1]) then 1 else 0)
  }

  /** Exactly four gauges per healthy node. */
  lemma {:induction false} FourPerHealthyNode(nodes: seq<Node>, answers: seq<NodeAnswer>)
    requires |nodes| == |answers|
    ensures |NodeProgram(nodes, answers)| == 4 * HealthyCount(answers)
  {
    if nodes != [] {
      FourPerHealthyNode(nodes[..|nodes| - 1], answers[..|answers| - 1]);
    }
  }

  /** Isolation: if node i fails instead, exactly its own gauges go, from where they stood. */
  lemma FailureIsIsolated(nodes: seq<Node>, answers: seq<NodeAnswer>, i: nat, bad: NodeAnswer)
    requires |nodes| == |answers| && i < |nodes| && !Healthy(bad)
    ensures var before, after := NodeProgram(nodes[..i], answers[..i]), NodeProgram(nodes[i + 1..], answers[i + 1..]);
            && NodeProgram(nodes, answers) == before + NodeMetrics(StatsOf(nodes[i].mgmtIP, answers[i])) + after
            && NodeProgram(nodes, answers[i := bad]) == before + after
  {
    AroundNode(nodes, answers, i);
    AroundNode(nodes, answers[i := bad], i);
    assert answers[i := bad][..i] == answers[..i] && answers[i := bad][i + 1..] == answers[i + 1..];
  }

  lemma AroundNode(nodes: seq<Node>, answers: seq<NodeAnswer>, i: nat)
    requires |nodes| == |answers| && i < |nodes|
    ensures NodeProgram(nodes, answers) ==
            NodeProgram(nodes[..i], answers[..i]) + NodeMetrics(StatsOf(nodes[i].mgmtIP, answers[i]))
            + NodeProgram(nodes[i + 1..], answers[i + 1..])
  {
    var stats := AllStats(Addresses(nodes), answers);
    var before, after := AllStats(Addresses(nodes[..i]), answers[..i]),
        AllStats(Addresses(nodes[i + 1..]), answers[i + 1..]);
    assert stats == before + [stats[i]] + after;
    FlatMapConcat(NodeMetrics, before + [stats[i]], after);
    assert (before + [stats[i]])[..i] == before;
    PipelineIsSequential(nodes, answers);
    PipelineIsSequential(nodes[..i], answers[..i]);
    PipelineIsSequential(nodes[i + 1..], answers[i + 1..]);
  }
}
