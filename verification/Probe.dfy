/**
 One `/probe` request: the requested collectors run one after another over a `Run`, whose
 localzone and nodes accessors fetch at most once.

 The server's answer to a call may depend on all the authenticated calls made before it.  Inside a
 collector the calls are taken in the order the source starts them; Metering and Perf show that the
 schedule of their goroutines does not matter.
 */
module Probe {
  import opened Collections
  import opened AuthClient
  import opened Metrics
  import opened Dashboard
  import FluxDecode
  import Metering
  import NodeStats
  import Perf
  import P = AuthProtocol

  /** The authenticated calls of a probe. */
  datatype Path =
    | LocalZonePath
    | NodesPath
    | ReplicationPath
    | NamespacesPath
    | QuotaPath(ns: string)
    | BillingPath(ns: string)
    | FluxPath(k: nat)

  type Log = seq<Path>

  datatype Api = Api(
    localZone: Log -> Result<LocalZone>,
    nodes: Log -> Result<seq<NodeStats.Node>>,
    groups: Log -> Result<seq<ReplicationGroup>>,
    namespaces: Log -> Result<seq<string>>,
    quota: (Log, string) -> Result<Metering.Quota>,
    billing: (Log, string) -> Result<Metering.Billing>,
    flux: (Log, nat) -> Perf.Answer,
    nodeAnswer: string -> NodeStats.NodeAnswer  // unauthenticated, not logged
  )

  /** The answers do not change during the probe. */
  ghost predicate Stable(api: Api) {
    && (forall a, b :: api.localZone(a) == api.localZone(b))
    && (forall a, b :: api.nodes(a) == api.nodes(b))
    && (forall a, b :: api.groups(a) == api.groups(b))
    && (forall a, b :: api.namespaces(a) == api.namespaces(b))
    && (forall a, b, ns :: api.quota(a, ns) == api.quota(b, ns))
    && (forall a, b, ns :: api.billing(a, ns) == api.billing(b, ns))
    && (forall a, b, k :: api.flux(a, k) == api.flux(b, k))
  }

  /** A run so far: the calls made, the two memo cells, and how many namespaces were listed. */
  datatype Memo = Memo(
    calls: Log, zone: Option<Result<LocalZone>>, nodes: Option<Result<seq<NodeStats.Node>>>, listed: nat)

  const EMPTY := Memo([], None, None, 0)

  // ---------------------------------------------------------------- specification

  function Call(m: Memo, path: Path): Memo { m.(calls := m.calls + [path]) }

  /** With `once`, the accessor of the source; without it, a fetch on every use. */
  function ZoneStep(api: Api, once: bool, m: Memo): (Memo, Result<LocalZone>) {
    if once && m.zone.Some? then (m, m.zone.value)
    else
      var r := api.localZone(m.calls);
      (Call(m, LocalZonePath).(zone := Some(r)), r)
  }

  function NodesStep(api: Api, once: bool, m: Memo): (Memo, Result<seq<NodeStats.Node>>) {
    if once && m.nodes.Some? then (m, m.nodes.value)
    else
      var r := api.nodes(m.calls);
      (Call(m, NodesPath).(nodes := Some(r)), r)
  }

  function ClusterStep(api: Api, once: bool, m: Memo): (Memo, Result<seq<Metric>>) {
    var (m1, zone) := ZoneStep(api, once, m);
    if zone.Err? then (m1, Err(zone.error))
    else
      var (m2, nodes) := NodesStep(api, once, m1);
      (m2, Ok(ClusterMetrics(zone.value, nodes)))
  }

  function ReplicationStep(api: Api, m: Memo): (Memo, Result<seq<Metric>>) {
    var r := api.groups(m.calls);
    (Call(m, ReplicationPath),
     if r.Err? then Err(r.error) else Ok(FlatMap(GroupMetrics, r.value)))
  }

  function NodeAnswers(api: Api, nodes: seq<NodeStats.Node>): seq<NodeStats.NodeAnswer> {
    seq(|nodes|, i requires 0 <= i < |nodes| => api.nodeAnswer(nodes[i].mgmtIP))
  }

  function NodeStep(api: Api, dtStats: bool, once: bool, m: Memo): (Memo, Result<seq<Metric>>) {
    if !dtStats then (m, Ok([]))
    else
      var (m', nodes) := NodesStep(api, once, m);
      (m', if nodes.Err? then Err(nodes.error)
          else Ok(NodeStats.NodeProgram(nodes.value, NodeAnswers(api, nodes.value))))
  }

  /** Quota and billing of one namespace. */
  function NamespaceStep(api: Api, m: Memo, ns: string): (Memo, seq<Metric>) {
    var quota := api.quota(m.calls, ns);
    var m' := Call(m, QuotaPath(ns));
    var billing := api.billing(m'.calls, ns);
    (Call(m', BillingPath(ns)), Metering.QuotaBlock(ns, quota) + Metering.BillingBlock(ns, billing))
  }

  function NamespacesStep(api: Api, m: Memo, namespaces: seq<string>): (Memo, seq<Metric>) {
    if namespaces == [] then (m, [])
    else
      var (m', metrics) := NamespacesStep(api, m, namespaces[..|namespaces| - 1]);
      var (m'', local) := NamespaceStep(api, m', namespaces[|namespaces| - 1]);
      (m'', metrics + local)
  }

  function MeteringStep(api: Api, m: Memo): (Memo, Result<seq<Metric>>) {
    var r := api.namespaces(m.calls);
    var m' := Call(m, NamespacesPath);
    if r.Err? then (m', Err(r.error))
    else
      var (m'', metrics) := NamespacesStep(api, m'.(listed := m'.listed + |r.value|), r.value);
      (m'', Ok(metrics))
  }

  function FluxStep(api: Api, m: Memo, k: nat): (Memo, seq<Perf.Answer>) {
    if k == 0 then (m, [])
    else
      var (m', answers) := FluxStep(api, m, k - 1);
      (Call(m', FluxPath(k - 1)), answers + [api.flux(m'.calls, k - 1)])
  }

  function FirstFailure(answers: seq<Perf.Answer>): Option<Error> {
    if answers == [] then None
    else if answers[0].QueryFailed? then Some(answers[0].error)
    else FirstFailure(answers[1..])
  }

  function Vdc(zone: Result<LocalZone>): string { if zone.Ok? then zone.value.name else "unknown" }

  function PerfStep(api: Api, once: bool, m: Memo): (Memo, Result<seq<Metric>>) {
    var (m1, zone) := ZoneStep(api, once, m);
    var (m2, answers) := FluxStep(api, m1, Perf.JOBS);
    var metrics := Perf.Sequential(Vdc(zone), answers);
    (m2, if metrics == [] && FirstFailure(answers).Some? then Err(FirstFailure(answers).value) else Ok(metrics))
  }

  /** `Registry[name]`; an unknown name fails without a call. */
  function CollectStep(api: Api, dtStats: bool, once: bool, name: string, m: Memo): (Memo, Result<seq<Metric>>) {
    if name == "cluster" then ClusterStep(api, once, m)
    else if name == "replication" then ReplicationStep(api, m)
    else if name == "node" then NodeStep(api, dtStats, once, m)
    else if name == "metering" then MeteringStep(api, m)
    else if name == "perf" then PerfStep(api, once, m)
    else (m, Err(BadStatus(0)))
  }

  /** What each requested collector registered, or why it failed. */
  function ProbeStep(api: Api, dtStats: bool, once: bool, names: seq<string>): (Memo, seq<Result<seq<Metric>>>) {
    if names == [] then (EMPTY, [])
    else
      var (m, results) := ProbeStep(api, dtStats, once, names[..|names| - 1]);
      var (m', r) := CollectStep(api, dtStats, once, names[|names| - 1], m);
      (m', results + [r])
  }

  // ---------------------------------------------------------------- the source's objects

  /** `Run`: the memo cells are filled on first use. */
  class Run {
    const api: Api
    const dtStats: bool
    var calls: Log
    var zone: Option<Result<LocalZone>>
    var nodes: Option<Result<seq<NodeStats.Node>>>
    ghost var listed: nat

    constructor (api: Api, dtStats: bool)
      ensures this.api == api && this.dtStats == dtStats && Now() == EMPTY
    {
      this.api, this.dtStats := api, dtStats;
      calls, zone, nodes, listed := [], None, None, 0;
    }

    ghost function Now(): Memo
      reads this
    {
      Memo(calls, zone, nodes, listed)
    }

    method LocalZone() returns (r: Result<LocalZone>)
      modifies this
      ensures (Now(), r) == ZoneStep(api, true, old(Now()))
    {
      if zone == None {
        zone := Some(api.localZone(calls));
        calls := calls + [LocalZonePath];
      }
      return zone.value;
    }

    method Nodes() returns (r: Result<seq<NodeStats.Node>>)
      modifies this
      ensures (Now(), r) == NodesStep(api, true, old(Now()))
    {
      if nodes == None {
        nodes := Some(api.nodes(calls));
        calls := calls + [NodesPath];
      }
      return nodes.value;
    }

    method CollectCluster() returns (r: Result<seq<Metric>>)
      modifies this
      ensures (Now(), r) == ClusterStep(api, true, old(Now()))
    {
      var lz := LocalZone();
      if lz.Err? { return Err(lz.error); }
      var ns := Nodes();
      var metrics := EmitCluster(lz.value, ns);
      return Ok(metrics);
    }

    method CollectReplication() returns (r: Result<seq<Metric>>)
      modifies this
      ensures (Now(), r) == ReplicationStep(api, old(Now()))
    {
      var groups := api.groups(calls);
      calls := calls + [ReplicationPath];
      if groups.Err? { return Err(groups.error); }
      var metrics := EmitReplication(groups.value);
      return Ok(metrics);
    }

    method CollectNode() returns (r: Result<seq<Metric>>)
      modifies this
      ensures (Now(), r) == NodeStep(api, dtStats, true, old(Now()))
    {
      if !dtStats { return Ok([]); }
      var ns := Nodes();
      if ns.Err? { return Err(ns.error); }
      r := NodeStats.CollectNode(true, ns, NodeAnswers(api, ns.value));
    }

    method CollectNamespace(ns: string) returns (local: seq<Metric>)
      modifies this
      ensures (Now(), local) == NamespaceStep(api, old(Now()), ns)
    {
      var quota := api.quota(calls, ns);
      calls := calls + [QuotaPath(ns)];
      var billing := api.billing(calls, ns);
      calls := calls + [BillingPath(ns)];
      local := Metering.MeteringNamespaceMetrics(ns, quota, billing);
    }

    method CollectMetering() returns (r: Result<seq<Metric>>)
      modifies this
      ensures (Now(), r) == MeteringStep(api, old(Now()))
    {
      var namespaces := api.namespaces(calls);
      calls := calls + [NamespacesPath];
      if namespaces.Err? { return Err(namespaces.error); }
      listed := listed + |namespaces.value|;
      var metrics: seq<Metric> := [];
      ghost var start := Now();
      for i := 0 to |namespaces.value|
        invariant (Now(), metrics) == NamespacesStep(api, start, namespaces.value[..i])
      {
        assert namespaces.value[..i + 1][..i] == namespaces.value[..i];
        var local := CollectNamespace(namespaces.value[i]);
        metrics := metrics + local;
      }
      assert namespaces.value[..|namespaces.value|] == namespaces.value;
      return Ok(metrics);
    }

    method CollectPerf() returns (r: Result<seq<Metric>>)
      modifies this
      ensures (Now(), r) == PerfStep(api, true, old(Now()))
    {
      var lz := LocalZone();
      var answers: seq<Perf.Answer> := [];
      ghost var start := Now();
      for k := 0 to Perf.JOBS
        invariant (Now(), answers) == FluxStep(api, start, k)
      {
        answers := answers + [api.flux(calls, k)];
        calls := calls + [FluxPath(k)];
      }
      var metrics := Perf.Sequential(Vdc(lz), answers);
      var failure := FirstFailure(answers);
      return if metrics == [] && failure.Some? then Err(failure.value) else Ok(metrics);
    }

    method Collect(name: string) returns (r: Result<seq<Metric>>)
      modifies this
      ensures (Now(), r) == CollectStep(api, dtStats, true, name, old(Now()))
    {
      match name
      case "cluster" => r := CollectCluster();
      case "replication" => r := CollectReplication();
      case "node" => r := CollectNode();
      case "metering" => r := CollectMetering();
      case "perf" => r := CollectPerf();
      case _ => r := Err(BadStatus(0));
    }
  }

  function Registered(results: seq<Result<seq<Metric>>>): seq<Metric> {
    if results == [] then []
    else
      var last := results[|results| - 1];
      Registered(results[..|results| - 1]) + (if last.Ok? then last.value else [])
  }

  function Successes(names: seq<string>, results: seq<Result<seq<Metric>>>): seq<(string, bool)>
    requires |names| == |results|
  {
    seq(|names|, i requires 0 <= i < |names| => (names[i], results[i].Ok?))
  }

  lemma ProbeExtends(api: Api, dtStats: bool, names: seq<string>, i: nat)
    requires i < |names|
    ensures var (m, results) := ProbeStep(api, dtStats, true, names[..i]);
            var (m', r) := CollectStep(api, dtStats, true, names[i], m);
            ProbeStep(api, dtStats, true, names[..i + 1]) == (m', results + [r])
  {
    assert names[..i + 1][..i] == names[..i];
  }

  lemma OutcomesExtend(names: seq<string>, results: seq<Result<seq<Metric>>>, name: string, r: Result<seq<Metric>>)
    requires |names| == |results|
    ensures Registered(results + [r]) == Registered(results) + (if r.Ok? then r.value else [])
    ensures Successes(names + [name], results + [r]) == Successes(names, results) + [(name, r.Ok?)]
  {
    assert (results + [r])[..|results|] == results;
  }

  /** `Probe`: a failed or unknown collector is recorded and the loop goes on. */
  method RunProbe(api: Api, dtStats: bool, names: seq<string>)
    returns (calls: Log, registered: seq<Metric>, success: seq<(string, bool)>)
    ensures var (m, results) := ProbeStep(api, dtStats, true, names);
            && |results| == |names|
            && calls == m.calls && registered == Registered(results) && success == Successes(names, results)
  {
    var run := new Run(api, dtStats);
    registered, success := [], [];
    ghost var results := [];
    for i := 0 to |names|
      invariant run.api == api && run.dtStats == dtStats
      invariant (run.Now(), results) == ProbeStep(api, dtStats, true, names[..i])
      invariant |results| == i && registered == Registered(results) && success == Successes(names[..i], results)
    {
      ProbeExtends(api, dtStats, names, i);
      assert names[..i + 1] == names[..i] + [names[i]];
      var r := run.Collect(names[i]);
      if r.Ok? {
        registered := registered + r.value;
      }
      success := success + [(names[i], r.Ok?)];
      OutcomesExtend(names[..i], results, names[i], r);
      results := results + [r];
    }
    assert names[..|names|] == names;
    calls := run.calls;
  }

  // ---------------------------------------------------------------- what is recorded and registered

  /** Each collector's outcome is recorded under its own name, in order. */
  lemma OutcomePerName(names: seq<string>, results: seq<Result<seq<Metric>>>, i: nat)
    requires |names| == |results| && i < |names|
    ensures |Successes(names, results)| == |names|
    ensures Successes(names, results)[i].0 == names[i] && (Successes(names, results)[i].1 <==> results[i].Ok?)
  {
  }

  /** What a collector yielded is registered, between what those before it and those after it did; a
      failed one registers nothing. */
  lemma {:induction false} RegisteredAround(results: seq<Result<seq<Metric>>>, i: nat)
    requires i < |results|
    ensures Registered(results) ==
            Registered(results[..i]) + (if results[i].Ok? then results[i].value else []) + Registered(results[i + 1..])
  {
    var n := |results| - 1;
    if i < n {
      RegisteredAround(results[..n], i);
      assert results[..n][..i] == results[..i] && results[..n][i + 1..] == results[i + 1..][..n - i - 1];
    } else {
      assert results[i + 1..] == [] && results[..n] == results[..i];
    }
  }

  /** A name that is none of the five is recorded as a failure, costs no call, and stands in nobody's
      way. */
  lemma UnknownNameIsRecorded(api: Api, dtStats: bool, names: seq<string>, i: nat)
    requires i < |names| && names[i] !in {"cluster", "replication", "node", "metering", "perf"}
    ensures var results := ProbeStep(api, dtStats, true, names).1;
            |results| == |names| && results[i].Err? && Successes(names, results)[i] == (names[i], false)
    ensures ProbeStep(api, dtStats, true, names[..i + 1]).0 == ProbeStep(api, dtStats, true, names[..i]).0
  {
    ResultOfName(api, dtStats, names, i);
    ProbeExtends(api, dtStats, names, i);
  }

  /** A collector's outcome is what it makes of the run as the collectors before it left it. */
  lemma ResultOfName(api: Api, dtStats: bool, names: seq<string>, i: nat)
    requires i < |names|
    ensures var results := ProbeStep(api, dtStats, true, names).1;
            && |results| == |names|
            && results[i] == CollectStep(api, dtStats, true, names[i], ProbeStep(api, dtStats, true, names[..i]).0).1
  {
    ResultPerName(api, dtStats, names);
    ResultPerName(api, dtStats, names[..i]);
    ProbeExtends(api, dtStats, names, i);
    LaterLeaveResults(api, dtStats, names, i + 1);
  }

  lemma {:induction false} LaterLeaveResults(api: Api, dtStats: bool, names: seq<string>, i: nat)
    requires i <= |names|
    ensures ProbeStep(api, dtStats, true, names[..i]).1 <= ProbeStep(api, dtStats, true, names).1
  {
    if i < |names| {
      var n := |names| - 1;
      ProbeExtends(api, dtStats, names, n);
      assert names[..n + 1] == names && names[..n][..i] == names[..i];
      LaterLeaveResults(api, dtStats, names[..n], i);
    } else {
      assert names[..i] == names;
    }
  }

  lemma {:induction false} ResultPerName(api: Api, dtStats: bool, names: seq<string>)
    ensures |ProbeStep(api, dtStats, true, names).1| == |names|
  {
    if names != [] {
      ResultPerName(api, dtStats, names[..|names| - 1]);
    }
  }

  // ---------------------------------------------------------------- what each collector asks and makes of it

  /** Cluster: localzone unless known; nodes unless known, if the zone came. */
  lemma ClusterAsks(api: Api, dtStats: bool, m: Memo)
    ensures var (m', r) := CollectStep(api, dtStats, true, "cluster", m);
            && m'.calls == m.calls + (if m.zone.None? then [LocalZonePath] else [])
                           + (if r.Ok? && m.nodes.None? then [NodesPath] else [])
            && (m.zone.None? ==> m'.zone == Some(api.localZone(m.calls)))
            && (r.Ok? <==> m'.zone.Some? && m'.zone.value.Ok?)
  {
  }

  /** Replication: one request, its error or its groups' gauges. */
  lemma ReplicationAsks(api: Api, dtStats: bool, m: Memo)
    ensures var (m', r) := CollectStep(api, dtStats, true, "replication", m);
            && m' == m.(calls := m.calls + [ReplicationPath])
            && (match api.groups(m.calls)
                case Err(e) => r == Err(e)
                case Ok(groups) => r == Ok(FlatMap(GroupMetrics, groups)))
  {
  }

  /** Node: nothing at all if switched off; else nodes unless known. */
  lemma NodeAsks(api: Api, dtStats: bool, m: Memo)
    ensures var (m', r) := CollectStep(api, dtStats, true, "node", m);
            && m'.calls == m.calls + (if dtStats && m.nodes.None? then [NodesPath] else [])
            && (!dtStats ==> r == Ok([]))
            && (dtStats && m.nodes.None? ==> m'.nodes == Some(api.nodes(m.calls)))
  {
  }

  /** What it reports of a node: the four gauges under its management address, from the answers of that
      address, in the node's place; nothing if one of them failed. */
  lemma NodeReports(api: Api, nodes: seq<NodeStats.Node>, i: nat)
    requires i < |nodes|
    ensures var ip := nodes[i].mgmtIP;
            var answer := api.nodeAnswer(ip);
            NodeStats.NodeProgram(nodes, NodeAnswers(api, nodes)) ==
            NodeStats.NodeProgram(nodes[..i], NodeAnswers(api, nodes[..i]))
            + (if answer.dtStat.Ok? && answer.ping.Ok? then
                 [Metric("obs_node_directory_tables", [ip], answer.dtStat.value.total),
                  Metric("obs_node_directory_tables_unready", [ip], answer.dtStat.value.unready),
                  Metric("obs_node_directory_tables_unknown", [ip], answer.dtStat.value.unknown),
                  Metric("obs_node_active_connections", [ip], answer.ping.value)]
               else [])
            + NodeStats.NodeProgram(nodes[i + 1..], NodeAnswers(api, nodes[i + 1..]))
  {
    var answers := NodeAnswers(api, nodes);
    assert answers[..i] == NodeAnswers(api, nodes[..i]) && answers[i + 1..] == NodeAnswers(api, nodes[i + 1..]);
    NodeStats.AroundNode(nodes, answers, i);
    NodeStats.NodeGauges(nodes[i].mgmtIP, answers[i]);
  }

  /** Perf: localzone unless known, then the six queries, whatever came before. */
  lemma PerfAsks(api: Api, dtStats: bool, m: Memo)
    ensures var (m', r) := CollectStep(api, dtStats, true, "perf", m);
            && m'.calls == m.calls + (if m.zone.None? then [LocalZonePath] else [])
                           + [FluxPath(0), FluxPath(1), FluxPath(2), FluxPath(3), FluxPath(4), FluxPath(5)]
            && (m.zone.None? ==> m'.zone == Some(api.localZone(m.calls)))
  {
    FluxAsks(api, ZoneStep(api, true, m).0, 6);
  }

  function FluxPaths(k: nat): Log { seq(k, (i: nat) => FluxPath(i)) }

  lemma {:induction false} FluxAsks(api: Api, m: Memo, k: nat)
    ensures FluxStep(api, m, k).0 == m.(calls := m.calls + FluxPaths(k))
    ensures |FluxStep(api, m, k).1| == k
    ensures forall j: nat :: j < k ==> FluxStep(api, m, k).1[j] == api.flux(m.calls + FluxPaths(j), j)
  {
    if k > 0 {
      FluxAsks(api, m, k - 1);
      assert FluxPaths(k) == FluxPaths(k - 1) + [FluxPath(k - 1)];
      assert m.calls + FluxPaths(k) == m.calls + FluxPaths(k - 1) + [FluxPath(k - 1)];
    }
  }

  /** Its outcome: the error of the first failed query if nothing was to be reported and one failed,
      else the six reports, labelled with the zone's name or, without a zone, "unknown". */
  lemma PerfMakes(api: Api, dtStats: bool, m: Memo) returns (answers: seq<Perf.Answer>, vdc: string)
    ensures |answers| == 6
    ensures var m' := CollectStep(api, dtStats, true, "perf", m).0;
            && m'.zone.Some? && vdc == (if m'.zone.value.Ok? then m'.zone.value.value.name else "unknown")
    ensures var before := m.calls + (if m.zone.None? then [LocalZonePath] else []);
            forall k: nat :: k < 6 ==> answers[k] == api.flux(before + FluxPaths(k), k)
    ensures var r := CollectStep(api, dtStats, true, "perf", m).1;
            var silent := Perf.Sequential(vdc, answers) == [];
            && (r.Ok? ==> r.value == Perf.Sequential(vdc, answers))
            && (r.Err? <==> silent && exists k: nat :: k < 6 && answers[k].QueryFailed?)
            && (r.Err? ==> exists k: nat :: k < 6 && answers[k] == Perf.QueryFailed(r.error)
                                            && forall j: nat :: j < k ==> !answers[j].QueryFailed?)
  {
    var (m1, zone) := ZoneStep(api, true, m);
    FluxAsks(api, m1, 6);
    assert m1.calls == m.calls + (if m.zone.None? then [LocalZonePath] else []);
    answers, vdc := FluxStep(api, m1, 6).1, Vdc(zone);
    FirstFailureIsFirst(answers);
  }

  lemma {:induction false} FirstFailureIsFirst(answers: seq<Perf.Answer>)
    ensures FirstFailure(answers).Some? <==> exists k: nat :: k < |answers| && answers[k].QueryFailed?
    ensures FirstFailure(answers).Some? ==>
              exists k: nat :: k < |answers| && answers[k] == Perf.QueryFailed(FirstFailure(answers).value)
                               && forall j: nat :: j < k ==> !answers[j].QueryFailed?
  {
    if answers != [] && !answers[0].QueryFailed? {
      var rest := answers[1..];
      FirstFailureIsFirst(rest);
      if k: nat :| k < |answers| && answers[k].QueryFailed? {
        assert rest[k - 1] == answers[k];
      }
      if FirstFailure(rest).Some? {
        var k: nat :| k < |rest| && rest[k] == Perf.QueryFailed(FirstFailure(rest).value)
                      && forall j: nat :: j < k ==> !rest[j].QueryFailed?;
        assert answers[k + 1] == rest[k];
        assert forall j: nat :: 0 < j < k + 1 ==> answers[j] == rest[j - 1];
      }
    }
  }

  /** Metering: the list of namespaces or its error; then quota and billing of each, in order. */
  lemma MeteringAsks(api: Api, dtStats: bool, m: Memo)
    ensures var (m', r) := CollectStep(api, dtStats, true, "metering", m);
            match api.namespaces(m.calls)
            case Err(e) => r == Err(e) && m' == m.(calls := m.calls + [NamespacesPath])
            case Ok(names) =>
              && r.Ok? && m'.zone == m.zone && m'.nodes == m.nodes && m'.listed == m.listed + |names|
              && m'.calls == m.calls + [NamespacesPath] + NamespacePaths(names)
  {
    var names := api.namespaces(m.calls);
    if names.Ok? {
      var m1 := Call(m, NamespacesPath);
      NamespacesAsk(api, m1.(listed := m1.listed + |names.value|), names.value);
    }
  }

  function NamespacePaths(names: seq<string>): Log {
    if names == [] then []
    else
      var ns := names[|names| - 1];
      NamespacePaths(names[..|names| - 1]) + [QuotaPath(ns), BillingPath(ns)]
  }

  lemma {:induction false} NamespacePathsAt(names: seq<string>, i: nat)
    requires i < |names|
    ensures |NamespacePaths(names)| == 2 * |names|
    ensures NamespacePaths(names)[2 * i] == QuotaPath(names[i])
    ensures NamespacePaths(names)[2 * i + 1] == BillingPath(names[i])
  {
    var n := |names| - 1;
    if n > 0 {
      NamespacePathsAt(names[..n], if i < n then i else 0);
    }
  }

  lemma {:induction false} NamespacesAsk(api: Api, m: Memo, names: seq<string>)
    ensures NamespacesStep(api, m, names).0 == m.(calls := m.calls + NamespacePaths(names))
  {
    if names != [] {
      NamespacesAsk(api, m, names[..|names| - 1]);
    }
  }

  /** Each namespace adds its own gauges, from its own two answers. */
  lemma NamespaceAdds(api: Api, m: Memo, names: seq<string>, i: nat)
    requires i < |names|
    ensures var (m1, before) := NamespacesStep(api, m, names[..i]);
            NamespacesStep(api, m, names[..i + 1]).1 ==
            before + Metering.QuotaBlock(names[i], api.quota(m1.calls, names[i]))
                   + Metering.BillingBlock(names[i], api.billing(m1.calls + [QuotaPath(names[i])], names[i]))
    ensures NamespacesStep(api, m, []).1 == []
  {
    assert names[..i + 1][..i] == names[..i];
  }

  // ---------------------------------------------------------------- at most one fetch each

  function Fetches(calls: Log, path: Path): nat {
    if calls == [] then 0 else Fetches(calls[..|calls| - 1], path) + (if calls[|calls| - 1] == path then 1 else 0)
  }

  function Filled<T>(cell: Option<T>): nat { if cell.Some? then 1 else 0 }

  /** The memo cells count their own fetches. */
  ghost predicate OnceOk(m: Memo) {
    Fetches(m.calls, LocalZonePath) == Filled(m.zone) && Fetches(m.calls, NodesPath) == Filled(m.nodes)
  }

  /** The cells, once filled, keep their value. */
  ghost predicate Keeps(m: Memo, m': Memo) {
    (m.zone.Some? ==> m'.zone == m.zone) && (m.nodes.Some? ==> m'.nodes == m.nodes) && m.listed <= m'.listed
  }

  lemma FetchesOnCall(m: Memo, path: Path)
    ensures forall p :: Fetches(Call(m, path).calls, p) == Fetches(m.calls, p) + (if p == path then 1 else 0)
  {
    var calls := Call(m, path).calls;
    assert calls[..|calls| - 1] == m.calls;
  }

  /** Authenticated calls a collector makes itself, besides localzone, nodes and namespaces' own. */
  function Weight(name: string): nat {
    if name == "replication" || name == "metering" then 1 else if name == "perf" then 6 else 0
  }

  /** What a step adds, accounted to the cells, to the collector and to the listed namespaces. */
  ghost predicate Charged(m: Memo, m': Memo, weight: nat) {
    && |m'.calls| == |m.calls| + weight + (Filled(m'.zone) - Filled(m.zone)) + (Filled(m'.nodes) - Filled(m.nodes))
                     + 2 * (m'.listed - m.listed)
    && Keeps(m, m')
    && (OnceOk(m) ==> OnceOk(m'))
  }

  lemma ZoneCharged(api: Api, m: Memo)
    ensures Charged(m, ZoneStep(api, true, m).0, 0)
  {
    FetchesOnCall(m, LocalZonePath);
  }

  lemma NodesCharged(api: Api, m: Memo)
    ensures Charged(m, NodesStep(api, true, m).0, 0)
  {
    FetchesOnCall(m, NodesPath);
  }

  lemma {:induction false} NamespacesCharged(api: Api, m: Memo, namespaces: seq<string>)
    ensures var m' := NamespacesStep(api, m, namespaces).0;
            && |m'.calls| == |m.calls| + 2 * |namespaces|
            && m'.zone == m.zone && m'.nodes == m.nodes && m'.listed == m.listed
            && (OnceOk(m) ==> OnceOk(m'))
  {
    if namespaces != [] {
      NamespacesCharged(api, m, namespaces[..|namespaces| - 1]);
      var m', ns := NamespacesStep(api, m, namespaces[..|namespaces| - 1]).0, namespaces[|namespaces| - 1];
      FetchesOnCall(m', QuotaPath(ns));
      FetchesOnCall(Call(m', QuotaPath(ns)), BillingPath(ns));
    }
  }

  lemma {:induction false} FluxCharged(api: Api, m: Memo, k: nat)
    ensures var m' := FluxStep(api, m, k).0; Charged(m, m', k) && m'.zone == m.zone
  {
    if k > 0 {
      FluxCharged(api, m, k - 1);
      FetchesOnCall(FluxStep(api, m, k - 1).0, FluxPath(k - 1));
    }
  }

  lemma CollectCharged(api: Api, dtStats: bool, name: string, m: Memo)
    ensures Charged(m, CollectStep(api, dtStats, true, name, m).0, Weight(name))
  {
    ZoneCharged(api, m);
    var m1 := ZoneStep(api, true, m).0;
    if name == "cluster" {
      NodesCharged(api, m1);
    } else if name == "replication" {
      FetchesOnCall(m, ReplicationPath);
    } else if name == "node" {
      NodesCharged(api, m);
    } else if name == "metering" {
      MeteringCharged(api, m);
    } else if name == "perf" {
      FluxCharged(api, m1, Perf.JOBS);
    }
  }

  lemma MeteringCharged(api: Api, m: Memo)
    ensures Charged(m, MeteringStep(api, m).0, 1)
  {
    FetchesOnCall(m, NamespacesPath);
    var r := api.namespaces(m.calls);
    if r.Ok? {
      var m' := Call(m, NamespacesPath);
      NamespacesCharged(api, m'.(listed := m'.listed + |r.value|), r.value);
    }
  }

  function Weights(names: seq<string>): nat {
    if names == [] then 0 else Weights(names[..|names| - 1]) + Weight(names[|names| - 1])
  }

  lemma {:induction false} ProbeCharged(api: Api, dtStats: bool, names: seq<string>)
    ensures Charged(EMPTY, ProbeStep(api, dtStats, true, names).0, Weights(names))
  {
    if names != [] {
      var front := names[..|names| - 1];
      ProbeCharged(api, dtStats, front);
      CollectCharged(api, dtStats, names[|names| - 1], ProbeStep(api, dtStats, true, front).0);
    }
  }

  lemma {:induction false} DistinctWeights(names: seq<string>)
    requires NoDup(names)
    ensures Weights(names) == (if "replication" in names then 1 else 0) + (if "metering" in names then 1 else 0)
                              + (if "perf" in names then 6 else 0)
  {
    if names != [] {
      var front, last := names[..|names| - 1], names[|names| - 1];
      DistinctWeights(front);
      assert names == front + [last] && last !in front;
    }
  }

  /** One probe fetches localzone and nodes at most once each, whatever collectors are asked for. */
  lemma FetchedAtMostOnce(api: Api, dtStats: bool, names: seq<string>)
    ensures var calls := ProbeStep(api, dtStats, true, names).0.calls;
            Fetches(calls, LocalZonePath) <= 1 && Fetches(calls, NodesPath) <= 1
  {
    ProbeCharged(api, dtStats, names);
  }

  /** Cost: a probe of distinct collectors that lists N namespaces makes at most 10 + 2N
      authenticated calls, whatever the server answers. */
  lemma CallsBounded(api: Api, dtStats: bool, names: seq<string>)
    requires NoDup(names)
    ensures var m := ProbeStep(api, dtStats, true, names).0; |m.calls| <= 10 + 2 * m.listed
  {
    ProbeCharged(api, dtStats, names);
    DistinctWeights(names);
  }

  /** And exactly: one call for replication, one for metering, six for perf, one for each of localzone
      and nodes that was needed, and two per listed namespace. */
  lemma ExactCost(api: Api, dtStats: bool, names: seq<string>)
    requires NoDup(names)
    ensures var m := ProbeStep(api, dtStats, true, names).0;
            |m.calls| == (if "replication" in names then 1 else 0) + (if "metering" in names then 1 else 0)
                         + (if "perf" in names then 6 else 0)
                         + (if m.zone.Some? then 1 else 0) + (if m.nodes.Some? then 1 else 0) + 2 * m.listed
  {
    ProbeCharged(api, dtStats, names);
    DistinctWeights(names);
  }

  /** Each of these calls being one `callAuthenticatedJSON` of a client that other scrapes share, in
      any interleaving with each other and with the others' calls, the probe's own data requests are
      at most twice as many. */
  lemma DataRequestsOfProbe(api: Api, dtStats: bool, names: seq<string>,
                            ss: seq<P.State>, acts: seq<P.Action>, n: nat, ids: set<P.CallId>)
    requires NoDup(names) && P.IsRun(ss, acts) && n < |ss|
    requires |ids| <= |ProbeStep(api, dtStats, true, names).0.calls|
    ensures var cost := 2 * (10 + 2 * ProbeStep(api, dtStats, true, names).0.listed);
            P.DataRequestsBy(acts[..n], ids) <= cost && SumOf(P.RequestsOf(ss[n].client, ids)) <= cost
  {
    CallsBounded(api, dtStats, names);
    P.DataRequestsByCalls(ss, acts, n, ids);
    P.RequestsAreCountedBy(ss, acts, n, ids);
  }

  // ---------------------------------------------------------------- memoised and not: the same metrics

  /** A filled cell holds what the stable server answers. */
  ghost predicate Faithful(api: Api, m: Memo) {
    (m.zone.Some? ==> m.zone.value == api.localZone([])) && (m.nodes.Some? ==> m.nodes.value == api.nodes([]))
  }

  lemma {:induction false} NamespacesAgree(api: Api, a: Memo, b: Memo, namespaces: seq<string>)
    requires Stable(api)
    ensures NamespacesStep(api, a, namespaces).1 == NamespacesStep(api, b, namespaces).1
    ensures NamespacesStep(api, a, namespaces).0.zone == a.zone && NamespacesStep(api, a, namespaces).0.nodes == a.nodes
  {
    if namespaces != [] {
      NamespacesAgree(api, a, b, namespaces[..|namespaces| - 1]);
    }
  }

  lemma {:induction false} FluxAgrees(api: Api, a: Memo, b: Memo, k: nat)
    requires Stable(api)
    ensures FluxStep(api, a, k).1 == FluxStep(api, b, k).1
    ensures FluxStep(api, a, k).0.zone == a.zone && FluxStep(api, a, k).0.nodes == a.nodes
  {
    if k > 0 {
      FluxAgrees(api, a, b, k - 1);
    }
  }

  lemma CollectAgrees(api: Api, dtStats: bool, name: string, a: Memo, b: Memo)
    requires Stable(api) && Faithful(api, a)
    ensures CollectStep(api, dtStats, true, name, a).1 == CollectStep(api, dtStats, false, name, b).1
    ensures Faithful(api, CollectStep(api, dtStats, true, name, a).0)
  {
    if name == "metering" {
      MeteringAgrees(api, a, b);
    } else if name == "perf" {
      ZoneAgrees(api, a, b);
      FluxAgrees(api, ZoneStep(api, true, a).0, ZoneStep(api, false, b).0, Perf.JOBS);
    } else if name == "cluster" {
      ZoneAgrees(api, a, b);
      NodesAgree(api, ZoneStep(api, true, a).0, ZoneStep(api, false, b).0);
    } else if name == "node" {
      NodesAgree(api, a, b);
    }
  }

  lemma ZoneAgrees(api: Api, a: Memo, b: Memo)
    requires Stable(api) && Faithful(api, a)
    ensures ZoneStep(api, true, a).1 == ZoneStep(api, false, b).1 && Faithful(api, ZoneStep(api, true, a).0)
  {
  }

  lemma NodesAgree(api: Api, a: Memo, b: Memo)
    requires Stable(api) && Faithful(api, a)
    ensures NodesStep(api, true, a).1 == NodesStep(api, false, b).1 && Faithful(api, NodesStep(api, true, a).0)
  {
  }

  lemma MeteringAgrees(api: Api, a: Memo, b: Memo)
    requires Stable(api)
    ensures MeteringStep(api, a).1 == MeteringStep(api, b).1
    ensures MeteringStep(api, a).0.zone == a.zone && MeteringStep(api, a).0.nodes == a.nodes
  {
    var r := api.namespaces(a.calls);
    if r.Ok? {
      var a', b' := Call(a, NamespacesPath), Call(b, NamespacesPath);
      NamespacesAgree(api, a'.(listed := a'.listed + |r.value|), b'.(listed := b'.listed + |r.value|), r.value);
    }
  }

  /** Memoisation is invisible: against a server whose answers do not change, every collector gives
      what it would give fetching afresh each time. */
  lemma {:induction false} MemoisationIsInvisible(api: Api, dtStats: bool, names: seq<string>)
    requires Stable(api)
    ensures ProbeStep(api, dtStats, true, names).1 == ProbeStep(api, dtStats, false, names).1
    ensures Faithful(api, ProbeStep(api, dtStats, true, names).0)
  {
    if names != [] {
      var front := names[..|names| - 1];
      MemoisationIsInvisible(api, dtStats, front);
      CollectAgrees(api, dtStats, names[|names| - 1],
                    ProbeStep(api, dtStats, true, front).0, ProbeStep(api, dtStats, false, front).0);
    }
  }

  // ---------------------------------------------------------------- one value for all readers

  /** What a collector made of the zone and of the nodes, it made of the values the memo ends up
      holding. */
  ghost predicate ReadsMemo(api: Api, dtStats: bool, name: string, r: Result<seq<Metric>>, m: Memo) {
    && (name == "cluster" ==>
          && m.zone.Some?
          && if m.zone.value.Err? then r == Err(m.zone.value.error)
             else m.nodes.Some? && r == Ok(ClusterMetrics(m.zone.value.value, m.nodes.value)))
    && (name == "node" && dtStats ==>
          && m.nodes.Some?
          && if m.nodes.value.Err? then r == Err(m.nodes.value.error)
             else
               var nodes := m.nodes.value.value;
               r == Ok(NodeStats.NodeProgram(nodes, NodeAnswers(api, nodes))))
    && (name == "perf" && r.Ok? ==> m.zone.Some? && LabelledBy(r.value, Vdc(m.zone.value)))
  }

  lemma {:induction false} FlatMapLabelled(f: FluxDecode.FluxResult -> seq<Metric>, s: seq<FluxDecode.FluxResult>,
      vdc: string)
    requires forall x :: LabelledBy(f(x), vdc)
    ensures LabelledBy(FlatMap(f, s), vdc)
  {
    if s != [] {
      FlatMapLabelled(f, s[..|s| - 1], vdc);
      assert LabelledBy(f(s[|s| - 1]), vdc);
    }
  }

  lemma JobLabels(vdc: string, k: nat, answer: Perf.Answer)
    ensures LabelledBy(Perf.JobMetrics(vdc, k, answer), vdc)
  {
    if answer.Answered? {
      FlatMapLabelled(r => Perf.ThroughputMetric(vdc, r), answer.results, vdc);
      FlatMapLabelled(r => Perf.ErrorMetric(vdc, r), answer.results, vdc);
    }
  }

  lemma {:induction false} SequentialLabels(vdc: string, answers: seq<Perf.Answer>)
    ensures LabelledBy(Perf.Sequential(vdc, answers), vdc)
  {
    if answers != [] {
      SequentialLabels(vdc, answers[..|answers| - 1]);
      JobLabels(vdc, |answers| - 1, answers[|answers| - 1]);
    }
  }

  lemma CollectReadsMemo(api: Api, dtStats: bool, name: string, m: Memo)
    ensures var (m', r) := CollectStep(api, dtStats, true, name, m); ReadsMemo(api, dtStats, name, r, m')
  {
    if name == "cluster" {
      NodesCharged(api, ZoneStep(api, true, m).0);
    } else if name == "perf" {
      var (m1, zone) := ZoneStep(api, true, m);
      FluxCharged(api, m1, Perf.JOBS);
      SequentialLabels(Vdc(zone), FluxStep(api, m1, Perf.JOBS).1);
    }
  }

  /** Even if the server's answers change during the probe, every collector reads the one zone, or the
      one zone error, and the one node list, or its error, that were fetched. */
  lemma {:induction false} OneValueForAllReaders(api: Api, dtStats: bool, names: seq<string>, i: nat)
    requires i < |names|
    ensures var (m, results) := ProbeStep(api, dtStats, true, names);
            |results| == |names| && ReadsMemo(api, dtStats, names[i], results[i], m)
  {
    var front, last := names[..|names| - 1], names[|names| - 1];
    var (m, results) := ProbeStep(api, dtStats, true, front);
    ResultPerName(api, dtStats, front);
    CollectCharged(api, dtStats, last, m);
    if i < |front| {
      OneValueForAllReaders(api, dtStats, front, i);
    } else {
      CollectReadsMemo(api, dtStats, last, m);
    }
  }

  /** The labels: cluster, if it succeeds, and perf carry the vdc of the one zone that was fetched. */
  lemma OneVdcLabel(api: Api, dtStats: bool, names: seq<string>, i: nat)
    requires i < |names|
    ensures var (m, results) := ProbeStep(api, dtStats, true, names);
            && |results| == |names|
            && (names[i] == "cluster" && results[i].Ok? ==>
                  m.zone.Some? && m.zone.value.Ok? && LabelledBy(results[i].value, m.zone.value.value.name))
            && (names[i] == "perf" && results[i].Ok? ==>
                  && m.zone.Some?
                  && LabelledBy(results[i].value, if m.zone.value.Ok? then m.zone.value.value.name else "unknown"))
  {
    OneValueForAllReaders(api, dtStats, names, i);
    var m := ProbeStep(api, dtStats, true, names).0;
    if names[i] == "cluster" && m.zone.value.Ok? {
      ClusterLabels(m.zone.value.value, m.nodes.value, m.nodes.value);
    }
  }

  /** Even if the server's answers change during the probe, cluster and perf agree on the vdc label. */
  lemma ClusterAndPerfAgree(api: Api, dtStats: bool, names: seq<string>, i: nat, j: nat)
    requires i < |names| && j < |names| && names[i] == "cluster" && names[j] == "perf"
    ensures var results := ProbeStep(api, dtStats, true, names).1;
            && |results| == |names|
            && (results[i].Ok? && results[j].Ok? ==>
                  exists vdc :: LabelledBy(results[i].value, vdc) && LabelledBy(results[j].value, vdc))
  {
    OneVdcLabel(api, dtStats, names, i);
    OneVdcLabel(api, dtStats, names, j);
  }
}
