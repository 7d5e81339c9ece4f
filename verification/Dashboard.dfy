/**
 What the cluster and replication collectors make of the dashboard's answers.  Every reading is
 emitted on its own, best effort.
 */
module Dashboard {
  import opened Collections
  import opened AuthClient
  import opened Metrics
  import NodeStats

  /** A zone's readings; None is a field that is missing or no number. */
  datatype LocalZone = LocalZone(
    name: string,
    goodNodes: Option<real>, badNodes: Option<real>, goodDisks: Option<real>, badDisks: Option<real>,
    totalSpace: Option<real>, freeSpace: Option<real>,
    critical: Option<real>, error: Option<real>, info: Option<real>, warning: Option<real>)

  datatype ReplicationGroup = ReplicationGroup(
    name: string,
    ingress: Option<real>, egress: Option<real>,
    pendingRepo: Option<real>, pendingJournal: Option<real>, pendingXor: Option<real>,
    rpoMillis: Option<real>)

  /** One guarded append. */
  method Append(metrics: seq<Metric>, name: string, labels: seq<string>, value: Option<real>, scale: real)
    returns (longer: seq<Metric>)
    ensures longer == metrics + Gauge(name, labels, value, scale)
  {
    longer := metrics;
    if value.Some? {
      longer := longer + [Metric(name, labels, value.value * scale)];
    }
  }

  // ---------------------------------------------------------------- cluster

  function Product(version: string): string {
    if "3." <= version then "ecs" else if "4." <= version then "objectscale" else "unknown"
  }

  function Counts(z: LocalZone): seq<Metric> {
    Gauge("obs_cluster_nodes", [z.name, "good"], z.goodNodes, 1.0)
    + Gauge("obs_cluster_nodes", [z.name, "bad"], z.badNodes, 1.0)
    + Gauge("obs_cluster_disks", [z.name, "good"], z.goodDisks, 1.0)
    + Gauge("obs_cluster_disks", [z.name, "bad"], z.badDisks, 1.0)
  }

  function Capacity(z: LocalZone): seq<Metric> {
    Gauge("obs_cluster_capacity_total_bytes", [z.name], z.totalSpace, GB_TO_BYTES)
    + Gauge("obs_cluster_capacity_free_bytes", [z.name], z.freeSpace, GB_TO_BYTES)
  }

  function Alerts(z: LocalZone): seq<Metric> {
    Gauge("obs_cluster_alerts_unacknowledged", [z.name, "critical"], z.critical, 1.0)
    + Gauge("obs_cluster_alerts_unacknowledged", [z.name, "error"], z.error, 1.0)
    + Gauge("obs_cluster_alerts_unacknowledged", [z.name, "info"], z.info, 1.0)
    + Gauge("obs_cluster_alerts_unacknowledged", [z.name, "warning"], z.warning, 1.0)
  }

  /** The first node's version, if there is one. */
  function Version(nodes: Result<seq<NodeStats.Node>>): string {
    if nodes.Ok? && nodes.value != [] then nodes.value[0].version else "unknown"
  }

  function Info(z: LocalZone, nodes: Result<seq<NodeStats.Node>>): Metric {
    Metric("obs_cluster_info", [z.name, Version(nodes), Product(Version(nodes))], 1.0)
  }

  function ClusterMetrics(z: LocalZone, nodes: Result<seq<NodeStats.Node>>): seq<Metric> {
    Counts(z) + Capacity(z) + Alerts(z) + [Info(z, nodes)]
  }

  method EmitCounts(z: LocalZone) returns (metrics: seq<Metric>)
    ensures metrics == Counts(z)
  {
    metrics := Append([], "obs_cluster_nodes", [z.name, "good"], z.goodNodes, 1.0);
    metrics := Append(metrics, "obs_cluster_nodes", [z.name, "bad"], z.badNodes, 1.0);
    metrics := Append(metrics, "obs_cluster_disks", [z.name, "good"], z.goodDisks, 1.0);
    metrics := Append(metrics, "obs_cluster_disks", [z.name, "bad"], z.badDisks, 1.0);
  }

  method EmitAlerts(z: LocalZone) returns (metrics: seq<Metric>)
    ensures metrics == Alerts(z)
  {
    metrics := Append([], "obs_cluster_alerts_unacknowledged", [z.name, "critical"], z.critical, 1.0);
    metrics := Append(metrics, "obs_cluster_alerts_unacknowledged", [z.name, "error"], z.error, 1.0);
    metrics := Append(metrics, "obs_cluster_alerts_unacknowledged", [z.name, "info"], z.info, 1.0);
    metrics := Append(metrics, "obs_cluster_alerts_unacknowledged", [z.name, "warning"], z.warning, 1.0);
  }

  method EmitCluster(z: LocalZone, nodes: Result<seq<NodeStats.Node>>) returns (metrics: seq<Metric>)
    ensures metrics == ClusterMetrics(z, nodes)
  {
    var counts := EmitCounts(z);
    metrics := Append(counts, "obs_cluster_capacity_total_bytes", [z.name], z.totalSpace, GB_TO_BYTES);
    metrics := Append(metrics, "obs_cluster_capacity_free_bytes", [z.name], z.freeSpace, GB_TO_BYTES);
    assert metrics == Counts(z) + Capacity(z);
    var alerts := EmitAlerts(z);
    var version := "unknown";
    if nodes.Ok? && |nodes.value| > 0 {
      version := nodes.value[0].version;
    }
    metrics := metrics + alerts + [Metric("obs_cluster_info", [z.name, version, Product(version)], 1.0)];
  }

  /** Every gauge of the cluster collector carries the zone's name first; the last one is the info
      gauge with the version of the first node, and it is the only one that depends on the nodes. */
  lemma ClusterLabels(z: LocalZone, nodes: Result<seq<NodeStats.Node>>, others: Result<seq<NodeStats.Node>>)
    ensures LabelledBy(ClusterMetrics(z, nodes), z.name)
    ensures var metrics := ClusterMetrics(z, nodes);
            && metrics != [] && metrics[|metrics| - 1].labels[1..] == [Version(nodes), Product(Version(nodes))]
            && metrics[..|metrics| - 1] == ClusterMetrics(z, others)[..|metrics| - 1]
            && |metrics| == |ClusterMetrics(z, others)| <= 11
  {
    assert LabelledBy(Counts(z), z.name) && LabelledBy(Capacity(z), z.name) && LabelledBy(Alerts(z), z.name);
    var gauges := Counts(z) + Capacity(z) + Alerts(z);
    assert ClusterMetrics(z, nodes)[..|gauges|] == gauges == ClusterMetrics(z, others)[..|gauges|];
  }

  lemma CountGauges(z: LocalZone)
    ensures Shows(Counts(z), "obs_cluster_nodes", [z.name, "good"], z.goodNodes, 1.0)
    ensures Shows(Counts(z), "obs_cluster_nodes", [z.name, "bad"], z.badNodes, 1.0)
    ensures Shows(Counts(z), "obs_cluster_disks", [z.name, "good"], z.goodDisks, 1.0)
    ensures Shows(Counts(z), "obs_cluster_disks", [z.name, "bad"], z.badDisks, 1.0)
    ensures forall m :: m in Counts(z) ==> m.name == "obs_cluster_nodes" || m.name == "obs_cluster_disks"
  {
    assert [z.name, "good"][1] != [z.name, "bad"][1];
  }

  lemma CapacityGauges(z: LocalZone)
    ensures Shows(Capacity(z), "obs_cluster_capacity_total_bytes", [z.name], z.totalSpace, 1000000000.0)
    ensures Shows(Capacity(z), "obs_cluster_capacity_free_bytes", [z.name], z.freeSpace, 1000000000.0)
    ensures forall m :: m in Capacity(z) ==>
              m.name == "obs_cluster_capacity_total_bytes" || m.name == "obs_cluster_capacity_free_bytes"
  {
  }

  lemma AlertGauges(z: LocalZone)
    ensures Shows(Alerts(z), "obs_cluster_alerts_unacknowledged", [z.name, "critical"], z.critical, 1.0)
    ensures Shows(Alerts(z), "obs_cluster_alerts_unacknowledged", [z.name, "error"], z.error, 1.0)
    ensures Shows(Alerts(z), "obs_cluster_alerts_unacknowledged", [z.name, "info"], z.info, 1.0)
    ensures Shows(Alerts(z), "obs_cluster_alerts_unacknowledged", [z.name, "warning"], z.warning, 1.0)
    ensures forall m :: m in Alerts(z) ==> m.name == "obs_cluster_alerts_unacknowledged"
  {
    assert [z.name, "critical"][1] != [z.name, "error"][1];
    assert [z.name, "info"][1] != [z.name, "warning"][1];
    assert [z.name, "critical"][1] != [z.name, "info"][1] && [z.name, "error"][1] != [z.name, "info"][1];
    assert [z.name, "critical"][1] != [z.name, "warning"][1] && [z.name, "error"][1] != [z.name, "warning"][1];
  }

  lemma PartsTogether(z: LocalZone, nodes: Result<seq<NodeStats.Node>>)
    ensures forall m :: m in ClusterMetrics(z, nodes) <==>
              (m in Counts(z) || m in Capacity(z) || m in Alerts(z) || m == Info(z, nodes))
  {
  }

  lemma PartsByName(z: LocalZone, nodes: Result<seq<NodeStats.Node>>)
    ensures var metrics := ClusterMetrics(z, nodes);
            && AgreeOn(Counts(z), metrics, "obs_cluster_nodes") && AgreeOn(Counts(z), metrics, "obs_cluster_disks")
            && AgreeOn(Capacity(z), metrics, "obs_cluster_capacity_total_bytes")
            && AgreeOn(Capacity(z), metrics, "obs_cluster_capacity_free_bytes")
            && AgreeOn(Alerts(z), metrics, "obs_cluster_alerts_unacknowledged")
  {
    PartsTogether(z, nodes);
    CountGauges(z);
    CapacityGauges(z);
    AlertGauges(z);
  }

  /** Which reading stands behind each gauge of the cluster collector; capacities are gigabytes there
      and bytes here. */
  lemma ClusterGauges(z: LocalZone, nodes: Result<seq<NodeStats.Node>>)
    ensures var metrics := ClusterMetrics(z, nodes);
            && Shows(metrics, "obs_cluster_nodes", [z.name, "good"], z.goodNodes, 1.0)
            && Shows(metrics, "obs_cluster_nodes", [z.name, "bad"], z.badNodes, 1.0)
            && Shows(metrics, "obs_cluster_disks", [z.name, "good"], z.goodDisks, 1.0)
            && Shows(metrics, "obs_cluster_disks", [z.name, "bad"], z.badDisks, 1.0)
            && Shows(metrics, "obs_cluster_capacity_total_bytes", [z.name], z.totalSpace, 1000000000.0)
            && Shows(metrics, "obs_cluster_capacity_free_bytes", [z.name], z.freeSpace, 1000000000.0)
            && Shows(metrics, "obs_cluster_alerts_unacknowledged", [z.name, "critical"], z.critical, 1.0)
            && Shows(metrics, "obs_cluster_alerts_unacknowledged", [z.name, "error"], z.error, 1.0)
            && Shows(metrics, "obs_cluster_alerts_unacknowledged", [z.name, "info"], z.info, 1.0)
            && Shows(metrics, "obs_cluster_alerts_unacknowledged", [z.name, "warning"], z.warning, 1.0)
  {
    PartsByName(z, nodes);
    CountsShown(z, ClusterMetrics(z, nodes));
    CapacityShown(z, ClusterMetrics(z, nodes));
    AlertsShown(z, ClusterMetrics(z, nodes));
  }

  lemma CountsShown(z: LocalZone, metrics: seq<Metric>)
    requires AgreeOn(Counts(z), metrics, "obs_cluster_nodes") && AgreeOn(Counts(z), metrics, "obs_cluster_disks")
    ensures Shows(metrics, "obs_cluster_nodes", [z.name, "good"], z.goodNodes, 1.0)
    ensures Shows(metrics, "obs_cluster_nodes", [z.name, "bad"], z.badNodes, 1.0)
    ensures Shows(metrics, "obs_cluster_disks", [z.name, "good"], z.goodDisks, 1.0)
    ensures Shows(metrics, "obs_cluster_disks", [z.name, "bad"], z.badDisks, 1.0)
  {
    CountGauges(z);
    StillShows(Counts(z), metrics, "obs_cluster_nodes", [z.name, "good"], z.goodNodes, 1.0);
    StillShows(Counts(z), metrics, "obs_cluster_nodes", [z.name, "bad"], z.badNodes, 1.0);
    StillShows(Counts(z), metrics, "obs_cluster_disks", [z.name, "good"], z.goodDisks, 1.0);
    StillShows(Counts(z), metrics, "obs_cluster_disks", [z.name, "bad"], z.badDisks, 1.0);
  }

  lemma CapacityShown(z: LocalZone, metrics: seq<Metric>)
    requires AgreeOn(Capacity(z), metrics, "obs_cluster_capacity_total_bytes")
    requires AgreeOn(Capacity(z), metrics, "obs_cluster_capacity_free_bytes")
    ensures Shows(metrics, "obs_cluster_capacity_total_bytes", [z.name], z.totalSpace, 1000000000.0)
    ensures Shows(metrics, "obs_cluster_capacity_free_bytes", [z.name], z.freeSpace, 1000000000.0)
  {
    CapacityGauges(z);
    StillShows(Capacity(z), metrics, "obs_cluster_capacity_total_bytes", [z.name], z.totalSpace, 1000000000.0);
    StillShows(Capacity(z), metrics, "obs_cluster_capacity_free_bytes", [z.name], z.freeSpace, 1000000000.0);
  }

  lemma AlertsShown(z: LocalZone, metrics: seq<Metric>)
    requires AgreeOn(Alerts(z), metrics, "obs_cluster_alerts_unacknowledged")
    ensures Shows(metrics, "obs_cluster_alerts_unacknowledged", [z.name, "critical"], z.critical, 1.0)
    ensures Shows(metrics, "obs_cluster_alerts_unacknowledged", [z.name, "error"], z.error, 1.0)
    ensures Shows(metrics, "obs_cluster_alerts_unacknowledged", [z.name, "info"], z.info, 1.0)
    ensures Shows(metrics, "obs_cluster_alerts_unacknowledged", [z.name, "warning"], z.warning, 1.0)
  {
    AlertGauges(z);
    StillShows(Alerts(z), metrics, "obs_cluster_alerts_unacknowledged", [z.name, "critical"], z.critical, 1.0);
    StillShows(Alerts(z), metrics, "obs_cluster_alerts_unacknowledged", [z.name, "error"], z.error, 1.0);
    StillShows(Alerts(z), metrics, "obs_cluster_alerts_unacknowledged", [z.name, "info"], z.info, 1.0);
    StillShows(Alerts(z), metrics, "obs_cluster_alerts_unacknowledged", [z.name, "warning"], z.warning, 1.0);
  }

  /** The info gauge: the first node's version, or "unknown" without one, and the product it implies. */
  lemma InfoGauge(z: LocalZone, nodes: Result<seq<NodeStats.Node>>) returns (version: string, product: string)
    ensures Metric("obs_cluster_info", [z.name, version, product], 1.0) in ClusterMetrics(z, nodes)
    ensures version == if nodes.Ok? && |nodes.value| > 0 then nodes.value[0].version else "unknown"
    ensures product == "ecs" || product == "objectscale" || product == "unknown"
    ensures product == "ecs" <==> |version| >= 2 && version[0] == '3' && version[1] == '.'
    ensures product == "objectscale" <==> |version| >= 2 && version[0] == '4' && version[1] == '.'
  {
    version := Version(nodes);
    product := Product(version);
    PartsTogether(z, nodes);
    assert "3." <= version <==> |version| >= 2 && version[0] == '3' && version[1] == '.';
    assert "4." <= version <==> |version| >= 2 && version[0] == '4' && version[1] == '.';
  }

  // ---------------------------------------------------------------- replication

  /** The recovery point comes in epoch milliseconds. */
  function RecoveryPoint(g: ReplicationGroup): seq<Metric> {
    if g.rpoMillis.Some? then [Metric("obs_replication_rpo_timestamp_seconds", [g.name], g.rpoMillis.value / 1000.0)]
    else []
  }

  function Traffic(g: ReplicationGroup): seq<Metric> {
    Gauge("obs_replication_ingress_bytes_per_second", [g.name], g.ingress, 1.0)
    + Gauge("obs_replication_egress_bytes_per_second", [g.name], g.egress, 1.0)
  }

  function Pending(g: ReplicationGroup): seq<Metric> {
    Gauge("obs_replication_pending_repo_bytes", [g.name], g.pendingRepo, 1.0)
    + Gauge("obs_replication_pending_journal_bytes", [g.name], g.pendingJournal, 1.0)
    + Gauge("obs_replication_pending_xor_bytes", [g.name], g.pendingXor, 1.0)
  }

  function GroupMetrics(g: ReplicationGroup): seq<Metric> {
    Traffic(g) + Pending(g) + RecoveryPoint(g)
  }

  method EmitGroup(g: ReplicationGroup) returns (metrics: seq<Metric>)
    ensures metrics == GroupMetrics(g)
  {
    metrics := Append([], "obs_replication_ingress_bytes_per_second", [g.name], g.ingress, 1.0);
    metrics := Append(metrics, "obs_replication_egress_bytes_per_second", [g.name], g.egress, 1.0);
    assert metrics == Traffic(g);
    metrics := Append(metrics, "obs_replication_pending_repo_bytes", [g.name], g.pendingRepo, 1.0);
    metrics := Append(metrics, "obs_replication_pending_journal_bytes", [g.name], g.pendingJournal, 1.0);
    metrics := Append(metrics, "obs_replication_pending_xor_bytes", [g.name], g.pendingXor, 1.0);
    assert metrics == Traffic(g) + Pending(g);
    if g.rpoMillis.Some? {
      metrics := metrics + [Metric("obs_replication_rpo_timestamp_seconds", [g.name], g.rpoMillis.value / 1000.0)];
    }
  }

  method EmitReplication(groups: seq<ReplicationGroup>) returns (metrics: seq<Metric>)
    ensures metrics == FlatMap(GroupMetrics, groups)
  {
    metrics := [];
    for i := 0 to |groups|
      invariant metrics == FlatMap(GroupMetrics, groups[..i])
    {
      assert groups[..i + 1][..i] == groups[..i];
      var local := EmitGroup(groups[i]);
      metrics := metrics + local;
    }
    assert groups[..|groups|] == groups;
  }

  lemma GroupLabels(g: ReplicationGroup)
    ensures |GroupMetrics(g)| <= 6
    ensures forall m :: m in GroupMetrics(g) ==> m.labels == [g.name]
  {
  }

  lemma TrafficGauges(g: ReplicationGroup)
    ensures Shows(Traffic(g), "obs_replication_ingress_bytes_per_second", [g.name], g.ingress, 1.0)
    ensures Shows(Traffic(g), "obs_replication_egress_bytes_per_second", [g.name], g.egress, 1.0)
    ensures forall m :: m in Traffic(g) ==>
              || m.name == "obs_replication_ingress_bytes_per_second"
              || m.name == "obs_replication_egress_bytes_per_second"
  {
  }

  lemma PendingGauges(g: ReplicationGroup)
    ensures Shows(Pending(g), "obs_replication_pending_repo_bytes", [g.name], g.pendingRepo, 1.0)
    ensures Shows(Pending(g), "obs_replication_pending_journal_bytes", [g.name], g.pendingJournal, 1.0)
    ensures Shows(Pending(g), "obs_replication_pending_xor_bytes", [g.name], g.pendingXor, 1.0)
    ensures forall m :: m in Pending(g) ==>
              || m.name == "obs_replication_pending_repo_bytes"
              || m.name == "obs_replication_pending_journal_bytes"
              || m.name == "obs_replication_pending_xor_bytes"
  {
  }

  /** Which reading stands behind each gauge of a replication group; the recovery point is milliseconds
      there and seconds here. */
  lemma GroupGauges(g: ReplicationGroup)
    ensures var metrics := GroupMetrics(g);
            && Shows(metrics, "obs_replication_ingress_bytes_per_second", [g.name], g.ingress, 1.0)
            && Shows(metrics, "obs_replication_egress_bytes_per_second", [g.name], g.egress, 1.0)
            && Shows(metrics, "obs_replication_pending_repo_bytes", [g.name], g.pendingRepo, 1.0)
            && Shows(metrics, "obs_replication_pending_journal_bytes", [g.name], g.pendingJournal, 1.0)
            && Shows(metrics, "obs_replication_pending_xor_bytes", [g.name], g.pendingXor, 1.0)
            && Shows(metrics, "obs_replication_rpo_timestamp_seconds", [g.name], g.rpoMillis, 0.001)
  {
    GroupPartsByName(g);
    TrafficShown(g, GroupMetrics(g));
    PendingShown(g, GroupMetrics(g));
    var rpo := "obs_replication_rpo_timestamp_seconds";
    StillShows(RecoveryPoint(g), GroupMetrics(g), rpo, [g.name], g.rpoMillis, 0.001);
  }

  lemma TrafficShown(g: ReplicationGroup, metrics: seq<Metric>)
    requires AgreeOn(Traffic(g), metrics, "obs_replication_ingress_bytes_per_second")
    requires AgreeOn(Traffic(g), metrics, "obs_replication_egress_bytes_per_second")
    ensures Shows(metrics, "obs_replication_ingress_bytes_per_second", [g.name], g.ingress, 1.0)
    ensures Shows(metrics, "obs_replication_egress_bytes_per_second", [g.name], g.egress, 1.0)
  {
    TrafficGauges(g);
    StillShows(Traffic(g), metrics, "obs_replication_ingress_bytes_per_second", [g.name], g.ingress, 1.0);
    StillShows(Traffic(g), metrics, "obs_replication_egress_bytes_per_second", [g.name], g.egress, 1.0);
  }

  lemma PendingShown(g: ReplicationGroup, metrics: seq<Metric>)
    requires AgreeOn(Pending(g), metrics, "obs_replication_pending_repo_bytes")
    requires AgreeOn(Pending(g), metrics, "obs_replication_pending_journal_bytes")
    requires AgreeOn(Pending(g), metrics, "obs_replication_pending_xor_bytes")
    ensures Shows(metrics, "obs_replication_pending_repo_bytes", [g.name], g.pendingRepo, 1.0)
    ensures Shows(metrics, "obs_replication_pending_journal_bytes", [g.name], g.pendingJournal, 1.0)
    ensures Shows(metrics, "obs_replication_pending_xor_bytes", [g.name], g.pendingXor, 1.0)
  {
    PendingGauges(g);
    StillShows(Pending(g), metrics, "obs_replication_pending_repo_bytes", [g.name], g.pendingRepo, 1.0);
    StillShows(Pending(g), metrics, "obs_replication_pending_journal_bytes", [g.name], g.pendingJournal, 1.0);
    StillShows(Pending(g), metrics, "obs_replication_pending_xor_bytes", [g.name], g.pendingXor, 1.0);
  }

  lemma GroupPartsByName(g: ReplicationGroup)
    ensures var metrics := GroupMetrics(g);
            && AgreeOn(Traffic(g), metrics, "obs_replication_ingress_bytes_per_second")
            && AgreeOn(Traffic(g), metrics, "obs_replication_egress_bytes_per_second")
            && AgreeOn(Pending(g), metrics, "obs_replication_pending_repo_bytes")
            && AgreeOn(Pending(g), metrics, "obs_replication_pending_journal_bytes")
            && AgreeOn(Pending(g), metrics, "obs_replication_pending_xor_bytes")
            && AgreeOn(RecoveryPoint(g), metrics, "obs_replication_rpo_timestamp_seconds")
  {
    GroupPartsTogether(g);
    TrafficGauges(g);
    PendingGauges(g);
  }

  lemma GroupPartsTogether(g: ReplicationGroup)
    ensures forall m :: m in GroupMetrics(g) <==> (m in Traffic(g) || m in Pending(g) || m in RecoveryPoint(g))
  {
  }

  /** The groups' gauges stand in group order, at most six each, labelled with their own group and no
      other; what one group cannot read costs the others nothing. */
  lemma GroupsInOrder(groups: seq<ReplicationGroup>, i: nat)
    requires i < |groups|
    ensures FlatMap(GroupMetrics, groups) ==
            FlatMap(GroupMetrics, groups[..i]) + GroupMetrics(groups[i]) + FlatMap(GroupMetrics, groups[i + 1..])
    ensures |GroupMetrics(groups[i])| <= 6
    ensures forall m :: m in GroupMetrics(groups[i]) ==> m.labels == [groups[i].name]
  {
    FlatMapAround(GroupMetrics, groups, i);
    GroupLabels(groups[i]);
  }
}
