/** The expected cluster status of the product tests
    (tests/product/test_status.py): the per-host status records for a topology
    in its healthy, not-started, not-installed, single-node-up and node-down
    variants, their rendering into the lines `server status` prints, and the
    check that tells a transient report from a settled one.

    The cluster's lookups (the IP of each host, the internal master and slave
    names, the label of a stopped host, the connection-error text) are
    parameters. Each builder grows or rewrites its list of records in a loop,
    as the test helpers do. */
module Status {
  import opened Wrappers
  import opened Strings

  datatype Role = Coordinator | Worker
  datatype Running = Running | NotRunning

  /** One host's status: the dictionary with keys host, role, ip, is_running and,
      optionally, error_message. */
  datatype NodeStatus = NodeStatus(host: Host, role: Role, ip: string, isRunning: Running, errorMessage: Option<string>)

  /** A topology: the coordinator host and the worker hosts, in order. */
  datatype Topology = Topology(coordinator: Host, workers: seq<Host>)

  /** What the tests read from the cluster under test: `get_ip_address_dict()`,
      `internal_master` and `internal_slaves`. */
  datatype Cluster = Cluster(ips: map<Host, string>, internalMaster: Host, internalSlaves: seq<Host>)

  /** The error a failed `server status` run raises. */
  datatype PrestoError = PrestoError(message: string)

  const UnknownIp := "Unknown"
  const NoCoordinatorInfo := "\tNo information available: unable to query coordinator"
  const NotInstalledMessage := "\tPresto is not installed."
  /** The port `check_status` assumes when its caller gives none. */
  const DefaultPort: nat := 8080

  // The two substrings that mark a report as transient.
  const NotYetDiscovered := "the coordinator has not yet discovered this node"
  const RunningCoordinatorRoles := "Roles: coordinator): Running"
  const CoordinatorNotStarted := RunningCoordinatorRoles + "\n" + NoCoordinatorInfo

  /** The hosts of a report, coordinator first, then the workers in order. */
  function Hosts(t: Topology): (hs: seq<Host>)
    ensures |hs| == 1 + |t.workers| && hs[0] == t.coordinator
    ensures forall i :: 0 <= i < |t.workers| ==> hs[i + 1] == t.workers[i]
  {
    [t.coordinator] + t.workers
  }

  /** A host's role in a report: coordinator when it is the topology's coordinator. */
  function RoleOf(t: Topology, host: Host): Role {
    if host == t.coordinator then Coordinator else Worker
  }

  /** The topology `base_status` falls back to: the internal master and the
      first three internal slaves. */
  function DefaultTopology(c: Cluster): Topology
    requires |c.internalSlaves| >= 3
  {
    Topology(c.internalMaster, c.internalSlaves[..3])
  }

  /** The IP map has an entry for every host of the topology. */
  predicate KnowsIps(c: Cluster, t: Topology) {
    forall h :: h in Hosts(t) ==> h in c.ips
  }

  /** The cluster can build the default report. */
  predicate DefaultReady(c: Cluster) {
    |c.internalSlaves| >= 3 && KnowsIps(c, DefaultTopology(c))
  }

  /** The topology a report is built for: the given one, else the default. */
  function ReportTopology(c: Cluster, topology: Option<Topology>): Topology
    requires topology.Some? || |c.internalSlaves| >= 3
  {
    if topology.Some? then topology.value else DefaultTopology(c)
  }

  /** The healthy entry of a host: its role, its IP, running, no error. */
  function HealthyEntry(c: Cluster, t: Topology, host: Host): NodeStatus
    requires host in c.ips
  {
    NodeStatus(host, RoleOf(t, host), c.ips[host], Running, None)
  }

  /** The entry of a host whose status could not be learnt from the coordinator. */
  function UnqueriedEntry(t: Topology, host: Host, running: Running, message: string): NodeStatus {
    NodeStatus(host, RoleOf(t, host), UnknownIp, running, Some(message))
  }

  /** `base_status(topology)`: one healthy entry per host, coordinator first. */
  method BaseStatus(cluster: Cluster, topology: Option<Topology>) returns (statuses: seq<NodeStatus>)
    requires topology.Some? || |cluster.internalSlaves| >= 3
    requires KnowsIps(cluster, ReportTopology(cluster, topology))
    ensures var t := ReportTopology(cluster, topology);
            && |statuses| == 1 + |t.workers|
            && statuses[0].host == t.coordinator && statuses[0].role == Coordinator
            && (forall i :: 0 <= i < |t.workers| ==> statuses[i + 1].host == t.workers[i])
            && (forall i :: 0 <= i < |statuses| ==> statuses[i] == HealthyEntry(cluster, t, Hosts(t)[i]))
  {
    var t := ReportTopology(cluster, topology);
    statuses := [];
    var hostsInStatus := [t.coordinator] + t.workers;
    for i := 0 to |hostsInStatus|
      invariant |statuses| == i
      invariant forall j :: 0 <= j < i ==> statuses[j] == HealthyEntry(cluster, t, Hosts(t)[j])
    {
      var host := hostsInStatus[i];
      var role := if host == t.coordinator then Coordinator else Worker;
      var status := NodeStatus(host, role, cluster.ips[host], Running, None);
      statuses := statuses + [status];
    }
  }

  /** `not_started_status()`: every host of the default topology not running,
      IP unknown, and the coordinator could not be queried. */
  method NotStartedStatus(cluster: Cluster) returns (statuses: seq<NodeStatus>)
    requires DefaultReady(cluster)
    ensures var t := DefaultTopology(cluster);
            && |statuses| == |Hosts(t)|
            && forall i :: 0 <= i < |statuses| ==>
                 statuses[i] == UnqueriedEntry(t, Hosts(t)[i], NotRunning, NoCoordinatorInfo)
  {
    statuses := BaseStatus(cluster, None);
    ghost var base := statuses;
    for i := 0 to |statuses|
      invariant |statuses| == |base|
      invariant forall j :: 0 <= j < i ==>
                  statuses[j] == base[j].(ip := UnknownIp, isRunning := NotRunning, errorMessage := Some(NoCoordinatorInfo))
      invariant forall j :: i <= j < |statuses| ==> statuses[j] == base[j]
    {
      statuses := statuses[i := statuses[i].(ip := UnknownIp, isRunning := NotRunning, errorMessage := Some(NoCoordinatorInfo))];
    }
  }

  /** `not_installed_status()`: every host of the default topology not running,
      IP unknown, and Presto not installed. */
  method NotInstalledStatus(cluster: Cluster) returns (statuses: seq<NodeStatus>)
    requires DefaultReady(cluster)
    ensures var t := DefaultTopology(cluster);
            && |statuses| == |Hosts(t)|
            && forall i :: 0 <= i < |statuses| ==>
                 statuses[i] == UnqueriedEntry(t, Hosts(t)[i], NotRunning, NotInstalledMessage)
  {
    statuses := BaseStatus(cluster, None);
    ghost var base := statuses;
    for i := 0 to |statuses|
      invariant |statuses| == |base|
      invariant forall j :: 0 <= j < i ==>
                  statuses[j] == base[j].(ip := UnknownIp, isRunning := NotRunning, errorMessage := Some(NotInstalledMessage))
      invariant forall j :: i <= j < |statuses| ==> statuses[j] == base[j]
    {
      statuses := statuses[i := statuses[i].(ip := UnknownIp, isRunning := NotRunning, errorMessage := Some(NotInstalledMessage))];
    }
  }

  /** `single_node_up_status(node)`: the not-started report with only `node`
      marked running; every entry keeps the "unable to query coordinator" error
      and the unknown IP. */
  method SingleNodeUpStatus(cluster: Cluster, node: Host) returns (statuses: seq<NodeStatus>)
    requires DefaultReady(cluster)
    ensures var t := DefaultTopology(cluster);
            && |statuses| == |Hosts(t)|
            && forall i :: 0 <= i < |statuses| ==>
                 statuses[i] == UnqueriedEntry(t, Hosts(t)[i], if Hosts(t)[i] == node then Running else NotRunning,
                                               NoCoordinatorInfo)
  {
    statuses := NotStartedStatus(cluster);
    ghost var base := statuses;
    for i := 0 to |statuses|
      invariant |statuses| == |base|
      invariant forall j :: 0 <= j < i ==>
                  statuses[j] == if base[j].host == node then base[j].(isRunning := Running) else base[j]
      invariant forall j :: i <= j < |statuses| ==> statuses[j] == base[j]
    {
      if statuses[i].host == node {
        statuses := statuses[i := statuses[i].(isRunning := Running)];
      }
    }
  }

  /** `node_not_available_status(topology, node, coordinator_down)`: the entry of
      `node` is not running, shows `connectionError`, has an unknown IP and is
      relabelled `downHostname`; every other entry is healthy, or, when the
      coordinator is down, keeps running but shows the "unable to query
      coordinator" error and an unknown IP. */
  method NodeNotAvailableStatus(cluster: Cluster, topology: Topology, node: Host, coordinatorDown: bool,
                                connectionError: string, downHostname: Host)
    returns (statuses: seq<NodeStatus>)
    requires KnowsIps(cluster, topology)
    ensures |statuses| == |Hosts(topology)|
    ensures forall i :: 0 <= i < |statuses| ==>
              var h := Hosts(topology)[i];
              statuses[i] ==
                if h == node then NodeStatus(downHostname, RoleOf(topology, h), UnknownIp, NotRunning, Some(connectionError))
                else if coordinatorDown then UnqueriedEntry(topology, h, Running, NoCoordinatorInfo)
                else HealthyEntry(cluster, topology, h)
  {
    statuses := BaseStatus(cluster, Some(topology));
    ghost var base := statuses;
    for i := 0 to |statuses|
      invariant |statuses| == |base|
      invariant forall j :: 0 <= j < i ==>
                  statuses[j] ==
                    if base[j].host == node
                    then base[j].(isRunning := NotRunning, errorMessage := Some(connectionError), ip := UnknownIp,
                                  host := downHostname)
                    else if coordinatorDown then base[j].(errorMessage := Some(NoCoordinatorInfo), ip := UnknownIp)
                    else base[j]
      invariant forall j :: i <= j < |statuses| ==> statuses[j] == base[j]
    {
      var status := statuses[i];
      if status.host == node {
        status := status.(isRunning := NotRunning, errorMessage := Some(connectionError), ip := UnknownIp,
                          host := downHostname);
      } else if coordinatorDown {
        status := status.(errorMessage := Some(NoCoordinatorInfo), ip := UnknownIp);
      }
      statuses := statuses[i := status];
    }
  }

  function RoleName(r: Role): string {
    match r
    case Coordinator => "coordinator"
    case Worker => "worker"
  }

  function RunningName(r: Running): string {
    match r
    case Running => "Running"
    case NotRunning => "Not Running"
  }

  /** The end of a header line: the role and the running state. */
  function RolesField(role: Role, running: Running): string {
    "Roles: " + RoleName(role) + "): " + RunningName(running)
  }

  lemma RunningCoordinatorField()
    ensures RolesField(Coordinator, Running) == RunningCoordinatorRoles
  {
  }

  /** The header line of a host's block. */
  function Header(s: NodeStatus): string {
    "\t" + s.host + "(IP: " + s.ip + ", " + RolesField(s.role, s.isRunning)
  }

  /** The entry carries a non-empty error message. */
  predicate HasError(s: NodeStatus) {
    s.errorMessage.Some? && s.errorMessage.value != ""
  }

  /** The lines `server status` prints for one host: the header, then the error
      line if there is an error, else the four detail lines if the host runs,
      else nothing. */
  function StatusBlock(s: NodeStatus, port: nat, prestoVersion: string): seq<string> {
    ["Server Status:", Header(s)] +
    (if HasError(s) then [s.errorMessage.value]
     else if s.isRunning == Running then
       ["\tNode URI(http): http://" + s.ip + ":" + NatToString(port),
        "\tPresto Version: " + prestoVersion,
        "\tNode is active: True",
        "\tConnectors:     system, tpch"]
     else [])
  }

  /** The lines of consecutive blocks, one after the other. */
  function Flatten(blocks: seq<seq<string>>): seq<string> {
    if blocks == [] then [] else Flatten(blocks[..|blocks| - 1]) + blocks[|blocks| - 1]
  }

  lemma {:induction false} FlattenAppend(a: seq<seq<string>>, b: seq<seq<string>>)
    ensures Flatten(a + b) == Flatten(a) + Flatten(b)
    decreases |b|
  {
    if b == [] {
      assert a + b == a;
    } else {
      assert (a + b)[..|a + b| - 1] == a + b[..|b| - 1];
      FlattenAppend(a, b[..|b| - 1]);
    }
  }

  /** The block of each entry. */
  function Blocks(statuses: seq<NodeStatus>, port: nat, prestoVersion: string): (bs: seq<seq<string>>)
    ensures |bs| == |statuses|
  {
    seq(|statuses|, i requires 0 <= i < |statuses| => StatusBlock(statuses[i], port, prestoVersion))
  }

  /** The lines the output of a report must show: the blocks of its entries, in order. */
  function ExpectedOutput(statuses: seq<NodeStatus>, port: nat, prestoVersion: string): seq<string> {
    Flatten(Blocks(statuses, port, prestoVersion))
  }

  /** The output of a concatenation of reports is the concatenation of their outputs. */
  lemma ExpectedOutputAppend(a: seq<NodeStatus>, b: seq<NodeStatus>, port: nat, prestoVersion: string)
    ensures ExpectedOutput(a + b, port, prestoVersion) ==
              ExpectedOutput(a, port, prestoVersion) + ExpectedOutput(b, port, prestoVersion)
  {
    assert Blocks(a + b, port, prestoVersion) == Blocks(a, port, prestoVersion) + Blocks(b, port, prestoVersion);
    FlattenAppend(Blocks(a, port, prestoVersion), Blocks(b, port, prestoVersion));
  }

  /** The block of a host that has an error: the header and the error line. */
  lemma ErrorBlock(s: NodeStatus, port: nat, prestoVersion: string)
    requires HasError(s)
    ensures StatusBlock(s, port, prestoVersion) == ["Server Status:", Header(s), s.errorMessage.value]
  {
  }

  /** `check_status(cmd_output, statuses, port)`: the lines the output must
      show, host block after host block. */
  method CheckStatus(statuses: seq<NodeStatus>, port: nat, prestoVersion: string) returns (expectedOutput: seq<string>)
    ensures expectedOutput == ExpectedOutput(statuses, port, prestoVersion)
  {
    expectedOutput := [];
    for i := 0 to |statuses|
      invariant expectedOutput == ExpectedOutput(statuses[..i], port, prestoVersion)
    {
      var status := statuses[i];
      ghost var before := expectedOutput;
      expectedOutput := expectedOutput +
        ["Server Status:", Header(status)];
      if status.errorMessage.Some? && status.errorMessage.value != "" {
        expectedOutput := expectedOutput + [status.errorMessage.value];
      } else if status.isRunning == Running {
        expectedOutput := expectedOutput +
          ["\tNode URI(http): http://" + status.ip + ":" + NatToString(port),
           "\tPresto Version: " + prestoVersion,
           "\tNode is active: True",
           "\tConnectors:     system, tpch"];
      }
      assert expectedOutput == before + StatusBlock(status, port, prestoVersion);
      ghost var done := Blocks(statuses[..i + 1], port, prestoVersion);
      assert done[..i] == Blocks(statuses[..i], port, prestoVersion);
    }
    assert statuses[..|statuses|] == statuses;
  }

  /** `_get_status_until_coordinator_updated()` on the output of one
      `server status` run: the output is returned unchanged when it shows
      neither transient condition; otherwise PrestoError is raised. A node the
      coordinator has not yet discovered is checked first. */
  function GetStatusUntilCoordinatorUpdated(statusOutput: string): (r: Result<string, PrestoError>)
    ensures r.Success? <==> !Contains(statusOutput, NotYetDiscovered) && !Contains(statusOutput, CoordinatorNotStarted)
    ensures r.Success? ==> r.value == statusOutput
    ensures Contains(statusOutput, NotYetDiscovered) ==>
              r == Failure(PrestoError("Coordinator has not discovered all nodes yet: " + statusOutput))
    ensures !Contains(statusOutput, NotYetDiscovered) && Contains(statusOutput, CoordinatorNotStarted) ==>
              r == Failure(PrestoError("Coordinator not started up properly yet.\nOutput: " + statusOutput))
  {
    if Contains(statusOutput, NotYetDiscovered) then
      Failure(PrestoError("Coordinator has not discovered all nodes yet: " + statusOutput))
    else if Contains(statusOutput, CoordinatorNotStarted) then
      Failure(PrestoError("Coordinator not started up properly yet.\nOutput: " + statusOutput))
    else
      Success(statusOutput)
  }

  /** Header and error line of a running coordinator that could not be queried,
      joined, show the second transient text. */
  lemma TransientLines(header: string, lead: string)
    requires header == lead + RunningCoordinatorRoles
    ensures Contains(Join(["Server Status:", header, NoCoordinatorInfo], "\n"), CoordinatorNotStarted)
  {
    var b := ["Server Status:", header, NoCoordinatorInfo];
    assert b[1..][1..] == [NoCoordinatorInfo];
    assert Join(b[1..], "\n") == header + "\n" + NoCoordinatorInfo;
    assert Join(b, "\n") == ("Server Status:" + "\n" + lead) + CoordinatorNotStarted + "";
    ContainsMiddle("Server Status:" + "\n" + lead, CoordinatorNotStarted, "");
  }

  /** The block of a running coordinator with the "unable to query coordinator"
      error shows the second transient text, across its header and error lines. */
  lemma UnqueriedRunningCoordinatorBlock(s: NodeStatus, port: nat, prestoVersion: string)
    requires s.role == Coordinator && s.isRunning == Running
    requires s.errorMessage == Some(NoCoordinatorInfo)
    ensures Contains(Join(StatusBlock(s, port, prestoVersion), "\n"), CoordinatorNotStarted)
  {
    ErrorBlock(s, port, prestoVersion);
    RunningCoordinatorField();
    TransientLines(Header(s), "\t" + s.host + "(IP: " + s.ip + ", ");
  }

  /** The output of a report is the output before entry k, the block of entry k,
      and the output after it. */
  lemma ExpectedOutputSplit(statuses: seq<NodeStatus>, k: nat, port: nat, prestoVersion: string)
    requires k < |statuses|
    ensures ExpectedOutput(statuses, port, prestoVersion) ==
              ExpectedOutput(statuses[..k], port, prestoVersion) +
              StatusBlock(statuses[k], port, prestoVersion) +
              ExpectedOutput(statuses[k + 1..], port, prestoVersion)
  {
    var s := statuses[k];
    var before, after := statuses[..k], statuses[k + 1..];
    assert statuses == before + [s] + after;
    ExpectedOutputAppend(before + [s], after, port, prestoVersion);
    ExpectedOutputAppend(before, [s], port, prestoVersion);
    assert Blocks([s], port, prestoVersion) == [StatusBlock(s, port, prestoVersion)];
    assert Flatten([StatusBlock(s, port, prestoVersion)]) == StatusBlock(s, port, prestoVersion) by {
      assert [StatusBlock(s, port, prestoVersion)][..0] == [];
    }
  }

  /** A report in which a running coordinator has the "unable to query
      coordinator" error renders to output that the retry check treats as
      transient. */
  lemma UnqueriedRunningCoordinatorIsTransient(statuses: seq<NodeStatus>, k: nat, port: nat, prestoVersion: string)
    requires k < |statuses|
    requires statuses[k].role == Coordinator && statuses[k].isRunning == Running
    requires statuses[k].errorMessage == Some(NoCoordinatorInfo)
    ensures Contains(Join(ExpectedOutput(statuses, port, prestoVersion), "\n"), CoordinatorNotStarted)
    ensures GetStatusUntilCoordinatorUpdated(Join(ExpectedOutput(statuses, port, prestoVersion), "\n")).Failure?
  {
    var block := StatusBlock(statuses[k], port, prestoVersion);
    ExpectedOutputSplit(statuses, k, port, prestoVersion);
    JoinInfix(ExpectedOutput(statuses[..k], port, prestoVersion), block,
              ExpectedOutput(statuses[k + 1..], port, prestoVersion), "\n");
    UnqueriedRunningCoordinatorBlock(statuses[k], port, prestoVersion);
    ContainsTransitive(Join(ExpectedOutput(statuses, port, prestoVersion), "\n"), Join(block, "\n"),
                       CoordinatorNotStarted);
  }

  /** `server status` while only the coordinator runs, checked on the default
      port: the expected report is transient for the retry check, which is why
      that test does not retry. */
  method OnlyCoordinatorUpIsTransient(cluster: Cluster, prestoVersion: string)
    returns (r: Result<string, PrestoError>)
    requires DefaultReady(cluster)
    ensures r.Failure?
  {
    var statuses := SingleNodeUpStatus(cluster, cluster.internalMaster);
    var expectedOutput := CheckStatus(statuses, DefaultPort, prestoVersion);
    r := GetStatusUntilCoordinatorUpdated(Join(expectedOutput, "\n"));
    UnqueriedRunningCoordinatorIsTransient(statuses, 0, DefaultPort, prestoVersion);
  }
}
