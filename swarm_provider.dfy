/**
 * The swarm backend: one single-replica service per server node, placed in
 * the zone of the node's first service role. What is modelled is what the
 * backend decides: the zone, the service name, the published port, the image
 * and its build, the registry of started services, and the bounded retry of
 * the REST address. Engine answers (listed containers, present images, the
 * container a service starts, address lookups, the number of clients) are
 * inputs. The source starts each service from its own goroutine; the model
 * starts them one after another in the order the source spawns them.
 */
module SwarmBackend {
  import opened Wrappers
  import opened Text
  import opened Topology
  import opened BuildArgs
  import opened DockerBackend

  const ClientZone := "client"
  const ZoneConstraintPrefix := "node.labels.zone == "
  const RestRetries := 5
  /** Published ports are 32-bit unsigned in the engine's API. */
  const PortSpace := 0x1_0000_0000

  // ---------------------------------------------------------------- per-node rules

  /** The zone of a node: the first of its service roles, or "client" when the
      swarm has exactly one client. A node without roles stops the call, even
      on a single-client swarm, since the role is read first. */
  function Zone(node: Node, numClients: int): (r: Result<string, ProvisionError>)
    ensures r.Failure? <==> node.name !in node.group.nodeServices || |node.group.nodeServices[node.name]| == 0
    ensures r.Failure? ==> r.error == NoServiceRoles(node.name)
    ensures r.Success? && numClients != 1 ==> r.value == node.group.nodeServices[node.name][0]
    ensures r.Success? && numClients == 1 ==> r.value == ClientZone
  {
    var services := if node.name in node.group.nodeServices then node.group.nodeServices[node.name] else [];
    if |services| == 0 then Failure(NoServiceRoles(node.name))
    else Success(if numClients == 1 then ClientZone else services[0])
  }

  /** The service name of a node: its name with every '.' turned into '-'. */
  function ServiceName(name: string): string
  {
    ReplaceChar(name, '.', '-')
  }

  /** A service name has no '.', is as long as the node name, keeps every
      other character, and is its own service name. */
  lemma ServiceNameSanitised(name: string)
    ensures '.' !in ServiceName(name)
    ensures |ServiceName(name)| == |name|
    ensures forall k :: 0 <= k < |name| && name[k] != '.' ==> ServiceName(name)[k] == name[k]
    ensures forall k :: 0 <= k < |name| && name[k] == '.' ==> ServiceName(name)[k] == '-'
    ensures ServiceName(ServiceName(name)) == ServiceName(name)
    ensures '.' !in name ==> ServiceName(name) == name
  {
    ReplaceCharRemoves(name, '.', '-');
    var s := ServiceName(name);
    assert ServiceName(s) == s;
    if '.' !in name {
      assert forall k :: 0 <= k < |name| ==> s[k] == name[k];
    }
  }

  /** The placement constraint that pins a service to a zone. */
  function ZoneConstraint(zone: string): string
  {
    ZoneConstraintPrefix + zone
  }

  /** The zone can be read back from its constraint, so distinct zones give
      distinct constraints. */
  lemma ZoneConstraintRoundTrip(zone: string, other: string)
    ensures HasPrefix(ZoneConstraint(zone), ZoneConstraintPrefix)
    ensures ZoneConstraint(zone)[|ZoneConstraintPrefix|..] == zone
    ensures ZoneConstraint(zone) == ZoneConstraint(other) ==> zone == other
  {
    assert ZoneConstraint(zone)[|ZoneConstraintPrefix|..] == zone;
    assert ZoneConstraint(other)[|ZoneConstraintPrefix|..] == other;
  }

  /** A published port of a service: the port inside the container and the
      port on the swarm's routing mesh. */
  datatype PortConfig = PortConfig(targetPort: nat, publishedPort: nat)

  /** The single port entry of a server service: the REST port published on
      `port` (cut to 32 bits) when ports are exposed, an empty entry otherwise. */
  function EndpointPorts(port: int, expose: bool): (ports: seq<PortConfig>)
    ensures |ports| == 1
    ensures expose ==> ports[0].targetPort == RestPort && ports[0].publishedPort < PortSpace
    ensures !expose ==> ports[0] == PortConfig(0, 0)
  {
    if expose then [PortConfig(RestPort, port % PortSpace)] else [PortConfig(0, 0)]
  }

  /** A port that fits in 32 bits is published as it is; one that does not
      wraps around. */
  lemma EndpointPortsPublish(port: int)
    ensures 0 <= port < PortSpace ==> EndpointPorts(port, true)[0].publishedPort == port
    ensures EndpointPorts(port + PortSpace, true) == EndpointPorts(port, true)
  {
  }

  // ---------------------------------------------------------------- the launch plan

  /** What the backend asks of the engine for one server node: the node, the
      service, its image, its placement, its ports, and the build of the image
      when the engine lacks it. */
  datatype ServiceLaunch = ServiceLaunch(
    node: string,
    serviceName: string,
    image: string,
    constraints: seq<string>,
    ports: seq<PortConfig>,
    build: Option<ImageBuild>)

  /** The launch of node `name` in `zone` at position `g` of a call, when
      `start` couchbase containers existed before: port `8091 + start + g`,
      and only the first node builds a missing image. */
  function ServiceAt(opts: DockerProviderOpts, name: string, zone: string, g: nat, start: nat, expose: bool,
                     present: set<string>): ServiceLaunch
  {
    var img := ServerImageName(opts);
    ServiceLaunch(name, ServiceName(name), img, [ZoneConstraint(zone)], EndpointPorts(RestPort + start + g, expose),
      if g == 0 && img !in present then ServerBuild(opts) else None)
  }

  /** The launches made so far and how the call stands. */
  datatype Run = Run(launches: seq<ServiceLaunch>, outcome: Outcome<ProvisionError>)

  /** One more node: nothing happens after a failure; a node without a zone
      stops the call; the first node stops it when the image is missing and
      cannot be built; otherwise the node is launched. */
  function SwarmStep(opts: DockerProviderOpts, before: Run, node: Node, g: nat, start: nat, expose: bool,
                     present: set<string>, numClients: int): Run
  {
    if before.outcome.Fail? then before
    else
      match Zone(node, numClients)
      case Failure(e) => Run(before.launches, Fail(e))
      case Success(zone) =>
        if g == 0 && ServerImageName(opts) !in present && '-' !in opts.build then
          Run(before.launches, Fail(MalformedVersion(opts.build)))
        else
          Run(before.launches + [ServiceAt(opts, node.name, zone, g, start, expose, present)], Pass)
  }

  /** The run of a whole call over `nodes`, in order. */
  function SwarmRun(opts: DockerProviderOpts, nodes: seq<Node>, start: nat, expose: bool, present: set<string>,
                    numClients: int): (run: Run)
    ensures |run.launches| <= |nodes|
    decreases |nodes|
  {
    if |nodes| == 0 then Run([], Pass)
    else
      var g := |nodes| - 1;
      SwarmStep(opts, SwarmRun(opts, nodes[..g], start, expose, present, numClients), nodes[g], g, start, expose,
                present, numClients)
  }

  lemma SwarmRunSnoc(opts: DockerProviderOpts, placed: seq<Node>, node: Node, start: nat, expose: bool,
                     present: set<string>, numClients: int)
    ensures SwarmRun(opts, placed + [node], start, expose, present, numClients) ==
      SwarmStep(opts, SwarmRun(opts, placed, start, expose, present, numClients), node, |placed|, start, expose,
                present, numClients)
  {
    assert (placed + [node])[..|placed|] == placed;
  }

  /** Every node has a zone. */
  predicate Zoned(nodes: seq<Node>, numClients: int)
    decreases |nodes|
  {
    |nodes| == 0 || (Zoned(nodes[..|nodes| - 1], numClients) && Zone(nodes[|nodes| - 1], numClients).Success?)
  }

  lemma {:induction false} ZonedEvery(nodes: seq<Node>, numClients: int)
    ensures Zoned(nodes, numClients) <==> forall k :: 0 <= k < |nodes| ==> Zone(nodes[k], numClients).Success?
    decreases |nodes|
  {
    if |nodes| > 0 {
      var init := nodes[..|nodes| - 1];
      ZonedEvery(init, numClients);
      assert forall k :: 0 <= k < |init| ==> init[k] == nodes[k];
    }
  }

  /** A call succeeds exactly when every node has a zone and, if there is a
      node, its image is present or can be built; then every node is launched. */
  lemma {:induction false} SwarmRunPasses(opts: DockerProviderOpts, nodes: seq<Node>, start: nat, expose: bool,
                                          present: set<string>, numClients: int)
    ensures SwarmRun(opts, nodes, start, expose, present, numClients).outcome.Pass? <==>
      Zoned(nodes, numClients) && !(|nodes| > 0 && ServerImageName(opts) !in present && '-' !in opts.build)
    decreases |nodes|
  {
    if |nodes| > 0 {
      SwarmRunPasses(opts, nodes[..|nodes| - 1], start, expose, present, numClients);
    }
  }

  /** A successful call launches every node. */
  lemma {:induction false} SwarmRunLength(opts: DockerProviderOpts, nodes: seq<Node>, start: nat, expose: bool,
                                          present: set<string>, numClients: int)
    ensures SwarmRun(opts, nodes, start, expose, present, numClients).outcome.Pass? ==>
      |SwarmRun(opts, nodes, start, expose, present, numClients).launches| == |nodes|
    decreases |nodes|
  {
    if |nodes| > 0 {
      SwarmRunLength(opts, nodes[..|nodes| - 1], start, expose, present, numClients);
    }
  }

  /** In a successful call the k-th launch is node k's service in its zone,
      with port `8091 + start + k`. */
  lemma {:induction false} SwarmRunAt(opts: DockerProviderOpts, nodes: seq<Node>, start: nat, expose: bool,
                                      present: set<string>, numClients: int, k: nat)
    requires SwarmRun(opts, nodes, start, expose, present, numClients).outcome.Pass?
    requires k < |nodes|
    ensures k < |SwarmRun(opts, nodes, start, expose, present, numClients).launches|
    ensures Zone(nodes[k], numClients).Success?
    ensures SwarmRun(opts, nodes, start, expose, present, numClients).launches[k] ==
      ServiceAt(opts, nodes[k].name, Zone(nodes[k], numClients).value, k, start, expose, present)
    decreases |nodes|
  {
    var g := |nodes| - 1;
    var init := nodes[..g];
    var before := SwarmRun(opts, init, start, expose, present, numClients);
    assert SwarmRun(opts, nodes, start, expose, present, numClients) ==
      SwarmStep(opts, before, nodes[g], g, start, expose, present, numClients);
    assert before.outcome.Pass? && Zone(nodes[g], numClients).Success?;
    assert SwarmRun(opts, nodes, start, expose, present, numClients).launches ==
      before.launches + [ServiceAt(opts, nodes[g].name, Zone(nodes[g], numClients).value, g, start, expose, present)];
    SwarmRunLength(opts, init, start, expose, present, numClients);
    if k < g {
      SwarmRunAt(opts, init, start, expose, present, numClients, k);
      assert init[k] == nodes[k];
    }
  }

  /** A failed call stops at its first failing node: the launches made are
      those of a successful call over the nodes before it, and the error is
      that node's missing zone or, for the first node, the unbuildable image. */
  lemma {:induction false} SwarmRunFails(opts: DockerProviderOpts, nodes: seq<Node>, start: nat, expose: bool,
                                         present: set<string>, numClients: int)
    requires SwarmRun(opts, nodes, start, expose, present, numClients).outcome.Fail?
    ensures var run := SwarmRun(opts, nodes, start, expose, present, numClients);
      var n := |run.launches|;
      && n < |nodes|
      && SwarmRun(opts, nodes[..n], start, expose, present, numClients) == Run(run.launches, Pass)
      && (if Zone(nodes[n], numClients).Failure? then run.outcome.error == Zone(nodes[n], numClients).error
          else n == 0 && run.outcome.error == MalformedVersion(opts.build))
    decreases |nodes|
  {
    var g := |nodes| - 1;
    var init := nodes[..g];
    var before := SwarmRun(opts, init, start, expose, present, numClients);
    if before.outcome.Fail? {
      SwarmRunFails(opts, init, start, expose, present, numClients);
      var n := |before.launches|;
      assert init[..n] == nodes[..n];
      assert init[n] == nodes[n];
    } else {
      SwarmRunLength(opts, init, start, expose, present, numClients);
      assert nodes[..g] == init;
    }
  }

  /** Nothing is launched after a failure. */
  lemma {:induction false} SwarmRunStops(opts: DockerProviderOpts, nodes: seq<Node>, n: nat, start: nat, expose: bool,
                                         present: set<string>, numClients: int)
    requires n <= |nodes|
    requires SwarmRun(opts, nodes[..n], start, expose, present, numClients).outcome.Fail?
    ensures SwarmRun(opts, nodes, start, expose, present, numClients) ==
      SwarmRun(opts, nodes[..n], start, expose, present, numClients)
    decreases |nodes|
  {
    if n < |nodes| {
      var g := |nodes| - 1;
      assert nodes[..g][..n] == nodes[..n];
      SwarmRunStops(opts, nodes[..g], n, start, expose, present, numClients);
    } else {
      assert nodes[..n] == nodes;
    }
  }

  /** Nothing is launched after a failure among the first `n` nodes of `group`
      that follow `done`. */
  lemma SwarmRunStopsIn(opts: DockerProviderOpts, done: seq<Node>, group: seq<Node>, n: nat, start: nat,
                        expose: bool, present: set<string>, numClients: int)
    requires n <= |group|
    requires SwarmRun(opts, done + group[..n], start, expose, present, numClients).outcome.Fail?
    ensures SwarmRun(opts, done + group, start, expose, present, numClients) ==
      SwarmRun(opts, done + group[..n], start, expose, present, numClients)
  {
    PrefixTake(done, group, n);
    SwarmRunStops(opts, done + group, |done| + n, start, expose, present, numClients);
  }

  // ---------------------------------------------------------------- the service registry

  /** The registry after the launches, in order: each node is recorded under
      its own name with the id of the container its service starts. */
  function Recorded(reg: map<string, string>, launches: seq<ServiceLaunch>, runService: string -> string)
    : map<string, string>
    decreases |launches|
  {
    if |launches| == 0 then reg
    else
      var l := launches[|launches| - 1];
      Recorded(reg, launches[..|launches| - 1], runService)[l.node := runService(l.serviceName)]
  }

  lemma RecordedSnoc(reg: map<string, string>, launches: seq<ServiceLaunch>, l: ServiceLaunch,
                     runService: string -> string)
    ensures Recorded(reg, launches + [l], runService) == Recorded(reg, launches, runService)[l.node := runService(l.serviceName)]
  {
    assert (launches + [l])[..|launches|] == launches;
  }

  /** The registry holds the entries it had and one per launched node, and the
      last launch of a node gives its id. */
  lemma {:induction false} RecordedEntries(reg: map<string, string>, launches: seq<ServiceLaunch>,
                                           runService: string -> string, x: string)
    ensures x in Recorded(reg, launches, runService) <==> x in reg || exists l :: l in launches && l.node == x
    ensures |launches| > 0 && launches[|launches| - 1].node == x ==>
      Recorded(reg, launches, runService)[x] == runService(launches[|launches| - 1].serviceName)
    ensures (forall l :: l in launches ==> l.node != x) && x in reg ==> Recorded(reg, launches, runService)[x] == reg[x]
    decreases |launches|
  {
    if |launches| > 0 {
      var init := launches[..|launches| - 1];
      var last := launches[|launches| - 1];
      RecordedEntries(reg, init, runService, x);
      assert launches == init + [last];
      assert forall l :: l in launches <==> l in init || l == last;
    }
  }

  /** Launches of distinct nodes, none already registered, add one entry each. */
  lemma {:induction false} RecordedSize(reg: map<string, string>, launches: seq<ServiceLaunch>,
                                        runService: string -> string)
    requires forall i, j :: 0 <= i < j < |launches| ==> launches[i].node != launches[j].node
    requires forall l :: l in launches ==> l.node !in reg
    ensures |Recorded(reg, launches, runService)| == |reg| + |launches|
    decreases |launches|
  {
    if |launches| > 0 {
      var init := launches[..|launches| - 1];
      var last := launches[|launches| - 1];
      RecordedSize(reg, init, runService);
      RecordedEntries(reg, init, runService, last.node);
      assert forall l :: l in init ==> l.node != last.node;
    }
  }

  /** The wait at the end of a call compares the size of the whole registry
      with the number of nodes of this call. After a successful call over
      nodes with distinct names, none registered before, the registry has
      grown by exactly that many entries, so it has that size exactly when it
      was empty before the call. */
  lemma SwarmRunRegisters(opts: DockerProviderOpts, nodes: seq<Node>, start: nat, expose: bool,
                          present: set<string>, numClients: int, reg: map<string, string>,
                          runService: string -> string)
    requires SwarmRun(opts, nodes, start, expose, present, numClients).outcome.Pass?
    requires forall i, j :: 0 <= i < j < |nodes| ==> nodes[i].name != nodes[j].name
    requires forall k :: 0 <= k < |nodes| ==> nodes[k].name !in reg
    ensures |Recorded(reg, SwarmRun(opts, nodes, start, expose, present, numClients).launches, runService)| ==
      |reg| + |nodes|
    ensures (|Recorded(reg, SwarmRun(opts, nodes, start, expose, present, numClients).launches, runService)| ==
             |nodes|) <==> |reg| == 0
  {
    var launches := SwarmRun(opts, nodes, start, expose, present, numClients).launches;
    SwarmRunLength(opts, nodes, start, expose, present, numClients);
    forall k | 0 <= k < |nodes|
      ensures launches[k].node == nodes[k].name
    {
      SwarmRunAt(opts, nodes, start, expose, present, numClients, k);
    }
    RecordedSize(reg, launches, runService);
  }

  // ---------------------------------------------------------------- the swarm lookups

  /** The filter the address lookup uses for a node it has no id for, as
      written: the key "id" and the id just looked up, which is empty. */
  function HostLookupAsWritten(reg: map<string, string>, name: string): (f: Option<ListFilter>)
    ensures f.None? <==> name in reg
  {
    var id := if name in reg then reg[name] else "";
    if name in reg then None else Some(ListFilter("id", id))
  }

  /** As written, two different unknown nodes get the same filter, which
      names neither of them. */
  lemma HostLookupAsWrittenIgnoresName()
    ensures HostLookupAsWritten(map[], "cb1") == HostLookupAsWritten(map[], "cb2") == Some(ListFilter("id", ""))
  {
  }

  /** The filter for a node with no known id, as the Docker backend writes it:
      the key "name" and the node's name. */
  function HostLookup(reg: map<string, string>, name: string): (f: Option<ListFilter>)
    ensures f.None? <==> name in reg
  {
    if name in reg then None else Some(ListFilter("name", name))
  }

  /** The corrected filter names the node, so different nodes get different filters. */
  lemma HostLookupNamesNode(reg: map<string, string>, a: string, b: string)
    requires a !in reg && b !in reg
    ensures HostLookup(reg, a).value.value == a
    ensures HostLookup(reg, a) == HostLookup(reg, b) ==> a == b
  {
  }

  /** The swarm backend: the Docker backend's state, with services placed by zone. */
  class SwarmProvider {
    var servers: seq<ServerSpec>
    var syncGateways: seq<SyncGatewaySpec>
    var activeContainers: map<string, string>
    var startPort: int
    var opts: Option<DockerProviderOpts>
    var exposePorts: bool
    var useNetwork: bool

    constructor (servers: seq<ServerSpec>, syncGateways: seq<SyncGatewaySpec>, startPort: int, exposePorts: bool,
                 useNetwork: bool)
      ensures this.servers == servers && this.syncGateways == syncGateways && this.startPort == startPort
      ensures this.exposePorts == exposePorts && this.useNetwork == useNetwork
      ensures activeContainers == map[] && opts == None
    {
      this.servers := servers;
      this.syncGateways := syncGateways;
      this.startPort := startPort;
      this.exposePorts := exposePorts;
      this.useNetwork := useNetwork;
      activeContainers := map[];
      opts := None;
    }

    /** The state after launching the nodes `placed` of a call: the next port
        index, the run so far, the registry, and the images the engine holds. */
    ghost predicate SwarmLaunched(providerOpts: DockerProviderOpts, placed: seq<Node>, start: nat,
                                  present: set<string>, numClients: int, reg0: map<string, string>,
                                  runService: string -> string, i: nat, images: set<string>,
                                  launches: seq<ServiceLaunch>, active: map<string, string>)
      reads this
    {
      && i == start + |placed|
      && SwarmRun(providerOpts, placed, start, exposePorts, present, numClients) == Run(launches, Pass)
      && active == Recorded(reg0, launches, runService)
      && images == (if |placed| == 0 then present else present + {ServerImageName(providerOpts)})
    }

    /** The zone of node `name` of group `server`, read as the provisioning
        loop reads it before starting the node's service. */
    method NodeZone(server: ServerSpec, name: string, numClients: int) returns (zone: Result<string, ProvisionError>)
      ensures zone == Zone(Node(server, name), numClients)
    {
      var services := if name in server.nodeServices then server.nodeServices[name] else [];
      if |services| == 0 {
        return Failure(NoServiceRoles(name));
      }
      var z := services[0];
      if numClients == 1 {
        z := ClientZone; // a single-client swarm places every node on that client
      }
      return Success(z);
    }

    /** Starts the service of node `serverName` in `zone`, its REST port
        published on `portOffset`: builds the image when the engine, holding
        `images0`, lacks it, which fails when the build text has no build
        number, then records the container the service starts. */
    method ProvideCouchbaseServer(providerOpts: DockerProviderOpts, serverName: string, portOffset: int, zone: string,
                                  images0: set<string>, runService: string -> string, ghost g: nat,
                                  ghost start: nat, ghost present: set<string>)
      returns (images: set<string>, launch: ServiceLaunch, r: Outcome<ProvisionError>)
      modifies this`activeContainers
      requires portOffset == RestPort + start + g
      requires ServerImageName(providerOpts) !in images0 <==> g == 0 && ServerImageName(providerOpts) !in present
      ensures r.Fail? <==> g == 0 && ServerImageName(providerOpts) !in present && '-' !in providerOpts.build
      ensures r.Fail? ==> r.error == MalformedVersion(providerOpts.build)
      ensures r.Fail? ==> images == images0 && activeContainers == old(activeContainers)
      ensures r.Pass? ==> launch == ServiceAt(providerOpts, serverName, zone, g, start, exposePorts, present)
      ensures r.Pass? ==> images == images0 + {ServerImageName(providerOpts)}
      ensures r.Pass? ==> activeContainers == old(activeContainers)[serverName := runService(launch.serviceName)]
    {
      images := images0;
      var portConfig := EndpointPorts(portOffset, exposePorts);
      var osPath := OsDir(providerOpts.os);
      var imgName := ServerImageName(providerOpts);
      var buildReq: Option<ImageBuild> := None;
      if imgName !in images {
        var buildArgs := BuildArgsForVersion(providerOpts);
        BuildArgListShape(providerOpts);
        if buildArgs.Failure? {
          return images0, ServiceLaunch(serverName, "", imgName, [], portConfig, None), Fail(buildArgs.error);
        }
        buildReq := Some(ImageBuild(imgName, "containers/couchbase/" + osPath + "/", buildArgs.value));
        images := images + {imgName};
      }
      var serviceName := ReplaceChar(serverName, '.', '-');
      launch := ServiceLaunch(serverName, serviceName, imgName, [ZoneConstraintPrefix + zone], portConfig, buildReq);
      var containerId := runService(serviceName);
      activeContainers := activeContainers[serverName := containerId];
      r := Pass;
    }

    /** Launches node `name` of group `server` after the nodes `placed`: reads
        its zone, then starts its service on the next port. */
    method LaunchNode(providerOpts: DockerProviderOpts, server: ServerSpec, name: string, i0: nat,
                      images0: set<string>, launches0: seq<ServiceLaunch>, numClients: int,
                      runService: string -> string, ghost start: nat, ghost present: set<string>,
                      ghost placed: seq<Node>, ghost next: seq<Node>, ghost reg0: map<string, string>)
      returns (i: nat, images: set<string>, launches: seq<ServiceLaunch>, r: Outcome<ProvisionError>)
      modifies this`activeContainers
      requires next == placed + [Node(server, name)]
      requires SwarmLaunched(providerOpts, placed, start, present, numClients, reg0, runService, i0, images0,
                             launches0, activeContainers)
      ensures r.Fail? ==>
        && SwarmRun(providerOpts, next, start, exposePorts, present, numClients) == Run(launches, r)
        && activeContainers == Recorded(reg0, launches, runService)
      ensures r.Pass? ==> SwarmLaunched(providerOpts, next, start, present, numClients, reg0,
                                        runService, i, images, launches, activeContainers)
    {
      SwarmRunSnoc(providerOpts, placed, Node(server, name), start, exposePorts, present, numClients);
      var zone := NodeZone(server, name, numClients);
      if zone.Failure? {
        return i0, images0, launches0, Fail(zone.error);
      }
      var launch;
      images, launch, r :=
        ProvideCouchbaseServer(providerOpts, name, RestPort + i0, zone.value, images0, runService, |placed|, start,
                               present);
      if r.Fail? {
        return i0, images0, launches0, r;
      }
      launches := launches0 + [launch];
      RecordedSnoc(reg0, launches0, launch, runService);
      i := i0 + 1;
    }

    /** Launches the nodes `names` of group `server` (the nodes `group`), after
        the nodes `done` of the earlier groups. */
    method LaunchGroup(providerOpts: DockerProviderOpts, server: ServerSpec, names: seq<string>, i0: nat,
                       images0: set<string>, launches0: seq<ServiceLaunch>, numClients: int,
                       runService: string -> string, ghost start: nat, ghost present: set<string>,
                       ghost done: seq<Node>, ghost group: seq<Node>, ghost reg0: map<string, string>)
      returns (i: nat, images: set<string>, launches: seq<ServiceLaunch>, r: Outcome<ProvisionError>)
      modifies this`activeContainers
      requires |group| == |names| && forall k :: 0 <= k < |names| ==> group[k] == Node(server, names[k])
      requires SwarmLaunched(providerOpts, done, start, present, numClients, reg0, runService, i0, images0,
                             launches0, activeContainers)
      ensures r.Fail? ==>
        && SwarmRun(providerOpts, done + group, start, exposePorts, present, numClients) == Run(launches, r)
        && activeContainers == Recorded(reg0, launches, runService)
      ensures r.Pass? ==> SwarmLaunched(providerOpts, done + group, start, present, numClients, reg0, runService,
                                        i, images, launches, activeContainers)
    {
      i, images, launches, r := i0, images0, launches0, Pass;
      PrefixSnoc(done, group, 0);
      for ni := 0 to |names|
        invariant SwarmLaunched(providerOpts, done + group[..ni], start, present, numClients, reg0, runService,
                                i, images, launches, activeContainers)
        invariant r == Pass
      {
        PrefixSnoc(done, group, ni + 1);
        i, images, launches, r :=
          LaunchNode(providerOpts, server, names[ni], i, images, launches, numClients, runService, start, present,
                     done + group[..ni], done + group[..ni + 1], reg0);
        if r.Fail? {
          SwarmRunStopsIn(providerOpts, done, group, ni + 1, start, exposePorts, present, numClients);
          return;
        }
      }
      PrefixSnoc(done, group, |group|);
    }

    /** Reads the options from the file `filename` points to (the default
        configuration when it is empty), sets the start port to 8091 plus the
        number c of couchbase containers that exist, then starts one service
        per node, group after group: the k-th node's REST port is published on
        8091 + c + k, in the zone of its first service role. A nil `filename`
        (`None`) cannot be given the default and stops the call before
        anything changes. */
    method ProvideCouchbaseServers(
      filename: Option<string>, readOpts: string -> DockerProviderOpts, listed: seq<ContainerSummary>,
      servers: seq<ServerSpec>, expand: Expander, present: set<string>, numClients: int,
      runService: string -> string)
      returns (configPath: string, launches: seq<ServiceLaunch>, r: Outcome<ProvisionError>)
      modifies this`opts, this`startPort, this`activeContainers
      ensures filename.None? ==> r == Fail(NilConfigPath) && launches == []
      ensures filename.None? ==> opts == old(opts) && startPort == old(startPort)
      ensures filename.Some? ==> configPath == (if filename.value == "" then DefaultConfigPath else filename.value)
      ensures filename.Some? ==> opts == Some(readOpts(configPath))
      ensures filename.Some? ==> startPort == RestPort + CountCouchbase(listed)
      ensures filename.Some? ==>
        SwarmRun(readOpts(configPath), ExpandedNodes(servers, expand), CountCouchbase(listed), exposePorts,
                 present, numClients) == Run(launches, r)
      ensures activeContainers == Recorded(old(activeContainers), launches, runService)
    {
      if filename.None? {
        return "", [], Fail(NilConfigPath);
      }
      configPath := if filename.value == "" then DefaultConfigPath else filename.value;
      var providerOpts := readOpts(configPath);
      opts := Some(providerOpts);
      var i := NumCouchbaseServers(listed);
      startPort := RestPort + i;
      ghost var start := i;
      ghost var reg0 := activeContainers;
      var images := present;
      launches, r := [], Pass;
      for si := 0 to |servers|
        invariant opts == Some(providerOpts) && startPort == RestPort + start
        invariant SwarmLaunched(providerOpts, ExpandedNodes(servers[..si], expand), start, present, numClients, reg0,
                                runService, i, images, launches, activeContainers)
        invariant r == Pass
      {
        var serverNameList := expand(servers[si].name, servers[si].count, servers[si].countOffset + 1);
        ghost var done := ExpandedNodes(servers[..si], expand);
        ghost var group := GroupNodes(servers[si], expand);
        ExpandedNodesSnoc(servers, expand, si);
        i, images, launches, r := LaunchGroup(providerOpts, servers[si], serverNameList, i, images, launches,
                                              numClients, runService, start, present, done, group, reg0);
        if r.Fail? {
          ExpandedNodesPrefix(servers, expand, si + 1);
          SwarmRunStops(providerOpts, ExpandedNodes(servers, expand), |done + group|, start, exposePorts, present,
                        numClients);
          return;
        }
      }
      assert servers[..|servers|] == servers;
    }

    /** The swarm backend does not provision gateways: any requested gateway
        stops the call. */
    method ProvideSyncGateways(syncGateways: seq<SyncGatewaySpec>) returns (r: Outcome<ProvisionError>)
      ensures r.Fail? <==> |syncGateways| > 0
      ensures r.Fail? ==> r.error == GatewaysUnsupported("SwarmProvider")
    {
      if |syncGateways| > 0 {
        return Fail(GatewaysUnsupported("SwarmProvider"));
      }
      return Pass;
    }

    /** The ingress address of node `name`: the container recorded for it, or
        else the first container the engine lists under the node's name
        (`listIds`), inspected with `inspectIp`. No listed container stops the call. */
    method GetHostAddress(name: string, listIds: ListFilter -> seq<string>, inspectIp: string -> string)
      returns (r: Result<string, ProvisionError>)
      ensures name in activeContainers ==> r == Success(inspectIp(activeContainers[name]))
      ensures name !in activeContainers && |listIds(ListFilter("name", name))| == 0 ==>
        r == Failure(NoContainerNamed(name))
      ensures name !in activeContainers && |listIds(ListFilter("name", name))| > 0 ==>
        r == Success(inspectIp(listIds(ListFilter("name", name))[0]))
    {
      var id := if name in activeContainers then activeContainers[name] else "";
      var filter := HostLookup(activeContainers, name);
      if filter.Some? {
        var containers := listIds(filter.value);
        if |containers| == 0 {
          return Failure(NoContainerNamed(name));
        }
        id := containers[0];
      }
      return Success(inspectIp(id));
    }

    /** The REST address of node `name`: looks its address up (`lookup(name, k)`
        is what the k-th lookup gives) until one is non-empty, at most once and
        five more times, and appends ":8091" to the last answer, empty or not. */
    method GetRestUrl(name: string, lookup: (string, nat) -> string) returns (url: string, calls: nat)
      ensures 1 <= calls <= 1 + RestRetries
      ensures forall k :: 0 <= k < calls - 1 ==> lookup(name, k) == ""
      ensures lookup(name, calls - 1) != "" || calls == 1 + RestRetries
      ensures url == lookup(name, calls - 1) + RestUrlSuffix
    {
      var retry := RestRetries;
      var address := lookup(name, 0);
      calls := 1;
      while address == "" && retry > 0
        invariant 1 <= calls <= 1 + RestRetries && calls + retry == 1 + RestRetries
        invariant address == lookup(name, calls - 1)
        invariant forall k :: 0 <= k < calls - 1 ==> lookup(name, k) == ""
        decreases retry
      {
        address := lookup(name, calls);
        calls := calls + 1;
        retry := retry - 1;
      }
      url := address + RestUrlSuffix;
    }
  }
}
