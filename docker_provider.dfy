/**
 * The Docker backend: one container per server node on the local engine.
 * What is modelled is what the backend decides before and between engine
 * calls: how many couchbase containers already exist, the host port of each
 * new node, its host configuration, the image it runs and whether that image
 * must be built first, the registry of started containers, and the
 * parameters of gateway containers. The engine's answers (listed
 * containers, present images, started containers, inspection results) are
 * inputs.
 */
module DockerBackend {
  import opened Wrappers
  import opened Text
  import opened Topology
  import opened BuildArgs

  const UbuntuOsDir := "Ubuntu14"
  const CentosOsDir := "CentOS7"
  const WindowsOsDir := "Windows2012"
  const DefaultConfigPath := "providers/docker/options.yml"
  const RestPort := 8091
  const ServerPortKey := "8091/tcp"
  const RestUrlSuffix := ":8091"

  /** A container as the engine lists it. */
  datatype ContainerSummary = ContainerSummary(id: string, image: string)

  /** A started container as the engine reports it. */
  datatype Container = Container(id: string, name: string)

  // ---------------------------------------------------------------- counting existing servers

  predicate IsCouchbase(c: ContainerSummary)
  {
    Contains(c.image, "couchbase")
  }

  /** The number of listed containers whose image mentions "couchbase". */
  function CountCouchbase(listed: seq<ContainerSummary>): nat
    decreases |listed|
  {
    if |listed| == 0 then 0
    else CountCouchbase(listed[..|listed| - 1]) + (if IsCouchbase(listed[|listed| - 1]) then 1 else 0)
  }

  /** The positions of the couchbase containers in a listing. */
  function CouchbaseIndices(listed: seq<ContainerSummary>): set<nat>
  {
    set k: nat | k < |listed| && IsCouchbase(listed[k])
  }

  /** The count is the number of positions holding a couchbase container. */
  lemma {:induction false} CountCouchbaseIndices(listed: seq<ContainerSummary>)
    ensures CountCouchbase(listed) == |CouchbaseIndices(listed)|
    decreases |listed|
  {
    if |listed| > 0 {
      var n := |listed| - 1;
      var init := listed[..n];
      CountCouchbaseIndices(init);
      var before := CouchbaseIndices(init);
      assert forall k: nat :: k < n ==> init[k] == listed[k];
      if IsCouchbase(listed[n]) {
        assert CouchbaseIndices(listed) == before + {n};
      } else {
        assert CouchbaseIndices(listed) == before;
      }
    }
  }

  /** Counts the listed containers (all of them, running or not) whose image
      mentions "couchbase". The swarm backend, which embeds the Docker one,
      uses it too. */
  method NumCouchbaseServers(listed: seq<ContainerSummary>) returns (count: nat)
    ensures count == CountCouchbase(listed)
    ensures count == |CouchbaseIndices(listed)|
  {
    count := 0;
    for k := 0 to |listed|
      invariant count == CountCouchbase(listed[..k])
    {
      IndexMeaning(listed[k].image, "couchbase");
      if Index(listed[k].image, "couchbase") > -1 {
        count := count + 1;
      }
      assert listed[..k + 1][..k] == listed[..k];
    }
    assert listed[..|listed|] == listed;
    CountCouchbaseIndices(listed);
  }

  // ---------------------------------------------------------------- host configuration

  datatype PortBinding = PortBinding(hostPort: string)

  /** The parts of a container's host configuration the backends set; an
      unset limit is 0, as in the engine's API. */
  datatype HostConfig = HostConfig(
    ulimits: seq<ULimit>,
    privileged: bool,
    portBindings: map<string, seq<PortBinding>>,
    links: seq<string>,
    cpuPeriod: Int64,
    cpuQuota: Int64,
    memory: Int64,
    memorySwap: Int64)

  /** The host configuration of a server container whose REST port is published
      on `hostPort` when ports are exposed. */
  function ServerHostConfig(opts: DockerProviderOpts, hostPort: int, expose: bool): (hc: HostConfig)
    ensures hc.ulimits == opts.ulimits && hc.privileged && hc.links == []
    ensures ServerPortKey in hc.portBindings <==> expose
    ensures hc.portBindings.Keys <= {ServerPortKey}
    ensures hc.cpuPeriod != 0 <==> opts.cpuPeriod > 0
    ensures hc.cpuPeriod != 0 ==> hc.cpuPeriod == opts.cpuPeriod
    ensures hc.cpuQuota != 0 <==> opts.cpuQuota > 0
    ensures hc.cpuQuota != 0 ==> hc.cpuQuota == opts.cpuQuota
    ensures hc.memory != 0 <==> opts.memory > 0
    ensures hc.memory != 0 ==> hc.memory == opts.memory
    ensures hc.memorySwap == opts.memorySwap
  {
    var bindings := map[ServerPortKey := [PortBinding(Itoa(hostPort))]];
    HostConfig(
      opts.ulimits,
      true,
      if expose then bindings else map[],
      [],
      if opts.cpuPeriod > 0 then opts.cpuPeriod else 0,
      if opts.cpuQuota > 0 then opts.cpuQuota else 0,
      if opts.memory > 0 then opts.memory else 0,
      if opts.memorySwap != 0 then opts.memorySwap else 0)
  }

  /** An exposed server publishes exactly one binding for the REST port, and its
      host-port text reads back as the host port. */
  lemma ServerPortBinding(opts: DockerProviderOpts, hostPort: int)
    ensures var hc := ServerHostConfig(opts, hostPort, true);
      && |hc.portBindings[ServerPortKey]| == 1
      && Atoi(hc.portBindings[ServerPortKey][0].hostPort) == Some(hostPort)
  {
    AtoiItoa(hostPort);
  }

  // ---------------------------------------------------------------- images

  /** The image directory of an operating system; anything unrecognised is Ubuntu. */
  function OsDir(os: string): (dir: string)
    ensures dir == CentosOsDir <==> os == "centos7"
    ensures dir == WindowsOsDir <==> os == "windows2012"
    ensures dir == UbuntuOsDir <==> os != "centos7" && os != "windows2012"
  {
    var dir := if os == "centos7" then CentosOsDir else UbuntuOsDir;
    if os == "windows2012" then WindowsOsDir else dir
  }

  /** The lower-case tag of the operating system in image names. */
  function ImageTag(os: string): string
  {
    ToLower(OsDir(os))
  }

  /** The three tags: "centos7", "windows2012", and "ubuntu14" for everything else. */
  lemma ImageTags(os: string)
    ensures ImageTag(os) == (if os == "centos7" then "centos7"
                             else if os == "windows2012" then "windows2012"
                             else "ubuntu14")
  {
    var t := ImageTag(os);
    if os == "centos7" {
      assert t[0] == 'c' && t[1] == 'e' && t[2] == 'n' && t[3] == 't' && t[4] == 'o' && t[5] == 's';
    } else if os == "windows2012" {
      assert t[0] == 'w' && t[1] == 'i' && t[2] == 'n' && t[3] == 'd' && t[4] == 'o' && t[5] == 'w' && t[6] == 's';
    } else {
      assert t[0] == 'u' && t[1] == 'b' && t[2] == 'u' && t[3] == 'n' && t[4] == 't' && t[5] == 'u';
    }
  }

  /** The image of a server node: `couchbase_<build>.<os tag>`. */
  function ServerImageName(opts: DockerProviderOpts): string
  {
    "couchbase_" + opts.build + "." + ImageTag(opts.os)
  }

  /** A server image name starts with the build and ends with the OS tag,
      which is the text after its last '.'. */
  lemma ServerImageNameParts(opts: DockerProviderOpts)
    ensures HasPrefix(ServerImageName(opts), "couchbase_" + opts.build + ".")
    ensures LastSegment(ServerImageName(opts), '.') == ImageTag(opts.os)
  {
    var tag := ImageTag(opts.os);
    TagHasNoDot(opts.os);
    var prefix := "couchbase_" + opts.build;
    assert ServerImageName(opts) == prefix + ['.'] + tag;
    LastSegmentAfter(prefix, tag, '.');
  }

  lemma TagHasNoDot(os: string)
    ensures '.' !in ImageTag(os)
  {
    ImageTags(os);
    if os == "centos7" {
      assert '.' !in "centos7";
    } else if os == "windows2012" {
      assert '.' !in "windows2012";
    } else {
      assert '.' !in "ubuntu14";
    }
  }

  /** The image of a gateway node; gateways are built for CentOS 7 only. */
  function GatewayImageName(opts: DockerProviderOpts): (r: Result<string, ProvisionError>)
    ensures r.Failure? <==> opts.os != "centos7"
    ensures r.Failure? ==> r.error == UnsupportedGatewayOs(opts.os)
    ensures r.Success? ==> r.value == "sync_gateway_" + opts.syncGatewayVersion + "." + ImageTag("centos7")
    ensures r.Success? ==> r.value == GatewayImage(opts)
  {
    if opts.os == "centos7" then Success(GatewayImage(opts))
    else Failure(UnsupportedGatewayOs(opts.os))
  }

  /** The name of the gateway image, `sync_gateway_<version>.centos7`. */
  function GatewayImage(opts: DockerProviderOpts): string
  {
    "sync_gateway_" + opts.syncGatewayVersion + "." + ToLower(CentosOsDir)
  }

  /** An image build request: image name, build context and build arguments. */
  datatype ImageBuild = ImageBuild(name: string, contextDir: string, args: seq<BuildArg>)

  // ---------------------------------------------------------------- the container registry

  /** The registry after starting one container per name, in order: each is
      recorded under the name the engine reports, with its id. */
  function Registered(reg: map<string, string>, names: seq<string>, run: string -> Container): map<string, string>
    decreases |names|
  {
    if |names| == 0 then reg
    else
      var c := run(names[|names| - 1]);
      Registered(reg, names[..|names| - 1], run)[c.name := c.id]
  }

  /** Starting one more container adds its entry to the registry. */
  lemma RegisterSnoc(reg: map<string, string>, placed: seq<string>, name: string, run: string -> Container)
    ensures Registered(reg, placed + [name], run) == Registered(reg, placed, run)[run(name).name := run(name).id]
  {
    assert (placed + [name])[..|placed|] == placed;
  }

  /** The engine names of the containers started for `names`, in order. */
  function StartedNames(names: seq<string>, run: string -> Container): (r: seq<string>)
    ensures |r| == |names|
    ensures forall k :: 0 <= k < |names| ==> r[k] == run(names[k]).name
  {
    seq(|names|, k requires 0 <= k < |names| => run(names[k]).name)
  }

  /** The registry holds the entries it had and one per started container. */
  lemma {:induction false} RegisteredKeys(reg: map<string, string>, names: seq<string>, run: string -> Container)
    ensures forall x :: x in Registered(reg, names, run) <==> x in reg || x in StartedNames(names, run)
    decreases |names|
  {
    if |names| > 0 {
      var n := |names| - 1;
      RegisteredKeys(reg, names[..n], run);
      assert StartedNames(names, run) == StartedNames(names[..n], run) + [run(names[n]).name];
    }
  }

  /** A started container whose engine name no later container reuses is
      registered with its own id. */
  lemma {:induction false} RegisteredValue(reg: map<string, string>, names: seq<string>, run: string -> Container, k: nat)
    requires k < |names|
    requires forall j :: k < j < |names| ==> run(names[j]).name != run(names[k]).name
    ensures run(names[k]).name in Registered(reg, names, run)
    ensures Registered(reg, names, run)[run(names[k]).name] == run(names[k]).id
    decreases |names|
  {
    var n := |names| - 1;
    if k < n {
      var init := names[..n];
      assert init[k] == names[k];
      assert forall j :: k < j < n ==> init[j] == names[j];
      RegisteredValue(reg, init, run, k);
    }
  }

  /** Entries whose name no started container takes are left as they were. */
  lemma {:induction false} RegisteredKeeps(reg: map<string, string>, names: seq<string>, run: string -> Container, x: string)
    requires x in reg && x !in StartedNames(names, run)
    ensures x in Registered(reg, names, run) && Registered(reg, names, run)[x] == reg[x]
    decreases |names|
  {
    if |names| > 0 {
      var n := |names| - 1;
      assert StartedNames(names, run) == StartedNames(names[..n], run) + [run(names[n]).name];
      RegisteredKeeps(reg, names[..n], run, x);
    }
  }

  // ---------------------------------------------------------------- server launch plan

  /** What the backend asks of the engine for one server node. */
  datatype ServerLaunch = ServerLaunch(
    name: string,
    image: string,
    hostConfig: HostConfig,
    build: Option<ImageBuild>)

  /** The build of the server image, when its arguments can be formed. */
  function ServerBuild(opts: DockerProviderOpts): Option<ImageBuild>
  {
    match BuildArgList(opts)
    case Success(args) =>
      Some(ImageBuild(ServerImageName(opts), "containers/couchbase/" + OsDir(opts.os) + "/", args))
    case Failure(_) => None
  }

  /** The launch of the node `name` at position `g` of this call, when `start`
      couchbase containers existed before: its REST port is published on
      `8091 + start + g`, and only the first node builds a missing image. */
  function LaunchAt(opts: DockerProviderOpts, name: string, g: nat, start: nat, expose: bool, present: set<string>): ServerLaunch
  {
    var img := ServerImageName(opts);
    ServerLaunch(name, img, ServerHostConfig(opts, RestPort + start + g, expose),
      if g == 0 && img !in present then ServerBuild(opts) else None)
  }

  /** The launches of all nodes of a call, in order. */
  function LaunchPlan(opts: DockerProviderOpts, names: seq<string>, start: nat, expose: bool, present: set<string>): (plan: seq<ServerLaunch>)
    ensures |plan| == |names|
    decreases |names|
  {
    if |names| == 0 then []
    else
      var g := |names| - 1;
      LaunchPlan(opts, names[..g], start, expose, present) + [LaunchAt(opts, names[g], g, start, expose, present)]
  }

  /** The g-th launch of a plan is the launch of the g-th node at position g. */
  lemma {:induction false} LaunchPlanAt(opts: DockerProviderOpts, names: seq<string>, start: nat, expose: bool,
                                        present: set<string>, g: nat)
    requires g < |names|
    ensures LaunchPlan(opts, names, start, expose, present)[g] == LaunchAt(opts, names[g], g, start, expose, present)
    decreases |names|
  {
    var n := |names| - 1;
    var init := LaunchPlan(opts, names[..n], start, expose, present);
    assert LaunchPlan(opts, names, start, expose, present) == init + [LaunchAt(opts, names[n], n, start, expose, present)];
    if g < n {
      LaunchPlanAt(opts, names[..n], start, expose, present, g);
      assert names[..n][g] == names[g];
    }
  }

  /** A call fails exactly when there is a node, its image is missing, and the
      build text has no build number. */
  predicate ServerLaunchFails(opts: DockerProviderOpts, names: seq<string>, present: set<string>)
  {
    |names| > 0 && ServerImageName(opts) !in present && '-' !in opts.build
  }

  /** The names of the nodes of all groups, group after group. */
  function NodeNames(servers: seq<ServerSpec>, expand: Expander): seq<string>
    decreases |servers|
  {
    if |servers| == 0 then []
    else
      var s := servers[|servers| - 1];
      NodeNames(servers[..|servers| - 1], expand) + expand(s.name, s.count, s.countOffset + 1)
  }

  lemma NodeNamesSnoc(servers: seq<ServerSpec>, expand: Expander, si: nat, names: seq<string>)
    requires si < |servers|
    requires names == expand(servers[si].name, servers[si].count, servers[si].countOffset + 1)
    ensures NodeNames(servers[..si + 1], expand) == NodeNames(servers[..si], expand) + names
  {
    assert servers[..si + 1][..si] == servers[..si];
  }

  /** The published ports of a plan are consecutive from `8091 + start`, one per node. */
  lemma LaunchPorts(opts: DockerProviderOpts, names: seq<string>, start: nat, present: set<string>, g: nat)
    requires g < |names|
    ensures var hc := LaunchPlan(opts, names, start, true, present)[g].hostConfig;
      && hc == ServerHostConfig(opts, RestPort + start + g, true)
      && Atoi(hc.portBindings[ServerPortKey][0].hostPort) == Some(RestPort + start + g)
  {
    var hostPort := RestPort + start + g;
    LaunchPlanAt(opts, names, start, true, present, g);
    assert LaunchAt(opts, names[g], g, start, true, present).hostConfig == ServerHostConfig(opts, hostPort, true);
    ServerPortBinding(opts, hostPort);
  }

  /** At most the first launch builds an image, and it does so exactly when
      the image is missing. */
  lemma LaunchBuilds(opts: DockerProviderOpts, names: seq<string>, start: nat, expose: bool, present: set<string>)
    requires !ServerLaunchFails(opts, names, present)
    ensures var plan := LaunchPlan(opts, names, start, expose, present);
      && (forall g :: 0 < g < |plan| ==> plan[g].build == None)
      && (|plan| > 0 ==> (plan[0].build.Some? <==> ServerImageName(opts) !in present))
      && (|plan| > 0 && plan[0].build.Some? ==> plan[0].build.value.name == plan[0].image)
  {
    forall g | 0 < g < |names|
      ensures LaunchPlan(opts, names, start, expose, present)[g].build == None
    {
      LaunchPlanAt(opts, names, start, expose, present, g);
    }
    if |names| > 0 {
      LaunchPlanAt(opts, names, start, expose, present, 0);
      if ServerImageName(opts) !in present {
        BuildArgListShape(opts);
      }
    }
  }

  /** The names of the first groups are no more than the names of all groups. */
  lemma {:induction false} NodeNamesLength(servers: seq<ServerSpec>, expand: Expander, n: nat)
    requires n <= |servers|
    ensures |NodeNames(servers[..n], expand)| <= |NodeNames(servers, expand)|
    decreases |servers|
  {
    if n < |servers| {
      var init := servers[..|servers| - 1];
      NodeNamesLength(init, expand, n);
      assert init[..n] == servers[..n];
    } else {
      assert servers[..n] == servers;
    }
  }

  /** One more node launched: the plan grows by the launch of that node at its position. */
  lemma LaunchSnoc(opts: DockerProviderOpts, placed: seq<string>, name: string, start: nat, expose: bool,
                   present: set<string>)
    ensures LaunchPlan(opts, placed + [name], start, expose, present) ==
      LaunchPlan(opts, placed, start, expose, present) + [LaunchAt(opts, name, |placed|, start, expose, present)]
  {
    assert (placed + [name])[..|placed|] == placed;
  }

  /** The state after launching the nodes `placed` of this call, `start`
      couchbase containers having existed before: the next REST port index,
      the plan so far, the registry, and the images the engine holds (the
      server image once a node has been launched, the build having succeeded). */
  ghost predicate Launched(opts: DockerProviderOpts, placed: seq<string>, start: nat, expose: bool,
                           present: set<string>, reg0: map<string, string>, run: string -> Container,
                           i: nat, images: set<string>, launches: seq<ServerLaunch>, active: map<string, string>)
  {
    && i == start + |placed|
    && launches == LaunchPlan(opts, placed, start, expose, present)
    && active == Registered(reg0, placed, run)
    && images == (if i == start then present else present + {ServerImageName(opts)})
    && (i > start && ServerImageName(opts) !in present ==> '-' in opts.build)
  }

  // ---------------------------------------------------------------- gateways

  const GatewayContextDir := "containers/syncgateway/" + CentosOsDir + "/"
  const GatewayEntrypoint := "./entrypoint.sh"

  /** What the backend asks of the engine for one gateway node: the container,
      its image and the build of that image, its links, and the command run in
      it once started. */
  datatype GatewayLaunch = GatewayLaunch(
    name: string,
    image: string,
    build: Option<ImageBuild>,
    hostConfig: HostConfig,
    command: seq<string>)

  /** The build of the gateway image, when its arguments can be formed. */
  function GatewayBuild(opts: DockerProviderOpts): Option<ImageBuild>
  {
    match BuildArgsForSyncGatewayVersion(opts)
    case Success(args) => Some(ImageBuild(GatewayImage(opts), GatewayContextDir, args))
    case Failure(_) => None
  }

  /** `keys` lists every name of the registry exactly once, as a range over
      a map visits each of its keys once. */
  predicate ListsEachKey(keys: seq<string>, reg: map<string, string>)
  {
    (forall x :: x in keys ==> x in reg)
    && (forall x :: x in reg ==> x in keys)
    && forall i, j :: 0 <= i < j < |keys| ==> keys[i] != keys[j]
  }

  /** The backend's link-pair listing: the registry's names, in the order
      `keyOrder` gives for a range over the map, joined with ','. */
  function LinkText(reg: map<string, string>, keyOrder: map<string, string> -> seq<string>): string
  {
    Join(keyOrder(reg), ',')
  }

  /** The links of a gateway container: without a user network, the link-pair
      listing of the registry split at ','; with a network, none. */
  function LinkPairs(reg: map<string, string>, keyOrder: map<string, string> -> seq<string>, useNetwork: bool)
    : seq<string>
  {
    if useNetwork then [] else Split(LinkText(reg, keyOrder), ',')
  }

  /** Without a network, and when the map range lists each registered name
      once and no name holds a ',', a gateway links to every registered
      container once, and to nothing else. */
  lemma LinkPairsListRegistry(reg: map<string, string>, keyOrder: map<string, string> -> seq<string>)
    requires reg != map[]
    requires ListsEachKey(keyOrder(reg), reg)
    requires forall x :: x in reg ==> ',' !in x
    ensures LinkPairs(reg, keyOrder, false) == keyOrder(reg)
    ensures forall x :: x in LinkPairs(reg, keyOrder, false) <==> x in reg
    ensures var links := LinkPairs(reg, keyOrder, false);
      forall i, j :: 0 <= i < j < |links| ==> links[i] != links[j]
  {
    var keys := keyOrder(reg);
    var k :| k in reg;
    assert k in keys;
    assert Separated(keys, ',') by {
      forall i | 0 <= i < |keys|
        ensures ',' !in keys[i]
      {
        assert keys[i] in keys;
      }
    }
    SplitJoin(keys, ',');
  }

  /** A non-empty list holds its first element. */
  lemma FirstListed(keys: seq<string>)
    requires keys != []
    ensures keys[0] in keys
  {
  }

  /** With an empty registry the link text is empty, and a gateway still gets
      one link: the empty name. */
  lemma LinkPairsOfEmptyRegistry(keyOrder: map<string, string> -> seq<string>)
    requires ListsEachKey(keyOrder(map[]), map[])
    ensures LinkPairs(map[], keyOrder, false) == [""]
  {
    var keys := keyOrder(map[]);
    if keys != [] {
      FirstListed(keys);
      assert false;
    }
  }

  /** The name of the first node of the first server group: the address every
      gateway is pointed at. */
  function FirstServerName(servers: seq<ServerSpec>): (r: Result<string, ProvisionError>)
    ensures r.Failure? <==> |servers| == 0 || |servers[0].names| == 0
    ensures r.Failure? ==> r.error == NoServerToLink
    ensures r.Success? ==> r.value == servers[0].names[0]
    ensures r.Success? ==> r.value in ListedNames(servers)
  {
    if |servers| == 0 || |servers[0].names| == 0 then Failure(NoServerToLink)
    else
      ListedFirst(servers);
      Success(servers[0].names[0])
  }

  /** The error that stops the first gateway node, if any, checked in the
      order the backend meets them: the OS, the image build, the server to
      point at. */
  function GatewayFailure(opts: DockerProviderOpts, servers: seq<ServerSpec>, present: set<string>): Option<ProvisionError>
  {
    if opts.os != "centos7" then Some(UnsupportedGatewayOs(opts.os))
    else if GatewayImage(opts) !in present && '-' !in opts.syncGatewayVersion then
      Some(MalformedVersion(opts.syncGatewayVersion))
    else if FirstServerName(servers).Failure? then Some(NoServerToLink)
    else None
  }

  /** The images the engine holds after a gateway call stopped by `e` on its
      first gateway: the gateway image has been built by then exactly when no
      server could be linked, the check that follows the build. */
  function ImagesAfterGatewayFailure(opts: DockerProviderOpts, present: set<string>, e: ProvisionError)
    : (images: set<string>)
    ensures present <= images
    ensures images != present ==> e == NoServerToLink && GatewayImage(opts) !in present
    ensures e == NoServerToLink ==> GatewayImage(opts) in images
  {
    if e == NoServerToLink then present + {GatewayImage(opts)} else present
  }

  /** The launch of gateway `name` at position `g`, linked to `links` and
      pointed at `cbsUrl`: only the first gateway builds a missing image. */
  function GatewayAt(opts: DockerProviderOpts, name: string, g: nat, present: set<string>, cbsUrl: string,
                     links: seq<string>): GatewayLaunch
  {
    var img := GatewayImage(opts);
    GatewayLaunch(name, img, if g == 0 && img !in present then GatewayBuild(opts) else None,
      HostConfig([], true, map[], links, 0, 0, 0, 0), [GatewayEntrypoint, cbsUrl])
  }

  /** The launches of all gateways of a call, in order; each links to the
      containers registered before it. */
  function GatewayPlan(opts: DockerProviderOpts, names: seq<string>, present: set<string>, cbsUrl: string,
                       reg0: map<string, string>, run: string -> Container,
                       keyOrder: map<string, string> -> seq<string>, useNetwork: bool): (plan: seq<GatewayLaunch>)
    ensures |plan| == |names|
    decreases |names|
  {
    if |names| == 0 then []
    else
      var g := |names| - 1;
      var links := LinkPairs(Registered(reg0, names[..g], run), keyOrder, useNetwork);
      GatewayPlan(opts, names[..g], present, cbsUrl, reg0, run, keyOrder, useNetwork)
        + [GatewayAt(opts, names[g], g, present, cbsUrl, links)]
  }

  /** The g-th gateway launch: its image, build, links and command. */
  lemma {:induction false} GatewayPlanAt(opts: DockerProviderOpts, names: seq<string>, present: set<string>,
                                         cbsUrl: string, reg0: map<string, string>, run: string -> Container,
                                         keyOrder: map<string, string> -> seq<string>, useNetwork: bool, g: nat)
    requires g < |names|
    ensures var l := GatewayPlan(opts, names, present, cbsUrl, reg0, run, keyOrder, useNetwork)[g];
      && l.name == names[g] && l.image == GatewayImage(opts)
      && l.build == (if g == 0 && GatewayImage(opts) !in present then GatewayBuild(opts) else None)
      && l.hostConfig.links == LinkPairs(Registered(reg0, names[..g], run), keyOrder, useNetwork)
      && l.hostConfig.privileged
      && l.command == [GatewayEntrypoint, cbsUrl]
    decreases |names|
  {
    var n := |names| - 1;
    var init := GatewayPlan(opts, names[..n], present, cbsUrl, reg0, run, keyOrder, useNetwork);
    var links := LinkPairs(Registered(reg0, names[..n], run), keyOrder, useNetwork);
    assert GatewayPlan(opts, names, present, cbsUrl, reg0, run, keyOrder, useNetwork) ==
      init + [GatewayAt(opts, names[n], n, present, cbsUrl, links)];
    if g < n {
      GatewayPlanAt(opts, names[..n], present, cbsUrl, reg0, run, keyOrder, useNetwork, g);
      assert names[..n][g] == names[g];
      assert names[..n][..g] == names[..g];
    }
  }

  /** One more gateway launched. */
  lemma GatewaySnoc(opts: DockerProviderOpts, placed: seq<string>, name: string, present: set<string>,
                    cbsUrl: string, reg0: map<string, string>, run: string -> Container,
                    keyOrder: map<string, string> -> seq<string>, useNetwork: bool)
    ensures GatewayPlan(opts, placed + [name], present, cbsUrl, reg0, run, keyOrder, useNetwork) ==
      GatewayPlan(opts, placed, present, cbsUrl, reg0, run, keyOrder, useNetwork) +
      [GatewayAt(opts, name, |placed|, present, cbsUrl, LinkPairs(Registered(reg0, placed, run), keyOrder, useNetwork))]
  {
    assert (placed + [name])[..|placed|] == placed;
  }

  /** The state after launching the gateways `placed`: no error has stopped
      the call, the engine holds the gateway image once one has been launched,
      and the plan and the registry cover `placed`. */
  ghost predicate GatewaysLaunched(opts: DockerProviderOpts, servers: seq<ServerSpec>, placed: seq<string>,
                                   present: set<string>, cbsUrl: string, reg0: map<string, string>,
                                   run: string -> Container, keyOrder: map<string, string> -> seq<string>,
                                   useNetwork: bool, images: set<string>, launches: seq<GatewayLaunch>,
                                   active: map<string, string>)
  {
    && (|placed| > 0 ==> GatewayFailure(opts, servers, present) == None && FirstServerName(servers) == Success(cbsUrl))
    && images == (if |placed| == 0 then present else present + {GatewayImage(opts)})
    && launches == GatewayPlan(opts, placed, present, cbsUrl, reg0, run, keyOrder, useNetwork)
    && active == Registered(reg0, placed, run)
  }

  /** The names of the first gateway groups are no more than the names of all groups. */
  lemma {:induction false} GatewayNamesLength(gateways: seq<SyncGatewaySpec>, expand: Expander, n: nat)
    requires n <= |gateways|
    ensures |GatewayNames(gateways[..n], expand)| <= |GatewayNames(gateways, expand)|
    decreases |gateways|
  {
    if n < |gateways| {
      var init := gateways[..|gateways| - 1];
      GatewayNamesLength(init, expand, n);
      assert init[..n] == gateways[..n];
    } else {
      assert gateways[..n] == gateways;
    }
  }

  /** The names of the first gateway groups, and one group more. */
  lemma GatewayNamesSnoc(gateways: seq<SyncGatewaySpec>, expand: Expander, gi: nat, names: seq<string>)
    requires gi < |gateways|
    requires names == expand(gateways[gi].name, gateways[gi].count, gateways[gi].countOffset + 1)
    ensures GatewayNames(gateways[..gi + 1], expand) == GatewayNames(gateways[..gi], expand) + names
  {
    assert gateways[..gi + 1][..gi] == gateways[..gi];
  }

  // ---------------------------------------------------------------- address lookups

  /** A container-list filter: a key and the value it must match. */
  datatype ListFilter = ListFilter(key: string, value: string)

  /** What inspecting a container gives: its address on the default bridge
      network and its engine name, which the engine writes with a leading '/'. */
  datatype Inspection = Inspection(ipAddress: string, name: string)

  /** The address of the inspected container `id`: its bridge address, or with
      a user network its name without the leading '/', which an empty name
      does not have. */
  function HostAddress(id: string, c: Inspection, useNetwork: bool): (r: Result<string, ProvisionError>)
    ensures !useNetwork ==> r == Success(c.ipAddress)
    ensures useNetwork ==> (r.Failure? <==> c.name == "")
    ensures r.Failure? ==> r.error == EmptyContainerName(id)
    ensures useNetwork && r.Success? ==> [c.name[0]] + r.value == c.name
  {
    if !useNetwork then Success(c.ipAddress)
    else if c.name == "" then Failure(EmptyContainerName(id))
    else Success(c.name[1..])
  }

  /** On a user network a container named "/<n>" is reached at the address `n`. */
  lemma HostAddressOfName(id: string, ip: string, n: string)
    ensures HostAddress(id, Inspection(ip, "/" + n), true) == Success(n)
  {
    assert ("/" + n)[1..] == n;
  }

  /** The REST URL of a resolved address: the address and the REST port. */
  function RestUrlOf(a: Result<string, ProvisionError>): (r: Result<string, ProvisionError>)
    ensures r.Failure? <==> a.Failure?
    ensures a.Failure? ==> r.error == a.error
    ensures a.Success? ==> HasPrefix(r.value, a.value) && r.value[|a.value|..] == RestUrlSuffix
  {
    match a
    case Failure(e) => Failure(e)
    case Success(addr) => Success(addr + RestUrlSuffix)
  }

  /** Growing the prefix of `names` taken after `done` by one element. */
  lemma PrefixSnoc<T>(done: seq<T>, names: seq<T>, n: nat)
    requires n <= |names|
    ensures n == 0 ==> done + names[..n] == done
    ensures n > 0 ==> done + names[..n] == (done + names[..n - 1]) + [names[n - 1]]
    ensures n == |names| ==> done + names[..n] == done + names
  {
    if n > 0 {
      assert names[..n] == names[..n - 1] + [names[n - 1]];
    }
    if n == |names| {
      assert names[..n] == names;
    }
  }

  /** The first elements of `done + names` are `done` and a prefix of `names`. */
  lemma PrefixTake<T>(done: seq<T>, names: seq<T>, n: nat)
    requires n <= |names|
    ensures (done + names)[..|done| + n] == done + names[..n]
  {
  }

  /** The Docker backend: one container per node on the local engine. */
  class DockerProvider {
    var providerType: string
    var servers: seq<ServerSpec>
    var syncGateways: seq<SyncGatewaySpec>
    var activeContainers: map<string, string>
    var startPort: int
    var opts: Option<DockerProviderOpts>
    var exposePorts: bool
    var useNetwork: bool

    constructor (providerType: string, servers: seq<ServerSpec>, syncGateways: seq<SyncGatewaySpec>,
                 startPort: int, exposePorts: bool, useNetwork: bool)
      ensures this.providerType == providerType && this.servers == servers && this.syncGateways == syncGateways
      ensures this.startPort == startPort && this.exposePorts == exposePorts && this.useNetwork == useNetwork
      ensures activeContainers == map[] && opts == None
    {
      this.providerType := providerType;
      this.servers := servers;
      this.syncGateways := syncGateways;
      this.startPort := startPort;
      this.exposePorts := exposePorts;
      this.useNetwork := useNetwork;
      activeContainers := map[];
      opts := None;
    }

    /** The launch of one node whose REST port is published on `port`: its host
        configuration, its image, and the build of that image when the engine,
        holding `images`, lacks it. Fails when that build has no arguments. */
    method PrepareLaunch(providerOpts: DockerProviderOpts, serverName: string, port: int, expose: bool,
                         images: set<string>, ghost g: nat, ghost start: nat, ghost present: set<string>)
      returns (launch: ServerLaunch, built: bool, r: Outcome<ProvisionError>)
      requires port == RestPort + start + g
      requires ServerImageName(providerOpts) !in images <==> g == 0 && ServerImageName(providerOpts) !in present
      ensures built <==> ServerImageName(providerOpts) !in images
      ensures r.Pass? ==> launch == LaunchAt(providerOpts, serverName, g, start, expose, present)
      ensures r.Fail? <==> built && '-' !in providerOpts.build
      ensures r.Fail? ==> r.error == MalformedVersion(providerOpts.build)
      ensures r.Pass? ==> launch == ServerLaunch(serverName, ServerImageName(providerOpts),
        ServerHostConfig(providerOpts, port, expose), if built then ServerBuild(providerOpts) else None)
      ensures r.Pass? && built ==> launch.build.Some? && launch.build.value.name == launch.image
    {
      var hostConfig := ServerHostConfig(providerOpts, port, expose);
      var osPath := OsDir(providerOpts.os);
      var imgName := ServerImageName(providerOpts);
      var buildReq: Option<ImageBuild> := None;
      built := imgName !in images;
      r := Pass;
      if built {
        var buildArgs := BuildArgsForVersion(providerOpts);
        BuildArgListShape(providerOpts);
        if buildArgs.Failure? {
          return ServerLaunch(serverName, imgName, hostConfig, None), built, Fail(buildArgs.error);
        }
        buildReq := Some(ImageBuild(imgName, "containers/couchbase/" + osPath + "/", buildArgs.value));
      }
      launch := ServerLaunch(serverName, imgName, hostConfig, buildReq);
    }

    /** Launches the node `name` after the nodes `placed`; fails, launching
        nothing, when it is the first node of the call and its image has to be
        built and cannot be. */
    method LaunchNode(providerOpts: DockerProviderOpts, name: string, i0: nat, images0: set<string>,
                      launches0: seq<ServerLaunch>, expose: bool, run: string -> Container, ghost start: nat,
                      ghost present: set<string>, ghost placed: seq<string>, ghost reg0: map<string, string>)
      returns (i: nat, images: set<string>, launches: seq<ServerLaunch>, r: Outcome<ProvisionError>)
      modifies this`activeContainers
      requires Launched(providerOpts, placed, start, expose, present, reg0, run, i0, images0, launches0, activeContainers)
      ensures r.Fail? <==> ServerLaunchFails(providerOpts, placed + [name], present) && placed == []
      ensures r.Fail? ==> r.error == MalformedVersion(providerOpts.build) && activeContainers == old(activeContainers)
      ensures r.Pass? ==>
        Launched(providerOpts, placed + [name], start, expose, present, reg0, run, i, images, launches, activeContainers)
    {
      var launch, built;
      launch, built, r := PrepareLaunch(providerOpts, name, RestPort + i0, expose, images0, |placed|, start, present);
      if r.Fail? {
        return i0, images0, launches0, r;
      }
      images := if built then images0 + {ServerImageName(providerOpts)} else images0;
      LaunchSnoc(providerOpts, placed, name, start, expose, present);
      launches := launches0 + [launch];
      var container := run(name);
      RegisterSnoc(reg0, placed, name, run);
      activeContainers := activeContainers[container.name := container.id];
      i := i0 + 1;
      assert launches == LaunchPlan(providerOpts, placed + [name], start, expose, present);
      assert activeContainers == Registered(reg0, placed + [name], run);
      assert images == present + {ServerImageName(providerOpts)};
    }

    /** Launches the nodes `names` of one group, after the nodes `done` of the
        earlier groups. */
    method LaunchGroup(providerOpts: DockerProviderOpts, names: seq<string>, i0: nat, images0: set<string>,
                       launches0: seq<ServerLaunch>, expose: bool, run: string -> Container, ghost start: nat,
                       ghost present: set<string>, ghost done: seq<string>, ghost next: seq<string>,
                       ghost reg0: map<string, string>)
      returns (i: nat, images: set<string>, launches: seq<ServerLaunch>, r: Outcome<ProvisionError>)
      modifies this`activeContainers
      requires next == done + names
      requires Launched(providerOpts, done, start, expose, present, reg0, run, i0, images0, launches0, activeContainers)
      ensures r.Fail? <==> ServerLaunchFails(providerOpts, next, present)
      ensures r.Fail? ==> r.error == MalformedVersion(providerOpts.build) && activeContainers == old(activeContainers)
      ensures r.Fail? ==> done == []
      ensures r.Pass? ==>
        Launched(providerOpts, next, start, expose, present, reg0, run, i, images, launches, activeContainers)
    {
      i, images, launches, r := i0, images0, launches0, Pass;
      PrefixSnoc(done, names, 0);
      for ni := 0 to |names|
        invariant Launched(providerOpts, done + names[..ni], start, expose, present, reg0, run, i, images, launches,
                           activeContainers)
        invariant !ServerLaunchFails(providerOpts, done + names[..ni], present)
        invariant r == Pass
      {
        PrefixSnoc(done, names, ni + 1);
        i, images, launches, r :=
          LaunchNode(providerOpts, names[ni], i, images, launches, expose, run, start, present, done + names[..ni], reg0);
        if r.Fail? {
          return;
        }
      }
      PrefixSnoc(done, names, |names|);
    }

    /** Reads the options from the file `filename` points to (the default
        configuration when it is empty; `readOpts` stands for reading and
        decoding it), then launches one container per node, group after group.
        The REST port of the k-th new node is published on 8091 + c + k, where
        c is the number of couchbase containers that existed; the first node
        builds the image when the engine lacks it, which fails when the build
        text has no build number. A nil `filename` (`None`) cannot be given the
        default and stops the call before anything changes. */
    method ProvideCouchbaseServers(
      filename: Option<string>, readOpts: string -> DockerProviderOpts, listed: seq<ContainerSummary>,
      servers: seq<ServerSpec>, expand: Expander, present: set<string>, run: string -> Container)
      returns (configPath: string, launches: seq<ServerLaunch>, r: Outcome<ProvisionError>)
      modifies this`opts, this`startPort, this`activeContainers
      ensures filename.None? ==> r == Fail(NilConfigPath) && opts == old(opts) && startPort == old(startPort)
      ensures filename.Some? ==> configPath == (if filename.value == "" then DefaultConfigPath else filename.value)
      ensures filename.Some? ==> opts == Some(readOpts(configPath))
      ensures filename.Some? ==> startPort == old(startPort) + CountCouchbase(listed)
      ensures filename.Some? ==>
        (r.Fail? <==> ServerLaunchFails(readOpts(configPath), NodeNames(servers, expand), present))
      ensures filename.Some? && r.Fail? ==> r.error == MalformedVersion(readOpts(configPath).build)
      ensures r.Fail? ==> launches == [] && activeContainers == old(activeContainers)
      ensures r.Pass? ==>
        launches == LaunchPlan(readOpts(configPath), NodeNames(servers, expand), CountCouchbase(listed), exposePorts, present)
      ensures r.Pass? ==> activeContainers == Registered(old(activeContainers), NodeNames(servers, expand), run)
    {
      if filename.None? {
        return "", [], Fail(NilConfigPath);
      }
      configPath := if filename.value == "" then DefaultConfigPath else filename.value;
      var providerOpts := readOpts(configPath);
      opts := Some(providerOpts);
      var i := NumCouchbaseServers(listed);
      startPort := startPort + i;
      ghost var start := i;
      ghost var reg0 := activeContainers;
      var expose := exposePorts;
      var images := present;
      launches := [];
      for si := 0 to |servers|
        invariant opts == Some(providerOpts) && startPort == old(startPort) + start
        invariant Launched(providerOpts, NodeNames(servers[..si], expand), start, expose, present, reg0, run,
                           i, images, launches, activeContainers)
        invariant !ServerLaunchFails(providerOpts, NodeNames(servers[..si], expand), present)
      {
        var serverNameList := expand(servers[si].name, servers[si].count, servers[si].countOffset + 1);
        ghost var done := NodeNames(servers[..si], expand);
        ghost var next := NodeNames(servers[..si + 1], expand);
        NodeNamesSnoc(servers, expand, si, serverNameList);
        NodeNamesLength(servers, expand, si + 1);
        i, images, launches, r :=
          LaunchGroup(providerOpts, serverNameList, i, images, launches, expose, run, start, present, done, next, reg0);
        if r.Fail? {
          assert |next| <= |NodeNames(servers, expand)|;
          assert ServerLaunchFails(providerOpts, NodeNames(servers, expand), present);
          return configPath, [], r;
        }
      }
      assert servers[..|servers|] == servers;
      ghost var all := NodeNames(servers, expand);
      assert launches == LaunchPlan(providerOpts, all, start, expose, present);
      assert activeContainers == Registered(reg0, all, run);
      return configPath, launches, Pass;
    }

    /** Launches gateway `name` after the gateways `placed`: checks the OS,
        builds the image when the engine lacks it, links the container to the
        registered containers unless a network is used, starts it, and points
        it at the first server node. */
    method GatewayNode(gatewayOpts: DockerProviderOpts, name: string, images0: set<string>,
                       launches0: seq<GatewayLaunch>, run: string -> Container,
                       keyOrder: map<string, string> -> seq<string>, ghost present: set<string>,
                       ghost placed: seq<string>, ghost reg0: map<string, string>, ghost cbsUrl: string)
      returns (images: set<string>, launches: seq<GatewayLaunch>, r: Outcome<ProvisionError>)
      modifies this`activeContainers
      requires FirstServerName(servers).Success? ==> cbsUrl == FirstServerName(servers).value
      requires GatewaysLaunched(gatewayOpts, servers, placed, present, cbsUrl, reg0, run, keyOrder, useNetwork,
                                images0, launches0, activeContainers)
      ensures r.Fail? <==> GatewayFailure(gatewayOpts, servers, present).Some?
      ensures r.Fail? ==> placed == [] && r.error == GatewayFailure(gatewayOpts, servers, present).value
      ensures r.Fail? ==> images == ImagesAfterGatewayFailure(gatewayOpts, images0, r.error)
      ensures r.Fail? ==> launches == launches0 && activeContainers == old(activeContainers)
      ensures r.Pass? ==> GatewaysLaunched(gatewayOpts, servers, placed + [name], present, cbsUrl, reg0, run, keyOrder,
                                           useNetwork, images, launches, activeContainers)
    {
      images, launches := images0, launches0;
      var image := GatewayImageName(gatewayOpts);
      if image.Failure? {
        return images, launches, Fail(image.error);
      }
      var osPath := CentosOsDir;
      var imgName := image.value;
      var buildReq: Option<ImageBuild> := None;
      if imgName !in images {
        var buildArgs := BuildArgsForSyncGatewayVersion(gatewayOpts);
        if buildArgs.Failure? {
          return images, launches, Fail(buildArgs.error);
        }
        buildReq := Some(ImageBuild(imgName, "containers/syncgateway/" + osPath + "/", buildArgs.value));
        images := images + {imgName};
      }
      if |servers| == 0 || |servers[0].names| == 0 {
        // the image has been built by now; only the launch is abandoned
        return images, launches0, Fail(NoServerToLink);
      }
      var cbs := servers[0].names[0];
      var linkPairs: seq<string> := [];
      if !useNetwork {
        linkPairs := Split(LinkText(activeContainers, keyOrder), ',');
      }
      var hostConfig := HostConfig([], true, map[], linkPairs, 0, 0, 0, 0);
      GatewaySnoc(gatewayOpts, placed, name, present, cbsUrl, reg0, run, keyOrder, useNetwork);
      launches := launches + [GatewayLaunch(name, imgName, buildReq, hostConfig, [GatewayEntrypoint, cbs])];
      var container := run(name);
      RegisterSnoc(reg0, placed, name, run);
      activeContainers := activeContainers[container.name := container.id];
      r := Pass;
      assert launches == GatewayPlan(gatewayOpts, placed + [name], present, cbsUrl, reg0, run, keyOrder, useNetwork);
      assert activeContainers == Registered(reg0, placed + [name], run);
    }

    /** Launches the gateways `names` of one group, after the gateways `done`
        of the earlier groups. */
    method GatewayGroup(gatewayOpts: DockerProviderOpts, names: seq<string>, images0: set<string>,
                        launches0: seq<GatewayLaunch>, run: string -> Container,
                        keyOrder: map<string, string> -> seq<string>, ghost present: set<string>,
                        ghost done: seq<string>, ghost reg0: map<string, string>, ghost cbsUrl: string)
      returns (images: set<string>, launches: seq<GatewayLaunch>, r: Outcome<ProvisionError>)
      modifies this`activeContainers
      requires FirstServerName(servers).Success? ==> cbsUrl == FirstServerName(servers).value
      requires GatewaysLaunched(gatewayOpts, servers, done, present, cbsUrl, reg0, run, keyOrder, useNetwork,
                                images0, launches0, activeContainers)
      ensures r.Fail? <==> |names| > 0 && GatewayFailure(gatewayOpts, servers, present).Some?
      ensures r.Fail? ==> done == [] && r.error == GatewayFailure(gatewayOpts, servers, present).value
      ensures r.Fail? ==> images == ImagesAfterGatewayFailure(gatewayOpts, present, r.error)
      ensures r.Fail? ==> activeContainers == old(activeContainers)
      ensures r.Pass? ==> GatewaysLaunched(gatewayOpts, servers, done + names, present, cbsUrl, reg0, run, keyOrder,
                                           useNetwork, images, launches, activeContainers)
    {
      images, launches, r := images0, launches0, Pass;
      PrefixSnoc(done, names, 0);
      for ni := 0 to |names|
        invariant GatewaysLaunched(gatewayOpts, servers, done + names[..ni], present, cbsUrl, reg0, run, keyOrder,
                                   useNetwork, images, launches, activeContainers)
        invariant ni > 0 ==> GatewayFailure(gatewayOpts, servers, present) == None
        invariant r == Pass
      {
        PrefixSnoc(done, names, ni + 1);
        images, launches, r :=
          GatewayNode(gatewayOpts, names[ni], images, launches, run, keyOrder, present, done + names[..ni], reg0, cbsUrl);
        if r.Fail? {
          return;
        }
      }
      PrefixSnoc(done, names, |names|);
    }

    /** Reads the options from the default configuration, then launches one
        gateway container per gateway node, group after group, each linked to
        the containers registered before it (unless a network is used) and
        pointed at the first server node. `keyOrder` stands for the order in
        which a range over the registry visits its names. `images` is what the
        engine holds afterwards, including a gateway image built before the
        call stopped for want of a server. */
    method ProvideSyncGateways(
      readOpts: string -> DockerProviderOpts, syncGateways: seq<SyncGatewaySpec>, expand: Expander,
      present: set<string>, run: string -> Container, keyOrder: map<string, string> -> seq<string>)
      returns (images: set<string>, launches: seq<GatewayLaunch>, r: Outcome<ProvisionError>)
      modifies this`opts, this`activeContainers
      ensures opts == Some(readOpts(DefaultConfigPath))
      ensures r.Fail? <==>
        |GatewayNames(syncGateways, expand)| > 0 && GatewayFailure(readOpts(DefaultConfigPath), servers, present).Some?
      ensures r.Fail? ==> r.error == GatewayFailure(readOpts(DefaultConfigPath), servers, present).value
      ensures r.Fail? ==> images == ImagesAfterGatewayFailure(readOpts(DefaultConfigPath), present, r.error)
      ensures r.Fail? ==> launches == [] && activeContainers == old(activeContainers)
      ensures r.Pass? ==> images == if |GatewayNames(syncGateways, expand)| == 0 then present
                                    else present + {GatewayImage(readOpts(DefaultConfigPath))}
      ensures r.Pass? ==> activeContainers == Registered(old(activeContainers), GatewayNames(syncGateways, expand), run)
      ensures r.Pass? && |GatewayNames(syncGateways, expand)| > 0 ==>
        && FirstServerName(servers).Success?
        && launches == GatewayPlan(readOpts(DefaultConfigPath), GatewayNames(syncGateways, expand), present,
                                   FirstServerName(servers).value, old(activeContainers), run, keyOrder, useNetwork)
      ensures r.Pass? && |GatewayNames(syncGateways, expand)| == 0 ==> launches == []
    {
      var gatewayOpts := readOpts(DefaultConfigPath);
      opts := Some(gatewayOpts);
      ghost var reg0 := activeContainers;
      ghost var cbsUrl := if FirstServerName(servers).Success? then FirstServerName(servers).value else "";
      images := present;
      launches := [];
      r := Pass;
      for gi := 0 to |syncGateways|
        invariant opts == Some(gatewayOpts)
        invariant GatewaysLaunched(gatewayOpts, servers, GatewayNames(syncGateways[..gi], expand), present, cbsUrl,
                                   reg0, run, keyOrder, useNetwork, images, launches, activeContainers)
        invariant |GatewayNames(syncGateways[..gi], expand)| > 0 ==> GatewayFailure(gatewayOpts, servers, present) == None
        invariant r == Pass
      {
        var nameList := expand(syncGateways[gi].name, syncGateways[gi].count, syncGateways[gi].countOffset + 1);
        ghost var done := GatewayNames(syncGateways[..gi], expand);
        GatewayNamesSnoc(syncGateways, expand, gi, nameList);
        GatewayNamesLength(syncGateways, expand, gi + 1);
        images, launches, r :=
          GatewayGroup(gatewayOpts, nameList, images, launches, run, keyOrder, present, done, reg0, cbsUrl);
        if r.Fail? {
          assert |GatewayNames(syncGateways, expand)| > 0;
          return images, [], r;
        }
      }
      assert syncGateways[..|syncGateways|] == syncGateways;
      ghost var all := GatewayNames(syncGateways, expand);
      assert launches == GatewayPlan(gatewayOpts, all, present, cbsUrl, reg0, run, keyOrder, useNetwork);
      assert activeContainers == Registered(reg0, all, run);
    }

    /** The address of node `name`: the container recorded for it, or else the
        first container the engine lists under the node's name (`listIds`),
        read from what inspecting it gives (`inspect`). No listed container
        stops the call. */
    method GetHostAddress(name: string, listIds: ListFilter -> seq<string>, inspect: string -> Inspection)
      returns (r: Result<string, ProvisionError>)
      ensures name in activeContainers ==>
        r == HostAddress(activeContainers[name], inspect(activeContainers[name]), useNetwork)
      ensures name !in activeContainers && |listIds(ListFilter("name", name))| == 0 ==>
        r == Failure(NoContainerNamed(name))
      ensures name !in activeContainers && |listIds(ListFilter("name", name))| > 0 ==>
        var id := listIds(ListFilter("name", name))[0];
        r == HostAddress(id, inspect(id), useNetwork)
    {
      var id := "";
      if name in activeContainers {
        id := activeContainers[name];
      } else {
        var containers := listIds(ListFilter("name", name));
        if |containers| == 0 {
          return Failure(NoContainerNamed(name));
        }
        id := containers[0];
      }
      var container := inspect(id);
      if !useNetwork {
        return Success(container.ipAddress);
      }
      if container.name == "" {
        return Failure(EmptyContainerName(id));
      }
      return Success(container.name[1..]);
    }

    /** The REST URL of node `name`: its address followed by ":8091". */
    method GetRestUrl(name: string, listIds: ListFilter -> seq<string>, inspect: string -> Inspection)
      returns (r: Result<string, ProvisionError>)
      ensures name in activeContainers ==>
        r == RestUrlOf(HostAddress(activeContainers[name], inspect(activeContainers[name]), useNetwork))
      ensures name !in activeContainers && |listIds(ListFilter("name", name))| == 0 ==>
        r == Failure(NoContainerNamed(name))
      ensures name !in activeContainers && |listIds(ListFilter("name", name))| > 0 ==>
        var id := listIds(ListFilter("name", name))[0];
        r == RestUrlOf(HostAddress(id, inspect(id), useNetwork))
    {
      var addr := GetHostAddress(name, listIds, inspect);
      if addr.Failure? {
        return Failure(addr.error);
      }
      return Success(addr.value + RestUrlSuffix);
    }
  }
}
