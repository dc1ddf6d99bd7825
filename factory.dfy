/**
 * Choosing a backend from the provider selector: the selector is split on
 * ':' and its first field names the backend ("docker", "swarm", "file" or
 * "dev"); for "file" and "dev" a second field, present only when there are
 * exactly two fields, replaces the default host file or endpoint. A Docker
 * client that turns out to be in a swarm gets the swarm backend. Creating
 * the network and asking the engine what kind of client it has are engine
 * calls; the detected kind is an input.
 */
module Factory {
  import opened Wrappers
  import opened Text
  import opened Topology
  import StaticProviders
  import DockerBackend
  import SwarmBackend

  const DefaultHostFile := "default.yml"
  const DefaultEndpoint := "127.0.0.1"
  const SwarmType := "swarm"

  /** The backend a selector chooses and the settings it takes from the
      selector and the flags. */
  datatype ProviderKind =
    | DockerKind(providerType: string, useNetwork: bool)
    | SwarmKind(useNetwork: bool)
    | FileKind(hostFile: string)
    | DevKind(endpoint: string)

  /** The backend chosen for `selector` and `network`, `detectedType` being the
      kind of client the engine reports for a Docker selector. An unknown
      backend chooses none; the swarm backend refuses a network. */
  function Select(selector: string, network: string, detectedType: string): Result<Option<ProviderKind>, ProvisionError>
  {
    var args := Split(selector, ':');
    if args[0] == "docker" then
      var useNetwork := network != "";
      Success(Some(if detectedType == SwarmType then SwarmKind(useNetwork) else DockerKind(detectedType, useNetwork)))
    else if args[0] == "swarm" then
      if network != "" then Failure(SwarmNetworkUnsupported) else Success(Some(SwarmKind(false)))
    else if args[0] == "file" then
      Success(Some(FileKind(if |args| == 2 then args[1] else DefaultHostFile)))
    else if args[0] == "dev" then
      Success(Some(DevKind(if |args| == 2 then args[1] else DefaultEndpoint)))
    else
      Success(None)
  }

  /** What `GetType` answers for the backend of a kind. */
  function ProviderType(kind: ProviderKind): string
  {
    match kind
    case DockerKind(t, _) => t
    case SwarmKind(_) => SwarmType
    case FileKind(_) => "file"
    case DevKind(_) => "dev"
  }

  /** The selector naming a backend with one setting, `<kind>:<setting>`. */
  function SettingSelector(kind: string, setting: string): string
  {
    kind + [':'] + setting
  }

  /** The only error is a network asked of the swarm selector; a first field
      naming no backend chooses none. */
  lemma SelectOutcomes(selector: string, network: string, detectedType: string)
    ensures var first := Split(selector, ':')[0];
      && (Select(selector, network, detectedType).Failure? <==> first == "swarm" && network != "")
      && (Select(selector, network, detectedType).Failure? ==>
            Select(selector, network, detectedType).error == SwarmNetworkUnsupported)
      && (Select(selector, network, detectedType) == Success(None) <==>
            first != "docker" && first != "swarm" && first != "file" && first != "dev")
  {
  }

  /** A host file or endpoint without ':' is read back from its selector. */
  lemma SettingRoundTrip(setting: string, network: string, detectedType: string)
    requires ':' !in setting
    ensures Select(SettingSelector("file", setting), network, detectedType) == Success(Some(FileKind(setting)))
    ensures Select(SettingSelector("dev", setting), network, detectedType) == Success(Some(DevKind(setting)))
  {
    SplitWithoutSep(setting, ':');
    SplitAfterField("file", setting, ':');
    SplitAfterField("dev", setting, ':');
    SplitWithoutSep("file", ':');
    SplitWithoutSep("dev", ':');
  }

  /** Without a second field, or with more than one more, the defaults stay. */
  lemma SettingDefaults(a: string, b: string, network: string, detectedType: string)
    requires ':' !in a && ':' !in b
    ensures Select("file", network, detectedType) == Success(Some(FileKind(DefaultHostFile)))
    ensures Select("dev", network, detectedType) == Success(Some(DevKind(DefaultEndpoint)))
    ensures Select(SettingSelector("file", SettingSelector(a, b)), network, detectedType) ==
      Success(Some(FileKind(DefaultHostFile)))
    ensures Select(SettingSelector("dev", SettingSelector(a, b)), network, detectedType) ==
      Success(Some(DevKind(DefaultEndpoint)))
  {
    SplitWithoutSep("file", ':');
    SplitWithoutSep("dev", ':');
    SplitWithoutSep(b, ':');
    SplitAfterField(a, b, ':');
    SplitAfterField("file", SettingSelector(a, b), ':');
    SplitAfterField("dev", SettingSelector(a, b), ':');
  }

  /** A Docker selector gets the swarm backend exactly when the engine reports
      a swarm, keeps any network either way, and the backend reports the kind
      the engine detected. */
  lemma DockerDetection(rest: string, network: string, detectedType: string)
    ensures var r := Select(SettingSelector("docker", rest), network, detectedType);
      && r.Success? && r.value.Some?
      && (r.value.value.SwarmKind? <==> detectedType == SwarmType)
      && (r.value.value.DockerKind? || r.value.value.SwarmKind?)
      && r.value.value.useNetwork == (network != "")
      && ProviderType(r.value.value) == detectedType
  {
    SplitWithoutSep("docker", ':');
    SplitAfterField("docker", rest, ':');
  }

  /** A provider object of one of the four backends. */
  datatype Provider =
    | DockerBacked(docker: DockerBackend.DockerProvider)
    | SwarmBacked(swarm: SwarmBackend.SwarmProvider)
    | FileBacked(file: StaticProviders.FileProvider)
    | DevBacked(dev: StaticProviders.ClusterRunProvider)

  /** The provider object is a fresh backend of `kind` for the given groups. */
  ghost predicate Built(p: Provider, kind: ProviderKind, servers: seq<ServerSpec>,
                        syncGateways: seq<SyncGatewaySpec>, exposePorts: bool)
    reads match p
      case DockerBacked(d) => {d}
      case SwarmBacked(s) => {s}
      case FileBacked(f) => {f}
      case DevBacked(c) => {c}
  {
    match p
    case DockerBacked(d) =>
      && kind == DockerKind(d.providerType, d.useNetwork)
      && d.servers == servers && d.syncGateways == syncGateways && d.activeContainers == map[]
      && d.startPort == DockerBackend.RestPort && d.opts == None && d.exposePorts == exposePorts
    case SwarmBacked(s) =>
      && kind == SwarmKind(s.useNetwork)
      && s.servers == servers && s.syncGateways == syncGateways && s.activeContainers == map[]
      && s.startPort == DockerBackend.RestPort && s.opts == None && s.exposePorts == exposePorts
    case FileBacked(f) =>
      && kind == FileKind(f.hostFile)
      && f.servers == servers && f.syncGateways == syncGateways && f.serverNameIp == map[]
    case DevBacked(c) =>
      && kind == DevKind(c.endpoint)
      && c.servers == servers && c.syncGateways == syncGateways && c.serverNameIp == map[]
  }

  /** Creates the provider the selector chooses, with an empty registry and
      start port 8091 for the engine backends. */
  method NewProvider(selector: string, network: string, detectedType: string, exposePorts: bool,
                     servers: seq<ServerSpec>, syncGateways: seq<SyncGatewaySpec>)
    returns (r: Result<Option<Provider>, ProvisionError>)
    ensures r.Failure? <==> Select(selector, network, detectedType).Failure?
    ensures r.Failure? ==> r.error == Select(selector, network, detectedType).error
    ensures r.Success? ==> (r.value.None? <==> Select(selector, network, detectedType).value.None?)
    ensures r.Success? && r.value.Some? ==>
      && fresh(match r.value.value
               case DockerBacked(d) => {d} case SwarmBacked(s) => {s}
               case FileBacked(f) => {f} case DevBacked(c) => {c})
      && Built(r.value.value, Select(selector, network, detectedType).value.value, servers, syncGateways, exposePorts)
  {
    var providerArgs := Split(selector, ':');
    var startPort := DockerBackend.RestPort;
    if providerArgs[0] == "docker" {
      var useNetwork := network != "";
      if detectedType == SwarmType {
        var s := new SwarmBackend.SwarmProvider(servers, syncGateways, startPort, exposePorts, useNetwork);
        return Success(Some(SwarmBacked(s)));
      }
      var d := new DockerBackend.DockerProvider(detectedType, servers, syncGateways, startPort, exposePorts, useNetwork);
      return Success(Some(DockerBacked(d)));
    } else if providerArgs[0] == "swarm" {
      if network != "" {
        return Failure(SwarmNetworkUnsupported);
      }
      var s := new SwarmBackend.SwarmProvider(servers, syncGateways, startPort, exposePorts, false);
      return Success(Some(SwarmBacked(s)));
    } else if providerArgs[0] == "file" {
      var hostFile := DefaultHostFile;
      if |providerArgs| == 2 {
        hostFile := providerArgs[1];
      }
      var f := new StaticProviders.FileProvider(servers, syncGateways, hostFile);
      return Success(Some(FileBacked(f)));
    } else if providerArgs[0] == "dev" {
      var endpoint := DefaultEndpoint;
      if |providerArgs| == 2 {
        endpoint := providerArgs[1];
      }
      var c := new StaticProviders.ClusterRunProvider(servers, syncGateways, endpoint);
      return Success(Some(DevBacked(c)));
    }
    return Success(None);
  }
}
