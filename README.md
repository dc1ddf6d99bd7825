# Provisioning providers, modelled in Dafny

This project models the provider layer of a tool that provisions test
topologies. A topology is made of server node groups and Sync Gateway node
groups. The layer provisions it on one of four backends:

- a static host list read from a file (`FileProvider`);
- a developer's local cluster reached on consecutive ports (`ClusterRunProvider`);
- a single Docker engine (`DockerProvider`);
- a Docker swarm (`SwarmProvider`).

The model covers the rules the providers apply between calls to the container
engine:

- how the selector string chooses a backend;
- how node names receive addresses by global position;
- the image build arguments (version, build number, flavor, memory, package URL);
- for each Docker node, its host port, host configuration and image, and whether
  the image must be built;
- the gateway launches and the links they receive;
- the swarm's zone placement, service names and published ports;
- the registry of started containers;
- the bounded retry of the swarm REST address.

The engine's answers are inputs: listed containers, present images, the
container a run starts, inspection results, address lookups and the number of
swarm clients. The Go source panics in several places; the model returns a
`ProvisionError` there instead.

Modules:

- `Wrappers`: `Option`, `Result` and `Outcome`.
- `Text`: the Go string functions the providers use, with their partners:
  `strings.Split`/`Join`, `Index`, `Replace`, `ToLower`, and `strconv.Itoa`
  with a decimal parser.
- `Topology`: server and gateway groups, nodes, the global visiting order, and
  the errors.
- `BuildArgs`: the options file, `MemoryMB`, `versionFlavor` and both
  build-argument builders.
- `StaticProviders`: the file and dev-cluster backends, as classes whose
  `serverNameIp` map is filled by nested loops.
- `DockerBackend`: the Docker backend, as a class holding the registry, start
  port and options. The launch plan and registry functions specify its methods.
- `SwarmBackend`: the swarm backend. `SwarmRun` is the reference definition of
  a provisioning call, and the class's methods are proved against it.
- `Factory`: `NewProvider`'s selector logic as the function `Select`, and the
  method that builds the provider objects.

Two details of the code the model follows:

- The swarm `GetRestUrl` makes at most six lookups: one, then up to five
  retries (lib/provider.go:667-675).
- The swarm `GetHostAddress` means to "look up container by name if not
  known" (lib/provider.go:646), but filters on key "id" with an id that is
  always empty at that point (lib/provider.go:648). See "## Findings".

## Model

| member | source | states |
|---|---|---|
| `BuildArgs.MemoryMB` | lib/provider.go:80-82 | bytes to megabytes, truncated toward zero: for a non-negative limit m, `mb*10^6 <= m < (mb+1)*10^6`, and symmetrically for a negative one |
| `BuildArgs.VersionFlavor` | lib/provider.go:773-787 | "sherlock" exactly for a "4.1" prefix; "watson" exactly for "4.5" or "4.6"; "spock" for every other version |
| `BuildArgs.FlavorOfKnownVersion` | lib/provider.go:777-778 | a 4.5 release is watson |
| `BuildArgs.FlavorOfNewerVersion` | lib/provider.go:783-786 | a version past every listed prefix (5.5.0) falls back to spock |
| `BuildArgs.FlavorOfOlderVersion` | lib/provider.go:774-786 | a version older than every listed prefix (4.0.0) is also spock |
| `BuildArgs.VersionFields` | lib/provider.go:722-727 | fails exactly when the text has no '-' (the missing index 1); otherwise returns the first two '-'-separated fields |
| `BuildArgs.FieldsOfUnique` | lib/provider.go:722-727 | the first two fields of a text are determined by it |
| `BuildArgs.VersionFieldsRoundTrip` | lib/provider.go:722-727 | reading the fields of "ver-build" gives back ver and build |
| `BuildArgs.BuildArgListShape` | lib/provider.go:742-769 | argument names are VERSION, BUILD_NO, FLAVOR, then MEMBASE_RAM_MEGS iff memory > 0, then BUILD_URL, BUILD_PKG iff an override is set; the length is 3 + (0 or 1) + (0 or 2) |
| `BuildArgs.BuildArgListHead` | lib/provider.go:726-742 | the first two values are the first two fields of the build text; the third is the flavor of the version |
| `BuildArgs.BuildArgListMemory` | lib/provider.go:743-750 | the memory argument is decimal text that reads back as the limit in megabytes |
| `BuildArgs.BuildArgListUrl` | lib/provider.go:753-768 | BUILD_URL is the override; BUILD_PKG is its suffix after the last '/' and has no '/' |
| `BuildArgs.BuildArgsForVersion` | lib/provider.go:718-771 | the list built by appending is the specified argument list, and the call fails without a build number |
| `BuildArgs.BuildArgsForSyncGatewayVersion` | lib/provider.go:698-716 | fails exactly without a '-'; otherwise exactly VERSION and BUILD_NO, the two fields of the gateway version |
| `BuildArgs.GatewayArgsRoundTrip` | lib/provider.go:698-716 | a gateway version "ver-build" yields exactly [VERSION=ver, BUILD_NO=build] |
| `Text.SplitCount` | lib/provider.go:722-723 | `strings.Split` yields one part exactly when the separator is absent |
| `Text.FirstTwoFields` | lib/provider.go:726-727 | with a separator present, the first two parts are separator-free and the text starts with them joined |
| `Text.JoinSplit` | lib/provider.go:190 | joining the parts of a split gives back the text |
| `Text.SplitJoin` | lib/provider.go:455 | splitting the join of separator-free parts gives back the parts |
| `Text.IndexMeaning` | lib/provider.go:290 | `strings.Index` is 0 exactly for a prefix and > -1 exactly for a contained substring |
| `Text.ReplaceCharRemoves` | lib/provider.go:571 | after replacing a character by a different one, it no longer occurs, and every other character is kept |
| `Text.LastSegmentIsSuffix` | lib/provider.go:760-761 | the last segment is a separator-free suffix, preceded by the separator unless it is the whole text |
| `Text.AtoiItoa` | lib/provider.go:744 | decimal text of an integer parses back to it |
| `Topology.ListedFirst` | lib/provider.go:444 | the first name of the first group is among all names |
| `Topology.ExpandedNodesPrefix` | lib/provider.go:191-194 | the nested loops visit every node of the earlier groups before any node of a later group |
| `StaticProviders.AssignInOrderMeaning` | lib/provider.go:191-199 | with distinct names, the k-th name gets `values[k]` iff k < the number of values; no other key is added; other keys keep their values |
| `StaticProviders.AssignInOrderCount` | lib/provider.go:191-199 | from an empty map, exactly min(#names, #hosts) names are assigned |
| `StaticProviders.RecordedAddress` | lib/provider.go:178-180 | the lookup both static backends use (also lib/provider.go:214-216): the recorded address, or "" (Go's zero value) for an unknown name |
| `StaticProviders.AssignedAddress` | lib/provider.go:191-199 | after the positional assignment of distinct names, the k-th name's address is the k-th host while hosts remain, and what it was before once they run out |
| `StaticProviders.FileProvider.GetRestUrl` | lib/provider.go:182-184 | the host address followed by ":8091" |
| `StaticProviders.FileProvider.ProvideCouchbaseServers` | lib/provider.go:186-200 | reads `providers/file/<hostFile>`; the map becomes the positional assignment of all names to the space-separated hosts |
| `StaticProviders.FileProvider.ProvideSyncGateways` | lib/provider.go:203-209 | fails exactly when gateways are requested |
| `StaticProviders.ExampleHosts` | lib/provider.go:190 | "10.0.0.1 10.0.0.2" splits into two hosts |
| `StaticProviders.FileExample` | lib/provider.go:192-198 | three nodes and two hosts: the third node stays unassigned |
| `StaticProviders.DevAddressPort` | lib/provider.go:224-225 | a dev address is "endpoint:" followed by text that reads back as 9000+k |
| `StaticProviders.ClusterRunProvider.ProvideCouchbaseServers` | lib/provider.go:233-242 | the map becomes the assignment of the k-th global name to endpoint:9000+k |
| `StaticProviders.ClusterRunProvider.GetRestUrl` | lib/provider.go:218-231 | endpoint:9000+j for the first global index j of the name in the provider's groups; "<no_host>" when it is absent |
| `StaticProviders.ClusterRunProvider.ProvideSyncGateways` | lib/provider.go:244-250 | fails exactly when gateways are requested |
| `StaticProviders.FoundAt` | lib/provider.go:221-227 | a name first met at position ni of group si sits at global index (names before si) + ni |
| `StaticProviders.DevAddressesAgree` | lib/provider.go:218-242 | with distinct names, the recorded dev address and the recomputed one agree |
| `DockerBackend.CountCouchbaseIndices` | lib/provider.go:289-293 | the count equals the number of listed positions whose image mentions "couchbase" |
| `DockerBackend.NumCouchbaseServers` | lib/provider.go:284-295 | the counting loop yields the number of couchbase containers |
| `DockerBackend.ServerHostConfig` | lib/provider.go:315-343 | privileged with the ulimits; the REST port binding exists iff ports are exposed; CPU period, CPU quota and memory are set iff > 0, each to its option |
| `DockerBackend.ServerPortBinding` | lib/provider.go:315-323 | an exposed server has exactly one binding, whose text reads back as the host port |
| `DockerBackend.OsDir` | lib/provider.go:346-352 | CentOS7 iff "centos7", Windows2012 iff "windows2012", Ubuntu14 otherwise |
| `DockerBackend.ImageTags` | lib/provider.go:346-355 | the lower-cased tag is "centos7", "windows2012" or "ubuntu14"; lowering is modelled for ASCII letters, which is exact on these three directory constants |
| `DockerBackend.ServerImageNameParts` | lib/provider.go:353-355 | the image name starts with "couchbase_<build>." and its last '.'-segment is the OS tag |
| `DockerBackend.GatewayImageName` | lib/provider.go:414-423 | fails exactly for an OS other than centos7; otherwise "sync_gateway_<version>.centos7"; `GatewayNode` takes its image from it |
| `DockerBackend.RegisteredKeys` | lib/provider.go:385-386 | the registry holds its earlier entries and one per started container, and nothing else |
| `DockerBackend.RegisteredValue` | lib/provider.go:385-386 | a started container whose name no later one reuses is registered with its id |
| `DockerBackend.RegisteredKeeps` | lib/provider.go:385-386 | entries no started container overwrites are unchanged |
| `DockerBackend.LaunchPlan` | lib/provider.go:311-389 | one launch per node |
| `DockerBackend.LaunchPlanAt` | lib/provider.go:311-389 | the g-th launch is node g's launch at position g |
| `DockerBackend.LaunchPorts` | lib/provider.go:309-330 | node g is published on host port 8091 + c + g, c being the number of existing couchbase containers |
| `DockerBackend.LaunchBuilds` | lib/provider.go:356-373 | only the first node may build; it builds exactly when the image is missing, and builds that image |
| `DockerBackend.LinkPairsListRegistry` | lib/provider.go:452-458 | without a network, the link text is the registered names joined with ',' (lib/provider.go:684-690), and a gateway links to each registered name exactly once and to nothing else, provided the map range visits each name once and no name holds a ',' |
| `DockerBackend.LinkPairsOfEmptyRegistry` | lib/provider.go:454-455 | with nothing registered, the link text is empty, and a gateway still gets one link, the empty name |
| `DockerBackend.FirstServerName` | lib/provider.go:444 | fails exactly when there is no first server name; otherwise exactly the first name of the first group, which is one of the listed names |
| `DockerBackend.ImagesAfterGatewayFailure` | lib/provider.go:424-444 | a stopped gateway call leaves the engine with at least the images it had; it adds only the gateway image, and does so when no server could be linked, because that check follows the build |
| `DockerBackend.GatewayPlan` | lib/provider.go:408-485 | one launch per gateway |
| `DockerBackend.GatewayPlanAt` | lib/provider.go:412-484 | gateway g has its name, the gateway image, a build only if it is first and the image is missing, links to the containers registered before it, privilege, and the entrypoint command pointing at the first server |
| `DockerBackend.HostAddress` | lib/provider.go:273-279 | the bridge address without a network; with one, the container name minus its leading character, failing on an empty name |
| `DockerBackend.HostAddressOfName` | lib/provider.go:276-278 | on a network, a container named "/n" is reached at n |
| `DockerBackend.RestUrlOf` | lib/provider.go:692-696 | the URL starts with the address and ends with ":8091"; failures pass through |
| `DockerBackend.DockerProvider.PrepareLaunch` | lib/provider.go:315-373 | the node's launch is its planned launch; it builds exactly when the image is missing, and fails exactly when that build has no build number |
| `DockerBackend.DockerProvider.LaunchNode` | lib/provider.go:314-386 | launching one more node keeps the launch invariant (port index, plan, registry, images), or fails on the first node without changing the registry; the REST-address lookup after registration (line 387) is left out |
| `DockerBackend.DockerProvider.LaunchGroup` | lib/provider.go:311-390 | launching a group extends the invariant to the group's names |
| `DockerBackend.DockerProvider.ProvideCouchbaseServers` | lib/provider.go:297-391 | a nil config path stops the call with nothing changed; otherwise an empty path defaults; the options are recorded; the start port grows by c; apart from the per-node address lookup left out below, the call fails exactly when the missing image cannot be built; otherwise the launches are the plan for all nodes from port 8091 + c, and the registry gains one entry per started container |
| `DockerBackend.DockerProvider.GatewayNode` | lib/provider.go:412-484 | one more gateway keeps the gateway invariant, or fails (OS, build, no server) on the first one, leaving the registry and the launches unchanged and the image set as `ImagesAfterGatewayFailure` says |
| `DockerBackend.DockerProvider.GatewayGroup` | lib/provider.go:408-485 | launching a gateway group extends the gateway invariant; a failure leaves the images `ImagesAfterGatewayFailure` gives |
| `DockerBackend.DockerProvider.ProvideSyncGateways` | lib/provider.go:402-486 | reads the default options; fails exactly when there are gateways and the OS, the build or the first server fails; a failure keeps any gateway image already built; otherwise launches follow the gateway plan, the registry gains one entry per gateway, and the engine holds the gateway image once there is a gateway |
| `DockerBackend.DockerProvider.GetHostAddress` | lib/provider.go:256-282 | the recorded container, or else the first listed under the name, resolved by `HostAddress`; no listed container fails |
| `DockerBackend.DockerProvider.GetRestUrl` | lib/provider.go:692-696 | the host address followed by ":8091", in every case of the lookup |
| `SwarmBackend.Zone` | lib/provider.go:613-618 | fails exactly when the node has no service role; otherwise its first role, or "client" on a one-client swarm |
| `SwarmBackend.SwarmProvider.NodeZone` | lib/provider.go:613-618 | the provisioning loop reads the zone `Zone` defines |
| `SwarmBackend.ServiceNameSanitised` | lib/provider.go:571 | the service name has no '.', keeps the length and every other character, maps '.' to '-', and is idempotent |
| `SwarmBackend.ZoneConstraintRoundTrip` | lib/provider.go:573 | the zone reads back from its constraint, so distinct zones give distinct constraints |
| `SwarmBackend.EndpointPorts` | lib/provider.go:509-516 | one port entry: REST port published (32-bit) when exposed, empty otherwise |
| `SwarmBackend.EndpointPortsPublish` | lib/provider.go:515 | a port below 2^32 is published as is; larger ones wrap around |
| `SwarmBackend.SwarmRun` | lib/provider.go:608-622 | no more launches than nodes |
| `SwarmBackend.ZonedEvery` | lib/provider.go:613-615 | `Zoned` holds iff every node has a zone |
| `SwarmBackend.SwarmRunPasses` | lib/provider.go:608-622 | a call succeeds iff every node has a zone and the first node's image is present or buildable |
| `SwarmBackend.SwarmRunLength` | lib/provider.go:608-622 | a successful call launches every node |
| `SwarmBackend.SwarmRunAt` | lib/provider.go:608-622 | in a successful call, launch k is node k's service in its zone on port 8091 + c + k |
| `SwarmBackend.SwarmRunFails` | lib/provider.go:608-622 | a failed call stops at its first failing node, whose error it returns; the launches before it form a successful call |
| `SwarmBackend.SwarmRunStops` | lib/provider.go:608-622 | nothing is launched after a failure |
| `SwarmBackend.RecordedEntries` | lib/provider.go:588 | the registry holds its earlier entries and one per launched node; the last launch of a node gives its id; others are unchanged |
| `SwarmBackend.RecordedSize` | lib/provider.go:588 | launches of distinct new nodes add exactly one entry each |
| `SwarmBackend.SwarmRunRegisters` | lib/provider.go:625-627 | after a successful call over distinct new nodes, the registry has grown by exactly the node count; its size equals this call's node count, which the closing wait waits for, exactly when the registry was empty before the call |
| `SwarmBackend.HostLookupAsWritten` | lib/provider.go:643-648 | a filter is used exactly for a node missing from the registry |
| `SwarmBackend.HostLookupAsWrittenIgnoresName` | lib/provider.go:647-648 | as written, two different unknown nodes get the same filter, ("id", "") |
| `SwarmBackend.HostLookup` | lib/provider.go:643-648 | a filter is used exactly for a node missing from the registry |
| `SwarmBackend.HostLookupNamesNode` | lib/provider.go:647-648 | the corrected filter carries the node's name, so different nodes get different filters |
| `SwarmBackend.SwarmProvider.ProvideCouchbaseServer` | lib/provider.go:498-588 | builds exactly when the image is missing and, apart from the address lookup after registration (line 590, left out), fails exactly when that build has no build number; otherwise the launch is the node's service (sanitised name, zone constraint, ports, build) and the registry maps the node to the started container |
| `SwarmBackend.SwarmProvider.LaunchNode` | lib/provider.go:609-621 | launching one more node keeps the swarm invariant; on failure the state is the reference run's failed state |
| `SwarmBackend.SwarmProvider.LaunchGroup` | lib/provider.go:608-623 | launching a group follows the reference run over the group's nodes |
| `SwarmBackend.SwarmProvider.ProvideCouchbaseServers` | lib/provider.go:593-629 | a nil config path stops the call with nothing changed; otherwise an empty path defaults; the options are recorded; the start port is 8091 + c; launches and outcome are exactly `SwarmRun` over all nodes; the registry is the earlier one plus the launches |
| `SwarmBackend.SwarmProvider.ProvideSyncGateways` | lib/provider.go:632-638 | fails exactly when gateways are requested |
| `SwarmBackend.SwarmProvider.GetHostAddress` | lib/provider.go:640-662 | the recorded container's ingress address; else that of the first container listed under the node's name; none listed fails |
| `SwarmBackend.SwarmProvider.GetRestUrl` | lib/provider.go:664-678 | between 1 and 6 lookups, all but the last empty, the last non-empty unless all 6 were made; the URL is the last answer followed by ":8091" |
| `Factory.SelectOutcomes` | lib/provider.go:84-173 | the only error is a network on the "swarm" selector; no provider exactly for an unknown first field |
| `Factory.SettingRoundTrip` | lib/provider.go:148-169 | a host file or endpoint without ':' is read back from "file:<x>" or "dev:<x>" |
| `Factory.SettingDefaults` | lib/provider.go:148-163 | a bare "file" or "dev", or one with three fields, keeps "default.yml" or "127.0.0.1" |
| `Factory.DockerDetection` | lib/provider.go:89-125 | a docker selector gives the swarm backend iff the engine reports "swarm"; the network flag is kept; the reported type is the detected one |
| `Factory.NewProvider` | lib/provider.go:84-173 | fails and yields no provider exactly as `Select` says; otherwise builds a fresh provider of the selected kind with an empty registry and start port 8091 |

## Left out

- Engine calls are not modelled. Their results are inputs: listing, inspecting,
  building, running, creating services, executing commands, creating networks,
  counting clients, choosing the client of a container. An engine error that
  the source passes to `chkerr` (a failed listing or inspect) is not
  modelled: the inputs always answer.
- Reading the YAML options and host files: `readOpts` and `hostNames` give the
  decoded content for a path.
- `ExpandServerName` is not part of this model. The engine backends receive the
  expansion as the function `expand`. The static backends read the names from
  each group's `names`.
- Console output (`colorsay`, `logerr`), including the format warning at
  lib/provider.go:723-725. The warning does not stop the call, so the failure
  it announces is the model's error.
- `time.Sleep` delays. Only the number of lookups is modelled.
- `SwarmBackend.SwarmProvider.ProvideCouchbaseServers`: the source starts each
  service in its own goroutine and then polls until the registry size equals the
  node count. The model starts the services one after another, in spawn order,
  and does not model the wait. The wait compares the whole registry's size
  with this call's node count (lib/provider.go:625). `SwarmRunRegisters` shows
  that the sizes match after the call exactly when the registry was empty
  before it. With earlier entries, the source's wait never ends, or ends early
  if the size passes through the count at a poll. The model does not capture
  this.
- `SwarmBackend.SwarmProvider.ProvideCouchbaseServer`: the source builds a host
  configuration it never attaches to the service (lib/provider.go:518-540). The
  model leaves it out.
- `SwarmBackend.SwarmProvider.GetRestUrl`: what the k-th lookup answers is an
  input, because the answer changes while the service starts. The method does
  not call `GetHostAddress`.
- `DockerBackend.DockerProvider.ProvideCouchbaseServers` and
  `DockerBackend.DockerProvider.ProvideSyncGateways`: the engine's set of
  present images is one snapshot per call. A started build is assumed to
  succeed, since `logerr` does not stop the loop.
- `DockerBackend.DockerProvider.ProvideSyncGateways`: the order in which a
  range over the registry visits its names is an input (`keyOrder`), because
  Go's map iteration order is unspecified. It is taken as a function of the
  registry, although Go may vary it from one range to the next. The link text
  is defined from it as `GetLinkPairs` builds it (lib/provider.go:684-690).
  `LinkPairsListRegistry` proves the set of links for an order that lists
  each name once. The swarm's `GetLinkPairs` (lib/provider.go:488-496) is not
  modelled; nothing in the swarm backend calls it.
- Panics become `Fail`/`Failure` values. In the model no failure follows a
  node's container or service start, so the registry is unchanged by the
  failing node. In the source, the REST-address lookup made after each
  registration can still panic (see the next line). The one modelled failure
  that follows an image build is a gateway with no server to link
  (lib/provider.go:426-444). There the returned image set keeps the built
  image.
- `DockerBackend.DockerProvider.LaunchNode` and
  `SwarmBackend.SwarmProvider.ProvideCouchbaseServer`: after each server is
  started and registered, the source calls `GetRestUrl` on it to print a
  "start couchbase" message (lib/provider.go:387 and 590). That lookup is not
  modelled.
  - On Docker it runs `GetHostAddress`, which can panic with the new entry
    already in the registry. It panics on an empty listing when the registry
    is keyed under a different name (lib/provider.go:268), on a failed
    inspect (lib/provider.go:270-271), or on an empty container name when a
    network is used (lib/provider.go:278). `LaunchNode`, `LaunchGroup` and
    `ProvideCouchbaseServers` do not have this failure.
  - On the swarm it makes up to six inspections per node, three seconds apart
    (lib/provider.go:664-678). `ProvideCouchbaseServer`, `LaunchNode`,
    `LaunchGroup` and `ProvideCouchbaseServers` do not make these lookups,
    and do not have their possible panic on a failed inspect
    (lib/provider.go:655-656).
  - `DockerBackend.DockerProvider.GetRestUrl` and
    `SwarmBackend.SwarmProvider.GetRestUrl` model the lookup itself.
- `DockerBackend.DockerProvider.GatewayNode`: when no server can be linked,
  the image build has happened and its effect is in the returned image set.
  The build request itself (its arguments and context) is not returned,
  because the failing gateway yields no launch record.
- `Text.ToLower` lowers ASCII letters only, while Go's `strings.ToLower` maps
  all of Unicode. The source applies it only to the three OS directory
  constants, which are ASCII.
- `GetType` of each backend is given by `Factory.ProviderType`.

## Findings

| source | as written | input that shows it | evidently intended | confidence | as-written member | corrected member |
|---|---|---|---|---|---|---|
| lib/provider.go:643-648 | for a node missing from the registry, the swarm lookup filters on key "id" with the id it just failed to find, which is always "" | any two unregistered names, e.g. "cb1" and "cb2": both get the filter ("id", ""), which names neither node | look the node up by its name, as the Docker backend does at lib/provider.go:261-262 | medium, not executed | `SwarmBackend.HostLookupAsWritten`, `SwarmBackend.HostLookupAsWrittenIgnoresName` | `SwarmBackend.HostLookup`, `SwarmBackend.HostLookupNamesNode`, used by `SwarmBackend.SwarmProvider.GetHostAddress` |
