/**
 * The topology a provider is asked to provision: server groups and gateway
 * groups, the order in which their node names are visited, and the errors
 * that stop a provisioning call.
 */
module Topology {

  /** One requested group of server nodes. `names` holds the group's node names
      as the static backends read them; `nodeServices` gives each node's service
      roles, the first of which is its swarm zone. */
  datatype ServerSpec = ServerSpec(
    name: string,
    count: int,
    countOffset: int,
    names: seq<string>,
    nodeServices: map<string, seq<string>>)

  /** One requested group of gateway nodes. */
  datatype SyncGatewaySpec = SyncGatewaySpec(name: string, count: int, countOffset: int)

  /** Name expansion (pattern, count, first index) to concrete node names. The
      expander itself is not part of this model; the engine backends receive it. */
  type Expander = (string, int, int) -> seq<string>

  /** What ends a provisioning call: the source panics in each of these cases. */
  datatype ProvisionError =
    | MalformedVersion(text: string)        // a version without a "-<build>" part
    | UnsupportedGatewayOs(os: string)      // gateways are built for centos7 only
    | GatewaysUnsupported(provider: string) // backend cannot provision gateways
    | NoServerToLink                        // no first server name to point a gateway at
    | NoServiceRoles(node: string)          // swarm node without a service role
    | NoContainerNamed(node: string)        // lookup by name found nothing
    | EmptyContainerName(id: string)        // inspected container has an empty name
    | SwarmNetworkUnsupported               // network requested on the swarm backend
    | NilConfigPath                         // no options path to default (a nil pointer)

  /** The names of all server groups, group after group, as the static backends read them. */
  function ListedNames(servers: seq<ServerSpec>): (names: seq<string>)
    decreases |servers|
  {
    if |servers| == 0 then []
    else ListedNames(servers[..|servers| - 1]) + servers[|servers| - 1].names
  }

  /** The first name of the first group is among the names. */
  lemma {:induction false} ListedFirst(servers: seq<ServerSpec>)
    requires |servers| > 0 && |servers[0].names| > 0
    ensures servers[0].names[0] in ListedNames(servers)
    decreases |servers|
  {
    var n := |servers| - 1;
    if n > 0 {
      ListedFirst(servers[..n]);
    }
  }

  /** A node as the engine backends visit it: its group and its expanded name. */
  datatype Node = Node(group: ServerSpec, name: string)

  /** The nodes of one group: the group's names expanded from its pattern,
      count and offset (the source passes offset + 1 as the first index). */
  function GroupNodes(s: ServerSpec, expand: Expander): (nodes: seq<Node>)
    ensures |nodes| == |expand(s.name, s.count, s.countOffset + 1)|
    ensures forall j :: 0 <= j < |nodes| ==>
      nodes[j] == Node(s, expand(s.name, s.count, s.countOffset + 1)[j])
  {
    var names := expand(s.name, s.count, s.countOffset + 1);
    seq(|names|, j requires 0 <= j < |names| => Node(s, names[j]))
  }

  /** All nodes of all server groups, group after group: the global visiting order. */
  function ExpandedNodes(servers: seq<ServerSpec>, expand: Expander): seq<Node>
    decreases |servers|
  {
    if |servers| == 0 then []
    else ExpandedNodes(servers[..|servers| - 1], expand) + GroupNodes(servers[|servers| - 1], expand)
  }

  /** The nodes of the first groups, and one group more. */
  lemma ExpandedNodesSnoc(servers: seq<ServerSpec>, expand: Expander, si: nat)
    requires si < |servers|
    ensures ExpandedNodes(servers[..si + 1], expand) == ExpandedNodes(servers[..si], expand) + GroupNodes(servers[si], expand)
  {
    assert servers[..si + 1][..si] == servers[..si];
  }

  /** The nodes of the first groups come first among the nodes of all groups. */
  lemma {:induction false} ExpandedNodesPrefix(servers: seq<ServerSpec>, expand: Expander, n: nat)
    requires n <= |servers|
    ensures var first := ExpandedNodes(servers[..n], expand);
      |first| <= |ExpandedNodes(servers, expand)| && ExpandedNodes(servers, expand)[..|first|] == first
    decreases |servers|
  {
    if n < |servers| {
      var init := servers[..|servers| - 1];
      ExpandedNodesPrefix(init, expand, n);
      assert init[..n] == servers[..n];
      var all := ExpandedNodes(servers, expand);
      assert all == ExpandedNodes(init, expand) + GroupNodes(servers[|servers| - 1], expand);
    } else {
      assert servers[..n] == servers;
    }
  }

  /** The names of all gateway nodes, group after group. */
  function GatewayNames(gateways: seq<SyncGatewaySpec>, expand: Expander): seq<string>
    decreases |gateways|
  {
    if |gateways| == 0 then []
    else
      var g := gateways[|gateways| - 1];
      GatewayNames(gateways[..|gateways| - 1], expand) + expand(g.name, g.count, g.countOffset + 1)
  }

  /** No name occurs twice. */
  predicate Distinct(s: seq<string>)
  {
    forall i, j :: 0 <= i < j < |s| ==> s[i] != s[j]
  }

  /** The position of the first occurrence of `x` in `s`. */
  function FirstIndex(s: seq<string>, x: string): (k: nat)
    requires x in s
    ensures k < |s| && s[k] == x
    ensures forall j :: 0 <= j < k ==> s[j] != x
  {
    if s[0] == x then 0 else 1 + FirstIndex(s[1..], x)
  }

  /** A name list without repetitions has as many distinct names as entries. */
  lemma {:induction false} DistinctCard(s: seq<string>)
    requires Distinct(s)
    ensures |set x | x in s| == |s|
    decreases |s|
  {
    if |s| > 0 {
      var init := s[..|s| - 1];
      DistinctCard(init);
      var last := s[|s| - 1];
      assert (set x | x in s) == (set x | x in init) + {last} by {
        assert s == init + [last];
      }
      assert last !in init;
    }
  }
}
