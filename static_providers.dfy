/**
 * The two backends that launch nothing: a host list read from a file, and a
 * developer's running local cluster reached at one endpoint on consecutive
 * ports. Both hand out addresses to node names by global position: the k-th
 * name across all server groups (0-based) gets the k-th address.
 */
module StaticProviders {
  import opened Wrappers
  import opened Text
  import opened Topology

  /** The map after visiting `names` in order, giving the k-th name `values[k]`
      when that value exists and leaving it alone otherwise. A later name
      overwrites an earlier equal one. */
  function AssignInOrder(m: map<string, string>, names: seq<string>, values: seq<string>): map<string, string>
    decreases |names|
  {
    if |names| == 0 then m
    else
      var k := |names| - 1;
      var prev := AssignInOrder(m, names[..k], values);
      if k < |values| then prev[names[k] := values[k]] else prev
  }

  /** Visiting one more name of the group being walked. */
  lemma AssignStep(m: map<string, string>, done: seq<string>, names: seq<string>, ni: nat, values: seq<string>, k: nat)
    requires ni < |names| && k == |done| + ni
    ensures AssignInOrder(m, done + names[..ni + 1], values) ==
      if k < |values| then AssignInOrder(m, done + names[..ni], values)[names[ni] := values[k]]
      else AssignInOrder(m, done + names[..ni], values)
  {
    var v := done + names[..ni + 1];
    assert v[..|v| - 1] == done + names[..ni];
  }

  function Min(a: int, b: int): int
  {
    if a <= b then a else b
  }

  /** With distinct names, the k-th name is given `values[k]` exactly when
      `k < |values|`; names past the end of `values`, and names not visited,
      keep what they had. */
  lemma {:induction false} AssignInOrderMeaning(m: map<string, string>, names: seq<string>, values: seq<string>)
    requires Distinct(names)
    ensures var r := AssignInOrder(m, names, values);
      && (forall k :: 0 <= k < |names| && k < |values| ==> names[k] in r && r[names[k]] == values[k])
      && (forall x :: x in r <==> x in m || x in names[..Min(|names|, |values|)])
      && (forall x :: x in m && x !in names[..Min(|names|, |values|)] ==> r[x] == m[x])
    decreases |names|
  {
    if |names| > 0 {
      var k := |names| - 1;
      var init := names[..k];
      AssignInOrderMeaning(m, init, values);
      assert forall j :: 0 <= j < k ==> init[j] == names[j];
      if k < |values| {
        assert names[..Min(|names|, |values|)] == init + [names[k]];
        assert init[..Min(|init|, |values|)] == init;
      } else {
        assert names[..Min(|names|, |values|)] == init[..Min(|init|, |values|)];
      }
    }
  }

  /** Starting from an empty map, exactly `min(#names, #values)` names receive an address. */
  lemma AssignInOrderCount(names: seq<string>, values: seq<string>)
    requires Distinct(names)
    ensures |AssignInOrder(map[], names, values)| == Min(|names|, |values|)
  {
    var r := AssignInOrder(map[], names, values);
    AssignInOrderMeaning(map[], names, values);
    var firsts := names[..Min(|names|, |values|)];
    assert Distinct(firsts);
    DistinctCard(firsts);
    assert r.Keys == set x | x in firsts;
  }

  /** The address a backend recorded for a node name, or the empty text (Go's
      zero value) for a name never assigned. */
  function RecordedAddress(serverNameIp: map<string, string>, name: string): (addr: string)
    ensures name in serverNameIp ==> addr == serverNameIp[name]
    ensures name !in serverNameIp ==> addr == ""
  {
    if name in serverNameIp then serverNameIp[name] else ""
  }

  /** After the positional assignment of distinct names, the k-th name's
      address is `values[k]` while there are values; past their end it is
      what the map held before. */
  lemma AssignedAddress(m: map<string, string>, names: seq<string>, values: seq<string>, k: nat)
    requires Distinct(names) && k < |names|
    ensures RecordedAddress(AssignInOrder(m, names, values), names[k]) ==
      if k < |values| then values[k] else RecordedAddress(m, names[k])
  {
    AssignInOrderMeaning(m, names, values);
    if k >= |values| {
      assert names[k] !in names[..Min(|names|, |values|)];
    }
  }

  /** The static-file backend: node name to host address. */
  class FileProvider {
    var servers: seq<ServerSpec>
    var syncGateways: seq<SyncGatewaySpec>
    var serverNameIp: map<string, string>
    var hostFile: string

    constructor (servers: seq<ServerSpec>, syncGateways: seq<SyncGatewaySpec>, hostFile: string)
      ensures this.servers == servers && this.syncGateways == syncGateways
      ensures this.hostFile == hostFile && serverNameIp == map[]
    {
      this.servers := servers;
      this.syncGateways := syncGateways;
      this.hostFile := hostFile;
      serverNameIp := map[];
    }

    /** The recorded address, or the empty text for a name never assigned. */
    function GetHostAddress(name: string): string
      reads this
    {
      RecordedAddress(serverNameIp, name)
    }

    /** The node's address followed by the fixed REST port. */
    function GetRestUrl(name: string): (url: string)
      reads this
      ensures |url| >= 5 && url[|url| - 5..] == ":8091"
      ensures url[..|url| - 5] == GetHostAddress(name)
    {
      GetHostAddress(name) + ":8091"
    }

    /** Reads the space-separated host list from `providers/file/<hostFile>`
        (its decoded text is `hostNames(path)`) and gives the k-th name of all
        groups the k-th host, while there are hosts left. */
    method ProvideCouchbaseServers(hostNames: string -> string, servers: seq<ServerSpec>)
      returns (path: string)
      modifies this`serverNameIp
      ensures path == "providers/file/" + hostFile
      ensures serverNameIp == AssignInOrder(old(serverNameIp), ListedNames(servers), Split(hostNames(path), ' '))
    {
      path := "providers/file/" + hostFile;
      var hosts := Split(hostNames(path), ' ');
      ghost var m0 := serverNameIp;
      var i: nat := 0;
      for si := 0 to |servers|
        invariant i == |ListedNames(servers[..si])|
        invariant serverNameIp == AssignInOrder(m0, ListedNames(servers[..si]), hosts)
      {
        var names := servers[si].names;
        ghost var done := ListedNames(servers[..si]);
        assert done + names[..0] == done;
        for ni := 0 to |names|
          invariant i == |done| + ni
          invariant serverNameIp == AssignInOrder(m0, done + names[..ni], hosts)
        {
          AssignStep(m0, done, names, ni, hosts, i);
          if i < |hosts| {
            serverNameIp := serverNameIp[names[ni] := hosts[i]];
          }
          i := i + 1;
        }
        ListedSnoc(servers, si);
        assert names[..|names|] == names;
      }
      assert servers[..|servers|] == servers;
    }

    /** Gateways cannot be provisioned on this backend. */
    method ProvideSyncGateways(syncGateways: seq<SyncGatewaySpec>) returns (r: Outcome<ProvisionError>)
      ensures r.Fail? <==> |syncGateways| > 0
      ensures r.Fail? ==> r.error == GatewaysUnsupported("FileProvider")
    {
      if |syncGateways| > 0 {
        return Fail(GatewaysUnsupported("FileProvider"));
      }
      return Pass;
    }
  }

  /** The address of the node at global position `k` on a local dev cluster. */
  function DevAddress(endpoint: string, k: nat): string
  {
    endpoint + ":" + Itoa(9000 + k)
  }

  /** The addresses of the first `n` positions. */
  function DevAddresses(endpoint: string, n: nat): (addrs: seq<string>)
    ensures |addrs| == n
    ensures forall k :: 0 <= k < n ==> addrs[k] == DevAddress(endpoint, k)
  {
    seq(n, k requires 0 <= k < n => DevAddress(endpoint, k))
  }

  /** A dev-cluster address is the endpoint, a colon, and a port text that
      reads back as `9000 + k`. */
  lemma DevAddressPort(endpoint: string, k: nat)
    ensures var addr := DevAddress(endpoint, k);
      && HasPrefix(addr, endpoint + ":")
      && Atoi(LastSegment(addr, ':')) == Some(9000 + k)
  {
    ItoaHasNo(9000 + k, ':');
    LastSegmentAfter(endpoint, Itoa(9000 + k), ':');
    AtoiItoa(9000 + k);
    var addr := DevAddress(endpoint, k);
    assert addr == endpoint + [':'] + Itoa(9000 + k);
    assert addr[..|endpoint| + 1] == endpoint + ":";
  }

  /** The local dev-cluster backend: node name to endpoint and port. */
  class ClusterRunProvider {
    var servers: seq<ServerSpec>
    var syncGateways: seq<SyncGatewaySpec>
    var serverNameIp: map<string, string>
    var endpoint: string

    constructor (servers: seq<ServerSpec>, syncGateways: seq<SyncGatewaySpec>, endpoint: string)
      ensures this.servers == servers && this.syncGateways == syncGateways
      ensures this.endpoint == endpoint && serverNameIp == map[]
    {
      this.servers := servers;
      this.syncGateways := syncGateways;
      this.endpoint := endpoint;
      serverNameIp := map[];
    }

    /** The recorded address, or the empty text for a name never assigned. */
    function GetHostAddress(name: string): string
      reads this
    {
      RecordedAddress(serverNameIp, name)
    }

    /** Gives the k-th name of all groups the port `9000 + k` on the endpoint. */
    method ProvideCouchbaseServers(servers: seq<ServerSpec>)
      modifies this`serverNameIp
      ensures serverNameIp ==
        AssignInOrder(old(serverNameIp), ListedNames(servers), DevAddresses(endpoint, |ListedNames(servers)|))
    {
      var ep := endpoint;
      ghost var all := DevAddresses(ep, |ListedNames(servers)|);
      ghost var m0 := serverNameIp;
      var i: nat := 0;
      for si := 0 to |servers|
        invariant i == |ListedNames(servers[..si])|
        invariant serverNameIp == AssignInOrder(m0, ListedNames(servers[..si]), all)
      {
        var names := servers[si].names;
        ghost var done := ListedNames(servers[..si]);
        ListedSnoc(servers, si);
        ListedLength(servers, si + 1);
        assert done + names[..0] == done;
        for ni := 0 to |names|
          invariant i == |done| + ni
          invariant serverNameIp == AssignInOrder(m0, done + names[..ni], all)
        {
          DevStep(m0, done, names, ni, ep, |ListedNames(servers)|, i);
          serverNameIp := serverNameIp[names[ni] := DevAddress(ep, i)];
          i := i + 1;
        }
        assert names[..|names|] == names;
      }
      assert servers[..|servers|] == servers;
    }

    /** Recomputes a node's address from its first global position among
        this provider's own groups, or answers "<no_host>" for an unknown name. */
    method GetRestUrl(name: string) returns (url: string)
      ensures name in ListedNames(servers) ==>
        url == DevAddress(endpoint, FirstIndex(ListedNames(servers), name))
      ensures name !in ListedNames(servers) ==> url == "<no_host>"
    {
      var i: nat := 0;
      for si := 0 to |servers|
        invariant i == |ListedNames(servers[..si])|
        invariant name !in ListedNames(servers[..si])
      {
        var names := servers[si].names;
        ghost var done := ListedNames(servers[..si]);
        assert done + names[..0] == done;
        for ni := 0 to |names|
          invariant i == |done| + ni
          invariant name !in done + names[..ni]
        {
          if names[ni] == name {
            FoundAt(servers, si, ni, name, i);
            return DevAddress(endpoint, i);
          }
          i := i + 1;
          assert done + names[..ni + 1] == (done + names[..ni]) + [names[ni]];
        }
        ListedSnoc(servers, si);
        assert names[..|names|] == names;
      }
      assert servers[..|servers|] == servers;
      return "<no_host>";
    }

    /** Gateways cannot be provisioned on this backend. */
    method ProvideSyncGateways(syncGateways: seq<SyncGatewaySpec>) returns (r: Outcome<ProvisionError>)
      ensures r.Fail? <==> |syncGateways| > 0
      ensures r.Fail? ==> r.error == GatewaysUnsupported("ClusterRunProvider")
    {
      if |syncGateways| > 0 {
        return Fail(GatewaysUnsupported("ClusterRunProvider"));
      }
      return Pass;
    }
  }

  /** The names of the first groups are a prefix of the names of all groups. */
  lemma {:induction false} ListedPrefix(servers: seq<ServerSpec>, n: nat)
    requires n <= |servers|
    ensures HasPrefixSeq(ListedNames(servers), ListedNames(servers[..n]))
    decreases |servers|
  {
    if n < |servers| {
      var init := servers[..|servers| - 1];
      ListedPrefix(init, n);
      assert init[..n] == servers[..n];
    } else {
      assert servers[..n] == servers;
    }
  }

  /** The names of one more group follow the names of the groups before it. */
  lemma ListedSnoc(servers: seq<ServerSpec>, si: nat)
    requires si < |servers|
    ensures ListedNames(servers[..si + 1]) == ListedNames(servers[..si]) + servers[si].names
  {
    assert servers[..si + 1][..si] == servers[..si];
  }

  /** A name met first at position `ni` of group `si` sits at that global position. */
  lemma FoundAt(servers: seq<ServerSpec>, si: nat, ni: nat, name: string, k: nat)
    requires si < |servers| && ni < |servers[si].names| && servers[si].names[ni] == name
    requires name !in ListedNames(servers[..si]) + servers[si].names[..ni]
    requires k == |ListedNames(servers[..si])| + ni
    ensures name in ListedNames(servers)
    ensures FirstIndex(ListedNames(servers), name) == k
  {
    var p := ListedNames(servers[..si]) + servers[si].names[..ni];
    ListedSnoc(servers, si);
    ListedPrefix(servers, si + 1);
    var q := ListedNames(servers[..si + 1]);
    assert q[..|p| + 1] == p + [name];
    assert ListedNames(servers)[..|p| + 1] == q[..|p| + 1];
    FirstIndexOfPrefix(ListedNames(servers), p, name);
  }

  /** The first groups have no more names than all groups. */
  lemma ListedLength(servers: seq<ServerSpec>, n: nat)
    requires n <= |servers|
    ensures |ListedNames(servers[..n])| <= |ListedNames(servers)|
  {
    ListedPrefix(servers, n);
  }

  /** One step of the dev cluster's inner loop: the next name gets the port
      of its global position. */
  lemma DevStep(m: map<string, string>, done: seq<string>, names: seq<string>, ni: nat, endpoint: string, n: nat, k: nat)
    requires ni < |names| && |done| + |names| <= n && k == |done| + ni
    ensures AssignInOrder(m, done + names[..ni + 1], DevAddresses(endpoint, n)) ==
      AssignInOrder(m, done + names[..ni], DevAddresses(endpoint, n))[names[ni] := DevAddress(endpoint, k)]
  {
    var all := DevAddresses(endpoint, n);
    AssignStep(m, done, names, ni, all, k);
    assert all[k] == DevAddress(endpoint, k);
  }

  predicate HasPrefixSeq(s: seq<string>, p: seq<string>)
  {
    |p| <= |s| && s[..|p|] == p
  }

  /** A name that first appears right after a prefix is found at the prefix's length. */
  lemma FirstIndexOfPrefix(s: seq<string>, p: seq<string>, x: string)
    requires HasPrefixSeq(s, p + [x]) && x !in p
    ensures x in s && FirstIndex(s, x) == |p|
  {
    assert s[|p|] == x;
    var k := FirstIndex(s, x);
    assert forall j :: 0 <= j < |p| ==> s[j] == p[j];
  }

  /** With distinct names, the address the dev cluster recorded for a node and
      the address it recomputes for it agree. */
  lemma DevAddressesAgree(endpoint: string, names: seq<string>, name: string)
    requires Distinct(names) && name in names
    ensures var m := AssignInOrder(map[], names, DevAddresses(endpoint, |names|));
      name in m && m[name] == DevAddress(endpoint, FirstIndex(names, name))
  {
    AssignInOrderMeaning(map[], names, DevAddresses(endpoint, |names|));
  }

  /** The host list of the static-file example reads as two hosts. */
  lemma ExampleHosts()
    ensures Split("10.0.0.1 10.0.0.2", ' ') == ["10.0.0.1", "10.0.0.2"]
  {
    var hosts := ["10.0.0.1", "10.0.0.2"];
    assert Separated(hosts, ' ');
    SplitJoin(hosts, ' ');
    assert Join(hosts, ' ') == "10.0.0.1 10.0.0.2";
  }

  /** The static-file example: with the hosts above, three nodes get two
      hosts and the third stays unassigned. */
  lemma FileExample()
    ensures var names := ["node_1", "node_2", "node_3"];
      var m := AssignInOrder(map[], names, ["10.0.0.1", "10.0.0.2"]);
      m == map["node_1" := "10.0.0.1", "node_2" := "10.0.0.2"]
  {
    var hosts := ["10.0.0.1", "10.0.0.2"];
    var names := ["node_1", "node_2", "node_3"];
    assert Distinct(names);
    AssignInOrderMeaning(map[], names, hosts);
    var m := AssignInOrder(map[], names, hosts);
    var expected := map["node_1" := "10.0.0.1", "node_2" := "10.0.0.2"];
    assert names[..Min(|names|, |hosts|)] == ["node_1", "node_2"];
    assert m.Keys == expected.Keys;
    assert m["node_1"] == hosts[0] && m["node_2"] == hosts[1];
  }
}
