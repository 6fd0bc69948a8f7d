/**
 The virtual network's configuration and the routing policy built from it
 (internal/config/vnetwork.go, internal/vnet/router.go).
 */
module VNetPolicy {
  import opened Addresses
  import opened PortRanges
  import opened Options

  const MAX_NODES := 256
  const MAX_CHANNELS := 8

  datatype Mode = Default | Tun | Loopback | Other

  /** A parsed text is canonical if it is the parsed value's own text. */
  datatype CidrText = BadCidr | Cidr(prefix: IPPrefix, canonical: bool)
  datatype HostText = BadHost | Host(address: Address, canonical: bool)

  datatype Ports = Ports(tcp: seq<PortRange>, udp: seq<PortRange>)

  datatype Node = Node(clientID: string, ip: HostText, ports: Ports)

  datatype Config = Config(
    enabled: bool, mode: Mode, cidr: CidrText, serverIP: HostText, packetChannels: int, serverPorts: Ports, nodes: seq<Node>)

  predicate IsIPv4(a: Address) { a.width == 32 && !a.zoned }

  /** 1 to 64 letters, digits, dots, underscores or hyphens. */
  predicate ValidClientID(id: string) {
    1 <= |id| <= 64 &&
    forall i | 0 <= i < |id| ::
      || 'a' <= id[i] <= 'z' || 'A' <= id[i] <= 'Z' || '0' <= id[i] <= '9'
      || id[i] == '.' || id[i] == '_' || id[i] == '-'
  }

  /** 10.0.0.0/8, 172.16.0.0/12 and 192.168.0.0/16. */
  predicate IsPrivate(a: Address) {
    a.width == 32 &&
    (Shift(a.value, 24) == 10 || Shift(a.value, 20) == 172 * 16 + 1 || Shift(a.value, 16) == 192 * 256 + 168)
  }

  lemma BlockSizes()
    ensures Pow2(16) == 0x1_0000 && Pow2(20) == 0x10_0000 && Pow2(24) == 0x100_0000
  {
    FourMoreBits(0);
    FourMoreBits(4);
    FourMoreBits(8);
    FourMoreBits(12);
    FourMoreBits(16);
    FourMoreBits(20);
  }

  /** 10.0.0.0 to 10.255.255.255, 172.16.0.0 to 172.31.255.255 and 192.168.0.0 to 192.168.255.255. */
  lemma PrivateIsThreeBlocks(a: Address)
    ensures IsPrivate(a) <==>
      && a.width == 32
      && (0x0A00_0000 <= a.value <= 0x0AFF_FFFF || 0xAC10_0000 <= a.value <= 0xAC1F_FFFF || 0xC0A8_0000 <= a.value <= 0xC0A8_FFFF)
  {
    ShiftIsBlock(a.value, 24, 10);
    ShiftIsBlock(a.value, 20, 172 * 16 + 1);
    ShiftIsBlock(a.value, 16, 192 * 256 + 168);
    BlockSizes();
  }

  // ---------------------------------------------------------------------
  // Hosts
  // ---------------------------------------------------------------------

  /** The prefix's address with all host bits set. */
  function Broadcast(p: Prefix): Address
    requires p.bits <= p.width
  {
    var m := Pow2(HostBits(p));
    Address(p.width, p.base - p.base % m + (m - 1), false)
  }

  ghost predicate UsableHost(p: Prefix, a: Address)
    requires p.bits <= p.width
  {
    IsIPv4(a) && Contains(p, a) && a != BaseOf(p) && a != Broadcast(p)
  }

  /** The usable hosts of an aligned network are those strictly between its first and its last address. */
  lemma UsableIsInterior(p: Prefix, a: Address)
    requires p.bits <= p.width == 32 && Aligned(p)
    ensures UsableHost(p, a) <==> IsIPv4(a) && p.base < a.value < p.base + Pow2(HostBits(p)) - 1
  {
    if IsIPv4(a) {
      PrefixIsInterval(p, a);
    }
  }

  method ParseVNetHost(p: IPPrefix, source: HostText) returns (address: Option<Address>)
    ensures address.Some? <==> source.Host? && source.canonical && UsableHost(p, source.address)
    ensures address.Some? ==> address.value == source.address
  {
    if source.BadHost? || !IsIPv4(source.address) || !source.canonical {
      return None;
    }
    var a := source.address;
    if !Contains(p, a) {
      return None;
    }
    if a == BaseOf(p) || a == Broadcast(p) {
      return None;
    }
    return Some(a);
  }

  // ---------------------------------------------------------------------
  // Validation
  // ---------------------------------------------------------------------

  ghost predicate SortedPorts(ports: Ports) { Sorted(ports.tcp) && Sorted(ports.udp) }

  predicate PortsConfigured(ports: Ports) { ports.tcp != [] || ports.udp != [] }

  ghost predicate ValidHost(cidr: CidrText, host: HostText) {
    cidr.Cidr? && host.Host? && host.canonical && UsableHost(cidr.prefix, host.address)
  }

  ghost predicate ValidCidr(cidr: CidrText) {
    && cidr.Cidr? && cidr.canonical && cidr.prefix.width == 32 && Aligned(cidr.prefix)
    && IsPrivate(BaseOf(cidr.prefix)) && cidr.prefix.bits <= 30
  }

  /** A node is valid by itself. */
  ghost predicate Fits(cidr: CidrText, node: Node) {
    ValidClientID(node.clientID) && ValidHost(cidr, node.ip) && SortedPorts(node.ports)
  }

  /** Nodes have different IDs and different addresses, none of them the server's. */
  ghost predicate NodesDiffer(nodes: seq<Node>, serverIP: Address) {
    && (forall k | 0 <= k < |nodes| ::
          nodes[k].ip.Host? && IsIPv4(nodes[k].ip.address) && nodes[k].clientID != "" && nodes[k].ip.address != serverIP)
    && (forall k, l | 0 <= k < l < |nodes| ::
          nodes[k].clientID != nodes[l].clientID && nodes[k].ip.address != nodes[l].ip.address)
  }

  lemma OneMoreDiffers(nodes: seq<Node>, node: Node, serverIP: Address)
    requires NodesDiffer(nodes, serverIP) && node.ip.Host? && IsIPv4(node.ip.address)
    requires node.clientID != "" && node.ip.address != serverIP
    requires forall k | 0 <= k < |nodes| :: nodes[k].clientID != node.clientID && nodes[k].ip.address != node.ip.address
    ensures NodesDiffer(nodes + [node], serverIP)
  {
  }

  ghost predicate ValidNodes(config: Config) {
    && config.serverIP.Host?
    && AllFit(config.cidr, config.nodes) && NodesDiffer(config.nodes, config.serverIP.address)
  }

  ghost predicate AllFit(cidr: CidrText, nodes: seq<Node>) { forall node <- nodes :: Fits(cidr, node) }

  ghost predicate AnyPorts(nodes: seq<Node>) { exists node <- nodes :: PortsConfigured(node.ports) }

  lemma OneMoreFits(cidr: CidrText, nodes: seq<Node>, node: Node)
    ensures AllFit(cidr, nodes + [node]) <==> AllFit(cidr, nodes) && Fits(cidr, node)
    ensures AnyPorts(nodes + [node]) <==> AnyPorts(nodes) || PortsConfigured(node.ports)
  {
    assert node in nodes + [node];
    assert forall n :: n in nodes + [node] <==> n in nodes || n == node;
  }

  /** What an accepted configuration is. */
  ghost predicate ValidNetwork(config: Config) {
    && !config.mode.Other? && ValidCidr(config.cidr) && ValidHost(config.cidr, config.serverIP)
    && 1 <= config.packetChannels <= MAX_CHANNELS && |config.nodes| <= MAX_NODES && SortedPorts(config.serverPorts)
    && ValidNodes(config)
    && (config.enabled ==>
          PortsConfigured(config.serverPorts) || AnyPorts(config.nodes))
  }

  method ValidateVNetPorts(ports: Ports) returns (ok: bool)
    ensures ok <==> SortedPorts(ports)
  {
    var tcp := ValidateSortedPortRanges(ports.tcp);
    if !tcp {
      return false;
    }
    ok := ValidateSortedPortRanges(ports.udp);
  }

  method ValidateCidr(cidr: CidrText) returns (ok: bool)
    ensures ok <==> ValidCidr(cidr)
  {
    return cidr.Cidr? && cidr.prefix.width == 32 && Aligned(cidr.prefix) && cidr.canonical &&
           IsPrivate(BaseOf(cidr.prefix)) && cidr.prefix.bits <= 30;
  }

  method CheckNode(cidr: CidrText, node: Node) returns (address: Option<Address>)
    requires cidr.Cidr?
    ensures address.Some? <==> Fits(cidr, node)
    ensures address.Some? ==> node.ip.Host? && address.value == node.ip.address && IsIPv4(node.ip.address) && node.clientID != ""
  {
    if !ValidClientID(node.clientID) {
      return None;
    }
    address := ParseVNetHost(cidr.prefix, node.ip);
    if address.Some? {
      var ports := ValidateVNetPorts(node.ports);
      if !ports {
        return None;
      }
    }
  }

  ghost function IDsOf(nodes: seq<Node>): set<string> { set node <- nodes :: node.clientID }

  ghost function AddressesOf(nodes: seq<Node>): set<Address> { set node <- nodes | node.ip.Host? :: node.ip.address }

  /** The IDs and addresses taken by some nodes; the server's address counts as taken. */
  ghost predicate Taken(nodes: seq<Node>, serverIP: Address, clientIDs: set<string>, addresses: set<Address>) {
    clientIDs == IDsOf(nodes) && addresses == AddressesOf(nodes) + {serverIP}
  }

  lemma TakenStep(nodes: seq<Node>, node: Node, serverIP: Address, clientIDs: set<string>, addresses: set<Address>)
    requires Taken(nodes, serverIP, clientIDs, addresses) && node.ip.Host?
    ensures Taken(nodes + [node], serverIP, clientIDs + {node.clientID}, addresses + {node.ip.address})
  {
    assert forall n :: n in nodes + [node] <==> n in nodes || n == node;
    assert IDsOf(nodes + [node]) == IDsOf(nodes) + {node.clientID};
    assert AddressesOf(nodes + [node]) == AddressesOf(nodes) + {node.ip.address};
  }

  lemma TakenBreaks(nodes: seq<Node>, i: nat, serverIP: Address, clientIDs: set<string>, addresses: set<Address>)
    requires i < |nodes| && Taken(nodes[..i], serverIP, clientIDs, addresses) && nodes[i].ip.Host?
    requires nodes[i].clientID in clientIDs || nodes[i].ip.address in addresses
    ensures !NodesDiffer(nodes, serverIP)
  {
    assert forall k | 0 <= k < i :: nodes[..i][k] == nodes[k];
  }

  lemma UntakenDiffers(nodes: seq<Node>, node: Node, serverIP: Address, clientIDs: set<string>, addresses: set<Address>)
    requires NodesDiffer(nodes, serverIP) && Taken(nodes, serverIP, clientIDs, addresses)
    requires node.ip.Host? && IsIPv4(node.ip.address) && node.clientID != ""
    requires node.clientID !in clientIDs && node.ip.address !in addresses
    ensures NodesDiffer(nodes + [node], serverIP)
  {
    forall k | 0 <= k < |nodes| ensures nodes[k].clientID != node.clientID && nodes[k].ip.address != node.ip.address {
      assert nodes[k] in nodes;
    }
    OneMoreDiffers(nodes, node, serverIP);
  }

  /** What the loop has established of the nodes it has seen. */
  ghost predicate Checked(cidr: CidrText, serverIP: Address, nodes: seq<Node>, clientIDs: set<string>, addresses: set<Address>) {
    AllFit(cidr, nodes) && NodesDiffer(nodes, serverIP) && Taken(nodes, serverIP, clientIDs, addresses)
  }

  lemma CheckedStep(cidr: CidrText, serverIP: Address, nodes: seq<Node>, clientIDs: set<string>, addresses: set<Address>,
                    node: Node)
    requires Checked(cidr, serverIP, nodes, clientIDs, addresses)
    requires Fits(cidr, node) && node.ip.Host? && IsIPv4(node.ip.address) && node.clientID != ""
    requires node.clientID !in clientIDs && node.ip.address !in addresses
    ensures Checked(cidr, serverIP, nodes + [node], clientIDs + {node.clientID}, addresses + {node.ip.address})
  {
    OneMoreFits(cidr, nodes, node);
    UntakenDiffers(nodes, node, serverIP, clientIDs, addresses);
    TakenStep(nodes, node, serverIP, clientIDs, addresses);
  }

  lemma RefusedNode(config: Config, i: nat)
    requires i < |config.nodes| && !Fits(config.cidr, config.nodes[i])
    ensures !ValidNodes(config)
  {
    assert config.nodes[i] in config.nodes;
  }

  /** The loop over the nodes. */
  method ValidateNodes(config: Config) returns (ok: bool, hasPorts: bool)
    requires config.cidr.Cidr? && config.serverIP.Host?
    ensures ok <==> ValidNodes(config)
    ensures ok ==> (hasPorts <==> AnyPorts(config.nodes))
  {
    var nodes, serverIP := config.nodes, config.serverIP.address;
    var clientIDs: set<string> := {};
    var addresses := {serverIP};
    hasPorts := false;
    for i := 0 to |nodes|
      invariant Checked(config.cidr, serverIP, nodes[..i], clientIDs, addresses)
      invariant hasPorts <==> AnyPorts(nodes[..i])
    {
      var node := nodes[i];
      var address := CheckNode(config.cidr, node);
      if address.None? {
        RefusedNode(config, i);
        return false, hasPorts;
      }
      if node.clientID in clientIDs || address.value in addresses {
        TakenBreaks(nodes, i, serverIP, clientIDs, addresses);
        return false, hasPorts;
      }
      assert nodes[..i + 1] == nodes[..i] + [node];
      OneMoreFits(config.cidr, nodes[..i], node);
      CheckedStep(config.cidr, serverIP, nodes[..i], clientIDs, addresses, node);
      clientIDs, addresses := clientIDs + {node.clientID}, addresses + {address.value};
      hasPorts := hasPorts || PortsConfigured(node.ports);
    }
    assert nodes[..|nodes|] == nodes;
    return true, hasPorts;
  }

  /** Accepts exactly the configurations described by ValidNetwork. */
  method ValidateVirtualNetworkConfig(config: Config) returns (ok: bool)
    ensures ok <==> ValidNetwork(config)
  {
    if config.mode.Other? {
      return false;
    }
    var cidr := ValidateCidr(config.cidr);
    if !cidr {
      return false;
    }
    var serverIP := ParseVNetHost(config.cidr.prefix, config.serverIP);
    if serverIP.None? || config.packetChannels < 1 || config.packetChannels > MAX_CHANNELS || |config.nodes| > MAX_NODES {
      return false;
    }
    var ports := ValidateVNetPorts(config.serverPorts);
    if !ports {
      return false;
    }
    var nodes, hasPorts := ValidateNodes(config);
    if !nodes {
      return false;
    }
    return !config.enabled || PortsConfigured(config.serverPorts) || hasPorts;
  }

  // ---------------------------------------------------------------------
  // The routing policy
  // ---------------------------------------------------------------------

  datatype EndpointPolicy = EndpointPolicy(clientID: string, ports: Ports)

  datatype RoutingPolicy = RoutingPolicy(
    enabled: bool,
    serverIP: Address,
    packetChannels: int,
    byIP: map<Address, EndpointPolicy>,
    byClientID: map<string, Address>)

  /** byIP and byClientID are inverse on the nodes, and the server is the one address without a client. */
  ghost predicate Consistent(policy: RoutingPolicy) {
    && policy.serverIP in policy.byIP && policy.byIP[policy.serverIP].clientID == ""
    && "" !in policy.byClientID
    && (forall c <- policy.byClientID ::
          policy.byClientID[c] != policy.serverIP && policy.byClientID[c] in policy.byIP &&
          policy.byIP[policy.byClientID[c]].clientID == c)
    && (forall ip <- policy.byIP | ip != policy.serverIP ::
          policy.byIP[ip].clientID in policy.byClientID && policy.byClientID[policy.byIP[ip].clientID] == ip)
  }

  /** What buildRoutingPolicy demands of its input. */
  ghost predicate Buildable(config: Config) {
    && config.serverIP.Host? && IsIPv4(config.serverIP.address) && 1 <= config.packetChannels <= MAX_CHANNELS
    && NodesDiffer(config.nodes, config.serverIP.address)
  }

  /** The nodes entered so far are exactly the first ones. */
  ghost predicate Enters(policy: RoutingPolicy, config: Config, count: nat)
    requires count <= |config.nodes| && forall k | 0 <= k < count :: config.nodes[k].ip.Host?
  {
    && (forall k | 0 <= k < count ::
          var node := config.nodes[k];
          && node.clientID in policy.byClientID && policy.byClientID[node.clientID] == node.ip.address
          && node.ip.address in policy.byIP && policy.byIP[node.ip.address] == EndpointPolicy(node.clientID, node.ports))
    && (forall ip <- policy.byIP | ip != policy.serverIP :: exists k | 0 <= k < count :: config.nodes[k].ip.address == ip)
    && (forall c <- policy.byClientID :: exists k | 0 <= k < count :: config.nodes[k].clientID == c)
  }

  /** What is known after the first nodes have been entered. */
  ghost predicate EnteredSoFar(policy: RoutingPolicy, config: Config, count: nat) {
    && count <= |config.nodes| && config.serverIP.Host? && policy.serverIP == config.serverIP.address
    && policy.enabled == config.enabled && NodesDiffer(config.nodes[..count], policy.serverIP)
    && (forall k | 0 <= k < count :: config.nodes[..count][k] == config.nodes[k])
    && Consistent(policy) && Enters(policy, config, count)
    && policy.byIP[policy.serverIP].ports == config.serverPorts
  }

  function WithNode(policy: RoutingPolicy, node: Node): RoutingPolicy
    requires node.ip.Host?
  {
    policy.(byIP := policy.byIP[node.ip.address := EndpointPolicy(node.clientID, node.ports)],
            byClientID := policy.byClientID[node.clientID := node.ip.address])
  }

  lemma NodeStaysConsistent(policy: RoutingPolicy, node: Node)
    requires Consistent(policy) && node.ip.Host? && node.clientID != ""
    requires node.ip.address !in policy.byIP && node.clientID !in policy.byClientID
    ensures Consistent(WithNode(policy, node))
  {
  }

  lemma NodeEnters(policy: RoutingPolicy, config: Config, i: nat)
    requires i < |config.nodes| && (forall k | 0 <= k <= i :: config.nodes[k].ip.Host?) && Enters(policy, config, i)
    requires config.nodes[i].ip.address !in policy.byIP && config.nodes[i].clientID !in policy.byClientID
    ensures Enters(WithNode(policy, config.nodes[i]), config, i + 1)
  {
  }

  lemma EnteredStep(policy: RoutingPolicy, config: Config, i: nat)
    requires EnteredSoFar(policy, config, i) && i < |config.nodes|
    requires config.nodes[i].ip.Host? && IsIPv4(config.nodes[i].ip.address) && config.nodes[i].clientID != ""
    requires config.nodes[i].ip.address !in policy.byIP && config.nodes[i].clientID !in policy.byClientID
    ensures EnteredSoFar(WithNode(policy, config.nodes[i]), config, i + 1)
  {
    assert forall k | 0 <= k < i :: config.nodes[..i][k].ip.Host?;
    OneMoreDiffers(config.nodes[..i], config.nodes[i], policy.serverIP);
    assert config.nodes[..i + 1] == config.nodes[..i] + [config.nodes[i]];
    NodeStaysConsistent(policy, config.nodes[i]);
    NodeEnters(policy, config, i);
  }

  lemma TakenMeansDuplicate(policy: RoutingPolicy, config: Config, i: nat)
    requires EnteredSoFar(policy, config, i) && i < |config.nodes| && config.nodes[i].ip.Host?
    requires config.nodes[i].ip.address in policy.byIP || config.nodes[i].clientID in policy.byClientID
    ensures !Buildable(config)
  {
    assert forall k | 0 <= k < i :: config.nodes[..i][k] == config.nodes[k];
  }

  method BuildRoutingPolicy(config: Config) returns (result: Option<RoutingPolicy>)
    ensures result.Some? <==> Buildable(config)
    ensures result.Some? ==>
      && Consistent(result.value) && Enters(result.value, config, |config.nodes|)
      && result.value.enabled == config.enabled && result.value.serverIP == config.serverIP.address
      && result.value.byIP[config.serverIP.address].ports == config.serverPorts
  {
    if config.serverIP.BadHost? || !IsIPv4(config.serverIP.address) ||
       config.packetChannels < 1 || config.packetChannels > MAX_CHANNELS {
      return None;
    }
    var serverIP := config.serverIP.address;
    var policy := RoutingPolicy(config.enabled, serverIP, config.packetChannels,
                                map[serverIP := EndpointPolicy("", config.serverPorts)], map[]);
    for i := 0 to |config.nodes|
      invariant EnteredSoFar(policy, config, i)
    {
      var node := config.nodes[i];
      if node.ip.BadHost? || !IsIPv4(node.ip.address) || node.clientID == "" {
        return None;
      }
      if node.ip.address in policy.byIP || node.clientID in policy.byClientID {
        TakenMeansDuplicate(policy, config, i);
        return None;
      }
      EnteredStep(policy, config, i);
      policy := WithNode(policy, node);
    }
    assert config.nodes[..|config.nodes|] == config.nodes;
    return Some(policy);
  }

  /** Every configuration the validator accepts is one the router can build a policy from. */
  lemma ValidatedIsBuildable(config: Config)
    requires ValidNetwork(config)
    ensures Buildable(config)
  {
  }

  // ---------------------------------------------------------------------
  // Services
  // ---------------------------------------------------------------------

  datatype Protocol = Tcp | Udp | Unknown

  function PortsFor(ports: Ports, protocol: Protocol): seq<PortRange> {
    match protocol
    case Tcp => ports.tcp
    case Udp => ports.udp
    case Unknown => []
  }

  ghost predicate Allows(endpoint: EndpointPolicy, protocol: Protocol, port: nat) {
    Member(port, PortsFor(endpoint.ports, protocol))
  }

  ghost predicate ServiceAllowed(policy: RoutingPolicy, ip: Address, protocol: Protocol, port: nat) {
    ip in policy.byIP && Allows(policy.byIP[ip], protocol, port)
  }

  ghost predicate Searchable(policy: RoutingPolicy) {
    forall ip <- policy.byIP :: SortedPorts(policy.byIP[ip].ports)
  }

  /** In the policy of a validated configuration every port list can be searched. */
  lemma ValidatedIsSearchable(config: Config, policy: RoutingPolicy)
    requires ValidNetwork(config) && Consistent(policy) && Enters(policy, config, |config.nodes|)
    requires policy.serverIP == config.serverIP.address && policy.byIP[policy.serverIP].ports == config.serverPorts
    ensures Searchable(policy)
  {
    forall ip <- policy.byIP | ip != policy.serverIP ensures SortedPorts(policy.byIP[ip].ports) {
      var k :| 0 <= k < |config.nodes| && config.nodes[k].ip.address == ip;
      assert config.nodes[k] in config.nodes && Fits(config.cidr, config.nodes[k]);
    }
  }

  method EndpointAllows(endpoint: EndpointPolicy, protocol: Protocol, port: nat) returns (allowed: bool)
    requires SortedPorts(endpoint.ports)
    ensures allowed <==> Allows(endpoint, protocol, port)
  {
    if protocol.Unknown? {
      return false;
    }
    allowed := PortAllowed(PortsFor(endpoint.ports, protocol), port);
  }

  method CheckService(policy: RoutingPolicy, ip: Address, protocol: Protocol, port: nat) returns (allowed: bool)
    requires Searchable(policy)
    ensures allowed <==> ServiceAllowed(policy, ip, protocol, port)
  {
    if ip !in policy.byIP {
      return false;
    }
    allowed := EndpointAllows(policy.byIP[ip], protocol, port);
  }
}
