/**
 Where a packet goes and which packets go at all (internal/vnet/router.go),
 said of the policy in force and of the flows in the table.
 */
module RouterLaws {
  import opened Addresses
  import opened PortRanges
  import opened VNetPolicy
  import opened VNetRouter

  // ---------------------------------------------------------------------
  // The recipient
  // ---------------------------------------------------------------------

  /** The verdict names the packet's destination, the router's generation, and whoever the policy says has that address. */
  ghost predicate RightRecipient(policy: RoutingPolicy, generation: nat, flow: Flow, verdict: Verdict) {
    && verdict.Delivered? && verdict.ip == flow.destinationIP && verdict.generation == generation
    && (|| (verdict.ip == policy.serverIP && verdict.clientID == "")
        || (&& verdict.ip != policy.serverIP && verdict.clientID != ""
            && verdict.clientID in policy.byClientID && policy.byClientID[verdict.clientID] == flow.destinationIP))
  }

  lemma ConsistentRecipient(policy: RoutingPolicy, generation: nat, flow: Flow, verdict: Verdict)
    requires Consistent(policy) && flow.destinationIP in policy.byIP
    requires verdict == Delivered(generation, flow.destinationIP,
                                  if flow.destinationIP == policy.serverIP then "" else policy.byIP[flow.destinationIP].clientID)
    ensures RightRecipient(policy, generation, flow, verdict)
  {
  }

  lemma OpenedRecipient(s: State, flow: Flow, now: nat, admission: Admission, maxFlows: nat)
    requires Consistent(s.policy) && flow.destinationIP in s.policy.byIP
    requires Opened(s, flow, now, admission, maxFlows).verdict.Delivered?
    ensures RightRecipient(s.policy, s.generation, flow, Opened(s, flow, now, admission, maxFlows).verdict)
  {
    ConsistentRecipient(s.policy, s.generation, flow, Opened(s, flow, now, admission, maxFlows).verdict);
  }

  lemma CleanRecipient(s: State, flow: Flow, now: nat, admission: Admission, maxFlows: nat)
    requires Consistent(s.policy) && flow.destinationIP in s.policy.byIP
    requires RoutedClean(s, flow, now, admission, maxFlows).verdict.Delivered?
    ensures RightRecipient(s.policy, s.generation, flow, RoutedClean(s, flow, now, admission, maxFlows).verdict)
  {
    if StillActive(s, MakeKey(flow), now) {
      ConsistentRecipient(s.policy, s.generation, flow, RoutedClean(s, flow, now, admission, maxFlows).verdict);
    } else {
      OpenedRecipient(Without(s, MakeKey(flow)), flow, now, admission, maxFlows);
    }
  }

  lemma RoutedRecipient(s: State, flow: Flow, now: nat, purged: set<Key>, admission: Admission, maxFlows: nat)
    requires Consistent(s.policy) && Routed(s, flow, now, purged, admission, maxFlows).verdict.Delivered?
    ensures RightRecipient(s.policy, s.generation, flow, Routed(s, flow, now, purged, admission, maxFlows).verdict)
  {
    CleanRecipient(Cleaned(s, now, purged), flow, now, admission, maxFlows);
  }

  /** In every run each delivered packet goes to whoever the policy in force gives its destination address to. */
  lemma DeliveredToOwner(run: seq<State>, steps: seq<Step>, maxFlows: nat, i: nat)
    requires Follows(run, steps, maxFlows) && i < |steps| && (steps[i].FromClient? || steps[i].FromServer?)
    requires OutcomeOf(run[i], steps[i], maxFlows).verdict.Delivered?
    ensures RightRecipient(run[i].policy, run[i].generation, steps[i].flow, OutcomeOf(run[i], steps[i], maxFlows).verdict)
  {
    PolicyIsConsistent(run, steps, maxFlows, i);
    var step := steps[i];
    RoutedRecipient(run[i], step.flow, step.now, step.purged, step.admission, maxFlows);
  }

  // ---------------------------------------------------------------------
  // Which packets are delivered
  // ---------------------------------------------------------------------

  /** The packet's conversation is in the table and has not expired. */
  ghost predicate Tracked(s: State, flow: Flow, now: nat) {
    MakeKey(flow) in s.flows && now < s.flows[MakeKey(flow)].expiresAt
  }

  /** There is room for one more flow: in the table, for each of the two nodes, and for the pair. */
  ghost predicate HasRoom(flows: Flows, flow: Flow, maxFlows: nat) {
    && |flows| < maxFlows
    && |(set key <- flows | key.firstIP == flow.sourceIP || key.secondIP == flow.sourceIP)| < 4096
    && |(set key <- flows | key.firstIP == flow.destinationIP || key.secondIP == flow.destinationIP)| < 4096
    && |(set key <- flows | {key.firstIP, key.secondIP} == {flow.sourceIP, flow.destinationIP})| < 1024
  }

  lemma RoomIff(flows: Flows, flow: Flow, maxFlows: nat)
    ensures HasRoom(flows, flow, maxFlows) <==> !AtCapacity(flows, flow, maxFlows)
  {
    assert Touching(flows, flow.sourceIP) == set key <- flows | key.firstIP == flow.sourceIP || key.secondIP == flow.sourceIP;
    assert Touching(flows, flow.destinationIP) ==
           set key <- flows | key.firstIP == flow.destinationIP || key.secondIP == flow.destinationIP;
    assert Between(flows, {flow.sourceIP, flow.destinationIP}) ==
           set key <- flows | {key.firstIP, key.secondIP} == {flow.sourceIP, flow.destinationIP};
  }

  /** The flows a new one competes with: a full table is rid of all that has expired, at most once a second. */
  ghost function Competing(flows: Flows, flow: Flow, now: nat, nextCapacityCleanup: nat, maxFlows: nat): Flows {
    if HasRoom(flows, flow, maxFlows) || now < nextCapacityCleanup then flows
    else map key <- flows | now < flows[key].expiresAt :: flows[key]
  }

  lemma RoomMade(s: State, flow: Flow, now: nat, maxFlows: nat)
    ensures MadeRoom(s, flow, now, maxFlows).flows == Competing(s.flows, flow, now, s.nextCapacityCleanup, maxFlows)
  {
    RoomIff(s.flows, flow, maxFlows);
  }

  /** The node at the address lets everyone reach the port. */
  ghost predicate Permits(policy: RoutingPolicy, ip: Address, protocol: Protocol, port: nat) {
    && ip in policy.byIP
    && (|| (protocol.Tcp? && exists r <- policy.byIP[ip].ports.tcp :: r.start <= port <= r.end)
        || (protocol.Udp? && exists r <- policy.byIP[ip].ports.udp :: r.start <= port <= r.end))
  }

  lemma PermitsIff(policy: RoutingPolicy, ip: Address, protocol: Protocol, port: nat)
    ensures Permits(policy, ip, protocol, port) <==> ServiceAllowed(policy, ip, protocol, port)
  {
    if ip in policy.byIP {
      var ports := policy.byIP[ip].ports;
      assert forall r <- ports.tcp :: InRange(port, r) <==> r.start <= port <= r.end;
      assert forall r <- ports.udp :: InRange(port, r) <==> r.start <= port <= r.end;
    }
  }

  /** The packet may start a conversation: a service the policy allows, a SYN if TCP, admitted, and room for it. */
  ghost predicate Startable(s: State, flow: Flow, now: nat, admission: Admission, maxFlows: nat) {
    && Permits(s.policy, flow.destinationIP, flow.protocol, flow.destinationPort)
    && (flow.protocol.Tcp? ==> flow.opening)
    && admission.Granted?
    && HasRoom(Competing(s.flows, flow, now, s.nextCapacityCleanup, maxFlows), flow, maxFlows)
  }

  lemma OpenedIff(s: State, flow: Flow, now: nat, admission: Admission, maxFlows: nat)
    requires flow.destinationIP in s.policy.byIP
    ensures Opened(s, flow, now, admission, maxFlows).verdict.Delivered? <==> Startable(s, flow, now, admission, maxFlows)
  {
    PermitsIff(s.policy, flow.destinationIP, flow.protocol, flow.destinationPort);
    RoomMade(s, flow, now, maxFlows);
    RoomIff(MadeRoom(s, flow, now, maxFlows).flows, flow, maxFlows);
  }

  lemma CleanIff(s: State, flow: Flow, now: nat, admission: Admission, maxFlows: nat)
    requires Authorized(s.policy, s.flows) && flow.destinationIP in s.policy.byIP
    ensures RoutedClean(s, flow, now, admission, maxFlows).verdict.Delivered? <==>
      Tracked(s, flow, now) || Startable(Without(s, MakeKey(flow)), flow, now, admission, maxFlows)
  {
    if Tracked(s, flow, now) {
      assert FlowAuthorized(s.policy, MakeKey(flow), s.flows[MakeKey(flow)]);
    } else {
      OpenedIff(Without(s, MakeKey(flow)), flow, now, admission, maxFlows);
    }
  }

  /** What the periodic cleanup leaves; it takes out expired flows only. */
  lemma CleaningSparesTracked(s: State, flow: Flow, now: nat, purged: set<Key>)
    requires purged <= ExpiredKeys(s.flows, now) && Authorized(s.policy, s.flows)
    ensures Tracked(Cleaned(s, now, purged), flow, now) <==> Tracked(s, flow, now)
    ensures Cleaned(s, now, purged).policy == s.policy && Authorized(s.policy, Cleaned(s, now, purged).flows)
  {
  }

  lemma RoutedIff(s: State, flow: Flow, now: nat, purged: set<Key>, admission: Admission, maxFlows: nat)
    requires Authorized(s.policy, s.flows) && purged <= ExpiredKeys(s.flows, now)
    ensures Routed(s, flow, now, purged, admission, maxFlows).verdict.Delivered? <==>
      && s.policy.enabled && flow.destinationIP in s.policy.byIP
      && (Tracked(s, flow, now) ||
          Startable(Without(Cleaned(s, now, purged), MakeKey(flow)), flow, now, admission, maxFlows))
  {
    if s.policy.enabled && flow.destinationIP in s.policy.byIP {
      CleaningSparesTracked(s, flow, now, purged);
      CleanIff(Cleaned(s, now, purged), flow, now, admission, maxFlows);
    }
  }

  /** A client sends from the one address the policy gives it, the server from its own. */
  ghost predicate SendsAsItself(policy: RoutingPolicy, step: Step)
    requires step.FromClient? || step.FromServer?
  {
    match step
    case FromClient(clientID, flow, _, _, _) => clientID in policy.byClientID && flow.sourceIP == policy.byClientID[clientID]
    case FromServer(flow, _, _, _) => flow.sourceIP == policy.serverIP
  }

  /**
   In every run a packet is delivered if and only if it comes from its sender's
   own address, the network is enabled, the destination is a node, and it
   belongs to a tracked conversation that has not expired or may start one. So
   no packet of a live conversation is ever turned away.
   */
  lemma DeliveredIff(run: seq<State>, steps: seq<Step>, maxFlows: nat, i: nat)
    requires Follows(run, steps, maxFlows) && i < |steps| && (steps[i].FromClient? || steps[i].FromServer?)
    requires steps[i].purged <= ExpiredKeys(run[i].flows, steps[i].now)
    ensures var s, step := run[i], steps[i];
      OutcomeOf(s, step, maxFlows).verdict.Delivered? <==>
      && SendsAsItself(s.policy, step) && s.policy.enabled && step.flow.destinationIP in s.policy.byIP
      && (Tracked(s, step.flow, step.now) ||
          Startable(Without(Cleaned(s, step.now, step.purged), MakeKey(step.flow)), step.flow, step.now, step.admission, maxFlows))
  {
    FlowsAgreeWithPolicy(run, steps, maxFlows, i);
    var step := steps[i];
    RoutedIff(run[i], step.flow, step.now, step.purged, step.admission, maxFlows);
  }

  // ---------------------------------------------------------------------
  // What stays in the table
  // ---------------------------------------------------------------------

  /** A conversation lives on for five minutes over TCP and for one over UDP after each packet; a reset ends it. */
  ghost predicate KeptAlive(flows: Flows, flow: Flow, now: nat) {
    if flow.protocol.Tcp? && flow.reset then MakeKey(flow) !in flows
    else
      && MakeKey(flow) in flows
      && flows[MakeKey(flow)].expiresAt == now + (if flow.protocol.Tcp? then 300 else 60) * 1_000_000_000
  }

  lemma OpenedKeepsAlive(s: State, flow: Flow, now: nat, admission: Admission, maxFlows: nat)
    requires flow.destinationIP in s.policy.byIP && Opened(s, flow, now, admission, maxFlows).verdict.Delivered?
    ensures KeptAlive(Opened(s, flow, now, admission, maxFlows).state.flows, flow, now)
  {
  }

  lemma CleanKeepsAlive(s: State, flow: Flow, now: nat, admission: Admission, maxFlows: nat)
    requires flow.destinationIP in s.policy.byIP && RoutedClean(s, flow, now, admission, maxFlows).verdict.Delivered?
    ensures KeptAlive(RoutedClean(s, flow, now, admission, maxFlows).state.flows, flow, now)
  {
    if !StillActive(s, MakeKey(flow), now) {
      OpenedKeepsAlive(Without(s, MakeKey(flow)), flow, now, admission, maxFlows);
    }
  }

  /** Every delivered packet keeps its conversation alive, or ends it. */
  lemma DeliveredKeepsAlive(s: State, step: Step, maxFlows: nat)
    requires (step.FromClient? || step.FromServer?) && OutcomeOf(s, step, maxFlows).verdict.Delivered?
    ensures KeptAlive(Do(s, step, maxFlows).flows, step.flow, step.now)
  {
    CleanKeepsAlive(Cleaned(s, step.now, step.purged), step.flow, step.now, step.admission, maxFlows);
  }

  /**
   In every run a new policy keeps a flow if and only if it authorizes the
   flow's nodes and service and both nodes are still the same clients'.
   */
  lemma PolicyKeepsIff(run: seq<State>, steps: seq<Step>, maxFlows: nat, i: nat, key: Key)
    requires Follows(run, steps, maxFlows) && i < |steps| && steps[i].ApplyPolicy?
    ensures var before, after := run[i], run[i + 1];
      && after.policy == steps[i].policy && after.generation == before.generation + 1
      && (key in after.flows <==>
          && key in before.flows && FlowAuthorized(after.policy, key, before.flows[key])
          && OwnerOf(before.policy, key.firstIP) == OwnerOf(after.policy, key.firstIP)
          && OwnerOf(before.policy, key.secondIP) == OwnerOf(after.policy, key.secondIP))
      && (key in after.flows ==> after.flows[key] == before.flows[key])
  {
    FlowsAgreeWithPolicy(run, steps, maxFlows, i);
    if key in run[i].flows {
      assert FlowAuthorized(run[i].policy, key, run[i].flows[key]);
    }
  }

  /** Removing a client ends every flow at its address and no other. */
  lemma RemovalIsExact(s: State, clientID: string, key: Key)
    ensures var after := ClientRemoved(s, clientID);
      key in after.flows <==>
      && key in s.flows
      && !(clientID in s.policy.byClientID &&
           (key.firstIP == s.policy.byClientID[clientID] || key.secondIP == s.policy.byClientID[clientID]))
  {
  }
}
