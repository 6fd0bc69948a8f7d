/**
 Packet routing on the virtual network (internal/vnet/router.go,
 internal/vnet/packet/key.go): a bounded table of flows that were opened by an
 allowed first packet, kept in step with a policy that can be replaced at any time.
 */
module VNetRouter {
  import opened Addresses
  import opened Counting
  import opened VNetPolicy

  const MAX_NODE_FLOWS := 4096
  const MAX_PAIR_FLOWS := 1024
  const CLEANUP_BATCH := 256
  const SECOND := 1_000_000_000
  const TCP_IDLE := 300 * SECOND
  const UDP_IDLE := 60 * SECOND

  /** `opening` is SYN without ACK, `reset` is RST; both only count for TCP. */
  datatype Flow = Flow(
    protocol: Protocol, sourceIP: Address, sourcePort: nat, destinationIP: Address, destinationPort: nat,
    opening: bool, reset: bool)

  datatype Key = Key(protocol: Protocol, firstIP: Address, firstPort: nat, secondIP: Address, secondPort: nat)

  predicate EndpointLess(leftIP: Address, leftPort: nat, rightIP: Address, rightPort: nat) {
    leftIP.value < rightIP.value || (leftIP.value == rightIP.value && leftPort < rightPort)
  }

  function MakeKey(flow: Flow): Key {
    if EndpointLess(flow.destinationIP, flow.destinationPort, flow.sourceIP, flow.sourcePort)
    then Key(flow.protocol, flow.destinationIP, flow.destinationPort, flow.sourceIP, flow.sourcePort)
    else Key(flow.protocol, flow.sourceIP, flow.sourcePort, flow.destinationIP, flow.destinationPort)
  }

  function Reply(flow: Flow): Flow {
    flow.(sourceIP := flow.destinationIP, sourcePort := flow.destinationPort,
          destinationIP := flow.sourceIP, destinationPort := flow.sourcePort)
  }

  /** Two packets have the same key exactly when they are of one conversation, in either direction. */
  lemma KeysIdentifyConversations(left: Flow, right: Flow)
    requires IsIPv4(left.sourceIP) && IsIPv4(left.destinationIP) && IsIPv4(right.sourceIP)
    requires IsIPv4(right.destinationIP)
    ensures MakeKey(left) == MakeKey(right) <==>
      || left == right.(opening := left.opening, reset := left.reset)
      || left == Reply(right).(opening := left.opening, reset := left.reset)
  {
  }

  datatype FlowState = FlowState(serviceIP: Address, servicePort: nat, protocol: Protocol, expiresAt: nat)

  type Flows = map<Key, FlowState>

  /** Everything but the counters, which are determined by the flows. */
  datatype State = State(
    policy: RoutingPolicy, generation: nat, flows: Flows, nextCleanup: nat, nextCapacityCleanup: nat)

  predicate Touches(key: Key, a: Address) { key.firstIP == a || key.secondIP == a }

  function PairOf(key: Key): set<Address> { {key.firstIP, key.secondIP} }

  /** The flows of one node, a flow to itself counted once. */
  ghost function Touching(flows: Flows, a: Address): set<Key> { set key <- flows | Touches(key, a) }

  ghost function Between(flows: Flows, pair: set<Address>): set<Key> { set key <- flows | PairOf(key) == pair }

  predicate IsExpired(flows: Flows, now: nat, key: Key)
    requires key in flows
  {
    now >= flows[key].expiresAt
  }

  ghost function ExpiredKeys(flows: Flows, now: nat): set<Key> { set key <- flows | IsExpired(flows, now, key) }

  // ---------------------------------------------------------------------
  // Routing one packet
  // ---------------------------------------------------------------------

  datatype Verdict = SourceRejected | TargetUnavailable | FlowRejected | FlowCapacity | RateRejected
                   | Delivered(generation: nat, ip: Address, clientID: string)

  /** What flow admission says of a new flow: its pair's tokens may be used up, or there is no bucket left for the pair. */
  datatype Admission = Granted | RateExceeded | BucketsFull

  predicate IsStart(flow: Flow) { flow.protocol.Tcp? && flow.opening }
  predicate IsReset(flow: Flow) { flow.protocol.Tcp? && flow.reset }

  ghost predicate AtCapacity(flows: Flows, flow: Flow, maxFlows: nat) {
    || |flows| >= maxFlows
    || |Touching(flows, flow.sourceIP)| >= MAX_NODE_FLOWS || |Touching(flows, flow.destinationIP)| >= MAX_NODE_FLOWS
    || |Between(flows, {flow.sourceIP, flow.destinationIP})| >= MAX_PAIR_FLOWS
  }

  function IdleTime(protocol: Protocol): nat { if protocol.Tcp? then TCP_IDLE else UDP_IDLE }

  function NewFlow(flow: Flow, now: nat): FlowState {
    FlowState(flow.destinationIP, flow.destinationPort, flow.protocol, now + IdleTime(flow.protocol))
  }

  /** The periodic cleanup inspects a batch: it removes some expired flows, which ones the map order decides. */
  ghost function Cleaned(s: State, now: nat, purged: set<Key>): State {
    if now >= s.nextCleanup then s.(flows := s.flows - purged, nextCleanup := now + SECOND) else s
  }

  ghost predicate StillActive(s: State, key: Key, now: nat) {
    && key in s.flows && !IsExpired(s.flows, now, key)
    && ServiceAllowed(s.policy, s.flows[key].serviceIP, s.flows[key].protocol, s.flows[key].servicePort)
  }

  /** A flow at capacity may clean up everything that has expired, once a second. */
  ghost function MadeRoom(s: State, flow: Flow, now: nat, maxFlows: nat): State {
    if AtCapacity(s.flows, flow, maxFlows) && now >= s.nextCapacityCleanup
    then s.(flows := s.flows - ExpiredKeys(s.flows, now), nextCapacityCleanup := now + SECOND) else s
  }

  datatype Outcome = Outcome(state: State, verdict: Verdict)

  function DeliveredTo(s: State, ip: Address): Verdict
    requires ip in s.policy.byIP
  {
    Delivered(s.generation, ip, if ip == s.policy.serverIP then "" else s.policy.byIP[ip].clientID)
  }

  /** Opens a flow for its first packet, if the packet may open one and there is room; `admission` is the pair's verdict. */
  ghost function Opened(s: State, flow: Flow, now: nat, admission: Admission, maxFlows: nat): Outcome
    requires flow.destinationIP in s.policy.byIP
  {
    if flow.protocol.Tcp? && !IsStart(flow) then Outcome(s, FlowRejected)
    else if !Allows(s.policy.byIP[flow.destinationIP], flow.protocol, flow.destinationPort) then Outcome(s, FlowRejected)
    else
      var room := MadeRoom(s, flow, now, maxFlows);
      if AtCapacity(room.flows, flow, maxFlows) then Outcome(room, FlowCapacity)
      else if admission.RateExceeded? then Outcome(room, RateRejected)
      else if admission.BucketsFull? then Outcome(room, FlowCapacity)
      else Outcome(Touched(room, flow, MakeKey(flow), NewFlow(flow, now)), DeliveredTo(s, flow.destinationIP))
  }

  /** A packet renews its flow; a reset ends it. */
  ghost function Touched(s: State, flow: Flow, key: Key, state: FlowState): State {
    s.(flows := if IsReset(flow) then s.flows - {key} else s.flows[key := state])
  }

  ghost function Renewed(s: State, flow: Flow, key: Key, now: nat): Outcome
    requires key in s.flows && flow.destinationIP in s.policy.byIP
  {
    Outcome(Touched(s, flow, key, s.flows[key].(expiresAt := now + IdleTime(flow.protocol))), DeliveredTo(s, flow.destinationIP))
  }

  function Without(s: State, key: Key): State { s.(flows := s.flows - {key}) }

  /** Routing after the periodic cleanup: an active flow is renewed, and anything else has to open one. */
  ghost function RoutedClean(s: State, flow: Flow, now: nat, admission: Admission, maxFlows: nat): Outcome
    requires flow.destinationIP in s.policy.byIP
  {
    if StillActive(s, MakeKey(flow), now) then Renewed(s, flow, MakeKey(flow), now)
    else Opened(Without(s, MakeKey(flow)), flow, now, admission, maxFlows)
  }

  ghost function Routed(s: State, flow: Flow, now: nat, purged: set<Key>, admission: Admission, maxFlows: nat): Outcome {
    if !s.policy.enabled then Outcome(s, FlowRejected)
    else if flow.destinationIP !in s.policy.byIP then Outcome(s, TargetUnavailable)
    else RoutedClean(Cleaned(s, now, purged), flow, now, admission, maxFlows)
  }

  /** ApplyPolicy keeps a flow only if both its nodes are still the same clients' and its service is still allowed. */
  ghost predicate Survives(key: Key, state: FlowState, before: RoutingPolicy, after: RoutingPolicy) {
    && after.enabled && key.firstIP in after.byIP && key.secondIP in after.byIP
    && OwnerOf(before, key.firstIP) == after.byIP[key.firstIP].clientID
    && OwnerOf(before, key.secondIP) == after.byIP[key.secondIP].clientID
    && ServiceAllowed(after, state.serviceIP, state.protocol, state.servicePort)
  }

  /** The zero value has no client. */
  function OwnerOf(policy: RoutingPolicy, ip: Address): string {
    if ip in policy.byIP then policy.byIP[ip].clientID else ""
  }

  ghost function Repoliced(s: State, policy: RoutingPolicy): State {
    s.(policy := policy, generation := s.generation + 1,
       flows := s.flows - Refused(s.flows, s.policy, policy))
  }

  ghost function Refused(flows: Flows, before: RoutingPolicy, after: RoutingPolicy): set<Key> {
    set key <- flows | !Survives(key, flows[key], before, after)
  }

  ghost function ClientRemoved(s: State, clientID: string): State {
    if clientID !in s.policy.byClientID then s
    else s.(generation := s.generation + 1, flows := s.flows - Touching(s.flows, s.policy.byClientID[clientID]))
  }

  // ---------------------------------------------------------------------
  // What every run keeps
  // ---------------------------------------------------------------------

  /** The flow's nodes are in the policy, its service is one of its ends, and the policy allows it. */
  ghost predicate FlowAuthorized(policy: RoutingPolicy, key: Key, state: FlowState) {
    && policy.enabled && key.firstIP in policy.byIP && key.secondIP in policy.byIP
    && state.protocol == key.protocol
    && ((state.serviceIP == key.firstIP && state.servicePort == key.firstPort) ||
        (state.serviceIP == key.secondIP && state.servicePort == key.secondPort))
    && ServiceAllowed(policy, state.serviceIP, state.protocol, state.servicePort)
  }

  ghost predicate Bounded(flows: Flows, maxFlows: nat) {
    && |flows| <= maxFlows
    && (forall a :: |Touching(flows, a)| <= MAX_NODE_FLOWS)
    && (forall pair :: |Between(flows, pair)| <= MAX_PAIR_FLOWS)
  }

  ghost predicate Authorized(policy: RoutingPolicy, flows: Flows) {
    forall key <- flows :: FlowAuthorized(policy, key, flows[key])
  }

  ghost predicate Tracks(policy: RoutingPolicy, flows: Flows, maxFlows: nat) {
    Authorized(policy, flows) && Bounded(flows, maxFlows)
  }

  ghost predicate Invariant(s: State, maxFlows: nat) {
    Consistent(s.policy) && Tracks(s.policy, s.flows, maxFlows)
  }

  lemma FewerAreBounded(flows: Flows, fewer: Flows, maxFlows: nat)
    requires Bounded(flows, maxFlows) && fewer.Keys <= flows.Keys
    ensures Bounded(fewer, maxFlows)
  {
    SubsetCardinality(fewer.Keys, flows.Keys);
    assert |fewer.Keys| == |fewer| && |flows.Keys| == |flows|;
    forall a ensures |Touching(fewer, a)| <= MAX_NODE_FLOWS {
      SubsetCardinality(Touching(fewer, a), Touching(flows, a));
    }
    forall pair ensures |Between(fewer, pair)| <= MAX_PAIR_FLOWS {
      SubsetCardinality(Between(fewer, pair), Between(flows, pair));
    }
  }

  lemma TouchingMore(flows: Flows, key: Key, state: FlowState, a: Address)
    requires key !in flows
    ensures |Touching(flows[key := state], a)| == |Touching(flows, a)| + if Touches(key, a) then 1 else 0
  {
    assert Touching(flows[key := state], a) == Touching(flows, a) + if Touches(key, a) then {key} else {};
  }

  lemma BetweenMore(flows: Flows, key: Key, state: FlowState, pair: set<Address>)
    requires key !in flows
    ensures |Between(flows[key := state], pair)| == |Between(flows, pair)| + if PairOf(key) == pair then 1 else 0
  {
    assert Between(flows[key := state], pair) == Between(flows, pair) + if PairOf(key) == pair then {key} else {};
  }

  lemma KeyTouches(flow: Flow, a: Address)
    ensures Touches(MakeKey(flow), a) <==> flow.sourceIP == a || flow.destinationIP == a
    ensures PairOf(MakeKey(flow)) == {flow.sourceIP, flow.destinationIP}
  {
  }

  lemma OneMoreFlow(flows: Flows, key: Key, state: FlowState, flow: Flow, maxFlows: nat)
    requires Bounded(flows, maxFlows) && key == MakeKey(flow) && key !in flows && !AtCapacity(flows, flow, maxFlows)
    ensures Bounded(flows[key := state], maxFlows)
  {
    CardinalityMore(flows, key, state);
    var more := flows[key := state];
    forall a ensures |Touching(more, a)| <= MAX_NODE_FLOWS {
      TouchingMore(flows, key, state, a);
      KeyTouches(flow, a);
    }
    forall pair ensures |Between(more, pair)| <= MAX_PAIR_FLOWS {
      BetweenMore(flows, key, state, pair);
      KeyTouches(flow, flow.sourceIP);
    }
  }

  lemma RenewedIsBounded(flows: Flows, key: Key, state: FlowState, maxFlows: nat)
    requires Bounded(flows, maxFlows) && key in flows
    ensures Bounded(flows[key := state], maxFlows)
  {
    FewerAreBounded(flows, flows[key := state], maxFlows);
  }

  lemma NewFlowAuthorized(policy: RoutingPolicy, flow: Flow, now: nat)
    requires policy.enabled && flow.sourceIP in policy.byIP && flow.destinationIP in policy.byIP
    requires Allows(policy.byIP[flow.destinationIP], flow.protocol, flow.destinationPort)
    ensures FlowAuthorized(policy, MakeKey(flow), NewFlow(flow, now))
  {
  }

  /** Removing flows keeps everything. */
  lemma FewerKeep(policy: RoutingPolicy, flows: Flows, fewer: Flows, maxFlows: nat)
    requires Tracks(policy, flows, maxFlows) && fewer.Keys <= flows.Keys
    requires forall key <- fewer :: fewer[key] == flows[key]
    ensures Tracks(policy, fewer, maxFlows)
  {
    FewerAreBounded(flows, fewer, maxFlows);
  }

  lemma AddedKeeps(s: State, flow: Flow, now: nat, maxFlows: nat)
    requires Tracks(s.policy, s.flows, maxFlows) && s.policy.enabled && MakeKey(flow) !in s.flows
    requires !AtCapacity(s.flows, flow, maxFlows)
    requires flow.sourceIP in s.policy.byIP && flow.destinationIP in s.policy.byIP
    requires Allows(s.policy.byIP[flow.destinationIP], flow.protocol, flow.destinationPort)
    ensures Tracks(s.policy, Touched(s, flow, MakeKey(flow), NewFlow(flow, now)).flows, maxFlows)
  {
    if IsReset(flow) {
      FewerKeep(s.policy, s.flows, s.flows - {MakeKey(flow)}, maxFlows);
    } else {
      NewFlowAuthorized(s.policy, flow, now);
      OneMoreFlow(s.flows, MakeKey(flow), NewFlow(flow, now), flow, maxFlows);
    }
  }

  lemma RoomKeeps(s: State, flow: Flow, now: nat, maxFlows: nat)
    requires Tracks(s.policy, s.flows, maxFlows)
    ensures Tracks(s.policy, MadeRoom(s, flow, now, maxFlows).flows, maxFlows)
    ensures MadeRoom(s, flow, now, maxFlows).flows.Keys <= s.flows.Keys && MadeRoom(s, flow, now, maxFlows).policy == s.policy
  {
    FewerKeep(s.policy, s.flows, MadeRoom(s, flow, now, maxFlows).flows, maxFlows);
  }

  /** Opening a flow leaves the state alone, makes room, or adds the flow where there is room. */
  lemma OpenedCases(s: State, room: State, flow: Flow, now: nat, admission: Admission, maxFlows: nat)
    requires flow.destinationIP in s.policy.byIP && room == MadeRoom(s, flow, now, maxFlows)
    ensures var after := Opened(s, flow, now, admission, maxFlows).state;
      || after == s || after == room
      || (&& after == Touched(room, flow, MakeKey(flow), NewFlow(flow, now)) && !AtCapacity(room.flows, flow, maxFlows)
          && Allows(s.policy.byIP[flow.destinationIP], flow.protocol, flow.destinationPort))
  {
  }

  lemma OpenedKeeps(s: State, flow: Flow, now: nat, admission: Admission, maxFlows: nat)
    requires Tracks(s.policy, s.flows, maxFlows) && s.policy.enabled && MakeKey(flow) !in s.flows
    requires flow.sourceIP in s.policy.byIP && flow.destinationIP in s.policy.byIP
    ensures Tracks(s.policy, Opened(s, flow, now, admission, maxFlows).state.flows, maxFlows)
  {
    var room := MadeRoom(s, flow, now, maxFlows);
    RoomKeeps(s, flow, now, maxFlows);
    OpenedCases(s, room, flow, now, admission, maxFlows);
    if Opened(s, flow, now, admission, maxFlows).state != s && Opened(s, flow, now, admission, maxFlows).state != room {
      AddedKeeps(room, flow, now, maxFlows);
    }
  }

  lemma RenewedKeeps(s: State, flow: Flow, key: Key, now: nat, maxFlows: nat)
    requires Tracks(s.policy, s.flows, maxFlows) && key in s.flows && flow.destinationIP in s.policy.byIP
    ensures Tracks(s.policy, Renewed(s, flow, key, now).state.flows, maxFlows)
  {
    if IsReset(flow) {
      FewerKeep(s.policy, s.flows, s.flows - {key}, maxFlows);
    } else {
      assert FlowAuthorized(s.policy, key, s.flows[key]);
      RenewedIsBounded(s.flows, key, s.flows[key].(expiresAt := now + IdleTime(flow.protocol)), maxFlows);
    }
  }

  lemma AfreshKeeps(s: State, flow: Flow, now: nat, admission: Admission, maxFlows: nat)
    requires Tracks(s.policy, s.flows, maxFlows) && s.policy.enabled
    requires flow.sourceIP in s.policy.byIP && flow.destinationIP in s.policy.byIP
    ensures Tracks(s.policy, Opened(Without(s, MakeKey(flow)), flow, now, admission, maxFlows).state.flows, maxFlows)
  {
    FewerKeep(s.policy, s.flows, Without(s, MakeKey(flow)).flows, maxFlows);
    OpenedKeeps(Without(s, MakeKey(flow)), flow, now, admission, maxFlows);
  }

  lemma RoutedCleanKeeps(s: State, flow: Flow, now: nat, admission: Admission, maxFlows: nat)
    requires Tracks(s.policy, s.flows, maxFlows) && s.policy.enabled
    requires flow.sourceIP in s.policy.byIP && flow.destinationIP in s.policy.byIP
    ensures Tracks(s.policy, RoutedClean(s, flow, now, admission, maxFlows).state.flows, maxFlows)
  {
    if StillActive(s, MakeKey(flow), now) {
      RenewedKeeps(s, flow, MakeKey(flow), now, maxFlows);
    } else {
      AfreshKeeps(s, flow, now, admission, maxFlows);
    }
  }

  lemma RoutedKeeps(s: State, flow: Flow, now: nat, purged: set<Key>, admission: Admission, maxFlows: nat)
    requires Tracks(s.policy, s.flows, maxFlows) && flow.sourceIP in s.policy.byIP
    ensures Tracks(s.policy, Routed(s, flow, now, purged, admission, maxFlows).state.flows, maxFlows)
  {
    if s.policy.enabled && flow.destinationIP in s.policy.byIP {
      FewerKeep(s.policy, s.flows, Cleaned(s, now, purged).flows, maxFlows);
      RoutedCleanKeeps(Cleaned(s, now, purged), flow, now, admission, maxFlows);
    }
  }

  /** Routing a packet never changes the policy. */
  lemma RoutedKeepsPolicy(s: State, flow: Flow, now: nat, purged: set<Key>, admission: Admission, maxFlows: nat)
    ensures Routed(s, flow, now, purged, admission, maxFlows).state.policy == s.policy
  {
    if flow.destinationIP in s.policy.byIP {
      OpenedKeepsPolicy(Without(Cleaned(s, now, purged), MakeKey(flow)), flow, now, admission, maxFlows);
    }
  }

  lemma OpenedKeepsPolicy(s: State, flow: Flow, now: nat, admission: Admission, maxFlows: nat)
    requires flow.destinationIP in s.policy.byIP
    ensures Opened(s, flow, now, admission, maxFlows).state.policy == s.policy
  {
  }

  lemma RepolicedKeeps(s: State, policy: RoutingPolicy, maxFlows: nat)
    requires Invariant(s, maxFlows) && Consistent(policy)
    ensures Invariant(Repoliced(s, policy), maxFlows)
  {
    FewerAreBounded(s.flows, Repoliced(s, policy).flows, maxFlows);
  }

  lemma RemovedKeeps(s: State, clientID: string, maxFlows: nat)
    requires Invariant(s, maxFlows)
    ensures Invariant(ClientRemoved(s, clientID), maxFlows)
  {
    FewerAreBounded(s.flows, ClientRemoved(s, clientID).flows, maxFlows);
  }

  datatype Step =
    | FromClient(clientID: string, flow: Flow, now: nat, purged: set<Key>, admission: Admission)
    | FromServer(flow: Flow, now: nat, purged: set<Key>, admission: Admission)
    | ApplyPolicy(policy: RoutingPolicy)
    | RemoveClient(clientID: string)

  /** A packet must come from the address its sender owns. */
  ghost predicate SourceOwned(s: State, step: Step)
    requires step.FromClient? || step.FromServer?
  {
    if step.FromClient? then step.clientID in s.policy.byClientID && s.policy.byClientID[step.clientID] == step.flow.sourceIP
    else step.flow.sourceIP == s.policy.serverIP
  }

  ghost function OutcomeOf(s: State, step: Step, maxFlows: nat): Outcome
    requires step.FromClient? || step.FromServer?
  {
    if SourceOwned(s, step) then Routed(s, step.flow, step.now, step.purged, step.admission, maxFlows)
    else Outcome(s, SourceRejected)
  }

  ghost function Do(s: State, step: Step, maxFlows: nat): State {
    match step
    case FromClient(_, _, _, _, _) => OutcomeOf(s, step, maxFlows).state
    case FromServer(_, _, _, _) => OutcomeOf(s, step, maxFlows).state
    case ApplyPolicy(policy) => Repoliced(s, policy)
    case RemoveClient(clientID) => ClientRemoved(s, clientID)
  }

  /** Policies come from buildRoutingPolicy. */
  ghost predicate Follows(run: seq<State>, steps: seq<Step>, maxFlows: nat) {
    && |run| == |steps| + 1
    && Consistent(run[0].policy) && run[0].flows == map[]
    && (forall i | 0 <= i < |steps| ::
          (steps[i].ApplyPolicy? ==> Consistent(steps[i].policy)) && run[i + 1] == Do(run[i], steps[i], maxFlows))
  }

  lemma StepKeepsInvariant(s: State, step: Step, maxFlows: nat)
    requires Invariant(s, maxFlows) && (step.ApplyPolicy? ==> Consistent(step.policy))
    ensures Invariant(Do(s, step, maxFlows), maxFlows)
  {
    match step
    case FromClient(_, flow, now, purged, admission) =>
      if SourceOwned(s, step) {
        RoutedKeeps(s, flow, now, purged, admission, maxFlows);
        RoutedKeepsPolicy(s, flow, now, purged, admission, maxFlows);
      }
    case FromServer(flow, now, purged, admission) =>
      if SourceOwned(s, step) {
        RoutedKeeps(s, flow, now, purged, admission, maxFlows);
        RoutedKeepsPolicy(s, flow, now, purged, admission, maxFlows);
      }
    case ApplyPolicy(policy) => RepolicedKeeps(s, policy, maxFlows);
    case RemoveClient(clientID) => RemovedKeeps(s, clientID, maxFlows);
  }

  /**
   After any run every tracked flow joins two nodes of the current policy and
   has a service it allows, a disabled policy has no flows, and the bounds
   on flows, on flows per node and on flows per pair hold.
   */
  lemma {:induction false} FlowsAgreeWithPolicy(run: seq<State>, steps: seq<Step>, maxFlows: nat, i: nat)
    requires Follows(run, steps, maxFlows) && i < |run|
    ensures Invariant(run[i], maxFlows)
    ensures !run[i].policy.enabled ==> run[i].flows == map[]
  {
    if i > 0 {
      FlowsAgreeWithPolicy(run, steps, maxFlows, i - 1);
      StepKeepsInvariant(run[i - 1], steps[i - 1], maxFlows);
    } else {
      forall a ensures Touching(run[0].flows, a) == {} {
      }
      forall pair ensures Between(run[0].flows, pair) == {} {
      }
    }
    assert forall key <- run[i].flows :: FlowAuthorized(run[i].policy, key, run[i].flows[key]);
  }

  /**
   Every packet that is delivered either belongs to a tracked flow whose
   service the current policy allows, or is itself an allowed first packet.
   */
  lemma DeliveredIsAuthorized(run: seq<State>, steps: seq<Step>, maxFlows: nat, i: nat)
    requires Follows(run, steps, maxFlows) && i < |steps| && (steps[i].FromClient? || steps[i].FromServer?)
    requires OutcomeOf(run[i], steps[i], maxFlows).verdict.Delivered?
    ensures var policy, flow, key := run[i].policy, steps[i].flow, MakeKey(steps[i].flow);
      && policy.enabled && flow.sourceIP in policy.byIP && flow.destinationIP in policy.byIP
      && (|| (key in run[i].flows && FlowAuthorized(policy, key, run[i].flows[key]))
          || (ServiceAllowed(policy, flow.destinationIP, flow.protocol, flow.destinationPort) &&
              (flow.protocol.Tcp? ==> IsStart(flow))))
  {
    FlowsAgreeWithPolicy(run, steps, maxFlows, i);
    assert SourceOwned(run[i], steps[i]);
  }

  // ---------------------------------------------------------------------
  // Where a flow comes from
  // ---------------------------------------------------------------------

  ghost predicate SameService(left: FlowState, right: FlowState) { left == right.(expiresAt := left.expiresAt) }

  /** The packet may open a flow under the policy. */
  ghost predicate MayOpen(policy: RoutingPolicy, flow: Flow) {
    && policy.enabled && flow.sourceIP in policy.byIP
    && ServiceAllowed(policy, flow.destinationIP, flow.protocol, flow.destinationPort)
    && (flow.protocol.Tcp? ==> IsStart(flow))
  }

  /** The outcome delivers the packet and tracks it as the first of a flow. */
  ghost predicate Begins(policy: RoutingPolicy, flow: Flow, outcome: Outcome) {
    && outcome.verdict.Delivered? && MakeKey(flow) in outcome.state.flows
    && ServiceAllowed(policy, flow.destinationIP, flow.protocol, flow.destinationPort)
    && (flow.protocol.Tcp? ==> IsStart(flow))
    && SameService(outcome.state.flows[MakeKey(flow)], NewFlow(flow, 0))
  }

  lemma OpenedOrigin(s: State, flow: Flow, now: nat, admission: Admission, maxFlows: nat, key: Key)
    requires flow.destinationIP in s.policy.byIP && key in Opened(s, flow, now, admission, maxFlows).state.flows
    ensures var outcome := Opened(s, flow, now, admission, maxFlows);
      || (key in s.flows && s.flows[key] == outcome.state.flows[key])
      || (key == MakeKey(flow) && Begins(s.policy, flow, outcome))
  {
  }

  lemma RoutedCleanOrigin(s: State, flow: Flow, now: nat, admission: Admission, maxFlows: nat, key: Key)
    requires flow.destinationIP in s.policy.byIP && key in RoutedClean(s, flow, now, admission, maxFlows).state.flows
    ensures var outcome := RoutedClean(s, flow, now, admission, maxFlows);
      || (key in s.flows && SameService(s.flows[key], outcome.state.flows[key]))
      || (key == MakeKey(flow) && Begins(s.policy, flow, outcome))
  {
    if !StillActive(s, MakeKey(flow), now) {
      OpenedOrigin(Without(s, MakeKey(flow)), flow, now, admission, maxFlows, key);
    }
  }

  lemma RoutedOrigin(s: State, flow: Flow, now: nat, purged: set<Key>, admission: Admission, maxFlows: nat, key: Key)
    requires key in Routed(s, flow, now, purged, admission, maxFlows).state.flows
    ensures var outcome := Routed(s, flow, now, purged, admission, maxFlows);
      || (key in s.flows && SameService(s.flows[key], outcome.state.flows[key]))
      || (key == MakeKey(flow) && s.policy.enabled && Begins(s.policy, flow, outcome))
  {
    if s.policy.enabled && flow.destinationIP in s.policy.byIP {
      RoutedCleanOrigin(Cleaned(s, now, purged), flow, now, admission, maxFlows, key);
    }
  }

  /** The step delivers an allowed first packet with this key, and the flow tracked for it afterwards has its service. */
  ghost predicate Opens(s: State, step: Step, key: Key, maxFlows: nat) {
    && (step.FromClient? || step.FromServer?) && SourceOwned(s, step) && MakeKey(step.flow) == key
    && MayOpen(s.policy, step.flow) && Begins(s.policy, step.flow, OutcomeOf(s, step, maxFlows))
  }

  lemma StepOrigin(s: State, step: Step, s': State, key: Key, maxFlows: nat) returns (began: bool)
    requires Consistent(s.policy) && s' == Do(s, step, maxFlows) && key in s'.flows
    ensures began ==> Opens(s, step, key, maxFlows)
    ensures !began ==> key in s.flows && SameService(s.flows[key], s'.flows[key])
  {
    began := false;
    if (step.FromClient? || step.FromServer?) && SourceOwned(s, step) {
      RoutedOrigin(s, step.flow, step.now, step.purged, step.admission, maxFlows, key);
      began := !(key in s.flows && SameService(s.flows[key], s'.flows[key]));
    }
  }

  /** The flow has been in the table, with its service, ever since the step that opened it. */
  ghost predicate TrackedSince(run: seq<State>, j: nat, i: nat, key: Key)
    requires i < |run|
  {
    && (forall k | j < k <= i :: key in run[k].flows)
    && (forall k | j < k <= i :: SameService(run[k].flows[key], run[i].flows[key]))
  }

  ghost predicate WasOpened(run: seq<State>, steps: seq<Step>, maxFlows: nat, i: nat, key: Key)
    requires |run| == |steps| + 1 && i < |run|
  {
    exists j: nat | j < i :: Opens(run[j], steps[j], key, maxFlows) && TrackedSince(run, j, i, key)
  }

  /**
   Every flow in the table was opened by an allowed first packet that was
   delivered, under the policy of that moment, and has been tracked with that
   packet's service ever since.
   */
  lemma {:induction false} FlowWasOpened(run: seq<State>, steps: seq<Step>, maxFlows: nat, i: nat, key: Key)
    requires Follows(run, steps, maxFlows) && i < |run| && key in run[i].flows
    ensures WasOpened(run, steps, maxFlows, i, key)
  {
    PolicyIsConsistent(run, steps, maxFlows, i - 1);
    var began := StepOrigin(run[i - 1], steps[i - 1], run[i], key, maxFlows);
    if began {
      assert TrackedSince(run, i - 1, i, key);
    } else {
      FlowWasOpened(run, steps, maxFlows, i - 1, key);
      var j: nat :| j < i - 1 && Opens(run[j], steps[j], key, maxFlows) && TrackedSince(run, j, i - 1, key);
      TrackedLonger(run, j, i, key);
    }
  }

  lemma PolicyIsConsistent(run: seq<State>, steps: seq<Step>, maxFlows: nat, i: nat)
    requires Follows(run, steps, maxFlows) && i < |run|
    ensures Consistent(run[i].policy)
  {
    FlowsAgreeWithPolicy(run, steps, maxFlows, i);
  }

  lemma TrackedLonger(run: seq<State>, j: nat, i: nat, key: Key)
    requires j < i < |run| && TrackedSince(run, j, i - 1, key) && key in run[i].flows
    requires key in run[i - 1].flows && SameService(run[i - 1].flows[key], run[i].flows[key])
    ensures TrackedSince(run, j, i, key)
  {
  }

  /**
   Every delivered packet is an allowed first packet, or belongs to a flow that
   such a packet opened, that has been tracked since then, that still joins the
   same two clients, and whose service the current policy allows.
   */
  lemma DeliveredBelongsToFlow(run: seq<State>, steps: seq<Step>, maxFlows: nat, i: nat) returns (j: nat)
    requires Follows(run, steps, maxFlows) && i < |steps| && (steps[i].FromClient? || steps[i].FromServer?)
    requires OutcomeOf(run[i], steps[i], maxFlows).verdict.Delivered?
    ensures j <= i
    ensures var key := MakeKey(steps[i].flow);
      if j == i then MayOpen(run[i].policy, steps[i].flow)
      else
        && Opens(run[j], steps[j], key, maxFlows) && TrackedSince(run, j, i, key)
        && key in run[i].flows && FlowAuthorized(run[i].policy, key, run[i].flows[key])
        && OwnerOf(run[j + 1].policy, key.firstIP) == OwnerOf(run[i].policy, key.firstIP)
        && OwnerOf(run[j + 1].policy, key.secondIP) == OwnerOf(run[i].policy, key.secondIP)
  {
    DeliveredIsAuthorized(run, steps, maxFlows, i);
    var key := MakeKey(steps[i].flow);
    if MayOpen(run[i].policy, steps[i].flow) {
      j := i;
    } else {
      FlowWasOpened(run, steps, maxFlows, i, key);
      j :| j < i && Opens(run[j], steps[j], key, maxFlows) && TrackedSince(run, j, i, key);
      FlowsKeepTheirOwners(run, steps, maxFlows, j + 1, i, key);
    }
  }

  /** A flow that stays in the table keeps the clients at both ends it was opened between. */
  lemma {:induction false} FlowsKeepTheirOwners(run: seq<State>, steps: seq<Step>, maxFlows: nat, i: nat, j: nat,
                                                key: Key)
    requires Follows(run, steps, maxFlows) && i <= j < |run| && forall k | i <= k <= j :: key in run[k].flows
    ensures OwnerOf(run[i].policy, key.firstIP) == OwnerOf(run[j].policy, key.firstIP)
    ensures OwnerOf(run[i].policy, key.secondIP) == OwnerOf(run[j].policy, key.secondIP)
    decreases j - i
  {
    if i < j {
      FlowsKeepTheirOwners(run, steps, maxFlows, i, j - 1, key);
      StepKeepsOwners(run[j - 1], steps[j - 1], run[j], key, maxFlows);
    }
  }

  lemma RepolicedKeepsOwners(s: State, policy: RoutingPolicy, key: Key)
    requires key in Repoliced(s, policy).flows
    ensures OwnerOf(s.policy, key.firstIP) == OwnerOf(policy, key.firstIP)
    ensures OwnerOf(s.policy, key.secondIP) == OwnerOf(policy, key.secondIP)
  {
    assert Survives(key, s.flows[key], s.policy, policy);
  }

  lemma StepKeepsOwners(s: State, step: Step, s': State, key: Key, maxFlows: nat)
    requires s' == Do(s, step, maxFlows) && key in s'.flows
    ensures OwnerOf(s.policy, key.firstIP) == OwnerOf(s'.policy, key.firstIP)
    ensures OwnerOf(s.policy, key.secondIP) == OwnerOf(s'.policy, key.secondIP)
  {
    match step
    case FromClient(_, flow, now, purged, admission) => RoutedKeepsPolicy(s, flow, now, purged, admission, maxFlows);
    case FromServer(flow, now, purged, admission) => RoutedKeepsPolicy(s, flow, now, purged, admission, maxFlows);
    case ApplyPolicy(policy) => RepolicedKeepsOwners(s, policy, key);
    case RemoveClient(_) =>
  }

  // ---------------------------------------------------------------------
  // The router and its counters
  // ---------------------------------------------------------------------

  /** A node's entry is the number of its flows, and is present exactly when it has any. */
  ghost predicate NodesCounted(nodeFlows: map<Address, int>, flows: Flows) {
    forall a :: Count(nodeFlows, a) == |Touching(flows, a)| && (a in nodeFlows <==> |Touching(flows, a)| > 0)
  }

  /** The admission's count of a pair is the number of its flows; an idle pair may keep an entry of zero. */
  ghost predicate PairsCounted(pairs: map<set<Address>, int>, flows: Flows) {
    forall pair :: Count(pairs, pair) == |Between(flows, pair)|
  }

  /** Both ends are lowered, a flow of a node to itself once. */
  function NodesLowered(nodeFlows: map<Address, int>, key: Key): map<Address, int> {
    var first := Decremented(nodeFlows, key.firstIP);
    if key.secondIP == key.firstIP then first else Decremented(first, key.secondIP)
  }

  function NodesRaised(nodeFlows: map<Address, int>, flow: Flow): map<Address, int> {
    var source := Incremented(nodeFlows, flow.sourceIP);
    if flow.destinationIP != flow.sourceIP then Incremented(source, flow.destinationIP) else source
  }

  function PairReleased(pairs: map<set<Address>, int>, pair: set<Address>): map<set<Address>, int> {
    if pair in pairs && pairs[pair] > 0 then pairs[pair := pairs[pair] - 1] else pairs
  }

  lemma TouchingLess(flows: Flows, key: Key, a: Address)
    requires key in flows
    ensures |Touching(flows, a)| == |Touching(flows - {key}, a)| + if Touches(key, a) then 1 else 0
  {
    assert flows == (flows - {key})[key := flows[key]];
    TouchingMore(flows - {key}, key, flows[key], a);
  }

  lemma BetweenLess(flows: Flows, key: Key, pair: set<Address>)
    requires key in flows
    ensures |Between(flows, pair)| == |Between(flows - {key}, pair)| + if PairOf(key) == pair then 1 else 0
  {
    assert flows == (flows - {key})[key := flows[key]];
    BetweenMore(flows - {key}, key, flows[key], pair);
  }

  lemma LoweredCounts(nodeFlows: map<Address, int>, flows: Flows, key: Key)
    requires NodesCounted(nodeFlows, flows) && key in flows
    ensures NodesCounted(NodesLowered(nodeFlows, key), flows - {key})
  {
    var lowered, fewer := NodesLowered(nodeFlows, key), flows - {key};
    forall a ensures Count(lowered, a) == |Touching(fewer, a)| && (a in lowered <==> |Touching(fewer, a)| > 0) {
      TouchingLess(flows, key, a);
      assert Count(nodeFlows, a) == |Touching(flows, a)|;
    }
  }

  lemma RaisedCounts(nodeFlows: map<Address, int>, flows: Flows, flow: Flow, state: FlowState)
    requires NodesCounted(nodeFlows, flows) && MakeKey(flow) !in flows
    ensures NodesCounted(NodesRaised(nodeFlows, flow), flows[MakeKey(flow) := state])
  {
    var raised, more := NodesRaised(nodeFlows, flow), flows[MakeKey(flow) := state];
    forall a ensures Count(raised, a) == |Touching(more, a)| && (a in raised <==> |Touching(more, a)| > 0) {
      TouchingMore(flows, MakeKey(flow), state, a);
      KeyTouches(flow, a);
      assert Count(nodeFlows, a) == |Touching(flows, a)|;
    }
  }

  lemma ReleasedCounts(pairs: map<set<Address>, int>, flows: Flows, key: Key)
    requires PairsCounted(pairs, flows) && key in flows
    ensures PairsCounted(PairReleased(pairs, PairOf(key)), flows - {key})
  {
    var released, fewer := PairReleased(pairs, PairOf(key)), flows - {key};
    forall pair ensures Count(released, pair) == |Between(fewer, pair)| {
      BetweenLess(flows, key, pair);
      assert Count(pairs, pair) == |Between(flows, pair)|;
    }
  }

  lemma AdmittedCounts(pairs: map<set<Address>, int>, flows: Flows, flow: Flow, state: FlowState)
    requires PairsCounted(pairs, flows) && MakeKey(flow) !in flows
    ensures PairsCounted(Incremented(pairs, {flow.sourceIP, flow.destinationIP}), flows[MakeKey(flow) := state])
  {
    var raised, more := Incremented(pairs, {flow.sourceIP, flow.destinationIP}), flows[MakeKey(flow) := state];
    KeyTouches(flow, flow.sourceIP);
    forall pair ensures Count(raised, pair) == |Between(more, pair)| {
      BetweenMore(flows, MakeKey(flow), state, pair);
      assert Count(pairs, pair) == |Between(flows, pair)|;
    }
  }

  lemma SameKeysCountAlike(flows: Flows, other: Flows)
    requires flows.Keys == other.Keys
    ensures forall a :: Touching(flows, a) == Touching(other, a)
    ensures forall pair :: Between(flows, pair) == Between(other, pair)
  {
  }

  lemma OneMoreRemoved(flows: Flows, keys: set<Key>, left: set<Key>, key: Key)
    requires left <= keys && key in left
    ensures flows - (keys - left) - {key} == flows - (keys - (left - {key}))
  {
  }

  class Router {
    var policy: RoutingPolicy
    var generation: nat
    var flows: Flows
    var nodeFlows: map<Address, int>
    var pairs: map<set<Address>, int>
    var nextCleanup: nat
    var nextCapacityCleanup: nat
    const maxFlows: nat

    ghost function View(): State reads this { State(policy, generation, flows, nextCleanup, nextCapacityCleanup) }

    /** The counters are those of the flows, and the policy can be searched. */
    ghost predicate Valid() reads this {
      NodesCounted(nodeFlows, flows) && PairsCounted(pairs, flows) && Searchable(policy) && |flows| <= maxFlows && maxFlows >= 1
    }

    constructor (policy: RoutingPolicy, maxFlows: nat)
      requires Searchable(policy) && maxFlows >= 1
      ensures Valid() && View() == State(policy, 0, map[], 0, 0) && this.maxFlows == maxFlows
    {
      this.policy, generation, flows, nodeFlows, pairs := policy, 0, map[], map[], map[];
      nextCleanup, nextCapacityCleanup, this.maxFlows := 0, 0, maxFlows;
      new;
      forall a ensures Touching(flows, a) == {} {
      }
      forall pair ensures Between(flows, pair) == {} {
      }
    }

    method RemoveFlow(key: Key)
      requires Valid()
      modifies this
      ensures Valid() && View() == old(View()).(flows := old(flows) - {key})
    {
      if key !in flows {
        assert flows - {key} == flows;
        return;
      }
      LoweredCounts(nodeFlows, flows, key);
      ReleasedCounts(pairs, flows, key);
      CardinalityLess(flows, key);
      flows := flows - {key};
      pairs := PairReleased(pairs, PairOf(key));
      nodeFlows := NodesLowered(nodeFlows, key);
    }

    /** Looks at no more than `limit` flows and removes the expired ones among them. */
    method RemoveExpired(now: nat, limit: nat) returns (ghost purged: set<Key>)
      requires Valid() && limit >= 1
      modifies this
      ensures Valid() && View() == old(View()).(flows := old(flows) - purged)
      ensures purged <= ExpiredKeys(old(flows), now)
      ensures limit >= |old(flows)| ==> purged == ExpiredKeys(old(flows), now)
    {
      var left, inspected := flows.Keys, 0;
      purged := {};
      assert |left| == |flows|;
      while left != {} && inspected < limit
        invariant Valid() && View() == old(View()).(flows := old(flows) - purged)
        invariant left <= old(flows).Keys && purged !! left && |left| + inspected == |old(flows)|
        invariant purged <= ExpiredKeys(old(flows), now)
        invariant forall key <- ExpiredKeys(old(flows), now) :: key in left || key in purged
        decreases left
      {
        var key :| key in left;
        left := left - {key};
        if now >= flows[key].expiresAt {
          RemoveFlow(key);
          purged := purged + {key};
        }
        inspected := inspected + 1;
      }
    }

    method HasCapacityReached(flow: Flow) returns (reached: bool)
      requires Valid()
      ensures reached <==> AtCapacity(flows, flow, maxFlows)
    {
      assert Count(nodeFlows, flow.sourceIP) == |Touching(flows, flow.sourceIP)|;
      assert Count(nodeFlows, flow.destinationIP) == |Touching(flows, flow.destinationIP)|;
      assert Count(pairs, {flow.sourceIP, flow.destinationIP}) == |Between(flows, {flow.sourceIP, flow.destinationIP})|;
      return |flows| >= maxFlows || Count(nodeFlows, flow.sourceIP) >= MAX_NODE_FLOWS ||
             Count(nodeFlows, flow.destinationIP) >= MAX_NODE_FLOWS ||
             Count(pairs, {flow.sourceIP, flow.destinationIP}) >= MAX_PAIR_FLOWS;
    }

    method AddFlow(flow: Flow, state: FlowState)
      requires Valid() && MakeKey(flow) !in flows && |flows| < maxFlows
      modifies this
      ensures Valid() && View() == old(View()).(flows := old(flows)[MakeKey(flow) := state])
    {
      RaisedCounts(nodeFlows, flows, flow, state);
      AdmittedCounts(pairs, flows, flow, state);
      CardinalityMore(flows, MakeKey(flow), state);
      pairs := Incremented(pairs, {flow.sourceIP, flow.destinationIP});
      nodeFlows := NodesRaised(nodeFlows, flow);
      flows := flows[MakeKey(flow) := state];
    }

    /** Writes the renewed state back, or ends the flow on a reset. */
    method TouchFlow(flow: Flow, key: Key, state: FlowState)
      requires Valid() && key in flows
      modifies this
      ensures Valid() && View() == Touched(old(View()), flow, key, state)
    {
      if IsReset(flow) {
        RemoveFlow(key);
      } else {
        SameKeysCountAlike(flows, flows[key := state]);
        assert |flows.Keys| == |flows| && |flows[key := state].Keys| == |flows[key := state]|;
        assert flows.Keys == flows[key := state].Keys;
        flows := flows[key := state];
      }
    }

    /** Cleans up for a flow that finds no room, and says whether there is still none. */
    method MakeRoom(flow: Flow, now: nat) returns (full: bool)
      requires Valid()
      modifies this
      ensures Valid() && View() == MadeRoom(old(View()), flow, now, maxFlows) && (full <==> AtCapacity(flows, flow, maxFlows))
    {
      full := HasCapacityReached(flow);
      if full {
        if now >= nextCapacityCleanup {
          ghost var purged := RemoveExpired(now, maxFlows);
          nextCapacityCleanup := now + SECOND;
        }
        full := HasCapacityReached(flow);
      }
    }

    method AdmitFlow(flow: Flow, now: nat)
      requires Valid() && MakeKey(flow) !in flows && |flows| < maxFlows
      modifies this
      ensures Valid() && View() == Touched(old(View()), flow, MakeKey(flow), NewFlow(flow, now))
    {
      AddFlow(flow, NewFlow(flow, now));
      TouchFlow(flow, MakeKey(flow), NewFlow(flow, now));
      assert old(flows)[MakeKey(flow) := NewFlow(flow, now)] - {MakeKey(flow)} == old(flows) - {MakeKey(flow)};
    }

    /** The part of routeLocked for a packet without an active flow. */
    method OpenFlow(flow: Flow, now: nat, admission: Admission) returns (verdict: Verdict)
      requires Valid() && flow.destinationIP in policy.byIP && MakeKey(flow) !in flows
      modifies this
      ensures Valid() && Outcome(View(), verdict) == Opened(old(View()), flow, now, admission, maxFlows)
    {
      if flow.protocol.Tcp? && !IsStart(flow) {
        return FlowRejected;
      }
      var allowed := EndpointAllows(policy.byIP[flow.destinationIP], flow.protocol, flow.destinationPort);
      if !allowed {
        return FlowRejected;
      }
      var full := MakeRoom(flow, now);
      if full {
        return FlowCapacity;
      }
      match admission {
        case RateExceeded => return RateRejected;
        case BucketsFull => return FlowCapacity;
        case Granted =>
      }
      AdmitFlow(flow, now);
      return Delivered(generation, flow.destinationIP,
                       if flow.destinationIP == policy.serverIP then "" else policy.byIP[flow.destinationIP].clientID);
    }

    method RouteLocked(flow: Flow, now: nat, admission: Admission) returns (verdict: Verdict, ghost purged: set<Key>)
      requires Valid()
      modifies this
      ensures Valid() && purged <= ExpiredKeys(old(flows), now)
      ensures Outcome(View(), verdict) == Routed(old(View()), flow, now, purged, admission, maxFlows)
    {
      purged := {};
      if !policy.enabled {
        return FlowRejected, {};
      }
      if flow.destinationIP !in policy.byIP {
        return TargetUnavailable, {};
      }
      if now >= nextCleanup {
        purged := RemoveExpired(now, CLEANUP_BATCH);
        nextCleanup := now + SECOND;
      }
      verdict := RouteCleaned(flow, now, admission);
    }

    method RouteCleaned(flow: Flow, now: nat, admission: Admission) returns (verdict: Verdict)
      requires Valid() && flow.destinationIP in policy.byIP
      modifies this
      ensures Valid() && Outcome(View(), verdict) == RoutedClean(old(View()), flow, now, admission, maxFlows)
    {
      var key := MakeKey(flow);
      var active := CheckActive(key, now);
      if active {
        TouchFlow(flow, key, flows[key].(expiresAt := now + IdleTime(flow.protocol)));
        verdict := Delivered(generation, flow.destinationIP,
                             if flow.destinationIP == policy.serverIP then "" else policy.byIP[flow.destinationIP].clientID);
      } else {
        RemoveFlow(key);
        verdict := OpenFlow(flow, now, admission);
      }
    }

    method CheckActive(key: Key, now: nat) returns (active: bool)
      requires Valid()
      ensures active <==> StillActive(View(), key, now)
    {
      if key !in flows || now >= flows[key].expiresAt {
        return false;
      }
      active := CheckService(policy, flows[key].serviceIP, flows[key].protocol, flows[key].servicePort);
    }

    method RouteClientPacket(clientID: string, flow: Flow, now: nat, admission: Admission)
      returns (verdict: Verdict, ghost purged: set<Key>)
      requires Valid()
      modifies this
      ensures Valid() && purged <= ExpiredKeys(old(flows), now)
      ensures Outcome(View(), verdict) == OutcomeOf(old(View()), FromClient(clientID, flow, now, purged, admission), maxFlows)
    {
      if clientID !in policy.byClientID || policy.byClientID[clientID] != flow.sourceIP {
        return SourceRejected, {};
      }
      verdict, purged := RouteLocked(flow, now, admission);
    }

    method RouteServerPacket(flow: Flow, now: nat, admission: Admission) returns (verdict: Verdict, ghost purged: set<Key>)
      requires Valid()
      modifies this
      ensures Valid() && purged <= ExpiredKeys(old(flows), now)
      ensures Outcome(View(), verdict) == OutcomeOf(old(View()), FromServer(flow, now, purged, admission), maxFlows)
    {
      if flow.sourceIP != policy.serverIP {
        return SourceRejected, {};
      }
      verdict, purged := RouteLocked(flow, now, admission);
    }

    method CheckSurvival(key: Key, state: FlowState, before: RoutingPolicy, after: RoutingPolicy)
      returns (survives: bool)
      requires Searchable(after)
      ensures survives <==> Survives(key, state, before, after)
    {
      if !after.enabled || key.firstIP !in after.byIP || key.secondIP !in after.byIP ||
         after.byIP[key.firstIP].clientID != OwnerOf(before, key.firstIP) ||
         after.byIP[key.secondIP].clientID != OwnerOf(before, key.secondIP) {
        return false;
      }
      survives := CheckService(after, state.serviceIP, state.protocol, state.servicePort);
    }

    /** The flows a policy change ends. */
    method CollectRefused(flows: Flows, before: RoutingPolicy, after: RoutingPolicy) returns (refused: set<Key>)
      requires Searchable(after)
      ensures refused == Refused(flows, before, after)
    {
      refused := {};
      var left := flows.Keys;
      while left != {}
        invariant left <= flows.Keys
        invariant refused == set key <- flows | key !in left && !Survives(key, flows[key], before, after)
        decreases left
      {
        var key :| key in left;
        left := left - {key};
        var survives := CheckSurvival(key, flows[key], before, after);
        if !survives {
          refused := refused + {key};
        }
      }
    }

    method RemoveFlows(keys: set<Key>)
      requires Valid()
      modifies this
      ensures Valid() && View() == old(View()).(flows := old(flows) - keys)
    {
      var left := keys;
      while left != {}
        invariant left <= keys && Valid() && View() == old(View()).(flows := old(flows) - (keys - left))
        decreases left
      {
        var key :| key in left;
        RemoveFlow(key);
        OneMoreRemoved(old(flows), keys, left, key);
        left := left - {key};
      }
    }

    method ApplyPolicy(candidate: RoutingPolicy)
      requires Valid() && Searchable(candidate)
      modifies this
      ensures Valid() && View() == Repoliced(old(View()), candidate)
    {
      var previous := policy;
      policy := candidate;
      generation := generation + 1;
      var refused := CollectRefused(flows, previous, candidate);
      RemoveFlows(refused);
    }

    method RemoveClient(clientID: string)
      requires Valid()
      modifies this
      ensures Valid() && View() == ClientRemoved(old(View()), clientID)
    {
      if clientID !in policy.byClientID {
        return;
      }
      var address := policy.byClientID[clientID];
      generation := generation + 1;
      RemoveFlows(set key <- flows | key.firstIP == address || key.secondIP == address);
    }
  }
}
