/**
 The proxy registry (internal/proxy/registry): clients' proxies, public routes,
 managed reservations and the publication of a prepared proxy set. A route is a
 TCP port, a UDP port or an HTTP domain; the registry's tables for the three
 kinds are one table here, keyed by the route. Mirror groups are empty.
 */
module ProxyRegistry {
  import opened Authentication
  import opened Options
  import opened SyncCache

  const MAX_PROXIES := 128

  datatype Route = TcpPort(port: nat) | UdpPort(port: nat) | HttpDomain(domain: string)

  /** Ports need an endpoint listening on them; domains share the server's HTTP listeners. */
  predicate IsPort(route: Route) { !route.HttpDomain? }

  /** UDP and HTTP bindings own a runtime that must be closed; a TCP binding is a plain record. */
  predicate HasRuntime(route: Route) { !route.TcpPort? }

  type Endpoint = nat

  /** `wellFormed` says that the name, port or domain and the public schemes are valid and available. */
  datatype Declaration = Declaration(name: string, route: Route, schemes: seq<string>, wellFormed: bool)

  /** Binding IDs are fresh, so bindings are equal exactly when they are the same object. */
  datatype Binding = Binding(
    clientID: string, sessionID: string, bindingID: nat, declaration: Declaration, endpoint: Option<Endpoint>)

  type Bindings = map<string, Binding>

  datatype ErrorCode = InvalidRequest | SessionInactive | CapacityExceeded | InvalidProxy | PortConflict | DomainConflict

  datatype SyncResult = Applied(revision: nat, kept: map<string, bool>) | Rejected(code: ErrorCode)

  datatype ClientState = ClientState(sessionID: string, mode: Mode, sync: SyncState<SyncResult>, proxies: Bindings)

  datatype Tables = Tables(
    clients: map<string, ClientState>,
    routes: map<Route, Binding>,
    endpoints: map<Route, Endpoint>,
    reserved: map<Route, string>,
    closed: bool)

  const NO_TABLES := Tables(map[], map[], map[], map[], false)

  // ---------------------------------------------------------------------
  // Tables agree
  // ---------------------------------------------------------------------

  /** The binding is where its route leads. */
  ghost predicate Reachable(t: Tables, b: Binding) {
    var route := b.declaration.route;
    && route in t.routes && t.routes[route] == b
    && (IsPort(route) <==> b.endpoint.Some?)
    && (IsPort(route) ==> route in t.endpoints && t.endpoints[route] == b.endpoint.value)
  }

  ghost predicate ProxiesReachable(t: Tables, clientID: string)
    requires clientID in t.clients
  {
    var proxies := t.clients[clientID].proxies;
    forall name <- proxies ::
      proxies[name].clientID == clientID && proxies[name].declaration.name == name && Reachable(t, proxies[name])
  }

  ghost predicate Registered(t: Tables, b: Binding) {
    && b.clientID in t.clients
    && b.declaration.name in t.clients[b.clientID].proxies
    && t.clients[b.clientID].proxies[b.declaration.name] == b
  }

  /** The route tables are exactly the inverse of the clients' proxy maps. */
  ghost predicate Inverse(t: Tables) {
    && (forall clientID <- t.clients :: ProxiesReachable(t, clientID))
    && (forall route <- t.routes :: t.routes[route].declaration.route == route && Registered(t, t.routes[route]))
    && (forall route <- t.endpoints :: IsPort(route) && route in t.routes)
  }

  /** No binding on a reserved route belongs to anyone but the client it is reserved for. */
  ghost predicate Respects(routes: map<Route, Binding>, reserved: map<Route, string>) {
    forall route <- routes | route in reserved && reserved[route] != "" :: routes[route].clientID == reserved[route]
  }

  ghost predicate DistinctRoutes(bindings: Bindings) {
    forall n <- bindings, m <- bindings | n != m :: bindings[n].declaration.route != bindings[m].declaration.route
  }

  ghost function RoutesOf(bindings: Bindings): set<Route> {
    set name <- bindings :: bindings[name].declaration.route
  }

  ghost function NameAt(bindings: Bindings, route: Route): (name: string)
    requires route in RoutesOf(bindings)
    ensures name in bindings && bindings[name].declaration.route == route
  {
    var name :| name in bindings && bindings[name].declaration.route == route;
    name
  }

  ghost function ByRoute(bindings: Bindings): map<Route, Binding> {
    map route <- RoutesOf(bindings) :: bindings[NameAt(bindings, route)]
  }

  ghost function EndpointsOf(bindings: Bindings): map<Route, Endpoint> {
    map route <- ByRoute(bindings) | ByRoute(bindings)[route].endpoint.Some? :: ByRoute(bindings)[route].endpoint.value
  }

  lemma AtRoute(bindings: Bindings, name: string)
    requires DistinctRoutes(bindings) && name in bindings
    ensures bindings[name].declaration.route in ByRoute(bindings)
    ensures ByRoute(bindings)[bindings[name].declaration.route] == bindings[name]
  {
  }

  // ---------------------------------------------------------------------
  // Checking a request
  // ---------------------------------------------------------------------

  type Declared = map<string, Declaration>

  /** The declarations of a valid request, by name. */
  ghost predicate WellDeclared(declared: Declared) {
    && (forall name <- declared :: declared[name].name == name && declared[name].wellFormed)
    && (forall n <- declared, m <- declared | n != m :: declared[n].route != declared[m].route)
  }

  ghost predicate Distinct(declarations: seq<Declaration>) {
    forall i, j | 0 <= i < j < |declarations| ::
      declarations[i].name != declarations[j].name && declarations[i].route != declarations[j].route
  }

  /** Accepts well-formed declarations without a repeated name, port or domain, and files them by name. */
  method ValidateDeclarations(declarations: seq<Declaration>) returns (result: Option<Declared>)
    ensures result.Some? <==> Distinct(declarations) && forall d <- declarations :: d.wellFormed
    ensures result.Some? ==>
      && WellDeclared(result.value)
      && result.value.Values == (set i | 0 <= i < |declarations| :: declarations[i])
  {
    var declared: Declared := map[];
    var routes: set<Route> := {};
    for i := 0 to |declarations|
      invariant routes == set k | 0 <= k < i :: declarations[k].route
      invariant declared.Keys == set k | 0 <= k < i :: declarations[k].name
      invariant forall k | 0 <= k < i :: declarations[k].wellFormed && declared[declarations[k].name] == declarations[k]
      invariant forall k, l | 0 <= k < l < i ::
        declarations[k].name != declarations[l].name && declarations[k].route != declarations[l].route
    {
      var d := declarations[i];
      assert d in declarations;
      if !d.wellFormed || d.route in routes || d.name in declared {
        return None;
      }
      routes := routes + {d.route};
      declared := declared[d.name := d];
    }
    return Some(declared);
  }

  predicate OwnerAllows(reserved: map<Route, string>, clientID: string, mode: Mode, route: Route) {
    route !in reserved || reserved[route] == "" || (reserved[route] == clientID && mode == Managed)
  }

  ghost predicate ReservationsAllow(reserved: map<Route, string>, clientID: string, mode: Mode, declared: Declared) {
    forall name <- declared :: OwnerAllows(reserved, clientID, mode, declared[name].route)
  }

  /** The route's current binding is one of these. */
  predicate Holds(bindings: Bindings, b: Binding) {
    b.declaration.name in bindings && bindings[b.declaration.name] == b
  }

  predicate OwnedBy(t: Tables, clientID: string, existing: Bindings, route: Route) {
    route in t.routes && t.routes[route].clientID == clientID && Holds(existing, t.routes[route])
  }

  /** A port that has an endpoint can only be declared by the client whose binding is on it. */
  ghost predicate PortsAvailable(t: Tables, clientID: string, existing: Bindings, declared: Declared) {
    forall name <- declared | IsPort(declared[name].route) && declared[name].route in t.endpoints ::
      OwnedBy(t, clientID, existing, declared[name].route)
  }

  ghost function Reusable(t: Tables, declared: Declared): map<Route, Endpoint> {
    map route <- t.endpoints | exists name <- declared :: declared[name].route == route :: t.endpoints[route]
  }

  /**
   What a sync carries from its check to its publication: what it observed,
   the endpoints it may reuse, those it opened, and the bindings it built.
   */
  datatype Preparation = Preparation(
    clientID: string,
    sessionID: string,
    request: Request,
    declared: Declared,
    baseRevision: nat,
    mode: Mode,
    existing: Bindings,
    reusable: map<Route, Endpoint>,
    listening: map<Route, Endpoint>,
    next: Option<Bindings>)

  datatype Checking = Prepared(preparation: Preparation) | Replayed(result: SyncResult) | Failed(code: ErrorCode)

  /** Every client's request cache is tidy and dated, and its last result is stored. */
  ghost predicate Synced(t: Tables) {
    forall clientID <- t.clients :: Remembers(t.clients[clientID].sync)
  }

  ghost predicate Remembers(sync: SyncState<SyncResult>) { Stored(sync) && Tidy(sync) && Dated(sync) }

  ghost predicate Admissible(t: Tables, clientID: string, declared: Declared, allowEmpty: bool)
    requires clientID in t.clients
  {
    var state := t.clients[clientID];
    && |declared| <= MAX_PROXIES
    && (declared != map[] || allowEmpty || state.mode == Managed)
    && WellDeclared(declared)
    && ReservationsAllow(t.reserved, clientID, state.mode, declared)
    && PortsAvailable(t, clientID, state.proxies, declared)
  }

  /** The code is that of the first test the request fails; the codes of the reservations depend on the route. */
  ghost predicate FailsWith(t: Tables, clientID: string, sessionID: string, request: Request, declared: Declared,
                            allowEmpty: bool, code: ErrorCode)
    requires Attached(t, clientID, sessionID) ==> Stored(t.clients[clientID].sync)
  {
    if !Attached(t, clientID, sessionID) then code == SessionInactive
    else
      var state := t.clients[clientID];
      if Check(state.sync, request) != Proceed then Check(state.sync, request).Refuse? && code == InvalidRequest
      else if |declared| > MAX_PROXIES then code == CapacityExceeded
      else if (declared == map[] && !allowEmpty && state.mode != Managed) || !WellDeclared(declared) then code == InvalidProxy
      else if !ReservationsAllow(t.reserved, clientID, state.mode, declared) then
        exists name <- declared ::
          && !OwnerAllows(t.reserved, clientID, state.mode, declared[name].route)
          && code == if IsPort(declared[name].route) then PortConflict else DomainConflict
      else !PortsAvailable(t, clientID, state.proxies, declared) && code == PortConflict
  }

  ghost function Observation(t: Tables, clientID: string, sessionID: string, request: Request,
                             declared: Declared): Preparation
    requires clientID in t.clients
  {
    var state := t.clients[clientID];
    Preparation(clientID, sessionID, request, declared, state.sync.revision, state.mode, state.proxies,
                Reusable(t, declared), map[], None)
  }

  ghost predicate Attached(t: Tables, clientID: string, sessionID: string) {
    !t.closed && clientID in t.clients && t.clients[clientID].sessionID == sessionID
  }

  // ---------------------------------------------------------------------
  // Building and publishing
  // ---------------------------------------------------------------------

  predicate SameDeclaration(left: Declaration, right: Declaration) {
    left.name == right.name && left.route == right.route && left.schemes == right.schemes
  }

  /** An unchanged proxy of the same session keeps its binding. */
  predicate Keeps(p: Preparation, d: Declaration) {
    d.name in p.existing && SameDeclaration(p.existing[d.name].declaration, d) && p.existing[d.name].sessionID == p.sessionID
  }

  function EndpointFor(p: Preparation, route: Route): Option<Endpoint> {
    if !IsPort(route) then None
    else if route in p.reusable then Some(p.reusable[route])
    else if route in p.listening then Some(p.listening[route])
    else None
  }

  function NextBinding(p: Preparation, d: Declaration, bindingID: nat): Binding {
    if Keeps(p, d) then p.existing[d.name]
    else Binding(p.clientID, p.sessionID, bindingID, d, EndpointFor(p, d.route))
  }

  function NextBindings(p: Preparation, ids: map<string, nat>): Bindings
    requires p.declared.Keys <= ids.Keys
  {
    map name <- p.declared :: NextBinding(p, p.declared[name], ids[name])
  }

  predicate Unchanged(p: Preparation, d: Declaration) {
    if d.route.TcpPort? then d.name in p.existing && SameDeclaration(p.existing[d.name].declaration, d) else Keeps(p, d)
  }

  function ResultOf(p: Preparation): SyncResult {
    Applied(p.request.revision, map name <- p.declared :: Unchanged(p, p.declared[name]))
  }

  /** The tests of publishSync. */
  ghost predicate Publishable(t: Tables, p: Preparation)
    requires p.next.Some?
  {
    && p.clientID in t.clients
    && t.clients[p.clientID].sessionID == p.sessionID && t.clients[p.clientID].sync.revision == p.baseRevision
    && ReservationsAllow(t.reserved, p.clientID, p.mode, p.declared)
    && (forall route <- p.reusable ::
          route in t.endpoints && t.endpoints[route] == p.reusable[route] && OwnedBy(t, p.clientID, p.existing, route))
    && (forall name <- p.next.value ::
          var route := p.next.value[name].declaration.route;
          !IsPort(route) && route in t.routes ==> Holds(p.existing, t.routes[route]))
  }

  /** What publishing a set in place of another makes of the route tables. */
  ghost function Rerouted(routes: map<Route, Binding>, existing: Bindings, next: Bindings): map<Route, Binding>
  {
    (routes - ByRoute(existing).Keys) + ByRoute(next)
  }

  ghost function Relocated(endpoints: map<Route, Endpoint>, existing: Bindings, next: Bindings): map<Route, Endpoint>
  {
    (endpoints - EndpointsOf(existing).Keys) + EndpointsOf(next)
  }

  ghost function PublishedTables(t: Tables, p: Preparation): Tables
    requires p.clientID in t.clients && p.next.Some?
  {
    var state := t.clients[p.clientID];
    t.(clients := t.clients[p.clientID := state.(proxies := p.next.value, sync := Cached(state.sync, p.request, ResultOf(p)))],
       routes := Rerouted(t.routes, p.existing, p.next.value),
       endpoints := Relocated(t.endpoints, p.existing, p.next.value))
  }

  ghost function DetachedTables(t: Tables, clientID: string): Tables
    requires clientID in t.clients
  {
    var proxies := t.clients[clientID].proxies;
    t.(clients := t.clients - {clientID},
       routes := t.routes - ByRoute(proxies).Keys,
       endpoints := t.endpoints - EndpointsOf(proxies).Keys)
  }

  function AttachedTables(t: Tables, clientID: string, sessionID: string, mode: Mode): Tables {
    var proxies := if clientID in t.clients then t.clients[clientID].proxies else map[];
    t.(clients := t.clients[clientID := ClientState(sessionID, mode, NoSync(), proxies)])
  }

  function ClosedTables(t: Tables): Tables { t.(clients := map[], routes := map[], endpoints := map[], closed := true) }

  // ---------------------------------------------------------------------
  // Reservations
  // ---------------------------------------------------------------------

  ghost predicate Claims(clients: map<string, set<Route>>, clientID: string, route: Route) {
    clientID in clients && route in clients[clientID]
  }

  ghost predicate Uncontested(clients: map<string, set<Route>>) {
    forall c <- clients, d <- clients | c != d :: clients[c] !! clients[d]
  }

  /** Each claimed route is reserved for the one client that claims it. */
  ghost predicate Reserves(reserved: map<Route, string>, clients: map<string, set<Route>>) {
    && (forall route <- reserved :: Claims(clients, reserved[route], route))
    && (forall clientID <- clients, route <- clients[clientID] :: route in reserved && reserved[route] == clientID)
  }

  /** Every bound route is bound by the managed client it is reserved for. */
  ghost predicate Adopts(t: Tables, reserved: map<Route, string>) {
    forall route <- reserved | route in t.routes ::
      && t.routes[route].clientID == reserved[route]
      && reserved[route] in t.clients && t.clients[reserved[route]].mode == Managed
  }
}
