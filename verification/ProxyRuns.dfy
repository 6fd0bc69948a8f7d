/**
 Every interleaving of proxy registry operations (internal/proxy/registry):
 syncs check, listen, build and publish in separate critical sections while
 sessions attach and detach, reservations change and retired resources are
 closed behind the locks. A port can be listened on by one open endpoint only.
 */
module ProxyRuns {
  import opened Authentication
  import opened Options
  import opened SyncCache
  import opened ProxyRegistry

  /** What must be closed: a listening endpoint, or the runtime of a UDP or HTTP binding. */
  datatype Resource = Socket(endpoint: Endpoint) | Runtime(bindingID: nat)

  /** `place` records for which declaration each resource was made, `closes` how often it was closed. */
  datatype World = World(
    tables: Tables,
    preparations: map<nat, Preparation>,
    retirements: map<nat, set<Resource>>,
    place: map<Resource, Declaration>,
    closes: map<Resource, nat>,
    barrier: Option<map<Route, string>>)

  const START := World(NO_TABLES, map[], map[], map[], map[], None)

  // ---------------------------------------------------------------------
  // The resources each code path closes
  // ---------------------------------------------------------------------

  /** Detach and Close: everything the proxies hold. */
  ghost function ResourcesOf(proxies: Bindings): set<Resource> {
    (set name <- proxies | proxies[name].endpoint.Some? :: Socket(proxies[name].endpoint.value)) +
    (set name <- proxies | HasRuntime(proxies[name].declaration.route) :: Runtime(proxies[name].bindingID))
  }

  ghost predicate Replaced(existing: Bindings, next: Bindings, name: string)
    requires name in existing
  {
    name !in next || next[name] != existing[name]
  }

  /** The retirement of a publication: endpoints no longer used and bindings replaced. */
  ghost function Retired(existing: Bindings, next: Bindings): set<Resource> {
    (set name <- existing |
       && existing[name].endpoint.Some?
       && (existing[name].declaration.route !in EndpointsOf(next) ||
           EndpointsOf(next)[existing[name].declaration.route] != existing[name].endpoint.value) ::
       Socket(existing[name].endpoint.value)) +
    (set name <- existing | HasRuntime(existing[name].declaration.route) && Replaced(existing, next, name) ::
       Runtime(existing[name].bindingID))
  }

  /** rollback: endpoints opened by the sync, and built bindings that are not borrowed. */
  ghost function Unpublished(p: Preparation): set<Resource> {
    (set route <- p.listening :: Socket(p.listening[route])) + NewRuntimes(p)
  }

  ghost function NewRuntimes(p: Preparation): set<Resource> {
    if p.next.None? then {}
    else set name <- p.next.value | IsNewRuntime(p, p.next.value[name]) :: Runtime(p.next.value[name].bindingID)
  }

  predicate IsNewRuntime(p: Preparation, b: Binding) {
    HasRuntime(b.declaration.route) && !Holds(p.existing, b)
  }

  ghost function Closed(closes: map<Resource, nat>, resources: set<Resource>): map<Resource, nat> {
    map r <- closes :: closes[r] + if r in resources then 1 else 0
  }

  // ---------------------------------------------------------------------
  // Steps
  // ---------------------------------------------------------------------

  datatype Step =
    | Attach(clientID: string, sessionID: string, mode: Mode)
    | Begin(id: nat, clientID: string, sessionID: string, request: Request, declared: Declared, allowEmpty: bool)
    | Listen(id: nat, name: string, endpoint: Endpoint)
    | Build(id: nat, ids: map<string, nat>)
    | Publish(id: nat)
    | Abandon(id: nat)
    | Detach(id: nat, clientID: string, sessionID: string)
    | CloseAll(id: nat)
    | Retire(id: nat)
    | ReserveBegin(reserved: map<Route, string>)
    | ReserveEnd(commit: bool)

  ghost predicate Declares(p: Preparation, route: Route) {
    exists name <- p.declared :: p.declared[name].route == route
  }

  /** Session IDs, endpoints and binding IDs are fresh; a port must be free to be listened on. */
  ghost predicate Can(w: World, step: Step) {
    match step
    case Attach(clientID, sessionID, _) =>
      && (forall other <- w.tables.clients :: w.tables.clients[other].sessionID != sessionID)
      && (forall i <- w.preparations :: w.preparations[i].sessionID != sessionID)
    case Begin(id, clientID, sessionID, request, declared, allowEmpty) =>
      id !in w.preparations && id !in w.retirements && w.barrier.None? && Synced(w.tables)
    case Listen(id, name, endpoint) =>
      && id in w.preparations && Socket(endpoint) !in w.place && Socket(endpoint) !in w.closes
      && var p := w.preparations[id];
      && p.next.None? && name in p.declared && IsPort(p.declared[name].route)
      && p.declared[name].route !in p.reusable && p.declared[name].route !in p.listening
      && (forall r <- w.place | r.Socket? && w.place[r].route == p.declared[name].route :: r in w.closes && w.closes[r] > 0)
    case Build(id, ids) =>
      && id in w.preparations
      && var p := w.preparations[id];
      && p.next.None? && ids.Keys == p.declared.Keys
      && (forall name <- ids :: Runtime(ids[name]) !in w.place && Runtime(ids[name]) !in w.closes)
      && (forall name <- ids, other <- ids | name != other :: ids[name] != ids[other])
      && (forall name <- p.declared | IsPort(p.declared[name].route) :: EndpointFor(p, p.declared[name].route).Some?)
    case Publish(id) => id in w.preparations && w.preparations[id].next.Some? && w.barrier.None? && id !in w.retirements
    case Abandon(id) => id in w.preparations
    case Detach(id, _, _) => id !in w.preparations && id !in w.retirements && w.barrier.None?
    case CloseAll(id) => id !in w.preparations && id !in w.retirements && w.barrier.None?
    case Retire(id) => id in w.retirements
    case ReserveBegin(_) => w.barrier.None?
    case ReserveEnd(_) => w.barrier.Some?
  }

  ghost function Begun(w: World, id: nat, clientID: string, sessionID: string, request: Request, declared: Declared,
                       allowEmpty: bool): World
    requires Synced(w.tables)
  {
    if Attached(w.tables, clientID, sessionID) && Check(w.tables.clients[clientID].sync, request) == Proceed &&
       Admissible(w.tables, clientID, declared, allowEmpty)
    then w.(preparations := w.preparations[id := Observation(w.tables, clientID, sessionID, request, declared)])
    else w
  }

  ghost function Listening(w: World, id: nat, name: string, endpoint: Endpoint): World
    requires id in w.preparations && name in w.preparations[id].declared
  {
    var p := w.preparations[id];
    var d := p.declared[name];
    w.(preparations := w.preparations[id := p.(listening := p.listening[d.route := endpoint])],
       place := w.place[Socket(endpoint) := d], closes := w.closes[Socket(endpoint) := 0])
  }

  /** The runtimes a build creates. */
  ghost function Created(p: Preparation, ids: map<string, nat>): map<Resource, Declaration>
    requires ids.Keys == p.declared.Keys
    requires forall name <- ids, other <- ids | name != other :: ids[name] != ids[other]
  {
    map name <- p.declared | HasRuntime(p.declared[name].route) && !Keeps(p, p.declared[name]) ::
      Runtime(ids[name]) := p.declared[name]
  }

  ghost function Built(w: World, id: nat, ids: map<string, nat>): World
    requires Can(w, Build(id, ids))
  {
    var p := w.preparations[id];
    var created := Created(p, ids);
    w.(preparations := w.preparations[id := p.(next := Some(NextBindings(p, ids)))],
       place := w.place + created, closes := w.closes + map r <- created :: 0)
  }

  ghost function RolledBack(w: World, id: nat): World
    requires id in w.preparations
  {
    w.(preparations := w.preparations - {id}, closes := Closed(w.closes, Unpublished(w.preparations[id])))
  }

  ghost function Published(w: World, id: nat): World
    requires id in w.preparations && w.preparations[id].next.Some? && w.preparations[id].clientID in w.tables.clients
  {
    var p := w.preparations[id];
    w.(tables := PublishedTables(w.tables, p), preparations := w.preparations - {id},
       retirements := w.retirements[id := Retired(p.existing, p.next.value)])
  }

  /** commitSync: the sync is published, or rolled back. */
  ghost function Settled(w: World, id: nat): World
    requires id in w.preparations && w.preparations[id].next.Some?
  {
    if Publishable(w.tables, w.preparations[id]) then Published(w, id) else RolledBack(w, id)
  }

  ghost function Detached(w: World, id: nat, clientID: string): World
    requires clientID in w.tables.clients
  {
    w.(tables := DetachedTables(w.tables, clientID),
       retirements := w.retirements[id := ResourcesOf(w.tables.clients[clientID].proxies)])
  }

  ghost function AllSockets(t: Tables): set<Resource> {
    set route <- t.endpoints :: Socket(t.endpoints[route])
  }

  ghost function UdpRuntimes(t: Tables): set<Resource> {
    set clientID <- t.clients, name <- t.clients[clientID].proxies |
      t.clients[clientID].proxies[name].declaration.route.UdpPort? :: Runtime(t.clients[clientID].proxies[name].bindingID)
  }

  ghost function HttpRuntimes(t: Tables): set<Resource> {
    set route <- t.routes | route.HttpDomain? :: Runtime(t.routes[route].bindingID)
  }

  /** What Close collects: all endpoints, the clients' UDP bindings and the bindings of all domains. */
  ghost function AllResources(t: Tables): set<Resource> {
    AllSockets(t) + UdpRuntimes(t) + HttpRuntimes(t)
  }

  ghost function Do(w: World, step: Step): World
    requires Can(w, step)
  {
    match step
    case Attach(clientID, sessionID, mode) => w.(tables := AttachedTables(w.tables, clientID, sessionID, mode))
    case Begin(id, clientID, sessionID, request, declared, allowEmpty) =>
      Begun(w, id, clientID, sessionID, request, declared, allowEmpty)
    case Listen(id, name, endpoint) => Listening(w, id, name, endpoint)
    case Build(id, ids) => Built(w, id, ids)
    case Publish(id) => Settled(w, id)
    case Abandon(id) => RolledBack(w, id)
    case Detach(id, clientID, sessionID) =>
      if clientID in w.tables.clients && w.tables.clients[clientID].sessionID == sessionID
      then Detached(w, id, clientID) else w
    case CloseAll(id) =>
      ClosedWorld(w, id)
    case Retire(id) => RetiredWorld(w, id)
    case ReserveBegin(reserved) =>
      if Adopts(w.tables, reserved) then w.(barrier := Some(reserved)) else w
    case ReserveEnd(commit) =>
      w.(barrier := None, tables := if commit then w.tables.(reserved := w.barrier.value) else w.tables)
  }

  // ---------------------------------------------------------------------
  // What every preparation keeps
  // ---------------------------------------------------------------------

  /** The bindings a client was observed to have. */
  ghost predicate ExistingSound(p: Preparation) {
    && DistinctRoutes(p.existing)
    && (forall name <- p.existing ::
          && p.existing[name].clientID == p.clientID && p.existing[name].declaration.name == name
          && (IsPort(p.existing[name].declaration.route) <==> p.existing[name].endpoint.Some?))
  }

  ghost predicate EndpointsSound(p: Preparation) {
    && (forall route <- p.reusable :: IsPort(route))
    && (forall route <- p.listening :: IsPort(route) && route !in p.reusable && Declares(p, route))
    && (forall n <- p.declared, m <- p.existing |
          p.declared[n].route == p.existing[m].declaration.route && IsPort(p.declared[n].route) ::
          p.declared[n].route in p.reusable && Some(p.reusable[p.declared[n].route]) == p.existing[m].endpoint)
  }

  ghost predicate NextSound(p: Preparation) {
    p.next.Some? ==>
      && p.next.value.Keys == p.declared.Keys
      && (forall name <- p.declared ::
            var d, b := p.declared[name], p.next.value[name];
            && (if Keeps(p, d) then b == p.existing[d.name]
                else b == Binding(p.clientID, p.sessionID, b.bindingID, d, EndpointFor(p, d.route)))
            && (IsPort(d.route) <==> b.endpoint.Some?))
  }

  ghost predicate PreparationSound(p: Preparation) {
    && WellDeclared(p.declared) && p.request.revision > p.baseRevision
    && ExistingSound(p) && EndpointsSound(p) && NextSound(p)
  }

  /**
   While the session still stands at the observed revision, its proxies are
   the observed ones and the request has not been cached by a replay of it.
   */
  ghost predicate Observed(t: Tables, p: Preparation) {
    p.clientID in t.clients && t.clients[p.clientID].sessionID == p.sessionID ==>
      && p.baseRevision <= t.clients[p.clientID].sync.revision
      && (p.baseRevision == t.clients[p.clientID].sync.revision ==>
            t.clients[p.clientID].proxies == p.existing && p.request.id !in t.clients[p.clientID].sync.requests)
  }

  ghost predicate TablesSound(w: World) {
    && Inverse(w.tables) && Synced(w.tables)
    && Respects(w.tables.routes, w.tables.reserved)
    && (w.barrier.Some? ==> Respects(w.tables.routes, w.barrier.value))
    && (forall i <- w.preparations :: PreparationSound(w.preparations[i]) && Observed(w.tables, w.preparations[i]))
  }

  lemma InverseMeansDistinct(t: Tables, clientID: string)
    requires Inverse(t) && clientID in t.clients
    ensures DistinctRoutes(t.clients[clientID].proxies)
  {
    assert ProxiesReachable(t, clientID);
  }

  lemma NextIsDistinct(p: Preparation)
    requires PreparationSound(p) && p.next.Some?
    ensures DistinctRoutes(p.next.value)
    ensures forall name <- p.next.value ::
      p.next.value[name].clientID == p.clientID && p.next.value[name].declaration.name == name &&
      p.next.value[name].declaration.route == p.declared[name].route
  {
  }

  // ---------------------------------------------------------------------
  // Publication keeps the tables inverse
  // ---------------------------------------------------------------------

  /** The observed set really is the client's, and what it opened is on free ports. */
  ghost predicate MayPublish(t: Tables, p: Preparation) {
    && Inverse(t) && PreparationSound(p) && Observed(t, p)
    && p.next.Some? && Publishable(t, p)
    && (forall route <- p.listening :: route !in t.endpoints)
  }

  lemma ObservedProxies(t: Tables, p: Preparation)
    requires MayPublish(t, p)
    ensures t.clients[p.clientID].proxies == p.existing && ProxiesReachable(t, p.clientID)
    ensures DistinctRoutes(p.existing) && DistinctRoutes(p.next.value)
  {
    NextIsDistinct(p);
  }

  /** A route the new set uses is free or held by the set it replaces. */
  lemma NextRouteIsAvailable(t: Tables, p: Preparation, name: string)
    requires MayPublish(t, p) && name in p.next.value
    ensures var route := p.next.value[name].declaration.route;
      && (route in t.routes ==> Holds(p.existing, t.routes[route]))
      && (IsPort(route) && route in t.routes ==> t.endpoints[route] == p.next.value[name].endpoint.value)
  {
    ObservedProxies(t, p);
    NextIsDistinct(p);
    var route := p.next.value[name].declaration.route;
    if IsPort(route) && route in t.routes {
      assert Registered(t, t.routes[route]);
      assert ProxiesReachable(t, t.routes[route].clientID);
      assert route !in p.listening;
    }
  }

  lemma HeldRoute(t: Tables, p: Preparation, route: Route)
    requires MayPublish(t, p) && route in t.routes
    ensures Holds(p.existing, t.routes[route]) <==> t.routes[route].clientID == p.clientID
    ensures Holds(p.existing, t.routes[route]) <==> route in ByRoute(p.existing)
    ensures Holds(p.existing, t.routes[route]) ==> ByRoute(p.existing)[route] == t.routes[route]
  {
    ObservedProxies(t, p);
    var b := t.routes[route];
    assert Registered(t, b);
    if route in ByRoute(p.existing) {
      var name := NameAt(p.existing, route);
      assert Reachable(t, p.existing[name]);
    }
  }

  /** A route leads, after publication, to the new set's binding or where it led before. */
  lemma RouteAfter(t: Tables, p: Preparation, route: Route)
    requires MayPublish(t, p)
    ensures var routes := Rerouted(t.routes, p.existing, p.next.value);
      route in routes <==> route in ByRoute(p.next.value) || (route in t.routes && t.routes[route].clientID != p.clientID)
    ensures var routes := Rerouted(t.routes, p.existing, p.next.value);
      route in routes ==>
        routes[route] == if route in ByRoute(p.next.value) then ByRoute(p.next.value)[route] else t.routes[route]
    ensures route in ByRoute(p.next.value) && route in t.routes ==> t.routes[route].clientID == p.clientID
  {
    if route in t.routes {
      HeldRoute(t, p, route);
      if route in ByRoute(p.next.value) {
        NextRouteIsAvailable(t, p, NameAt(p.next.value, route));
      }
    }
  }

  lemma EndpointAfter(t: Tables, p: Preparation, route: Route)
    requires MayPublish(t, p)
    ensures var endpoints := Relocated(t.endpoints, p.existing, p.next.value);
      route in endpoints <==>
      route in EndpointsOf(p.next.value) || (route in t.endpoints && t.routes[route].clientID != p.clientID)
    ensures var endpoints := Relocated(t.endpoints, p.existing, p.next.value);
      route in endpoints ==>
        endpoints[route] == if route in EndpointsOf(p.next.value) then EndpointsOf(p.next.value)[route] else t.endpoints[route]
  {
    if route in t.endpoints {
      HeldRoute(t, p, route);
      assert Registered(t, t.routes[route]);
      assert ProxiesReachable(t, t.routes[route].clientID);
      assert Reachable(t, t.routes[route]);
    }
  }

  /** A well-formed set of bindings of one client. */
  ghost predicate SetOf(clientID: string, next: Bindings) {
    && DistinctRoutes(next)
    && (forall name <- next ::
          && next[name].clientID == clientID && next[name].declaration.name == name
          && (IsPort(next[name].declaration.route) <==> next[name].endpoint.Some?))
  }

  /** The client's old routes and endpoints are gone, those of the new set are there, all others as before. */
  ghost predicate Reroutes(t: Tables, clientID: string, next: Bindings, t': Tables)
    requires Inverse(t)
  {
    && (forall route ::
          && (route in t'.routes <==>
              (route in ByRoute(next) || (route in t.routes && t.routes[route].clientID != clientID)))
          && (route in t'.routes ==>
                t'.routes[route] == if route in ByRoute(next) then ByRoute(next)[route] else t.routes[route]))
    && (forall route ::
          && (route in t'.endpoints <==>
              (route in EndpointsOf(next) || (route in t.endpoints && t.routes[route].clientID != clientID)))
          && (route in t'.endpoints ==>
                t'.endpoints[route] == if route in EndpointsOf(next) then EndpointsOf(next)[route] else t.endpoints[route]))
    && (forall route <- ByRoute(next) | route in t.routes :: t.routes[route].clientID == clientID)
  }

  ghost predicate SameOthers(t: Tables, clientID: string, t': Tables) {
    forall other | other != clientID ::
      && (other in t.clients <==> other in t'.clients)
      && (other in t.clients ==> t.clients[other].proxies == t'.clients[other].proxies)
  }

  lemma OthersStayReachable(t: Tables, clientID: string, next: Bindings, t': Tables, other: string)
    requires Inverse(t) && Reroutes(t, clientID, next, t') && SameOthers(t, clientID, t')
    requires other in t'.clients && other != clientID
    ensures ProxiesReachable(t', other)
  {
    assert ProxiesReachable(t, other);
  }

  lemma NextIsReachable(t: Tables, clientID: string, next: Bindings, t': Tables)
    requires Inverse(t) && Reroutes(t, clientID, next, t') && SetOf(clientID, next)
    requires clientID in t'.clients && t'.clients[clientID].proxies == next
    ensures ProxiesReachable(t', clientID)
  {
    forall name <- next ensures Reachable(t', next[name]) {
      AtRoute(next, name);
    }
  }

  lemma RoutesStayRegistered(t: Tables, clientID: string, next: Bindings, t': Tables, route: Route)
    requires Inverse(t) && Reroutes(t, clientID, next, t') && SameOthers(t, clientID, t') && SetOf(clientID, next)
    requires if clientID in t'.clients then t'.clients[clientID].proxies == next else next == map[]
    requires route in t'.routes
    ensures t'.routes[route].declaration.route == route && Registered(t', t'.routes[route])
  {
    if route in t.routes {
      assert Registered(t, t.routes[route]);
    }
  }

  lemma EndpointsStayRouted(t: Tables, clientID: string, next: Bindings, t': Tables, route: Route)
    requires Inverse(t) && Reroutes(t, clientID, next, t') && SetOf(clientID, next) && route in t'.endpoints
    ensures IsPort(route) && route in t'.routes
  {
  }

  /** Replacing one client's proxies and routes together keeps the tables inverse. */
  lemma RerouteKeepsInverse(t: Tables, clientID: string, next: Bindings, t': Tables)
    requires Inverse(t) && Reroutes(t, clientID, next, t') && SameOthers(t, clientID, t') && SetOf(clientID, next)
    requires if clientID in t'.clients then t'.clients[clientID].proxies == next else next == map[]
    ensures Inverse(t')
  {
    forall other <- t'.clients ensures ProxiesReachable(t', other) {
      if other == clientID {
        NextIsReachable(t, clientID, next, t');
      } else {
        OthersStayReachable(t, clientID, next, t', other);
      }
    }
    forall route <- t'.routes ensures t'.routes[route].declaration.route == route && Registered(t', t'.routes[route]) {
      RoutesStayRegistered(t, clientID, next, t', route);
    }
    forall route <- t'.endpoints ensures IsPort(route) && route in t'.routes {
      EndpointsStayRouted(t, clientID, next, t', route);
    }
  }

  lemma PublishReroutes(t: Tables, p: Preparation, t': Tables)
    requires MayPublish(t, p)
    requires t'.routes == Rerouted(t.routes, p.existing, p.next.value)
    requires t'.endpoints == Relocated(t.endpoints, p.existing, p.next.value)
    ensures Reroutes(t, p.clientID, p.next.value, t')
  {
    forall route
      ensures
        && (route in t'.routes <==>
            (route in ByRoute(p.next.value) || (route in t.routes && t.routes[route].clientID != p.clientID)))
        && (route in t'.routes ==>
              t'.routes[route] == if route in ByRoute(p.next.value) then ByRoute(p.next.value)[route] else t.routes[route])
      ensures route in ByRoute(p.next.value) && route in t.routes ==> t.routes[route].clientID == p.clientID
    {
      RouteAfter(t, p, route);
    }
    forall route
      ensures
        && (route in t'.endpoints <==>
            (route in EndpointsOf(p.next.value) || (route in t.endpoints && t.routes[route].clientID != p.clientID)))
        && (route in t'.endpoints ==>
              t'.endpoints[route] ==
              if route in EndpointsOf(p.next.value) then EndpointsOf(p.next.value)[route] else t.endpoints[route])
    {
      EndpointAfter(t, p, route);
    }
  }

  lemma NextIsSet(p: Preparation)
    requires PreparationSound(p) && p.next.Some?
    ensures SetOf(p.clientID, p.next.value)
  {
    NextIsDistinct(p);
    forall name <- p.next.value
      ensures IsPort(p.next.value[name].declaration.route) <==> p.next.value[name].endpoint.Some?
    {
      assert p.declared[name].route == p.next.value[name].declaration.route;
    }
  }

  lemma OthersAreSame(t: Tables, clientID: string, t': Tables, state: ClientState)
    requires t'.clients == t.clients[clientID := state]
    ensures SameOthers(t, clientID, t')
  {
  }

  /** Publishing a prepared set leaves the route tables exactly inverse to the clients' proxy maps. */
  lemma PublishKeepsInverse(t: Tables, p: Preparation, t': Tables, state: ClientState)
    requires MayPublish(t, p)
    requires t'.routes == Rerouted(t.routes, p.existing, p.next.value)
    requires t'.endpoints == Relocated(t.endpoints, p.existing, p.next.value)
    requires t'.clients == t.clients[p.clientID := state] && state.proxies == p.next.value
    ensures Inverse(t')
  {
    assert Reroutes(t, p.clientID, p.next.value, t') by { PublishReroutes(t, p, t'); }
    assert SetOf(p.clientID, p.next.value) by { NextIsSet(p); }
    OthersAreSame(t, p.clientID, t', state);
    RerouteKeepsInverse(t, p.clientID, p.next.value, t');
  }

  lemma PublishRespects(t: Tables, p: Preparation)
    requires MayPublish(t, p) && Respects(t.routes, t.reserved)
    ensures Respects(Rerouted(t.routes, p.existing, p.next.value), t.reserved)
  {
    var routes := Rerouted(t.routes, p.existing, p.next.value);
    NextIsDistinct(p);
    forall route <- routes | route in t.reserved && t.reserved[route] != ""
      ensures routes[route].clientID == t.reserved[route]
    {
      RouteAfter(t, p, route);
      if route in ByRoute(p.next.value) {
        var name := NameAt(p.next.value, route);
        assert OwnerAllows(t.reserved, p.clientID, p.mode, p.declared[name].route);
      }
    }
  }

  // ---------------------------------------------------------------------
  // The other operations
  // ---------------------------------------------------------------------

  lemma AttachKeepsInverse(t: Tables, clientID: string, sessionID: string, mode: Mode)
    requires Inverse(t)
    ensures Inverse(AttachedTables(t, clientID, sessionID, mode))
  {
    var t' := AttachedTables(t, clientID, sessionID, mode);
    forall other <- t'.clients ensures ProxiesReachable(t', other) {
      if other in t.clients {
        assert ProxiesReachable(t, other);
      }
    }
    forall route <- t'.routes ensures Registered(t', t'.routes[route]) {
      assert Registered(t, t.routes[route]);
    }
  }

  lemma RouteOfClient(t: Tables, clientID: string, route: Route)
    requires Inverse(t) && clientID in t.clients && route in t.routes
    ensures route in RoutesOf(t.clients[clientID].proxies) <==> t.routes[route].clientID == clientID
    ensures route in RoutesOf(t.clients[clientID].proxies) ==> ByRoute(t.clients[clientID].proxies)[route] == t.routes[route]
    ensures route in EndpointsOf(t.clients[clientID].proxies) <==> route in t.endpoints && t.routes[route].clientID == clientID
  {
    var proxies := t.clients[clientID].proxies;
    assert ProxiesReachable(t, clientID) && Registered(t, t.routes[route]);
    if route in RoutesOf(proxies) {
      assert Reachable(t, proxies[NameAt(proxies, route)]);
    }
  }

  /** The client's routes and endpoints are gone, all others as before. */
  ghost predicate Withdraws(t: Tables, clientID: string, t': Tables)
    requires Inverse(t)
  {
    && (forall route ::
          && (route in t'.routes <==> route in t.routes && t.routes[route].clientID != clientID)
          && (route in t'.routes ==> t'.routes[route] == t.routes[route]))
    && (forall route ::
          && (route in t'.endpoints <==> route in t.endpoints && t.routes[route].clientID != clientID)
          && (route in t'.endpoints ==> t'.endpoints[route] == t.endpoints[route]))
  }

  lemma DetachWithdraws(t: Tables, clientID: string, t': Tables)
    requires Inverse(t) && clientID in t.clients
    requires t'.routes == t.routes - ByRoute(t.clients[clientID].proxies).Keys
    requires t'.endpoints == t.endpoints - EndpointsOf(t.clients[clientID].proxies).Keys
    ensures Withdraws(t, clientID, t')
  {
    forall route
      ensures route in t'.routes <==> route in t.routes && t.routes[route].clientID != clientID
      ensures route in t'.endpoints <==> route in t.endpoints && t.routes[route].clientID != clientID
    {
      if route in t.routes {
        RouteOfClient(t, clientID, route);
      }
    }
  }

  lemma WithdrawReroutes(t: Tables, clientID: string, t': Tables)
    requires Inverse(t) && Withdraws(t, clientID, t')
    ensures Reroutes(t, clientID, map[], t')
  {
    var none: Bindings := map[];
    assert RoutesOf(none) == {} && ByRoute(none) == map[] && EndpointsOf(none) == map[];
  }

  lemma WithdrawKeepsInverse(t: Tables, clientID: string, t': Tables)
    requires Inverse(t) && Withdraws(t, clientID, t') && t'.clients == t.clients - {clientID}
    ensures Inverse(t')
  {
    WithdrawReroutes(t, clientID, t');
    RerouteKeepsInverse(t, clientID, map[], t');
  }

  lemma ObservationIsSound(t: Tables, clientID: string, sessionID: string, request: Request, declared: Declared,
                           allowEmpty: bool)
    requires Inverse(t) && Synced(t) && Attached(t, clientID, sessionID)
    requires Admissible(t, clientID, declared, allowEmpty)
    requires Check(t.clients[clientID].sync, request) == Proceed
    ensures var p := Observation(t, clientID, sessionID, request, declared); PreparationSound(p) && Observed(t, p)
  {
    var p := Observation(t, clientID, sessionID, request, declared);
    InverseMeansDistinct(t, clientID);
    assert ProxiesReachable(t, clientID);
    forall name <- p.existing
      ensures IsPort(p.existing[name].declaration.route) <==> p.existing[name].endpoint.Some?
    {
      assert Reachable(t, p.existing[name]);
    }
    forall n <- p.declared, m <- p.existing |
      p.declared[n].route == p.existing[m].declaration.route && IsPort(p.declared[n].route)
      ensures p.declared[n].route in p.reusable && Some(p.reusable[p.declared[n].route]) == p.existing[m].endpoint
    {
      assert Reachable(t, p.existing[m]);
    }
  }

  lemma ListeningStaysSound(p: Preparation, name: string, endpoint: Endpoint)
    requires PreparationSound(p) && p.next.None? && name in p.declared && IsPort(p.declared[name].route)
    requires p.declared[name].route !in p.reusable
    ensures PreparationSound(p.(listening := p.listening[p.declared[name].route := endpoint]))
  {
    var p' := p.(listening := p.listening[p.declared[name].route := endpoint]);
    forall route <- p'.listening ensures Declares(p', route) {
      if route in p.listening {
        assert Declares(p, route);
      }
    }
  }

  lemma BuiltStaysSound(p: Preparation, ids: map<string, nat>)
    requires PreparationSound(p) && p.next.None? && ids.Keys == p.declared.Keys
    requires forall name <- p.declared | IsPort(p.declared[name].route) :: EndpointFor(p, p.declared[name].route).Some?
    ensures PreparationSound(p.(next := Some(NextBindings(p, ids))))
  {
    var p' := p.(next := Some(NextBindings(p, ids)));
    forall name <- p'.declared
      ensures
        var d, b := p'.declared[name], p'.next.value[name];
        && (if Keeps(p', d) then b == p'.existing[d.name]
            else b == Binding(p'.clientID, p'.sessionID, b.bindingID, d, EndpointFor(p', d.route)))
        && (IsPort(d.route) <==> b.endpoint.Some?)
    {
      assert Keeps(p', p'.declared[name]) <==> Keeps(p, p.declared[name]);
    }
    forall route <- p'.listening ensures Declares(p', route) {
      assert Declares(p, route);
    }
  }

  // ---------------------------------------------------------------------
  // Owners
  // ---------------------------------------------------------------------

  datatype Owner = ByRegistry | ByPreparation(id: nat) | ByRetirement(id: nat) | Gone

  ghost predicate RegistryHas(t: Tables, d: Declaration, r: Resource) {
    match r
    case Socket(endpoint) => d.route in t.endpoints && t.endpoints[d.route] == endpoint
    case Runtime(bindingID) => d.route in t.routes && HasRuntime(d.route) && t.routes[d.route].bindingID == bindingID
  }

  ghost predicate PreparationHas(p: Preparation, d: Declaration, r: Resource) {
    match r
    case Socket(endpoint) => d.route in p.listening && p.listening[d.route] == endpoint
    case Runtime(bindingID) =>
      && p.next.Some? && d.name in p.next.value && p.next.value[d.name].bindingID == bindingID
      && IsNewRuntime(p, p.next.value[d.name])
  }

  ghost predicate Has(w: World, owner: Owner, r: Resource)
    requires r in w.place
  {
    match owner
    case ByRegistry => RegistryHas(w.tables, w.place[r], r)
    case ByPreparation(id) => id in w.preparations && PreparationHas(w.preparations[id], w.place[r], r)
    case ByRetirement(id) => id in w.retirements && r in w.retirements[id]
    case Gone => r in w.closes && w.closes[r] > 0
  }

  /** Every resource has exactly the owner the ledger says, and only those without one have been closed, once. */
  ghost predicate Accounted(w: World, ledger: map<Resource, Owner>) {
    && w.place.Keys == w.closes.Keys == ledger.Keys
    && (forall r <- w.place, owner :: Has(w, owner, r) <==> owner == ledger[r])
    && (forall r <- w.closes :: w.closes[r] <= 1)
  }

  /** Whatever a table or a preparation refers to was made for the route it is on. */
  ghost predicate PlacedTables(w: World) {
    && (forall route <- w.tables.endpoints ::
          Socket(w.tables.endpoints[route]) in w.place && w.place[Socket(w.tables.endpoints[route])].route == route)
    && (forall route <- w.tables.routes | HasRuntime(route) ::
          var r := Runtime(w.tables.routes[route].bindingID); r in w.place && w.place[r].route == route)
  }

  ghost predicate PlacedPreparation(place: map<Resource, Declaration>, p: Preparation) {
    && (forall route <- p.listening ::
          Socket(p.listening[route]) in place && place[Socket(p.listening[route])].route == route)
    && (p.next.Some? ==>
          forall name <- p.next.value | IsNewRuntime(p, p.next.value[name]) ::
            var b := p.next.value[name];
            Runtime(b.bindingID) in place && place[Runtime(b.bindingID)] == b.declaration)
  }

  ghost predicate Placed(w: World) {
    && PlacedTables(w)
    && (forall i <- w.preparations :: PlacedPreparation(w.place, w.preparations[i]))
    && (forall j <- w.retirements :: w.retirements[j] <= w.place.Keys)
  }

  /** Two open endpoints never listen on one port. */
  ghost predicate Exclusive(w: World) {
    forall r <- w.place, q <- w.place | r.Socket? && q.Socket? && r != q && w.place[r].route == w.place[q].route ::
      r in w.closes && q in w.closes && (w.closes[r] > 0 || w.closes[q] > 0)
  }

  ghost predicate Invariant(w: World, ledger: map<Resource, Owner>) {
    TablesSound(w) && Accounted(w, ledger) && Placed(w) && Exclusive(w)
  }

  lemma OpenWhileOwned(w: World, ledger: map<Resource, Owner>, r: Resource, owner: Owner)
    requires Accounted(w, ledger) && r in w.place && Has(w, owner, r) && owner != Gone
    ensures ledger[r] == owner && w.closes[r] == 0
  {
    assert !Has(w, Gone, r);
  }

  /** What a sync listens on is free in the registry: the port cannot be open twice. */
  lemma ListeningIsFree(w: World, ledger: map<Resource, Owner>, i: nat, route: Route)
    requires Accounted(w, ledger) && Placed(w) && Exclusive(w) && i in w.preparations
    requires route in w.preparations[i].listening
    ensures route !in w.tables.endpoints
  {
    if route in w.tables.endpoints {
      var mine, theirs := Socket(w.preparations[i].listening[route]), Socket(w.tables.endpoints[route]);
      assert PlacedPreparation(w.place, w.preparations[i]);
      OpenWhileOwned(w, ledger, mine, ByPreparation(i));
      OpenWhileOwned(w, ledger, theirs, ByRegistry);
    }
  }

  lemma UnpublishedIsHeld(place: map<Resource, Declaration>, p: Preparation, r: Resource)
    requires PlacedPreparation(place, p) && PreparationSound(p)
    ensures r in Unpublished(p) ==> r in place
    ensures r in place ==> (r in Unpublished(p) <==> PreparationHas(p, place[r], r))
  {
    if p.next.Some? {
      NextIsDistinct(p);
    }
  }

  lemma NewBindingIsNotHeld(p: Preparation, name: string)
    requires PreparationSound(p) && p.next.Some? && name in p.declared
    ensures Holds(p.existing, p.next.value[name]) <==> Keeps(p, p.declared[name])
  {
  }

  /** A registry resource belongs to the client whose binding is on its route. */
  lemma ResourcesAreHeld(w: World, clientID: string, r: Resource)
    requires Inverse(w.tables) && PlacedTables(w) && clientID in w.tables.clients
    ensures r in ResourcesOf(w.tables.clients[clientID].proxies) ==> r in w.place
    ensures r in w.place ==>
      (r in ResourcesOf(w.tables.clients[clientID].proxies) <==>
       (RegistryHas(w.tables, w.place[r], r) && w.tables.routes[w.place[r].route].clientID == clientID))
  {
    var t := w.tables;
    var proxies := t.clients[clientID].proxies;
    assert ProxiesReachable(t, clientID);
    if r in w.place && RegistryHas(t, w.place[r], r) && t.routes[w.place[r].route].clientID == clientID {
      var b := t.routes[w.place[r].route];
      assert Registered(t, b);
      assert Reachable(t, b);
      assert proxies[b.declaration.name] == b;
    }
  }

  // ---------------------------------------------------------------------
  // Each step keeps the ledger
  // ---------------------------------------------------------------------

  ghost function Moved(ledger: map<Resource, Owner>, resources: set<Resource>, owner: Owner): map<Resource, Owner> {
    map r <- ledger :: if r in resources then owner else ledger[r]
  }

  /** If `moved`, the resource goes from one owner to another; nothing else about it changes. */
  ghost predicate Transfers(w: World, w': World, r: Resource, moved: bool, from: Owner, to: Owner)
    requires r in w.place && r in w'.place
  {
    && (moved ==> Has(w, from, r))
    && (Has(w', from, r) <==> Has(w, from, r) && !moved)
    && (Has(w', to, r) <==> Has(w, to, r) || moved)
    && (forall o | o != from && o != to :: Has(w', o, r) <==> Has(w, o, r))
  }

  lemma TransferAccounts(w: World, w': World, ledger: map<Resource, Owner>, resources: set<Resource>, from: Owner,
                         to: Owner)
    requires Accounted(w, ledger) && w'.place == w.place && w'.closes.Keys == w.closes.Keys && from != to
    requires forall r <- w.place :: Transfers(w, w', r, r in resources, from, to)
    requires forall r <- w'.closes :: w'.closes[r] <= 1
    ensures Accounted(w', Moved(ledger, resources, to))
  {
    var ledger' := Moved(ledger, resources, to);
    forall r <- w'.place, o ensures Has(w', o, r) <==> o == ledger'[r] {
      assert Transfers(w, w', r, r in resources, from, to);
      assert Has(w, o, r) <==> o == ledger[r];
      assert Has(w, from, r) <==> from == ledger[r];
    }
  }

  lemma ClosedOnce(w: World, ledger: map<Resource, Owner>, resources: set<Resource>, owner: Owner)
    requires Accounted(w, ledger) && owner != Gone && forall r <- resources :: r in w.place && Has(w, owner, r)
    ensures forall r <- w.closes :: Closed(w.closes, resources)[r] <= 1
  {
    forall r <- resources ensures w.closes[r] == 0 {
      OpenWhileOwned(w, ledger, r, owner);
    }
  }

  lemma RollbackTransfers(w: World, i: nat, r: Resource)
    requires i in w.preparations && PreparationSound(w.preparations[i]) && PlacedPreparation(w.place, w.preparations[i])
    requires r in w.place && r in w.closes
    ensures Transfers(w, RolledBack(w, i), r, r in Unpublished(w.preparations[i]), ByPreparation(i), Gone)
  {
    UnpublishedIsHeld(w.place, w.preparations[i], r);
  }

  lemma RollbackAccounts(w: World, ledger: map<Resource, Owner>, i: nat)
    requires Invariant(w, ledger) && i in w.preparations
    ensures Accounted(RolledBack(w, i), Moved(ledger, Unpublished(w.preparations[i]), Gone))
  {
    var p := w.preparations[i];
    assert PreparationSound(p) && PlacedPreparation(w.place, p);
    forall r <- w.place ensures Transfers(w, RolledBack(w, i), r, r in Unpublished(p), ByPreparation(i), Gone) {
      RollbackTransfers(w, i, r);
    }
    forall r <- Unpublished(p) ensures r in w.place && Has(w, ByPreparation(i), r) {
      UnpublishedIsHeld(w.place, p, r);
    }
    ClosedOnce(w, ledger, Unpublished(p), ByPreparation(i));
    TransferAccounts(w, RolledBack(w, i), ledger, Unpublished(p), ByPreparation(i), Gone);
  }

  ghost function RetiredWorld(w: World, j: nat): World
    requires j in w.retirements
  {
    w.(retirements := w.retirements - {j}, closes := Closed(w.closes, w.retirements[j]))
  }

  lemma RetireAccounts(w: World, ledger: map<Resource, Owner>, j: nat)
    requires Accounted(w, ledger) && Placed(w) && j in w.retirements
    ensures Accounted(RetiredWorld(w, j), Moved(ledger, w.retirements[j], Gone))
  {
    var w', resources := RetiredWorld(w, j), w.retirements[j];
    forall r <- w.place ensures Transfers(w, w', r, r in resources, ByRetirement(j), Gone) {
    }
    forall r <- resources ensures r in w.place && Has(w, ByRetirement(j), r) {
    }
    ClosedOnce(w, ledger, resources, ByRetirement(j));
    TransferAccounts(w, w', ledger, resources, ByRetirement(j), Gone);
  }

  lemma HasAfterDetach(t: Tables, t': Tables, clientID: string, d: Declaration, r: Resource)
    requires Inverse(t) && Withdraws(t, clientID, t')
    ensures RegistryHas(t', d, r) <==> RegistryHas(t, d, r) && t.routes[d.route].clientID != clientID
  {
  }

  /** What leaves the tables goes to the retirement. */
  lemma RetirementTransfers(w: World, w': World, id: nat, r: Resource, resources: set<Resource>)
    requires id !in w.retirements && r in w.place
    requires w' == w.(tables := w'.tables, retirements := w.retirements[id := resources])
    requires r in resources ==> RegistryHas(w.tables, w.place[r], r)
    requires RegistryHas(w'.tables, w.place[r], r) <==> RegistryHas(w.tables, w.place[r], r) && r !in resources
    ensures Transfers(w, w', r, r in resources, ByRegistry, ByRetirement(id))
  {
  }

  lemma DetachAccounts(w: World, w': World, ledger: map<Resource, Owner>, id: nat, clientID: string,
                       resources: set<Resource>)
    requires Accounted(w, ledger) && Inverse(w.tables) && PlacedTables(w)
    requires clientID in w.tables.clients && id !in w.retirements && Withdraws(w.tables, clientID, w'.tables)
    requires resources == ResourcesOf(w.tables.clients[clientID].proxies)
    requires w' == w.(tables := w'.tables, retirements := w.retirements[id := resources])
    ensures Accounted(w', Moved(ledger, resources, ByRetirement(id)))
  {
    forall r <- w.place ensures Transfers(w, w', r, r in resources, ByRegistry, ByRetirement(id)) {
      ResourcesAreHeld(w, clientID, r);
      HasAfterDetach(w.tables, w'.tables, clientID, w.place[r], r);
      RetirementTransfers(w, w', id, r, resources);
    }
    TransferAccounts(w, w', ledger, resources, ByRegistry, ByRetirement(id));
  }

  lemma UdpRuntimesAreHeld(w: World, r: Resource)
    requires Inverse(w.tables) && PlacedTables(w) && r in UdpRuntimes(w.tables)
    ensures r in w.place && RegistryHas(w.tables, w.place[r], r)
  {
    var t := w.tables;
    var clientID, name :| clientID in t.clients && name in t.clients[clientID].proxies &&
                          t.clients[clientID].proxies[name].declaration.route.UdpPort? &&
                          r == Runtime(t.clients[clientID].proxies[name].bindingID);
    assert ProxiesReachable(t, clientID);
    assert Reachable(t, t.clients[clientID].proxies[name]);
  }

  lemma HeldRuntimesAreListed(t: Tables, route: Route)
    requires Inverse(t) && route in t.routes && HasRuntime(route)
    ensures Runtime(t.routes[route].bindingID) in AllResources(t)
  {
    var b := t.routes[route];
    assert Registered(t, b);
    if route.UdpPort? {
      assert b.declaration.name in t.clients[b.clientID].proxies;
      assert Runtime(b.bindingID) in UdpRuntimes(t);
    } else {
      assert Runtime(b.bindingID) in HttpRuntimes(t);
    }
  }

  /** Close collects exactly what the registry holds. */
  lemma AllResourcesAreHeld(w: World, r: Resource)
    requires Inverse(w.tables) && PlacedTables(w)
    ensures r in AllResources(w.tables) ==> r in w.place
    ensures r in w.place ==> (r in AllResources(w.tables) <==> RegistryHas(w.tables, w.place[r], r))
  {
    if r in UdpRuntimes(w.tables) {
      UdpRuntimesAreHeld(w, r);
    }
    if r in w.place && RegistryHas(w.tables, w.place[r], r) {
      if r.Runtime? {
        HeldRuntimesAreListed(w.tables, w.place[r].route);
      } else {
        assert r in AllSockets(w.tables);
      }
    }
  }

  ghost function ClosedWorld(w: World, id: nat): World {
    w.(tables := ClosedTables(w.tables), retirements := w.retirements[id := AllResources(w.tables)])
  }

  lemma CloseAccounts(w: World, ledger: map<Resource, Owner>, id: nat)
    requires Accounted(w, ledger) && Inverse(w.tables) && PlacedTables(w) && id !in w.retirements
    ensures Accounted(ClosedWorld(w, id), Moved(ledger, AllResources(w.tables), ByRetirement(id)))
  {
    forall r <- w.place
      ensures Transfers(w, ClosedWorld(w, id), r, r in AllResources(w.tables), ByRegistry, ByRetirement(id))
    {
      AllResourcesAreHeld(w, r);
      RetirementTransfers(w, ClosedWorld(w, id), id, r, AllResources(w.tables));
    }
    TransferAccounts(w, ClosedWorld(w, id), ledger, AllResources(w.tables), ByRegistry, ByRetirement(id));
  }

  // Publication moves resources both ways.

  /** An endpoint the registry holds after publication is one it keeps or one the sync opened. */
  lemma PublishedSocket(t: Tables, t': Tables, p: Preparation, d: Declaration, e: Endpoint)
    requires MayPublish(t, p) && Reroutes(t, p.clientID, p.next.value, t')
    ensures RegistryHas(t', d, Socket(e)) <==>
            PreparationHas(p, d, Socket(e)) ||
            (RegistryHas(t, d, Socket(e)) &&
             (t.routes[d.route].clientID != p.clientID || d.route in EndpointsOf(p.next.value)))
  {
    if d.route in p.listening {
      ListeningIsUsed(p, d.route);
    }
    if d.route in EndpointsOf(p.next.value) {
      var name := NameAt(p.next.value, d.route);
      NextIsSet(p);
      NextRouteIsAvailable(t, p, name);
      NextEndpointIs(t, p, name);
    }
  }

  lemma ListeningIsUsed(p: Preparation, route: Route)
    requires PreparationSound(p) && p.next.Some? && route in p.listening
    ensures route in EndpointsOf(p.next.value)
  {
    assert Declares(p, route);
    var name :| name in p.declared && p.declared[name].route == route;
    NextIsSet(p);
    AtRoute(p.next.value, name);
  }

  lemma NextEndpointIs(t: Tables, p: Preparation, name: string)
    requires MayPublish(t, p) && name in p.next.value && IsPort(p.next.value[name].declaration.route)
    ensures var route := p.next.value[name].declaration.route;
      if route in t.endpoints then route !in p.listening && p.next.value[name].endpoint == Some(t.endpoints[route])
      else route in p.listening && p.next.value[name].endpoint == Some(p.listening[route])
  {
    NextIsDistinct(p);
    NextRouteIsAvailable(t, p, name);
    var route := p.next.value[name].declaration.route;
    if Keeps(p, p.declared[name]) {
      ObservedProxies(t, p);
      assert Reachable(t, p.existing[name]);
    }
  }

  lemma PublishedRuntime(t: Tables, t': Tables, p: Preparation, d: Declaration, id: nat)
    requires MayPublish(t, p) && Reroutes(t, p.clientID, p.next.value, t')
    ensures RegistryHas(t', d, Runtime(id)) <==>
            HasRuntime(d.route) &&
            if d.route in ByRoute(p.next.value) then ByRoute(p.next.value)[d.route].bindingID == id
            else RegistryHas(t, d, Runtime(id)) && t.routes[d.route].clientID != p.clientID
  {
  }

  lemma SocketRetires(w: World, p: Preparation, e: Endpoint)
    requires MayPublish(w.tables, p) && PlacedTables(w)
    ensures Socket(e) in Retired(p.existing, p.next.value) ==> Socket(e) in w.place
    ensures Socket(e) in w.place ==>
      var d := w.place[Socket(e)];
      (Socket(e) in Retired(p.existing, p.next.value) <==>
       (RegistryHas(w.tables, d, Socket(e)) && w.tables.routes[d.route].clientID == p.clientID &&
        d.route !in EndpointsOf(p.next.value)))
  {
    var t := w.tables;
    ObservedProxies(t, p);
    if Socket(e) in Retired(p.existing, p.next.value) {
      var name :| name in p.existing && p.existing[name].endpoint == Some(e) &&
                  (p.existing[name].declaration.route !in EndpointsOf(p.next.value) ||
                   EndpointsOf(p.next.value)[p.existing[name].declaration.route] != e);
      var route := p.existing[name].declaration.route;
      assert Reachable(t, p.existing[name]);
      if route in EndpointsOf(p.next.value) {
        NextEndpointIs(t, p, NameAt(p.next.value, route));
      }
    } else if Socket(e) in w.place && RegistryHas(t, w.place[Socket(e)], Socket(e)) {
      var b := t.routes[w.place[Socket(e)].route];
      assert Registered(t, b);
      assert ProxiesReachable(t, b.clientID);
    }
  }

  lemma RuntimeRetires(w: World, p: Preparation, id: nat)
    requires MayPublish(w.tables, p) && PlacedTables(w)
    ensures Runtime(id) in Retired(p.existing, p.next.value) ==> Runtime(id) in w.place
    ensures Runtime(id) in w.place ==>
      var d := w.place[Runtime(id)];
      (Runtime(id) in Retired(p.existing, p.next.value) <==>
       (RegistryHas(w.tables, d, Runtime(id)) && w.tables.routes[d.route].clientID == p.clientID &&
        !Holds(p.next.value, w.tables.routes[d.route])))
  {
    var t := w.tables;
    ObservedProxies(t, p);
    if Runtime(id) in Retired(p.existing, p.next.value) {
      var name :| name in p.existing && HasRuntime(p.existing[name].declaration.route) &&
                  Replaced(p.existing, p.next.value, name) && p.existing[name].bindingID == id;
      assert Reachable(t, p.existing[name]);
    } else if Runtime(id) in w.place && RegistryHas(t, w.place[Runtime(id)], Runtime(id)) {
      var b := t.routes[w.place[Runtime(id)].route];
      assert Registered(t, b);
    }
  }

  /** What the registry holds after publication: what it held and did not retire, and what the sync brought. */
  lemma PublishedHas(w: World, p: Preparation, t': Tables, r: Resource)
    requires MayPublish(w.tables, p) && PlacedTables(w) && PlacedPreparation(w.place, p)
    requires Reroutes(w.tables, p.clientID, p.next.value, t') && r in w.place
    ensures RegistryHas(t', w.place[r], r) <==>
            PreparationHas(p, w.place[r], r) ||
            (RegistryHas(w.tables, w.place[r], r) && r !in Retired(p.existing, p.next.value))
  {
    match r
    case Socket(e) =>
      PublishedSocket(w.tables, t', p, w.place[r], e);
      SocketRetires(w, p, e);
    case Runtime(id) =>
      PublishedRuntime(w.tables, t', p, w.place[r], id);
      RuntimeRetires(w, p, id);
      RuntimeArrives(w, p, id);
  }

  lemma BroughtArrives(p: Preparation, d: Declaration, id: nat)
    requires PreparationSound(p) && PreparationHas(p, d, Runtime(id)) && p.next.value[d.name].declaration == d
    ensures d.route in ByRoute(p.next.value) && HasRuntime(d.route) && ByRoute(p.next.value)[d.route].bindingID == id
  {
    NextIsDistinct(p);
    AtRoute(p.next.value, d.name);
  }

  lemma KeptStays(t: Tables, p: Preparation, route: Route)
    requires MayPublish(t, p) && route in t.routes && Holds(p.next.value, t.routes[route])
    ensures route in ByRoute(p.next.value) && ByRoute(p.next.value)[route] == t.routes[route]
  {
    NextIsDistinct(p);
    AtRoute(p.next.value, t.routes[route].declaration.name);
  }

  lemma ArrivalIsBroughtOrKept(w: World, p: Preparation, name: string)
    requires MayPublish(w.tables, p) && PlacedPreparation(w.place, p)
    requires name in p.next.value && HasRuntime(p.next.value[name].declaration.route)
    ensures var b := p.next.value[name];
      && Holds(p.next.value, b)
      && (if Holds(p.existing, b) then Reachable(w.tables, b)
          else Runtime(b.bindingID) in w.place && w.place[Runtime(b.bindingID)] == b.declaration &&
               PreparationHas(p, b.declaration, Runtime(b.bindingID)))
  {
    NextIsDistinct(p);
    ObservedProxies(w.tables, p);
  }

  lemma RuntimeArrives(w: World, p: Preparation, id: nat)
    requires MayPublish(w.tables, p) && PlacedTables(w) && PlacedPreparation(w.place, p) && Runtime(id) in w.place
    ensures var d := w.place[Runtime(id)];
      d.route in ByRoute(p.next.value) && HasRuntime(d.route) && ByRoute(p.next.value)[d.route].bindingID == id <==>
      PreparationHas(p, d, Runtime(id)) ||
      (RegistryHas(w.tables, d, Runtime(id)) && Holds(p.next.value, w.tables.routes[d.route]))
  {
    var t, d := w.tables, w.place[Runtime(id)];
    if PreparationHas(p, d, Runtime(id)) {
      BroughtArrives(p, d, id);
    } else if RegistryHas(t, d, Runtime(id)) && Holds(p.next.value, t.routes[d.route]) {
      KeptStays(t, p, d.route);
    } else if d.route in ByRoute(p.next.value) && HasRuntime(d.route) && ByRoute(p.next.value)[d.route].bindingID == id {
      ArrivalIsBroughtOrKept(w, p, NameAt(p.next.value, d.route));
    }
  }

  ghost function PublishedLedger(ledger: map<Resource, Owner>, p: Preparation, id: nat): map<Resource, Owner>
    requires p.next.Some?
  {
    Moved(Moved(ledger, Retired(p.existing, p.next.value), ByRetirement(id)), Unpublished(p), ByRegistry)
  }

  lemma PublishAccounts(w: World, w': World, ledger: map<Resource, Owner>, id: nat, p: Preparation, r: Resource,
                        o: Owner)
    requires Accounted(w, ledger) && r in w.place && id in w.preparations && w.preparations[id] == p && p.next.Some?
    requires id !in w.retirements
    requires w' == w.(tables := w'.tables, preparations := w.preparations - {id},
                      retirements := w.retirements[id := Retired(p.existing, p.next.value)])
    requires RegistryHas(w'.tables, w.place[r], r) <==>
             PreparationHas(p, w.place[r], r) ||
             (RegistryHas(w.tables, w.place[r], r) && r !in Retired(p.existing, p.next.value))
    requires r in Unpublished(p) <==> PreparationHas(p, w.place[r], r)
    requires r in Retired(p.existing, p.next.value) ==> RegistryHas(w.tables, w.place[r], r)
    ensures Has(w', o, r) <==> o == PublishedLedger(ledger, p, id)[r]
  {
    assert Has(w, o, r) <==> o == ledger[r];
    assert Has(w, ByPreparation(id), r) <==> ByPreparation(id) == ledger[r];
    assert Has(w, ByRegistry, r) <==> ByRegistry == ledger[r];
    assert !Has(w, ByRetirement(id), r);
  }

  /** Everything a preparation can publish: its tests passed and what it opened is free. */
  lemma PublishableMayPublish(w: World, ledger: map<Resource, Owner>, id: nat)
    requires Invariant(w, ledger) && id in w.preparations && w.preparations[id].next.Some?
    requires Publishable(w.tables, w.preparations[id])
    ensures MayPublish(w.tables, w.preparations[id])
  {
    forall route <- w.preparations[id].listening ensures route !in w.tables.endpoints {
      ListeningIsFree(w, ledger, id, route);
    }
  }

  lemma RetiredIsHeld(w: World, p: Preparation, r: Resource)
    requires MayPublish(w.tables, p) && PlacedTables(w) && r in Retired(p.existing, p.next.value)
    ensures r in w.place && RegistryHas(w.tables, w.place[r], r)
  {
    match r
    case Socket(e) => SocketRetires(w, p, e);
    case Runtime(id) => RuntimeRetires(w, p, id);
  }

  lemma PublishIsAccounted(w: World, w': World, ledger: map<Resource, Owner>, id: nat, p: Preparation)
    requires Accounted(w, ledger) && id in w.preparations && w.preparations[id] == p && id !in w.retirements
    requires MayPublish(w.tables, p) && PlacedTables(w) && PlacedPreparation(w.place, p)
    requires Reroutes(w.tables, p.clientID, p.next.value, w'.tables)
    requires w' == w.(tables := w'.tables, preparations := w.preparations - {id},
                      retirements := w.retirements[id := Retired(p.existing, p.next.value)])
    ensures Accounted(w', PublishedLedger(ledger, p, id))
  {
    forall r <- w.place, o ensures Has(w', o, r) <==> o == PublishedLedger(ledger, p, id)[r] {
      PublishedHas(w, p, w'.tables, r);
      UnpublishedIsHeld(w.place, p, r);
      if r in Retired(p.existing, p.next.value) {
        RetiredIsHeld(w, p, r);
      }
      PublishAccounts(w, w', ledger, id, p, r, o);
    }
  }

  // New resources belong to the preparation that makes them.

  /** Nothing refers to a resource that has not been made. */
  lemma NewIsNobodys(w: World, r: Resource, o: Owner)
    requires Placed(w) && r !in w.place
    ensures match o
      case ByRegistry => forall d :: !RegistryHas(w.tables, d, r)
      case ByPreparation(id) => id in w.preparations ==> forall d :: !PreparationHas(w.preparations[id], d, r)
      case ByRetirement(id) => id in w.retirements ==> r !in w.retirements[id]
      case Gone => true
  {
    if o.ByPreparation? && o.id in w.preparations {
      assert PlacedPreparation(w.place, w.preparations[o.id]);
    }
  }

  /** A build brings exactly the runtimes it created; bindings it keeps stay borrowed. */
  lemma BuiltBinding(p: Preparation, p': Preparation, ids: map<string, nat>, name: string)
    requires PreparationSound(p) && p.next.None? && ids.Keys == p.declared.Keys && name in p.declared
    requires p' == p.(next := Some(NextBindings(p, ids))) && PreparationSound(p')
    ensures var b := p'.next.value[name];
      && (IsNewRuntime(p', b) <==> HasRuntime(p.declared[name].route) && !Keeps(p, p.declared[name]))
      && (IsNewRuntime(p', b) ==> b.bindingID == ids[name] && b.declaration == p.declared[name])
  {
    NewBindingIsNotHeld(p', name);
    assert Keeps(p', p'.declared[name]) <==> Keeps(p, p.declared[name]);
  }

  /** One preparation is added or goes on, with some resources it has just made. */
  ghost predicate Extends(w: World, w': World, id: nat, p: Preparation, made: map<Resource, Declaration>) {
    && w'.tables == w.tables && w'.barrier == w.barrier && w'.retirements == w.retirements
    && w'.preparations == w.preparations[id := p]
    && made.Keys !! w.place.Keys && w'.place == w.place + made
    && made.Keys !! w.closes.Keys && w'.closes.Keys == w.closes.Keys + made.Keys
    && (forall r <- w'.closes :: w'.closes[r] == if r in made then 0 else w.closes[r])
  }

  ghost function MadeLedger(ledger: map<Resource, Owner>, made: map<Resource, Declaration>,
                            id: nat): map<Resource, Owner> {
    ledger + map r <- made :: ByPreparation(id)
  }

  /** The preparation holds what it has just made and otherwise what it held before. */
  ghost predicate HoldsMade(w: World, id: nat, p: Preparation, made: map<Resource, Declaration>) {
    && (forall r <- made :: PreparationHas(p, made[r], r))
    && (forall r <- w.place ::
          PreparationHas(p, w.place[r], r) <==> id in w.preparations && PreparationHas(w.preparations[id], w.place[r], r))
  }

  lemma ExtensionOwns(w: World, w': World, id: nat, p: Preparation, made: map<Resource, Declaration>, r: Resource,
                      o: Owner)
    requires Placed(w) && Extends(w, w', id, p, made) && r in made && PreparationHas(p, made[r], r)
    ensures Has(w', o, r) <==> o == ByPreparation(id)
  {
    NewIsNobodys(w, r, o);
  }

  lemma ExtensionLeaves(w: World, w': World, id: nat, p: Preparation, made: map<Resource, Declaration>, r: Resource,
                        o: Owner)
    requires Extends(w, w', id, p, made) && r in w.place && r in w.closes && HoldsMade(w, id, p, made)
    ensures Has(w', o, r) <==> Has(w, o, r)
  {
  }

  lemma ExtensionAccounts(w: World, w': World, ledger: map<Resource, Owner>, id: nat, p: Preparation,
                          made: map<Resource, Declaration>)
    requires Accounted(w, ledger) && Placed(w) && Extends(w, w', id, p, made) && HoldsMade(w, id, p, made)
    ensures Accounted(w', MadeLedger(ledger, made, id))
  {
    forall r <- w'.place, o ensures Has(w', o, r) <==> o == MadeLedger(ledger, made, id)[r] {
      if r in made {
        ExtensionOwns(w, w', id, p, made, r, o);
      } else {
        ExtensionLeaves(w, w', id, p, made, r, o);
        assert Has(w, o, r) <==> o == ledger[r];
      }
    }
  }

  lemma ExtensionIsPlaced(w: World, w': World, id: nat, p: Preparation, made: map<Resource, Declaration>)
    requires Placed(w) && Extends(w, w', id, p, made) && PlacedPreparation(w'.place, p)
    ensures Placed(w')
  {
    forall i <- w'.preparations ensures PlacedPreparation(w'.place, w'.preparations[i]) {
      if i != id {
        assert PlacedPreparation(w.place, w.preparations[i]);
      }
    }
  }

  lemma ExtensionIsSound(w: World, w': World, id: nat, p: Preparation, made: map<Resource, Declaration>)
    requires TablesSound(w) && Extends(w, w', id, p, made) && PreparationSound(p) && Observed(w.tables, p)
    ensures TablesSound(w')
  {
  }

  lemma ExtensionKeeps(w: World, w': World, ledger: map<Resource, Owner>, id: nat, p: Preparation,
                       made: map<Resource, Declaration>)
    requires Invariant(w, ledger) && Extends(w, w', id, p, made) && PreparationSound(p) && Observed(w.tables, p)
    requires HoldsMade(w, id, p, made) && PlacedPreparation(w'.place, p) && Exclusive(w')
    ensures Invariant(w', MadeLedger(ledger, made, id))
  {
    assert TablesSound(w') by { ExtensionIsSound(w, w', id, p, made); }
    assert Placed(w') by { ExtensionIsPlaced(w, w', id, p, made); }
    assert Accounted(w', MadeLedger(ledger, made, id)) by { ExtensionAccounts(w, w', ledger, id, p, made); }
  }

  // ---------------------------------------------------------------------
  // Each step keeps the invariant
  // ---------------------------------------------------------------------

  lemma AttachKeeps(w: World, ledger: map<Resource, Owner>, clientID: string, sessionID: string, mode: Mode)
    requires Invariant(w, ledger) && Can(w, Attach(clientID, sessionID, mode))
    ensures Invariant(w.(tables := AttachedTables(w.tables, clientID, sessionID, mode)), ledger)
  {
    var w' := w.(tables := AttachedTables(w.tables, clientID, sessionID, mode));
    AttachKeepsInverse(w.tables, clientID, sessionID, mode);
    SameRoutesAccount(w, w', ledger);
  }

  /** Accounts depend on the route tables only, not on sessions or reservations. */
  lemma SameRoutesAccount(w: World, w': World, ledger: map<Resource, Owner>)
    requires Accounted(w, ledger) && Placed(w) && Exclusive(w)
    requires w'.tables.routes == w.tables.routes && w'.tables.endpoints == w.tables.endpoints
    requires w'.preparations == w.preparations && w'.retirements == w.retirements
    requires w'.place == w.place && w'.closes == w.closes
    ensures Accounted(w', ledger) && Placed(w') && Exclusive(w')
  {
    forall r <- w'.place, o ensures Has(w', o, r) <==> o == ledger[r] {
      assert Has(w, o, r) <==> o == ledger[r];
    }
  }

  lemma ReserveBeginKeeps(w: World, ledger: map<Resource, Owner>, reserved: map<Route, string>)
    requires Invariant(w, ledger) && Adopts(w.tables, reserved)
    ensures Invariant(w.(barrier := Some(reserved)), ledger)
  {
    SameRoutesAccount(w, w.(barrier := Some(reserved)), ledger);
  }

  lemma ReserveEndKeeps(w: World, ledger: map<Resource, Owner>, commit: bool)
    requires Invariant(w, ledger) && w.barrier.Some?
    ensures Invariant(Do(w, ReserveEnd(commit)), ledger)
  {
    var w' := Do(w, ReserveEnd(commit));
    SameRoutesAccount(w, w', ledger);
    var t, t' := w.tables, w'.tables;
    forall clientID <- t'.clients ensures ProxiesReachable(t', clientID) {
      assert ProxiesReachable(t, clientID);
    }
    forall route <- t'.routes ensures Registered(t', t'.routes[route]) {
      assert Registered(t, t.routes[route]);
    }
  }

  lemma NothingMade(w: World, w': World, id: nat, p: Preparation)
    requires w' == w.(preparations := w.preparations[id := p])
    ensures Extends(w, w', id, p, map[])
  {
    var made: map<Resource, Declaration> := map[];
    assert w.place + made == w.place;
  }

  lemma BeginKeeps(w: World, ledger: map<Resource, Owner>, id: nat, p: Preparation)
    requires Invariant(w, ledger) && id !in w.preparations && p.listening == map[] && p.next.None?
    requires PreparationSound(p) && Observed(w.tables, p)
    ensures Invariant(w.(preparations := w.preparations[id := p]), ledger)
  {
    var w', made: map<Resource, Declaration> := w.(preparations := w.preparations[id := p]), map[];
    assert MadeLedger(ledger, made, id) == ledger;
    assert Extends(w, w', id, p, made) by { NothingMade(w, w', id, p); }
    ExtensionKeeps(w, w', ledger, id, p, made);
  }

  lemma ListenHoldsMade(w: World, id: nat, p: Preparation, d: Declaration, endpoint: Endpoint)
    requires id in w.preparations && Socket(endpoint) !in w.place && d.route !in w.preparations[id].listening
    requires p == w.preparations[id].(listening := w.preparations[id].listening[d.route := endpoint])
    ensures HoldsMade(w, id, p, map[Socket(endpoint) := d])
  {
    forall r <- w.place
      ensures PreparationHas(p, w.place[r], r) <==> PreparationHas(w.preparations[id], w.place[r], r)
    {
    }
  }

  lemma ListenIsPlaced(place: map<Resource, Declaration>, p: Preparation, p': Preparation, d: Declaration,
                       endpoint: Endpoint)
    requires PlacedPreparation(place, p) && Socket(endpoint) !in place
    requires p' == p.(listening := p.listening[d.route := endpoint])
    ensures PlacedPreparation(place[Socket(endpoint) := d], p')
  {
    forall route <- p'.listening
      ensures var r := Socket(p'.listening[route]); r in place[Socket(endpoint) := d] && place[Socket(endpoint) := d][r].route == route
    {
    }
  }

  lemma ListenIsExclusive(w: World, w': World, d: Declaration, endpoint: Endpoint)
    requires Exclusive(w) && Socket(endpoint) !in w.place
    requires forall r <- w.place | r.Socket? && w.place[r].route == d.route :: r in w.closes && w.closes[r] > 0
    requires w'.place == w.place[Socket(endpoint) := d] && w'.closes == w.closes[Socket(endpoint) := 0]
    ensures Exclusive(w')
  {
  }

  lemma ListenExtends(w: World, w': World, id: nat, p: Preparation, d: Declaration, endpoint: Endpoint)
    requires Socket(endpoint) !in w.place && Socket(endpoint) !in w.closes
    requires w' == w.(preparations := w.preparations[id := p], place := w.place[Socket(endpoint) := d],
                      closes := w.closes[Socket(endpoint) := 0])
    ensures Extends(w, w', id, p, map[Socket(endpoint) := d])
  {
  }

  lemma ListenKeeps(w: World, w': World, ledger: map<Resource, Owner>, id: nat, name: string, endpoint: Endpoint,
                    d: Declaration)
    requires Invariant(w, ledger) && Can(w, Listen(id, name, endpoint)) && w' == Listening(w, id, name, endpoint)
    requires d == w.preparations[id].declared[name]
    ensures Invariant(w', MadeLedger(ledger, map[Socket(endpoint) := d], id))
  {
    var p := w'.preparations[id];
    assert PreparationSound(p) by { ListeningStaysSound(w.preparations[id], name, endpoint); }
    assert HoldsMade(w, id, p, map[Socket(endpoint) := d]) by { ListenHoldsMade(w, id, p, d, endpoint); }
    assert PlacedPreparation(w'.place, p) by {
      assert PlacedPreparation(w.place, w.preparations[id]);
      ListenIsPlaced(w.place, w.preparations[id], p, d, endpoint);
    }
    assert Extends(w, w', id, p, map[Socket(endpoint) := d]) by { ListenExtends(w, w', id, p, d, endpoint); }
    assert Exclusive(w') by { ListenIsExclusive(w, w', d, endpoint); }
    ExtensionKeeps(w, w', ledger, id, p, map[Socket(endpoint) := d]);
  }

  lemma BuildHoldsMade(w: World, id: nat, p: Preparation, p': Preparation, ids: map<string, nat>)
    requires Can(w, Build(id, ids)) && p == w.preparations[id] && p' == p.(next := Some(NextBindings(p, ids)))
    requires PreparationSound(p) && PreparationSound(p')
    ensures HoldsMade(w, id, p', Created(p, ids))
  {
    var made := Created(p, ids);
    forall r <- made ensures PreparationHas(p', made[r], r) {
      var name :| name in p.declared && r == Runtime(ids[name]);
      BuiltBinding(p, p', ids, name);
    }
    forall r <- w.place ensures PreparationHas(p', w.place[r], r) <==> PreparationHas(p, w.place[r], r) {
      if r.Runtime? && w.place[r].name in p.declared {
        BuiltBinding(p, p', ids, w.place[r].name);
      }
    }
  }

  lemma BuildIsPlaced(place: map<Resource, Declaration>, p: Preparation, p': Preparation, ids: map<string, nat>)
    requires PreparationSound(p) && PreparationSound(p') && ids.Keys == p.declared.Keys && p.next.None?
    requires forall name <- ids, other <- ids | name != other :: ids[name] != ids[other]
    requires p' == p.(next := Some(NextBindings(p, ids))) && PlacedPreparation(place, p)
    requires Created(p, ids).Keys !! place.Keys
    ensures PlacedPreparation(place + Created(p, ids), p')
  {
    var place' := place + Created(p, ids);
    forall name <- p'.next.value | IsNewRuntime(p', p'.next.value[name])
      ensures var b := p'.next.value[name]; Runtime(b.bindingID) in place' && place'[Runtime(b.bindingID)] == b.declaration
    {
      BuiltBinding(p, p', ids, name);
      assert Runtime(ids[name]) in Created(p, ids);
    }
  }

  lemma MakingExtends(w: World, w': World, id: nat, p: Preparation, made: map<Resource, Declaration>)
    requires made.Keys !! w.place.Keys && made.Keys !! w.closes.Keys
    requires w' == w.(preparations := w.preparations[id := p], place := w.place + made,
                      closes := w.closes + map r <- made :: 0)
    ensures Extends(w, w', id, p, made)
  {
  }

  lemma MakingKeeps(w: World, w': World, ledger: map<Resource, Owner>, id: nat, p: Preparation,
                    made: map<Resource, Declaration>)
    requires Invariant(w, ledger) && made.Keys !! w.place.Keys && made.Keys !! w.closes.Keys
    requires w' == w.(preparations := w.preparations[id := p], place := w.place + made,
                      closes := w.closes + map r <- made :: 0)
    requires PreparationSound(p) && Observed(w.tables, p) && HoldsMade(w, id, p, made)
    requires PlacedPreparation(w'.place, p) && forall r <- made :: r.Runtime?
    ensures Invariant(w', MadeLedger(ledger, made, id))
  {
    assert Extends(w, w', id, p, made) by { MakingExtends(w, w', id, p, made); }
    assert Exclusive(w') by { RuntimesAreNoSockets(w, w', made); }
    ExtensionKeeps(w, w', ledger, id, p, made);
  }

  lemma BuildKeeps(w: World, w': World, ledger: map<Resource, Owner>, id: nat, p: Preparation, ids: map<string, nat>)
    requires Invariant(w, ledger) && Can(w, Build(id, ids)) && p == w.preparations[id] && w' == Built(w, id, ids)
    ensures Invariant(w', MadeLedger(ledger, Created(p, ids), id))
  {
    var p', made := w'.preparations[id], Created(p, ids);
    assert PreparationSound(p') by { BuiltStaysSound(p, ids); }
    assert HoldsMade(w, id, p', made) by { BuildHoldsMade(w, id, p, p', ids); }
    assert PlacedPreparation(w.place + made, p') by {
      assert PlacedPreparation(w.place, p);
      BuildIsPlaced(w.place, p, p', ids);
    }
    assert Observed(w.tables, p') by { assert Observed(w.tables, p); }
    MakingKeeps(w, w', ledger, id, p', made);
  }

  lemma RuntimesAreNoSockets(w: World, w': World, made: map<Resource, Declaration>)
    requires Exclusive(w) && (forall r <- made :: r.Runtime?) && w'.place == w.place + made
    requires forall r <- w.closes :: r in w'.closes && w'.closes[r] == w.closes[r]
    ensures Exclusive(w')
  {
  }

  /** Closing resources keeps ports exclusive. */
  lemma ClosingStaysExclusive(w: World, w': World)
    requires Exclusive(w) && w'.place == w.place
    requires forall r <- w.closes :: r in w'.closes && w'.closes[r] >= w.closes[r]
    ensures Exclusive(w')
  {
  }

  lemma RollbackKeeps(w: World, w': World, ledger: map<Resource, Owner>, id: nat)
    requires Invariant(w, ledger) && id in w.preparations && w' == RolledBack(w, id)
    ensures Invariant(w', Moved(ledger, Unpublished(w.preparations[id]), Gone))
  {
    RollbackAccounts(w, ledger, id);
    ClosingStaysExclusive(w, w');
  }

  lemma RetireKeeps(w: World, w': World, ledger: map<Resource, Owner>, id: nat)
    requires Invariant(w, ledger) && id in w.retirements && w' == RetiredWorld(w, id)
    ensures Invariant(w', Moved(ledger, w.retirements[id], Gone))
  {
    RetireAccounts(w, ledger, id);
    ClosingStaysExclusive(w, w');
  }

  /** A client's tables change only by its own publication or removal. */
  lemma DetachKeepsObserved(w: World, t': Tables, clientID: string)
    requires TablesSound(w) && t'.clients == w.tables.clients - {clientID}
    ensures forall i <- w.preparations :: Observed(t', w.preparations[i])
  {
    forall i <- w.preparations ensures Observed(t', w.preparations[i]) {
      assert Observed(w.tables, w.preparations[i]);
    }
  }

  lemma DetachIsPlaced(w: World, w': World, id: nat, clientID: string, resources: set<Resource>)
    requires Placed(w) && Inverse(w.tables) && clientID in w.tables.clients && Withdraws(w.tables, clientID, w'.tables)
    requires resources == ResourcesOf(w.tables.clients[clientID].proxies)
    requires w' == w.(tables := w'.tables, retirements := w.retirements[id := resources])
    ensures Placed(w')
  {
    forall r <- resources ensures r in w.place {
      ResourcesAreHeld(w, clientID, r);
    }
  }

  lemma DetachedTablesSound(w: World, w': World, clientID: string)
    requires TablesSound(w) && Withdraws(w.tables, clientID, w'.tables) && w.barrier.None?
    requires w'.tables.clients == w.tables.clients - {clientID} && w'.tables.reserved == w.tables.reserved
    requires w'.preparations == w.preparations && w'.barrier.None?
    ensures TablesSound(w')
  {
    WithdrawKeepsInverse(w.tables, clientID, w'.tables);
    DetachKeepsObserved(w, w'.tables, clientID);
  }

  lemma DetachKeeps(w: World, w': World, ledger: map<Resource, Owner>, id: nat, clientID: string,
                    resources: set<Resource>)
    requires Invariant(w, ledger) && clientID in w.tables.clients && id !in w.retirements && w.barrier.None?
    requires w' == Detached(w, id, clientID) && resources == ResourcesOf(w.tables.clients[clientID].proxies)
    ensures Invariant(w', Moved(ledger, resources, ByRetirement(id)))
  {
    assert Withdraws(w.tables, clientID, w'.tables) by { DetachWithdraws(w.tables, clientID, w'.tables); }
    assert TablesSound(w') by { DetachedTablesSound(w, w', clientID); }
    assert Placed(w') by { DetachIsPlaced(w, w', id, clientID, resources); }
    assert Accounted(w', Moved(ledger, resources, ByRetirement(id))) by {
      DetachAccounts(w, w', ledger, id, clientID, resources);
    }
  }

  lemma CloseKeeps(w: World, w': World, ledger: map<Resource, Owner>, id: nat)
    requires Invariant(w, ledger) && id !in w.retirements && w.barrier.None? && w' == ClosedWorld(w, id)
    ensures Invariant(w', Moved(ledger, AllResources(w.tables), ByRetirement(id)))
  {
    forall r <- AllResources(w.tables) ensures r in w.place {
      AllResourcesAreHeld(w, r);
    }
    CloseAccounts(w, ledger, id);
    assert Placed(w');
  }

  lemma PublishKeepsObserved(t: Tables, t': Tables, p: Preparation, state: ClientState, other: Preparation)
    requires MayPublish(t, p) && Observed(t, other)
    requires t'.clients == t.clients[p.clientID := state] && state.sessionID == p.sessionID
    requires state.sync.revision == p.request.revision
    ensures Observed(t', other)
  {
  }

  lemma PublishIsPlaced(w: World, t': Tables, p: Preparation)
    requires Placed(w) && MayPublish(w.tables, p) && PlacedPreparation(w.place, p)
    requires Reroutes(w.tables, p.clientID, p.next.value, t')
    ensures forall route <- t'.endpoints :: Socket(t'.endpoints[route]) in w.place && w.place[Socket(t'.endpoints[route])].route == route
    ensures forall route <- t'.routes | HasRuntime(route) ::
      var r := Runtime(t'.routes[route].bindingID); r in w.place && w.place[r].route == route
  {
    forall route <- t'.endpoints
      ensures Socket(t'.endpoints[route]) in w.place && w.place[Socket(t'.endpoints[route])].route == route
    {
      PublishedEndpointPlaced(w, t', p, route);
    }
    forall route <- t'.routes | HasRuntime(route)
      ensures var r := Runtime(t'.routes[route].bindingID); r in w.place && w.place[r].route == route
    {
      PublishedRuntimePlaced(w, t', p, route);
    }
  }

  lemma PublishedEndpointPlaced(w: World, t': Tables, p: Preparation, route: Route)
    requires PlacedTables(w) && MayPublish(w.tables, p) && PlacedPreparation(w.place, p)
    requires Reroutes(w.tables, p.clientID, p.next.value, t') && route in t'.endpoints
    ensures Socket(t'.endpoints[route]) in w.place && w.place[Socket(t'.endpoints[route])].route == route
  {
    if route in EndpointsOf(p.next.value) {
      var name := NameAt(p.next.value, route);
      NextIsSet(p);
      NextEndpointIs(w.tables, p, name);
    }
  }

  lemma PublishedRuntimePlaced(w: World, t': Tables, p: Preparation, route: Route)
    requires PlacedTables(w) && MayPublish(w.tables, p) && PlacedPreparation(w.place, p)
    requires Reroutes(w.tables, p.clientID, p.next.value, t') && route in t'.routes && HasRuntime(route)
    ensures var r := Runtime(t'.routes[route].bindingID); r in w.place && w.place[r].route == route
  {
    if route in ByRoute(p.next.value) {
      ArrivalIsBroughtOrKept(w, p, NameAt(p.next.value, route));
    }
  }

  lemma PublicationIsPlaced(w: World, w': World, id: nat, p: Preparation)
    requires Placed(w) && Exclusive(w) && id in w.preparations && p == w.preparations[id] && MayPublish(w.tables, p)
    requires Reroutes(w.tables, p.clientID, p.next.value, w'.tables)
    requires w' == w.(tables := w'.tables, preparations := w.preparations - {id},
                      retirements := w.retirements[id := Retired(p.existing, p.next.value)])
    ensures Placed(w') && Exclusive(w')
  {
    assert PlacedPreparation(w.place, p);
    PublishIsPlaced(w, w'.tables, p);
    forall r <- Retired(p.existing, p.next.value) ensures r in w.place {
      RetiredIsHeld(w, p, r);
    }
  }

  lemma PublishKeeps(w: World, w': World, ledger: map<Resource, Owner>, id: nat, p: Preparation)
    requires Invariant(w, ledger) && id in w.preparations && p == w.preparations[id] && p.next.Some?
    requires id !in w.retirements && w.barrier.None? && Publishable(w.tables, p) && w' == Published(w, id)
    ensures Invariant(w', PublishedLedger(ledger, p, id))
  {
    assert MayPublish(w.tables, p) by { PublishableMayPublish(w, ledger, id); }
    assert Reroutes(w.tables, p.clientID, p.next.value, w'.tables) by { PublishReroutes(w.tables, p, w'.tables); }
    assert TablesSound(w') by {
      PublishedIsPublication(w.tables, p);
      PublishedTablesSound(w, w', id, p, w'.tables.clients[p.clientID]);
    }
    assert Accounted(w', PublishedLedger(ledger, p, id)) by {
      assert PlacedPreparation(w.place, p);
      PublishIsAccounted(w, w', ledger, id, p);
    }
    assert Placed(w') && Exclusive(w') by { PublicationIsPlaced(w, w', id, p); }
  }

  lemma PublishStaysObserved(w: World, t': Tables, p: Preparation, state: ClientState)
    requires MayPublish(w.tables, p) && forall i <- w.preparations :: Observed(w.tables, w.preparations[i])
    requires t'.clients == w.tables.clients[p.clientID := state] && state.sessionID == p.sessionID
    requires state.sync.revision == p.request.revision
    ensures forall i <- w.preparations :: Observed(t', w.preparations[i])
  {
    forall i <- w.preparations ensures Observed(t', w.preparations[i]) {
      PublishKeepsObserved(w.tables, t', p, state, w.preparations[i]);
    }
  }

  /** The tables a publication leaves, field by field. */
  ghost predicate Publication(t: Tables, p: Preparation, t': Tables, state: ClientState)
    requires p.next.Some?
  {
    && t'.routes == Rerouted(t.routes, p.existing, p.next.value)
    && t'.endpoints == Relocated(t.endpoints, p.existing, p.next.value)
    && t'.clients == t.clients[p.clientID := state] && t'.reserved == t.reserved
    && state.proxies == p.next.value && state.sessionID == p.sessionID
    && state.sync.revision == p.request.revision && Remembers(state.sync)
  }

  lemma PublishedIsPublication(t: Tables, p: Preparation)
    requires p.next.Some? && p.clientID in t.clients && t.clients[p.clientID].sessionID == p.sessionID
    requires Remembers(t.clients[p.clientID].sync) && p.request.id !in t.clients[p.clientID].sync.requests
    requires t.clients[p.clientID].sync.revision < p.request.revision
    ensures Publication(t, p, PublishedTables(t, p), PublishedTables(t, p).clients[p.clientID])
  {
    CachedStaysTidy(t.clients[p.clientID].sync, p.request, ResultOf(p));
  }

  lemma PublishedTablesSound(w: World, w': World, id: nat, p: Preparation, state: ClientState)
    requires TablesSound(w) && MayPublish(w.tables, p) && Publication(w.tables, p, w'.tables, state)
    requires w'.preparations == w.preparations - {id} && w'.barrier.None?
    ensures TablesSound(w')
  {
    assert Inverse(w'.tables) by { PublishKeepsInverse(w.tables, p, w'.tables, state); }
    assert Respects(w'.tables.routes, w'.tables.reserved) by { PublishRespects(w.tables, p); }
    assert forall i <- w.preparations :: Observed(w'.tables, w.preparations[i]) by {
      PublishStaysObserved(w, w'.tables, p, state);
    }
  }

  lemma BegunKeeps(w: World, ledger: map<Resource, Owner>, id: nat, clientID: string, sessionID: string,
                   request: Request,
                   declared: Declared, allowEmpty: bool)
    requires Invariant(w, ledger) && id !in w.preparations
    ensures Invariant(Begun(w, id, clientID, sessionID, request, declared, allowEmpty), ledger)
  {
    var w' := Begun(w, id, clientID, sessionID, request, declared, allowEmpty);
    if w' != w {
      ObservationIsSound(w.tables, clientID, sessionID, request, declared, allowEmpty);
      BeginKeeps(w, ledger, id, Observation(w.tables, clientID, sessionID, request, declared));
    }
  }

  lemma StepKeepsInvariant(w: World, step: Step, w': World, ledger: map<Resource, Owner>)
    returns (ledger': map<Resource, Owner>)
    requires Invariant(w, ledger) && Can(w, step) && w' == Do(w, step)
    ensures Invariant(w', ledger')
  {
    ledger' := ledger;
    match step
    case Attach(clientID, sessionID, mode) => AttachKeeps(w, ledger, clientID, sessionID, mode);
    case Begin(id, clientID, sessionID, request, declared, allowEmpty) =>
      BegunKeeps(w, ledger, id, clientID, sessionID, request, declared, allowEmpty);
    case Listen(id, name, endpoint) =>
      var d := w.preparations[id].declared[name];
      ListenKeeps(w, w', ledger, id, name, endpoint, d);
      ledger' := MadeLedger(ledger, map[Socket(endpoint) := d], id);
    case Build(id, ids) =>
      BuildKeeps(w, w', ledger, id, w.preparations[id], ids);
      ledger' := MadeLedger(ledger, Created(w.preparations[id], ids), id);
    case Publish(id) => ledger' := PublishOrRollback(w, w', ledger, id);
    case Abandon(id) =>
      RollbackKeeps(w, w', ledger, id);
      ledger' := Moved(ledger, Unpublished(w.preparations[id]), Gone);
    case Detach(id, clientID, sessionID) =>
      if w' != w {
        var resources := ResourcesOf(w.tables.clients[clientID].proxies);
        DetachKeeps(w, w', ledger, id, clientID, resources);
        ledger' := Moved(ledger, resources, ByRetirement(id));
      }
    case CloseAll(id) =>
      CloseKeeps(w, w', ledger, id);
      ledger' := Moved(ledger, AllResources(w.tables), ByRetirement(id));
    case Retire(id) =>
      RetireKeeps(w, w', ledger, id);
      ledger' := Moved(ledger, w.retirements[id], Gone);
    case ReserveBegin(reserved) =>
      if w' != w {
        ReserveBeginKeeps(w, ledger, reserved);
      }
    case ReserveEnd(commit) => ReserveEndKeeps(w, ledger, commit);
  }

  lemma PublishOrRollback(w: World, w': World, ledger: map<Resource, Owner>, id: nat)
    returns (ledger': map<Resource, Owner>)
    requires Invariant(w, ledger) && Can(w, Publish(id)) && w' == Do(w, Publish(id))
    ensures Invariant(w', ledger')
  {
    var p := w.preparations[id];
    if Publishable(w.tables, p) {
      PublishKeeps(w, w', ledger, id, p);
      ledger' := PublishedLedger(ledger, p, id);
    } else {
      RollbackKeeps(w, w', ledger, id);
      ledger' := Moved(ledger, Unpublished(p), Gone);
    }
  }

  // ---------------------------------------------------------------------
  // Over every run
  // ---------------------------------------------------------------------

  ghost predicate Moves(run: seq<World>, steps: seq<Step>, i: nat)
    requires |run| == |steps| + 1 && i < |steps|
  {
    Can(run[i], steps[i]) && run[i + 1] == Do(run[i], steps[i])
  }

  ghost predicate Follows(run: seq<World>, steps: seq<Step>) {
    && |run| == |steps| + 1
    && run[0] == START
    && (forall i: nat | i < |steps| :: Moves(run, steps, i))
  }

  lemma {:induction false} InvariantAlongRun(run: seq<World>, steps: seq<Step>, i: nat)
    returns (ledger: map<Resource, Owner>)
    requires Follows(run, steps) && i < |run|
    ensures Invariant(run[i], ledger)
  {
    if i == 0 {
      ledger := map[];
    } else {
      var before := InvariantAlongRun(run, steps, i - 1);
      assert Moves(run, steps, i - 1);
      ledger := StepKeepsInvariant(run[i - 1], steps[i - 1], run[i], before);
    }
  }

  /**
   In every interleaving the route tables are exactly the inverse of the
   clients' proxy maps, and no binding on a reserved route belongs to anyone
   but the client it is reserved for.
   */
  lemma RoutesAlongRun(run: seq<World>, steps: seq<Step>, i: nat)
    requires Follows(run, steps) && i < |run|
    ensures Inverse(run[i].tables)
    ensures Respects(run[i].tables.routes, run[i].tables.reserved)
  {
    var _ := InvariantAlongRun(run, steps, i);
  }

  /**
   In every interleaving each client's cache map and order list hold the same
   distinct IDs, at most sixteen, and a sync in flight whose revision has been
   reached meanwhile, by another or by its own replay, is not published.
   */
  lemma CachesAlongRun(run: seq<World>, steps: seq<Step>, i: nat, clientID: string)
    requires Follows(run, steps) && i < |run| && clientID in run[i].tables.clients
    ensures Tidy(run[i].tables.clients[clientID].sync)
    ensures forall id <- run[i].preparations ::
      var p := run[i].preparations[id];
      p.next.Some? && p.clientID == clientID && Publishable(run[i].tables, p) ==>
        run[i].tables.clients[clientID].sync.revision < p.request.revision &&
        p.request.id !in run[i].tables.clients[clientID].sync.requests
  {
    var _ := InvariantAlongRun(run, steps, i);
  }

  /** Every endpoint and runtime ever made is closed at most once, and never while something owns it. */
  lemma ClosedAtMostOnce(run: seq<World>, steps: seq<Step>, i: nat, r: Resource)
    requires Follows(run, steps) && i < |run| && r in run[i].place
    ensures r in run[i].closes && run[i].closes[r] <= 1
    ensures RegistryHas(run[i].tables, run[i].place[r], r) ==> run[i].closes[r] == 0
    ensures forall id <- run[i].preparations | PreparationHas(run[i].preparations[id], run[i].place[r], r) ::
      run[i].closes[r] == 0 && !RegistryHas(run[i].tables, run[i].place[r], r)
  {
    var w := run[i];
    var ledger := InvariantAlongRun(run, steps, i);
    assert Has(w, Gone, r) <==> ledger[r] == Gone;
    assert Has(w, ByRegistry, r) <==> ledger[r] == ByRegistry;
    forall id <- w.preparations | PreparationHas(w.preparations[id], w.place[r], r)
      ensures w.closes[r] == 0 && !RegistryHas(w.tables, w.place[r], r)
    {
      assert Has(w, ByPreparation(id), r);
    }
  }

  /** Nothing leaks: what has not been closed is published, being prepared, or about to be retired. */
  lemma NothingLeaks(run: seq<World>, steps: seq<Step>, i: nat, r: Resource)
    requires Follows(run, steps) && i < |run| && r in run[i].place && r in run[i].closes && run[i].closes[r] == 0
    ensures
      || RegistryHas(run[i].tables, run[i].place[r], r)
      || (exists id <- run[i].preparations :: PreparationHas(run[i].preparations[id], run[i].place[r], r))
      || (exists id <- run[i].retirements :: r in run[i].retirements[id])
  {
    var w := run[i];
    var ledger := InvariantAlongRun(run, steps, i);
    assert Has(w, ledger[r], r);
    assert ledger[r] != Gone;
  }

  /** Rolling back closes everything the sync made and no binding or endpoint that is published. */
  lemma RollbackSparesPublished(run: seq<World>, steps: seq<Step>, i: nat, id: nat, r: Resource)
    requires Follows(run, steps) && i < |run| && id in run[i].preparations && r in Unpublished(run[i].preparations[id])
    ensures r in run[i].place && !RegistryHas(run[i].tables, run[i].place[r], r)
    ensures r in run[i].closes && run[i].closes[r] == 0 && RolledBack(run[i], id).closes[r] == 1
    ensures RolledBack(run[i], id).tables == run[i].tables
  {
    var w := run[i];
    var ledger := InvariantAlongRun(run, steps, i);
    assert PlacedPreparation(w.place, w.preparations[id]);
    UnpublishedIsHeld(w.place, w.preparations[id], r);
    OpenWhileOwned(w, ledger, r, ByPreparation(id));
    assert Has(w, ByRegistry, r) <==> ledger[r] == ByRegistry;
  }
}
