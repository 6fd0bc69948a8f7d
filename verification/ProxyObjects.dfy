/**
 The proxy registry as an object (internal/proxy/registry): its methods walk
 the maps as the source does, and are proved to do what the specification in
 ProxyRegistry says.
 */
module ProxyObjects {
  import opened Authentication
  import opened Options
  import opened SyncCache
  import opened ProxyRegistry
  import opened ProxyRuns

  // ---------------------------------------------------------------------
  // The loops of publishSync
  // ---------------------------------------------------------------------

  /** The part of a set of bindings that is on ports, or on domains. */
  ghost function Part(bindings: Bindings, ports: bool): map<Route, Binding> {
    map route <- ByRoute(bindings) | IsPort(route) == ports :: ByRoute(bindings)[route]
  }

  ghost predicate PlacedSoFar(routes: map<Route, Binding>, next: Bindings, ports: bool, left: set<string>,
                              routes': map<Route, Binding>) {
    && left <= next.Keys && routes.Keys <= routes'.Keys
    && (forall name <- next | name !in left && IsPort(next[name].declaration.route) == ports ::
          next[name].declaration.route in routes' && routes'[next[name].declaration.route] == next[name])
    && (forall route <- routes' ::
          || (route in routes && routes'[route] == routes[route])
          || (route in Part(next, ports) && routes'[route] == Part(next, ports)[route]))
  }

  lemma PlacedStep(routes: map<Route, Binding>, next: Bindings, ports: bool, left: set<string>,
                   routes': map<Route, Binding>, name: string)
    requires DistinctRoutes(next) && PlacedSoFar(routes, next, ports, left, routes') && name in left
    ensures PlacedSoFar(routes, next, ports, left - {name},
                        if IsPort(next[name].declaration.route) == ports
                        then routes'[next[name].declaration.route := next[name]] else routes')
  {
    AtRoute(next, name);
  }

  lemma PlacedDone(routes: map<Route, Binding>, next: Bindings, ports: bool, routes': map<Route, Binding>)
    requires DistinctRoutes(next) && PlacedSoFar(routes, next, ports, {}, routes')
    ensures routes' == routes + Part(next, ports)
  {
    forall route <- Part(next, ports) ensures route in routes' && routes'[route] == Part(next, ports)[route] {
      var name := NameAt(next, route);
      assert name !in {};
    }
  }

  method Place(routes: map<Route, Binding>, next: Bindings, ports: bool) returns (routes': map<Route, Binding>)
    requires DistinctRoutes(next)
    ensures routes' == routes + Part(next, ports)
  {
    routes' := routes;
    var left := next.Keys;
    while left != {}
      invariant PlacedSoFar(routes, next, ports, left, routes')
      decreases left
    {
      var name :| name in left;
      PlacedStep(routes, next, ports, left, routes', name);
      left := left - {name};
      if IsPort(next[name].declaration.route) == ports {
        routes' := routes'[next[name].declaration.route := next[name]];
      }
    }
    PlacedDone(routes, next, ports, routes');
  }

  ghost predicate ListenedSoFar(endpoints: map<Route, Endpoint>, next: Bindings, left: set<string>,
                                endpoints': map<Route, Endpoint>) {
    && left <= next.Keys && endpoints.Keys <= endpoints'.Keys
    && (forall name <- next | name !in left && next[name].endpoint.Some? ::
          next[name].declaration.route in endpoints' && endpoints'[next[name].declaration.route] == next[name].endpoint.value)
    && (forall route <- endpoints' ::
          || (route in endpoints && endpoints'[route] == endpoints[route])
          || (route in EndpointsOf(next) && endpoints'[route] == EndpointsOf(next)[route]))
  }

  lemma ListenedStep(endpoints: map<Route, Endpoint>, next: Bindings, left: set<string>,
                     endpoints': map<Route, Endpoint>, name: string)
    requires DistinctRoutes(next) && ListenedSoFar(endpoints, next, left, endpoints') && name in left
    ensures ListenedSoFar(endpoints, next, left - {name},
                          if next[name].endpoint.Some?
                          then endpoints'[next[name].declaration.route := next[name].endpoint.value] else endpoints')
  {
    AtRoute(next, name);
  }

  lemma ListenedDone(endpoints: map<Route, Endpoint>, next: Bindings, endpoints': map<Route, Endpoint>)
    requires DistinctRoutes(next) && ListenedSoFar(endpoints, next, {}, endpoints')
    ensures endpoints' == endpoints + EndpointsOf(next)
  {
    forall route <- EndpointsOf(next) ensures route in endpoints' && endpoints'[route] == EndpointsOf(next)[route] {
      var name := NameAt(next, route);
      assert name !in {};
    }
  }

  method PlaceEndpoints(endpoints: map<Route, Endpoint>, next: Bindings) returns (endpoints': map<Route, Endpoint>)
    requires DistinctRoutes(next)
    ensures endpoints' == endpoints + EndpointsOf(next)
  {
    endpoints' := endpoints;
    var left := next.Keys;
    while left != {}
      invariant ListenedSoFar(endpoints, next, left, endpoints')
      decreases left
    {
      var name :| name in left;
      ListenedStep(endpoints, next, left, endpoints', name);
      left := left - {name};
      if next[name].endpoint.Some? {
        endpoints' := endpoints'[next[name].declaration.route := next[name].endpoint.value];
      }
    }
    ListenedDone(endpoints, next, endpoints');
  }

  /** Domains of bindings the new set does not keep are withdrawn. */
  ghost predicate LeavesDomain(routes: map<Route, Binding>, existing: Bindings, next: Bindings, name: string)
    requires name in existing
  {
    var b := existing[name];
    !IsPort(b.declaration.route) && Replaced(existing, next, name) && b.declaration.route in routes &&
    routes[b.declaration.route] == b
  }

  method WithdrawDomains(routes: map<Route, Binding>, existing: Bindings, next: Bindings)
    returns (routes': map<Route, Binding>)
    ensures forall route <- routes' :: route in routes && routes'[route] == routes[route]
    ensures forall route <- routes ::
      route in routes' <==> forall name <- existing | LeavesDomain(routes, existing, next, name) ::
                              existing[name].declaration.route != route
  {
    routes' := routes;
    var left := existing.Keys;
    while left != {}
      invariant left <= existing.Keys
      invariant forall route <- routes' :: route in routes && routes'[route] == routes[route]
      invariant forall route <- routes ::
        route in routes' <==> forall name <- existing | name !in left && LeavesDomain(routes, existing, next, name) ::
                                existing[name].declaration.route != route
      decreases left
    {
      var name :| name in left;
      var b := existing[name];
      left := left - {name};
      if !IsPort(b.declaration.route) && (name !in next || next[name] != b) && b.declaration.route in routes' &&
         routes'[b.declaration.route] == b {
        routes' := routes' - {b.declaration.route};
      }
    }
  }

  /** The binding is on a port the new set has no endpoint on. */
  predicate LeavesPort(b: Binding, nextEndpoints: map<Route, Endpoint>) {
    b.endpoint.Some? && b.declaration.route !in nextEndpoints
  }

  ghost function Vacated(existing: Bindings, nextEndpoints: map<Route, Endpoint>, left: set<string>): set<Route> {
    set name <- existing | name !in left && LeavesPort(existing[name], nextEndpoints) :: existing[name].declaration.route
  }

  ghost function Unused(existing: Bindings, nextEndpoints: map<Route, Endpoint>, left: set<string>): set<Resource> {
    set name <- existing | name !in left && LeavesPort(existing[name], nextEndpoints) :: Socket(existing[name].endpoint.value)
  }

  lemma VacatedStep(existing: Bindings, nextEndpoints: map<Route, Endpoint>, left: set<string>, name: string)
    requires name in existing && name in left
    ensures var b := existing[name];
      && Vacated(existing, nextEndpoints, left - {name}) ==
         Vacated(existing, nextEndpoints, left) + (if LeavesPort(b, nextEndpoints) then {b.declaration.route} else {})
      && Unused(existing, nextEndpoints, left - {name}) ==
         Unused(existing, nextEndpoints, left) + (if LeavesPort(b, nextEndpoints) then {Socket(b.endpoint.value)} else {})
  {
  }

  lemma VacatedByOthers(existing: Bindings, nextEndpoints: map<Route, Endpoint>, left: set<string>, name: string)
    requires DistinctRoutes(existing) && name in existing && name in left
    ensures existing[name].declaration.route !in Vacated(existing, nextEndpoints, left)
  {
  }

  lemma VacatedDone(existing: Bindings, nextEndpoints: map<Route, Endpoint>)
    requires DistinctRoutes(existing)
    ensures Vacated(existing, nextEndpoints, {}) == EndpointsOf(existing).Keys - nextEndpoints.Keys
  {
    forall name <- existing ensures existing[name].endpoint.Some? <==> existing[name].declaration.route in EndpointsOf(existing) {
      AtRoute(existing, name);
    }
  }

  /** The client's endpoints are in the table, and the new set reuses those on its ports. */
  ghost predicate EndpointsMatch(endpoints: map<Route, Endpoint>, existing: Bindings,
                                 nextEndpoints: map<Route, Endpoint>) {
    forall name <- existing | existing[name].endpoint.Some? ::
      var route := existing[name].declaration.route;
      if route in nextEndpoints then nextEndpoints[route] == existing[name].endpoint.value
      else route in endpoints && endpoints[route] == existing[name].endpoint.value
  }

  /** Ports the new set has no endpoint on are withdrawn. */
  method WithdrawPorts(routes: map<Route, Binding>, endpoints: map<Route, Endpoint>, existing: Bindings,
                       nextEndpoints: map<Route, Endpoint>)
    returns (routes': map<Route, Binding>, endpoints': map<Route, Endpoint>, removed: set<Resource>)
    requires DistinctRoutes(existing) && EndpointsMatch(endpoints, existing, nextEndpoints)
    ensures routes' == routes - (EndpointsOf(existing).Keys - nextEndpoints.Keys)
    ensures endpoints' == endpoints - (EndpointsOf(existing).Keys - nextEndpoints.Keys)
    ensures removed == Unused(existing, nextEndpoints, {})
  {
    routes', endpoints', removed := routes, endpoints, {};
    var left := existing.Keys;
    while left != {}
      invariant left <= existing.Keys
      invariant routes' == routes - Vacated(existing, nextEndpoints, left)
      invariant endpoints' == endpoints - Vacated(existing, nextEndpoints, left)
      invariant removed == Unused(existing, nextEndpoints, left)
      decreases left
    {
      var name :| name in left;
      var route, endpoint := existing[name].declaration.route, existing[name].endpoint;
      VacatedStep(existing, nextEndpoints, left, name);
      VacatedByOthers(existing, nextEndpoints, left, name);
      left := left - {name};
      if endpoint.Some? && (route !in nextEndpoints || nextEndpoints[route] != endpoint.value) {
        if route in endpoints' && endpoints'[route] == endpoint.value {
          endpoints' := endpoints' - {route};
          routes' := routes' - {route};
        }
        removed := removed + {Socket(endpoint.value)};
      }
    }
    VacatedDone(existing, nextEndpoints);
  }

  // ---------------------------------------------------------------------
  // Together they publish
  // ---------------------------------------------------------------------

  lemma EndpointsEndUpRelocated(endpoints: map<Route, Endpoint>, before: map<Route, Endpoint>,
                                after: map<Route, Endpoint>)
    ensures (endpoints + after) - (before.Keys - after.Keys) == (endpoints - before.Keys) + after
  {
  }

  /** What the tables must say for the loops to work: the client's bindings are where they claim to be. */
  ghost predicate Loopable(t: Tables, existing: Bindings, next: Bindings, clientID: string) {
    && SetOf(clientID, existing) && SetOf(clientID, next)
    && (forall name <- existing :: Reachable(t, existing[name]))
    && EndpointsMatch(t.endpoints + EndpointsOf(next), existing, EndpointsOf(next))
  }

  lemma OnPort(bindings: Bindings, clientID: string, route: Route)
    requires SetOf(clientID, bindings)
    ensures route in EndpointsOf(bindings) <==> route in ByRoute(bindings) && IsPort(route)
  {
  }

  lemma WithdrawnDomain(t: Tables, existing: Bindings, next: Bindings, clientID: string, routes: map<Route, Binding>,
                        route: Route)
    requires Loopable(t, existing, next, clientID) && route in t.routes && route !in ByRoute(next)
    requires DomainsWithdrawn(t.routes, routes, existing, next)
    ensures route in routes <==> IsPort(route) || route !in ByRoute(existing)
  {
    if !IsPort(route) && route in ByRoute(existing) {
      var name := NameAt(existing, route);
      assert Reachable(t, existing[name]);
      assert LeavesDomain(t.routes, existing, next, name);
    }
  }

  /** What the first loop leaves of the routes: all but the domains the client gives up. */
  ghost predicate DomainsWithdrawn(routes: map<Route, Binding>, withdrawn: map<Route, Binding>, existing: Bindings, next: Bindings) {
    && (forall route <- withdrawn :: route in routes && withdrawn[route] == routes[route])
    && (forall route <- routes :: route in withdrawn <==>
          forall name <- existing | LeavesDomain(routes, existing, next, name) :: existing[name].declaration.route != route)
  }

  /** The routes once all loops have run. */
  ghost function Looped(withdrawn: map<Route, Binding>, existing: Bindings, next: Bindings): map<Route, Binding> {
    ((withdrawn + Part(next, true)) - (EndpointsOf(existing).Keys - EndpointsOf(next).Keys)) + Part(next, false)
  }

  /** A route the client publishes is in one of the two parts. */
  lemma PublishedRoute(withdrawn: map<Route, Binding>, existing: Bindings, next: Bindings, clientID: string, route: Route)
    requires SetOf(clientID, next) && route in ByRoute(next)
    ensures route in Looped(withdrawn, existing, next) && Looped(withdrawn, existing, next)[route] == ByRoute(next)[route]
  {
    OnPort(next, clientID, route);
  }

  lemma OtherRoute(t: Tables, existing: Bindings, next: Bindings, clientID: string, withdrawn: map<Route, Binding>, route: Route)
    requires Loopable(t, existing, next, clientID) && DomainsWithdrawn(t.routes, withdrawn, existing, next)
    requires route !in ByRoute(next)
    ensures route in Looped(withdrawn, existing, next) <==> route in t.routes && route !in ByRoute(existing)
    ensures route in Looped(withdrawn, existing, next) ==> Looped(withdrawn, existing, next)[route] == t.routes[route]
  {
    OnPort(existing, clientID, route);
    OnPort(next, clientID, route);
    if route in t.routes {
      WithdrawnDomain(t, existing, next, clientID, withdrawn, route);
    }
  }

  lemma RoutesEndUpRerouted(t: Tables, existing: Bindings, next: Bindings, clientID: string, withdrawn: map<Route, Binding>)
    requires Loopable(t, existing, next, clientID) && DomainsWithdrawn(t.routes, withdrawn, existing, next)
    ensures Looped(withdrawn, existing, next) == Rerouted(t.routes, existing, next)
  {
    forall route
      ensures route in Looped(withdrawn, existing, next) <==> route in Rerouted(t.routes, existing, next)
      ensures route in Looped(withdrawn, existing, next) ==>
        Looped(withdrawn, existing, next)[route] == Rerouted(t.routes, existing, next)[route]
    {
      if route in ByRoute(next) {
        PublishedRoute(withdrawn, existing, next, clientID, route);
      } else {
        OtherRoute(t, existing, next, clientID, withdrawn, route);
      }
    }
  }

  lemma PublishIsLoopable(t: Tables, p: Preparation)
    requires MayPublish(t, p)
    ensures Loopable(t, p.existing, p.next.value, p.clientID)
  {
    var existing, nextEndpoints := p.existing, EndpointsOf(p.next.value);
    ObservedProxies(t, p);
    NextIsSet(p);
    forall name <- existing | existing[name].endpoint.Some?
      ensures
        var route := existing[name].declaration.route;
        if route in nextEndpoints then nextEndpoints[route] == existing[name].endpoint.value
        else route in t.endpoints + nextEndpoints && (t.endpoints + nextEndpoints)[route] == existing[name].endpoint.value
    {
      var route := existing[name].declaration.route;
      assert Reachable(t, existing[name]);
      if route in nextEndpoints {
        NextEndpointIs(t, p, NameAt(p.next.value, route));
      }
    }
  }

  function ReplacedRuntimes(existing: Bindings, next: Bindings): set<Resource> {
    set name <- existing | HasRuntime(existing[name].declaration.route) && (name !in next || next[name] != existing[name]) ::
      Runtime(existing[name].bindingID)
  }

  method CollectEndpoints(next: Bindings) returns (endpoints: map<Route, Endpoint>)
    requires DistinctRoutes(next)
    ensures endpoints == EndpointsOf(next)
  {
    endpoints := PlaceEndpoints(map[], next);
    assert map[] + EndpointsOf(next) == EndpointsOf(next);
  }

  lemma UnusedIsRetired(endpoints: map<Route, Endpoint>, existing: Bindings, next: Bindings)
    requires EndpointsMatch(endpoints, existing, EndpointsOf(next))
    ensures Retired(existing, next) ==
      Unused(existing, EndpointsOf(next), {}) + ReplacedRuntimes(existing, next)
  {
    forall r ensures r in Retired(existing, next) && r.Socket? <==> r in Unused(existing, EndpointsOf(next), {}) {
      if r in Retired(existing, next) && r.Socket? {
        var name :| name in existing && existing[name].endpoint == Some(r.endpoint) &&
                    (existing[name].declaration.route !in EndpointsOf(next) ||
                     EndpointsOf(next)[existing[name].declaration.route] != r.endpoint);
        assert LeavesPort(existing[name], EndpointsOf(next)) && name !in {};
      }
    }
  }

  /** All of publishSync's table updates, loop after loop. */
  method PublishLoops(t: Tables, existing: Bindings, next: Bindings, ghost clientID: string)
    returns (routes: map<Route, Binding>, endpoints: map<Route, Endpoint>, retired: set<Resource>)
    requires Loopable(t, existing, next, clientID)
    ensures routes == Rerouted(t.routes, existing, next) && endpoints == Relocated(t.endpoints, existing, next)
    ensures retired == Retired(existing, next)
  {
    var withdrawn := WithdrawDomains(t.routes, existing, next);
    routes := Place(withdrawn, next, true);
    endpoints := PlaceEndpoints(t.endpoints, next);
    var nextEndpoints := CollectEndpoints(next);
    UnusedIsRetired(endpoints, existing, next);
    var removed;
    routes, endpoints, removed := WithdrawPorts(routes, endpoints, existing, nextEndpoints);
    routes := Place(routes, next, false);
    RoutesEndUpRerouted(t, existing, next, clientID, withdrawn);
    EndpointsEndUpRelocated(t.endpoints, EndpointsOf(existing), EndpointsOf(next));
    retired := removed + ReplacedRuntimes(existing, next);
  }

  lemma NoBindings()
    ensures var none: Bindings := map[]; ByRoute(none) == map[] && EndpointsOf(none) == map[]
  {
    var none: Bindings := map[];
    assert RoutesOf(none) == {};
  }

  lemma DetachIsLoopable(t: Tables, clientID: string)
    requires Inverse(t) && clientID in t.clients
    ensures Loopable(t, t.clients[clientID].proxies, map[], clientID)
  {
    NoBindings();
    var proxies := t.clients[clientID].proxies;
    InverseMeansDistinct(t, clientID);
    assert ProxiesReachable(t, clientID);
    forall name <- proxies ensures Reachable(t, proxies[name]) {
    }
  }

  /** Publishing nothing in place of a set withdraws the set and retires all it holds. */
  lemma DetachIsPublishingNothing(t: Tables, proxies: Bindings)
    ensures Rerouted(t.routes, proxies, map[]) == t.routes - ByRoute(proxies).Keys
    ensures Relocated(t.endpoints, proxies, map[]) == t.endpoints - EndpointsOf(proxies).Keys
    ensures Retired(proxies, map[]) == ResourcesOf(proxies)
  {
    NoBindings();
  }

  // ---------------------------------------------------------------------
  // The tests
  // ---------------------------------------------------------------------

  method ReservationRejects(reserved: map<Route, string>, clientID: string, mode: Mode, declared: Declared)
    returns (rejected: Option<string>)
    ensures rejected.None? <==> ReservationsAllow(reserved, clientID, mode, declared)
    ensures rejected.Some? ==>
      rejected.value in declared && !OwnerAllows(reserved, clientID, mode, declared[rejected.value].route)
  {
    var left := declared.Keys;
    while left != {}
      invariant left <= declared.Keys
      invariant forall name <- declared | name !in left :: OwnerAllows(reserved, clientID, mode, declared[name].route)
      decreases left
    {
      var name :| name in left;
      left := left - {name};
      if !OwnerAllows(reserved, clientID, mode, declared[name].route) {
        return Some(name);
      }
    }
    return None;
  }

  ghost predicate ReusableSoFar(t: Tables, declared: Declared, left: set<string>, reusable: map<Route, Endpoint>) {
    && (forall name <- declared | name !in left && IsPort(declared[name].route) && declared[name].route in t.endpoints ::
          declared[name].route in reusable)
    && (forall route <- reusable ::
          route in t.endpoints && reusable[route] == t.endpoints[route] && exists name <- declared :: declared[name].route == route)
  }

  /** Collects the endpoints of the client's own ports; fails on a port that is someone else's. */
  method CollectReusable(t: Tables, clientID: string, existing: Bindings, declared: Declared)
    returns (reusable: Option<map<Route, Endpoint>>)
    requires forall route <- t.endpoints :: IsPort(route)
    ensures reusable.Some? <==> PortsAvailable(t, clientID, existing, declared)
    ensures reusable.Some? ==> reusable.value == Reusable(t, declared)
  {
    var found: map<Route, Endpoint> := map[];
    var left := declared.Keys;
    while left != {}
      invariant left <= declared.Keys && ReusableSoFar(t, declared, left, found)
      invariant forall name <- declared | name !in left && IsPort(declared[name].route) && declared[name].route in t.endpoints ::
        OwnedBy(t, clientID, existing, declared[name].route)
      decreases left
    {
      var name :| name in left;
      left := left - {name};
      var route := declared[name].route;
      if IsPort(route) && route in t.endpoints {
        if !OwnedBy(t, clientID, existing, route) {
          return None;
        }
        found := found[route := t.endpoints[route]];
      }
    }
    assert found == Reusable(t, declared);
    return Some(found);
  }

  method StillReusable(t: Tables, p: Preparation) returns (ok: bool)
    ensures ok <==> forall route <- p.reusable ::
      route in t.endpoints && t.endpoints[route] == p.reusable[route] && OwnedBy(t, p.clientID, p.existing, route)
  {
    var left := p.reusable.Keys;
    while left != {}
      invariant left <= p.reusable.Keys
      invariant forall route <- p.reusable | route !in left ::
        route in t.endpoints && t.endpoints[route] == p.reusable[route] && OwnedBy(t, p.clientID, p.existing, route)
      decreases left
    {
      var route :| route in left;
      left := left - {route};
      if route !in t.endpoints || t.endpoints[route] != p.reusable[route] || !OwnedBy(t, p.clientID, p.existing, route) {
        return false;
      }
    }
    return true;
  }

  method DomainsAvailable(routes: map<Route, Binding>, existing: Bindings, next: Bindings) returns (ok: bool)
    ensures ok <==> forall name <- next ::
      var route := next[name].declaration.route; !IsPort(route) && route in routes ==> Holds(existing, routes[route])
  {
    var left := next.Keys;
    while left != {}
      invariant left <= next.Keys
      invariant forall name <- next | name !in left ::
        var route := next[name].declaration.route; !IsPort(route) && route in routes ==> Holds(existing, routes[route])
      decreases left
    {
      var name :| name in left;
      left := left - {name};
      var route := next[name].declaration.route;
      if !IsPort(route) && route in routes && !Holds(existing, routes[route]) {
        return false;
      }
    }
    return true;
  }

  /** The tests of publishSync, in order. */
  method TestPublication(t: Tables, p: Preparation) returns (failure: Option<ErrorCode>)
    requires p.next.Some?
    ensures failure.None? <==> Publishable(t, p)
  {
    if p.clientID !in t.clients || t.clients[p.clientID].sessionID != p.sessionID ||
       t.clients[p.clientID].sync.revision != p.baseRevision {
      return Some(SessionInactive);
    }
    var rejected := ReservationRejects(t.reserved, p.clientID, p.mode, p.declared);
    if rejected.Some? {
      return Some(if IsPort(p.declared[rejected.value].route) then PortConflict else DomainConflict);
    }
    var reusable := StillReusable(t, p);
    if !reusable {
      return Some(PortConflict);
    }
    var available := DomainsAvailable(t.routes, p.existing, p.next.value);
    return if available then None else Some(DomainConflict);
  }

  method PublishTables(t: Tables, p: Preparation) returns (t': Tables, retired: set<Resource>)
    requires MayPublish(t, p)
    ensures t' == PublishedTables(t, p) && retired == Retired(p.existing, p.next.value)
    ensures t'.reserved == t.reserved && t'.closed == t.closed
  {
    PublishIsLoopable(t, p);
    var routes, endpoints, removed := PublishLoops(t, p.existing, p.next.value, p.clientID);
    var state := t.clients[p.clientID];
    t' := t.(routes := routes, endpoints := endpoints,
             clients := t.clients[p.clientID := state.(proxies := p.next.value, sync := Cached(state.sync, p.request, ResultOf(p)))]);
    retired := removed;
  }

  /** What holds of every sync that comes to publish. */
  ghost predicate MayAttempt(t: Tables, p: Preparation) {
    && p.next.Some? && Inverse(t) && PreparationSound(p) && Observed(t, p)
    && (forall route <- p.listening :: route !in t.endpoints)
  }

  /** The set is published exactly if the tests pass, with what is to be closed; otherwise nothing changes. */
  ghost predicate Publishes(t: Tables, p: Preparation, t': Tables, result: SyncResult, retired: Option<set<Resource>>) {
    && p.next.Some?
    && (retired.Some? <==> Publishable(t, p)) && (retired.Some? <==> result.Applied?)
    && (retired.Some? ==>
          t' == PublishedTables(t, p) && retired.value == Retired(p.existing, p.next.value) && result == ResultOf(p))
    && (retired.None? ==> t' == t)
  }

  method DecidePublication(t: Tables, p: Preparation)
    returns (t': Tables, result: SyncResult, retired: Option<set<Resource>>)
    requires MayAttempt(t, p)
    ensures Publishes(t, p, t', result, retired)
  {
    var failure := TestPublication(t, p);
    if failure.Some? {
      return t, Rejected(failure.value), None;
    }
    var published, removed := PublishTables(t, p);
    return published, ResultOf(p), Some(removed);
  }

  // ---------------------------------------------------------------------
  // Preparing
  // ---------------------------------------------------------------------

  /** What the sync has opened: an endpoint the system granted for each declared port it cannot reuse. */
  ghost predicate OpenedSoFar(p: Preparation, granted: map<Route, Endpoint>, left: set<string>,
                              listening: map<Route, Endpoint>) {
    && (forall name <- p.declared | name !in left && NeedsEndpoint(p, p.declared[name].route) ::
          p.declared[name].route in listening)
    && (forall route <- listening ::
          route in granted && listening[route] == granted[route] && NeedsEndpoint(p, route) && Declares(p, route))
  }

  predicate NeedsEndpoint(p: Preparation, route: Route) { IsPort(route) && route !in p.reusable }

  /** `granted` holds the ports the system lets the sync listen on. A refusal leaves what was opened so far to the rollback. */
  method PrepareSyncEndpoints(p: Preparation, granted: map<Route, Endpoint>) returns (ok: bool, prepared: Preparation)
    requires p.listening == map[]
    ensures ok <==> forall name <- p.declared | NeedsEndpoint(p, p.declared[name].route) :: p.declared[name].route in granted
    ensures prepared == p.(listening := prepared.listening)
    ensures forall route <- prepared.listening ::
      NeedsEndpoint(p, route) && Declares(p, route) && route in granted && prepared.listening[route] == granted[route]
    ensures ok ==> forall name <- p.declared | IsPort(p.declared[name].route) :: EndpointFor(prepared, p.declared[name].route).Some?
  {
    var listening: map<Route, Endpoint> := map[];
    var left := p.declared.Keys;
    while left != {}
      invariant left <= p.declared.Keys && OpenedSoFar(p, granted, left, listening)
      invariant forall name <- p.declared | name !in left && NeedsEndpoint(p, p.declared[name].route) ::
        p.declared[name].route in granted
      decreases left
    {
      var name :| name in left;
      left := left - {name};
      var route := p.declared[name].route;
      if NeedsEndpoint(p, route) {
        if route !in granted {
          return false, p.(listening := listening);
        }
        assert Declares(p, route);
        listening := listening[route := granted[route]];
      }
    }
    return true, p.(listening := listening);
  }

  /** Builds the candidate set: unchanged proxies of this session keep their bindings, all others get new ones. */
  method BuildCandidates(p: Preparation, ids: map<string, nat>) returns (next: Bindings, kept: map<string, bool>)
    requires p.declared.Keys <= ids.Keys
    ensures next == NextBindings(p, ids) && Applied(p.request.revision, kept) == ResultOf(p)
  {
    next, kept := map[], map[];
    var left := p.declared.Keys;
    while left != {}
      invariant left <= p.declared.Keys
      invariant next == map name <- p.declared | name !in left :: NextBinding(p, p.declared[name], ids[name])
      invariant kept == map name <- p.declared | name !in left :: Unchanged(p, p.declared[name])
      decreases left
    {
      var name :| name in left;
      left := left - {name};
      var d := p.declared[name];
      var same := d.name in p.existing && SameDeclaration(p.existing[d.name].declaration, d);
      var mine := same && p.existing[d.name].sessionID == p.sessionID;
      if mine {
        next := next[name := p.existing[d.name]];
      } else {
        next := next[name := Binding(p.clientID, p.sessionID, ids[name], d, EndpointFor(p, d.route))];
      }
      kept := kept[name := if d.route.TcpPort? then same else mine];
    }
  }

  // ---------------------------------------------------------------------
  // The registry
  // ---------------------------------------------------------------------

  class Registry {
    var clients: map<string, ClientState>
    var routes: map<Route, Binding>
    var endpoints: map<Route, Endpoint>
    var reserved: map<Route, string>
    var closed: bool

    function View(): Tables reads this {
      Tables(clients, routes, endpoints, reserved, closed)
    }

    constructor ()
      ensures View() == NO_TABLES
    {
      clients, routes, endpoints, reserved, closed := map[], map[], map[], map[], false;
    }

    method AttachAuthenticated(clientID: string, sessionID: string, mode: Mode)
      modifies this
      ensures View() == AttachedTables(old(View()), clientID, sessionID, mode)
    {
      var proxies: Bindings := map[];
      if clientID in clients {
        proxies := clients[clientID].proxies;
      }
      clients := clients[clientID := ClientState(sessionID, mode, NoSync(), proxies)];
    }

    /** The part of sync that runs before anything is opened. */
    method CheckSync(clientID: string, sessionID: string, request: Request, declared: Declared, wellDeclared: bool,
                     allowEmpty: bool)
      returns (checking: Checking)
      requires Inverse(View()) && Synced(View()) && wellDeclared == WellDeclared(declared)
      ensures checking.Replayed? <==>
        Attached(View(), clientID, sessionID) && Check(clients[clientID].sync, request).Replay?
      ensures checking.Replayed? ==> checking.result == Check(clients[clientID].sync, request).result
      ensures checking.Prepared? <==>
        Attached(View(), clientID, sessionID) && Check(clients[clientID].sync, request) == Proceed &&
        Admissible(View(), clientID, declared, allowEmpty)
      ensures checking.Prepared? ==> checking.preparation == Observation(View(), clientID, sessionID, request, declared)
      ensures checking.Failed? ==> FailsWith(View(), clientID, sessionID, request, declared, allowEmpty, checking.code)
    {
      if closed || clientID !in clients || clients[clientID].sessionID != sessionID {
        return Failed(SessionInactive);
      }
      var state := clients[clientID];
      match Check(state.sync, request) {
        case Replay(result) => return Replayed(result);
        case Refuse(_) => return Failed(InvalidRequest);
        case Proceed =>
      }
      if |declared| > MAX_PROXIES {
        return Failed(CapacityExceeded);
      }
      if !allowEmpty && state.mode != Managed && declared == map[] {
        return Failed(InvalidProxy);
      }
      if !wellDeclared {
        return Failed(InvalidProxy);
      }
      var rejected := ReservationRejects(reserved, clientID, state.mode, declared);
      if rejected.Some? {
        return Failed(if IsPort(declared[rejected.value].route) then PortConflict else DomainConflict);
      }
      var reusable := CollectReusable(View(), clientID, state.proxies, declared);
      if reusable.None? {
        return Failed(PortConflict);
      }
      return Prepared(Preparation(clientID, sessionID, request, declared, state.sync.revision, state.mode, state.proxies,
                                  reusable.value, map[], None));
    }

    /** Publishes a prepared set if nothing it relies on has changed, and says what is to be closed; or changes nothing. */
    method PublishSync(p: Preparation) returns (result: SyncResult, retired: Option<set<Resource>>)
      requires MayAttempt(View(), p)
      modifies this
      ensures Publishes(old(View()), p, View(), result, retired)
    {
      var t;
      t, result, retired := DecidePublication(View(), p);
      clients, routes, endpoints, reserved, closed := t.clients, t.routes, t.endpoints, t.reserved, t.closed;
    }

    /** Withdraws a session's routes and says what is to be closed. */
    method Detach(clientID: string, sessionID: string) returns (retired: set<Resource>)
      requires Inverse(View())
      modifies this
      ensures old(clientID in clients && clients[clientID].sessionID == sessionID) ==>
        && old(clientID in View().clients) && View() == DetachedTables(old(View()), clientID)
        && retired == ResourcesOf(old(clients)[clientID].proxies)
      ensures !old(clientID in clients && clients[clientID].sessionID == sessionID) ==> View() == old(View()) && retired == {}
    {
      if clientID !in clients || clients[clientID].sessionID != sessionID {
        return {};
      }
      DetachIsLoopable(View(), clientID);
      DetachIsPublishingNothing(View(), clients[clientID].proxies);
      var t, proxies := View(), clients[clientID].proxies;
      clients := clients - {clientID};
      routes, endpoints, retired := PublishLoops(t, proxies, map[], clientID);
    }

    /** Empties the tables and says what is to be closed: everything the registry holds. */
    method Close() returns (retired: set<Resource>)
      modifies this
      ensures View() == ClosedTables(old(View())) && retired == AllResources(old(View()))
    {
      var sockets := set route <- endpoints :: Socket(endpoints[route]);
      var httpRuntimes := set route <- routes | route.HttpDomain? :: Runtime(routes[route].bindingID);
      var udpRuntimes := set clientID <- clients, name <- clients[clientID].proxies |
        clients[clientID].proxies[name].declaration.route.UdpPort? :: Runtime(clients[clientID].proxies[name].bindingID);
      retired := sockets + udpRuntimes + httpRuntimes;
      closed, clients, routes, endpoints := true, map[], map[], map[];
    }

    /** Validates a candidate against itself and against what is bound; the caller holds the barrier until it ends. */
    method BeginReservations(candidates: map<string, set<Route>>) returns (transaction: Option<map<Route, string>>)
      requires "" !in candidates
      ensures transaction.Some? ==> Reserves(transaction.value, candidates) && Adopts(View(), transaction.value)
      ensures transaction.None? ==>
        !Uncontested(candidates) ||
        exists wanted: map<Route, string> :: Reserves(wanted, candidates) && !Adopts(View(), wanted)
    {
      var wanted := CollectReservations(candidates);
      if wanted.None? {
        return None;
      }
      var adopted := CheckAdoption(View(), wanted.value);
      if !adopted {
        return None;
      }
      return wanted;
    }

    method CommitReservations(transaction: map<Route, string>)
      modifies this
      ensures View() == old(View()).(reserved := transaction)
    {
      reserved := transaction;
    }
  }

  method CheckAdoption(t: Tables, wanted: map<Route, string>) returns (ok: bool)
    ensures ok <==> Adopts(t, wanted)
  {
    var left := wanted.Keys;
    while left != {}
      invariant left <= wanted.Keys
      invariant forall route <- wanted | route in t.routes && route !in left ::
        && t.routes[route].clientID == wanted[route]
        && wanted[route] in t.clients && t.clients[wanted[route]].mode == Managed
      decreases left
    {
      var route :| route in left;
      left := left - {route};
      if route in t.routes &&
         (t.routes[route].clientID != wanted[route] || wanted[route] !in t.clients || t.clients[wanted[route]].mode != Managed) {
        return false;
      }
    }
    return true;
  }

  method CollectReservations(candidates: map<string, set<Route>>) returns (wanted: Option<map<Route, string>>)
    requires "" !in candidates
    ensures wanted.Some? <==> Uncontested(candidates)
    ensures wanted.Some? ==> Reserves(wanted.value, candidates)
  {
    var owners: map<Route, string> := map[];
    var clientsLeft := candidates.Keys;
    while clientsLeft != {}
      invariant clientsLeft <= candidates.Keys
      invariant forall route <- owners :: Claims(candidates, owners[route], route) && owners[route] !in clientsLeft
      invariant forall clientID <- candidates, route <- candidates[clientID] | clientID !in clientsLeft ::
        route in owners && owners[route] == clientID
      decreases clientsLeft
    {
      var clientID :| clientID in clientsLeft;
      var routesLeft := candidates[clientID];
      while routesLeft != {}
        invariant routesLeft <= candidates[clientID]
        invariant forall route <- owners :: Claims(candidates, owners[route], route) && owners[route] !in clientsLeft - {clientID}
        invariant forall route <- owners | owners[route] == clientID :: route !in routesLeft
        invariant forall other <- candidates, route <- candidates[other] | other !in clientsLeft ::
          route in owners && owners[route] == other
        invariant forall route <- candidates[clientID] - routesLeft :: route in owners && owners[route] == clientID
        decreases routesLeft
      {
        var route :| route in routesLeft;
        routesLeft := routesLeft - {route};
        if route in owners && owners[route] != "" && owners[route] != clientID {
          assert route in candidates[owners[route]] && route in candidates[clientID];
          return None;
        }
        owners := owners[route := clientID];
      }
      clientsLeft := clientsLeft - {clientID};
    }
    forall c <- candidates, d <- candidates | c != d ensures candidates[c] !! candidates[d] {
      forall route ensures !(route in candidates[c] && route in candidates[d]) {
        if route in candidates[c] {
          assert owners[route] == c;
        }
      }
    }
    return Some(owners);
  }
}
