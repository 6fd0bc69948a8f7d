/**
 What the published proxies have to do with the requests that were made
 (internal/proxy/registry/sync.go, sync_commit.go), said of whole runs and
 without reference to how candidates are built.
 */
module ProxyLaws {
  import opened Authentication
  import opened Options
  import opened SyncCache
  import opened ProxyRegistry
  import opened ProxyRuns

  // ---------------------------------------------------------------------
  // The bindings are those of the request applied last
  // ---------------------------------------------------------------------

  /** One binding a declaration, for this session, with the declared name, route and schemes. */
  ghost predicate Carries(proxies: Bindings, clientID: string, sessionID: string, declared: Declared) {
    && proxies.Keys == declared.Keys
    && (forall name <- declared ::
          && proxies[name].clientID == clientID && proxies[name].sessionID == sessionID
          && proxies[name].declaration.name == name
          && proxies[name].declaration.route == declared[name].route
          && proxies[name].declaration.schemes == declared[name].schemes)
  }

  lemma BuiltCarries(p: Preparation)
    requires PreparationSound(p) && p.next.Some?
    ensures Carries(p.next.value, p.clientID, p.sessionID, p.declared)
  {
  }

  ghost predicate Asks(step: Step, clientID: string, sessionID: string, request: Request, declared: Declared) {
    && step.Begin? && step.clientID == clientID && step.sessionID == sessionID && step.request == request
    && step.declared == declared
  }

  /** The preparation comes from a request made before step i. */
  ghost predicate WasAsked(steps: seq<Step>, i: nat, p: Preparation)
    requires i <= |steps|
  {
    exists k: nat | k < i :: Asks(steps[k], p.clientID, p.sessionID, p.request, p.declared)
  }

  /** The client's proxies are what a request of its session, made before step i, asked for under the applied revision. */
  ghost predicate Fulfilled(steps: seq<Step>, i: nat, clientID: string, state: ClientState)
    requires i <= |steps|
  {
    exists k: nat | k < i :: Fulfils(steps[k], clientID, state)
  }

  ghost predicate Fulfils(step: Step, clientID: string, state: ClientState) {
    && step.Begin? && step.clientID == clientID && step.sessionID == state.sessionID
    && step.request.revision == state.sync.revision && step.request.fingerprint == state.sync.fingerprint
    && Carries(state.proxies, clientID, state.sessionID, step.declared)
  }

  ghost predicate SameRequest(p: Preparation, q: Preparation) {
    p.clientID == q.clientID && p.sessionID == q.sessionID && p.request == q.request && p.declared == q.declared
  }

  lemma PreparationOrigin(w: World, step: Step, w': World, id: nat)
    requires Can(w, step) && w' == Do(w, step) && id in w'.preparations
    ensures var p := w'.preparations[id];
      || (id in w.preparations && SameRequest(w.preparations[id], p))
      || Asks(step, p.clientID, p.sessionID, p.request, p.declared)
  {
  }

  /** The step publishes this preparation. */
  ghost predicate Publishes(w: World, step: Step, p: Preparation) {
    && step.Publish? && step.id in w.preparations && w.preparations[step.id] == p && p.next.Some? && Publishable(w.tables, p)
  }

  lemma ClientOrigin(w: World, step: Step, w': World, clientID: string)
    requires Can(w, step) && w' == Do(w, step) && clientID in w'.tables.clients
    ensures var state := w'.tables.clients[clientID];
      || (clientID in w.tables.clients && w.tables.clients[clientID] == state)
      || state.sync.revision == 0
      || (&& step.Publish? && step.id in w.preparations && Publishes(w, step, w.preparations[step.id])
          && var p := w.preparations[step.id];
          && p.clientID == clientID && state.sessionID == p.sessionID && state.proxies == p.next.value
          && state.sync.revision == p.request.revision && state.sync.fingerprint == p.request.fingerprint)
  {
  }

  lemma AskedLonger(steps: seq<Step>, i: nat, p: Preparation, q: Preparation)
    requires i < |steps| && WasAsked(steps, i, p) && SameRequest(p, q)
    ensures WasAsked(steps, i + 1, q)
  {
    var k: nat :| k < i && Asks(steps[k], p.clientID, p.sessionID, p.request, p.declared);
    assert Asks(steps[k], q.clientID, q.sessionID, q.request, q.declared);
  }

  lemma FulfilledLonger(steps: seq<Step>, i: nat, clientID: string, state: ClientState)
    requires i < |steps| && Fulfilled(steps, i, clientID, state)
    ensures Fulfilled(steps, i + 1, clientID, state)
  {
    var k: nat :| k < i && Fulfils(steps[k], clientID, state);
  }

  lemma PublishedFulfils(steps: seq<Step>, i: nat, p: Preparation, state: ClientState)
    requires i < |steps| && WasAsked(steps, i, p) && PreparationSound(p) && p.next.Some?
    requires state.sessionID == p.sessionID && state.proxies == p.next.value
    requires state.sync.revision == p.request.revision && state.sync.fingerprint == p.request.fingerprint
    ensures Fulfilled(steps, i + 1, p.clientID, state)
  {
    BuiltCarries(p);
    var k: nat :| k < i && Asks(steps[k], p.clientID, p.sessionID, p.request, p.declared);
    assert Fulfils(steps[k], p.clientID, state);
  }

  lemma {:induction false} PreparationsWereAsked(run: seq<World>, steps: seq<Step>, i: nat, id: nat)
    requires Follows(run, steps) && i < |run| && id in run[i].preparations
    ensures WasAsked(steps, i, run[i].preparations[id])
  {
    if i > 0 {
      var p := run[i].preparations[id];
      assert Moves(run, steps, i - 1);
      PreparationOrigin(run[i - 1], steps[i - 1], run[i], id);
      if id in run[i - 1].preparations && SameRequest(run[i - 1].preparations[id], p) {
        PreparationsWereAsked(run, steps, i - 1, id);
        AskedLonger(steps, i - 1, run[i - 1].preparations[id], p);
      }
    }
  }

  lemma PreparationsAreSound(run: seq<World>, steps: seq<Step>, i: nat, id: nat)
    requires Follows(run, steps) && i < |run| && id in run[i].preparations
    ensures PreparationSound(run[i].preparations[id]) && Observed(run[i].tables, run[i].preparations[id])
  {
    var _ := InvariantAlongRun(run, steps, i);
  }

  lemma PublicationFulfils(run: seq<World>, steps: seq<Step>, i: nat, clientID: string)
    requires Follows(run, steps) && i < |steps| && clientID in run[i + 1].tables.clients
    requires clientID in run[i].tables.clients ==> run[i].tables.clients[clientID] != run[i + 1].tables.clients[clientID]
    requires run[i + 1].tables.clients[clientID].sync.revision > 0
    ensures Fulfilled(steps, i + 1, clientID, run[i + 1].tables.clients[clientID])
  {
    assert Moves(run, steps, i);
    ClientOrigin(run[i], steps[i], run[i + 1], clientID);
    PreparationsWereAsked(run, steps, i, steps[i].id);
    PreparationsAreSound(run, steps, i, steps[i].id);
    PublishedFulfils(steps, i, run[i].preparations[steps[i].id], run[i + 1].tables.clients[clientID]);
  }

  /**
   In every run a client whose session has applied a revision has exactly the
   bindings that a request of that session, with that revision and payload,
   asked for: each carries the session's own ID, never that of a session it
   took over from, and the name, route and schemes of its declaration.
   */
  lemma {:induction false} ProxiesAreAsRequested(run: seq<World>, steps: seq<Step>, i: nat, clientID: string)
    requires Follows(run, steps) && i < |run| && clientID in run[i].tables.clients
    requires run[i].tables.clients[clientID].sync.revision > 0
    ensures Fulfilled(steps, i, clientID, run[i].tables.clients[clientID])
  {
    var state := run[i].tables.clients[clientID];
    if clientID in run[i - 1].tables.clients && run[i - 1].tables.clients[clientID] == state {
      ProxiesAreAsRequested(run, steps, i - 1, clientID);
      FulfilledLonger(steps, i - 1, clientID, state);
    } else {
      PublicationFulfils(run, steps, i - 1, clientID);
    }
  }

  // ---------------------------------------------------------------------
  // Which bindings survive a publication
  // ---------------------------------------------------------------------

  /** The binding is already that of the session and the declaration. */
  predicate Already(b: Binding, sessionID: string, d: Declaration) {
    && b.sessionID == sessionID && b.declaration.name == d.name && b.declaration.route == d.route
    && b.declaration.schemes == d.schemes
  }

  lemma KeptIff(p: Preparation, name: string)
    requires PreparationSound(p) && p.next.Some? && name in p.declared
    ensures name in p.existing && p.next.value[name] == p.existing[name] <==>
      name in p.existing && Already(p.existing[name], p.sessionID, p.declared[name])
  {
    BuiltCarries(p);
  }

  lemma PublicationReplaces(t: Tables, p: Preparation)
    requires PreparationSound(p) && Observed(t, p) && p.next.Some? && Publishable(t, p)
    ensures t.clients[p.clientID].proxies == p.existing
    ensures PublishedTables(t, p).clients[p.clientID].proxies == p.next.value
    ensures PublishedTables(t, p).clients[p.clientID].sync.result == Some(ResultOf(p))
  {
  }

  /**
   In every run a publication leaves a proxy's binding the identical one if and
   only if that binding already was of this session and of this declaration.
   For a UDP or HTTP proxy that is what the client is told; of a TCP proxy it
   is told whether the declaration was already there, in whatever session.
   */
  lemma BindingSurvivesIff(run: seq<World>, steps: seq<Step>, i: nat, p: Preparation, name: string)
    requires Follows(run, steps) && i < |steps| && Publishes(run[i], steps[i], p) && name in p.declared
    ensures p.clientID in run[i].tables.clients && p.clientID in run[i + 1].tables.clients
    ensures var before, after := run[i].tables.clients[p.clientID].proxies, run[i + 1].tables.clients[p.clientID].proxies;
      && name in after
      && (name in before && after[name] == before[name] <==>
          name in before && Already(before[name], p.sessionID, p.declared[name]))
    ensures var before, result := run[i].tables.clients[p.clientID].proxies, run[i + 1].tables.clients[p.clientID].sync.result;
      && result.Some? && result.value.Applied? && result.value.revision == p.request.revision && name in result.value.kept
      && (result.value.kept[name] <==>
          && name in before
          && Already(before[name], if HasRuntime(p.declared[name].route) then p.sessionID else before[name].sessionID,
                     p.declared[name]))
  {
    assert Moves(run, steps, i);
    PreparationsAreSound(run, steps, i, steps[i].id);
    PublicationReplaces(run[i].tables, p);
    assert run[i + 1].tables == PublishedTables(run[i].tables, p);
    KeptIff(p, name);
  }

  // ---------------------------------------------------------------------
  // When a sync is published
  // ---------------------------------------------------------------------

  /** Every endpoint the preparation means to reuse is on a port of the observed set. */
  ghost predicate ReusesOwn(p: Preparation) {
    forall route <- p.reusable :: exists name <- p.existing ::
      p.existing[name].declaration.route == route && p.existing[name].endpoint == Some(p.reusable[route])
  }

  lemma ObservationReusesOwn(t: Tables, clientID: string, sessionID: string, request: Request, declared: Declared,
                             allowEmpty: bool)
    requires Inverse(t) && clientID in t.clients && Admissible(t, clientID, declared, allowEmpty)
    ensures ReusesOwn(Observation(t, clientID, sessionID, request, declared))
  {
    var p := Observation(t, clientID, sessionID, request, declared);
    forall route <- p.reusable
      ensures exists name <- p.existing ::
        p.existing[name].declaration.route == route && p.existing[name].endpoint == Some(p.reusable[route])
    {
      var name :| name in declared && declared[name].route == route;
      assert OwnedBy(t, clientID, p.existing, route);
      var b := t.routes[route];
      assert ProxiesReachable(t, clientID) && Reachable(t, p.existing[b.declaration.name]);
    }
  }

  lemma ReuseUnchanged(w: World, step: Step, w': World, id: nat)
    requires Can(w, step) && w' == Do(w, step) && id in w'.preparations && !step.Begin?
    ensures id in w.preparations && w.preparations[id].existing == w'.preparations[id].existing
    ensures w.preparations[id].reusable == w'.preparations[id].reusable
  {
  }

  lemma BegunReusesOwn(w: World, w': World, step: Step, id: nat)
    requires step.Begin? && Can(w, step) && Inverse(w.tables) && id in w'.preparations && id !in w.preparations
    requires w' == Begun(w, step.id, step.clientID, step.sessionID, step.request, step.declared, step.allowEmpty)
    ensures ReusesOwn(w'.preparations[id])
  {
    ObservationReusesOwn(w.tables, step.clientID, step.sessionID, step.request, step.declared, step.allowEmpty);
  }

  lemma StepReusesOwn(w: World, step: Step, w': World, id: nat)
    requires Can(w, step) && w' == Do(w, step) && Inverse(w.tables) && id in w'.preparations
    requires id in w.preparations ==> ReusesOwn(w.preparations[id])
    ensures ReusesOwn(w'.preparations[id])
  {
    if !step.Begin? {
      ReuseUnchanged(w, step, w', id);
    } else if id !in w.preparations {
      BegunReusesOwn(w, w', step, id);
    }
  }

  lemma {:induction false} ReusesOwnAlongRun(run: seq<World>, steps: seq<Step>, i: nat, id: nat)
    requires Follows(run, steps) && i < |run| && id in run[i].preparations
    ensures ReusesOwn(run[i].preparations[id])
  {
    if i > 0 {
      RoutesAlongRun(run, steps, i - 1);
      if id in run[i - 1].preparations {
        ReusesOwnAlongRun(run, steps, i - 1, id);
      }
      assert Moves(run, steps, i - 1);
      StepReusesOwn(run[i - 1], steps[i - 1], run[i], id);
    }
  }

  /** Nobody else has a declared route: reserved for another, or a domain that is another client's. */
  ghost predicate RoutesFree(t: Tables, p: Preparation) {
    forall name <- p.declared ::
      var route := p.declared[name].route;
      && (route in t.reserved && t.reserved[route] != "" ==> t.reserved[route] == p.clientID && p.mode == Managed)
      && (route.HttpDomain? && route in t.routes ==> t.routes[route].clientID == p.clientID)
  }

  /** The session is there and has applied nothing since the sync looked. */
  ghost predicate Stands(t: Tables, p: Preparation) {
    && p.clientID in t.clients && t.clients[p.clientID].sessionID == p.sessionID
    && t.clients[p.clientID].sync.revision == p.baseRevision
  }

  lemma OwnRoute(t: Tables, p: Preparation, route: Route)
    requires Inverse(t) && Stands(t, p) && t.clients[p.clientID].proxies == p.existing && route in t.routes
    ensures Holds(p.existing, t.routes[route]) <==> t.routes[route].clientID == p.clientID
  {
    var b := t.routes[route];
    assert Registered(t, b);
    if Holds(p.existing, b) {
      assert ProxiesReachable(t, p.clientID);
    }
  }

  lemma ReusedStands(t: Tables, p: Preparation, route: Route)
    requires Inverse(t) && Stands(t, p) && t.clients[p.clientID].proxies == p.existing && ReusesOwn(p) && route in p.reusable
    requires forall r <- p.reusable :: IsPort(r)
    ensures route in t.endpoints && t.endpoints[route] == p.reusable[route] && OwnedBy(t, p.clientID, p.existing, route)
  {
    var name :| name in p.existing && p.existing[name].declaration.route == route &&
                p.existing[name].endpoint == Some(p.reusable[route]);
    assert ProxiesReachable(t, p.clientID) && Reachable(t, p.existing[name]);
  }

  lemma PublishableIff(t: Tables, p: Preparation)
    requires Inverse(t) && PreparationSound(p) && Observed(t, p) && ReusesOwn(p) && p.next.Some?
    ensures Publishable(t, p) <==> Stands(t, p) && RoutesFree(t, p)
  {
    BuiltCarries(p);
    if Stands(t, p) {
      forall route <- p.reusable
        ensures route in t.endpoints && t.endpoints[route] == p.reusable[route] && OwnedBy(t, p.clientID, p.existing, route)
      {
        ReusedStands(t, p, route);
      }
      forall route <- t.routes ensures Holds(p.existing, t.routes[route]) <==> t.routes[route].clientID == p.clientID {
        OwnRoute(t, p, route);
      }
      FreeIff(t, p);
    }
  }

  /** The two tests on routes, said of the declarations. */
  lemma FreeIff(t: Tables, p: Preparation)
    requires p.next.Some? && Carries(p.next.value, p.clientID, p.sessionID, p.declared)
    requires forall route <- t.routes :: Holds(p.existing, t.routes[route]) <==> t.routes[route].clientID == p.clientID
    ensures RoutesFree(t, p) <==>
      && ReservationsAllow(t.reserved, p.clientID, p.mode, p.declared)
      && (forall name <- p.next.value ::
            var route := p.next.value[name].declaration.route;
            !IsPort(route) && route in t.routes ==> Holds(p.existing, t.routes[route]))
  {
    forall name <- p.declared ensures p.next.value[name].declaration.route == p.declared[name].route {
    }
  }

  /**
   In every run a sync that is ready to publish succeeds if and only if its
   session is attached and has applied nothing since, and no declared route has
   been reserved for or, if a domain, taken by another. The endpoints it means to
   reuse need no condition: they cannot go while the session stands.
   */
  lemma PublishedIff(run: seq<World>, steps: seq<Step>, i: nat, id: nat)
    requires Follows(run, steps) && i < |run| && id in run[i].preparations && run[i].preparations[id].next.Some?
    ensures Publishable(run[i].tables, run[i].preparations[id]) <==>
      Stands(run[i].tables, run[i].preparations[id]) && RoutesFree(run[i].tables, run[i].preparations[id])
  {
    RoutesAlongRun(run, steps, i);
    PreparationsAreSound(run, steps, i, id);
    ReusesOwnAlongRun(run, steps, i, id);
    PublishableIff(run[i].tables, run[i].preparations[id]);
  }

  // ---------------------------------------------------------------------
  // When a sync goes ahead
  // ---------------------------------------------------------------------

  /** What the client may ask for: up to 128 valid proxies on different routes, and none only if it is managed or allowed to. */
  ghost predicate Askable(declared: Declared, mode: Mode, allowEmpty: bool) {
    && |declared| <= 128 && (declared == map[] ==> allowEmpty || mode == Managed)
    && (forall name <- declared :: declared[name].name == name && declared[name].wellFormed)
    && (forall n <- declared, m <- declared | n != m :: declared[n].route != declared[m].route)
  }

  /** No declared route is reserved for another, and no declared port is another client's. */
  ghost predicate Available(t: Tables, clientID: string, mode: Mode, declared: Declared) {
    forall name <- declared ::
      var route := declared[name].route;
      && (route in t.reserved && t.reserved[route] != "" ==> t.reserved[route] == clientID && mode == Managed)
      && (IsPort(route) && route in t.endpoints ==> route in t.routes && t.routes[route].clientID == clientID)
  }

  lemma OwnPort(t: Tables, clientID: string, route: Route)
    requires Inverse(t) && clientID in t.clients
    ensures OwnedBy(t, clientID, t.clients[clientID].proxies, route) <==> route in t.routes && t.routes[route].clientID == clientID
  {
    if route in t.routes {
      assert Registered(t, t.routes[route]);
    }
  }

  lemma AdmissibleIff(t: Tables, clientID: string, declared: Declared, allowEmpty: bool)
    requires Inverse(t) && clientID in t.clients
    ensures Admissible(t, clientID, declared, allowEmpty) <==>
      Askable(declared, t.clients[clientID].mode, allowEmpty) && Available(t, clientID, t.clients[clientID].mode, declared)
  {
    forall route ensures OwnedBy(t, clientID, t.clients[clientID].proxies, route) <==>
                         route in t.routes && t.routes[route].clientID == clientID {
      OwnPort(t, clientID, route);
    }
  }

  lemma BegunIff(w: World, step: Step)
    requires Inverse(w.tables) && step.Begin? && Can(w, step)
    ensures step.id in Do(w, step).preparations <==>
      && Attached(w.tables, step.clientID, step.sessionID)
      && var state := w.tables.clients[step.clientID];
      && Check(state.sync, step.request) == Proceed
      && Askable(step.declared, state.mode, step.allowEmpty) && Available(w.tables, step.clientID, state.mode, step.declared)
  {
    if step.clientID in w.tables.clients {
      AdmissibleIff(w.tables, step.clientID, step.declared, step.allowEmpty);
    }
  }

  /**
   In every run a sync goes ahead if and only if the session is the client's
   current one, the request is neither answered nor refused from the cache, it
   asks for what may be asked for, and no declared route is another's.
   */
  lemma GoesAheadIff(run: seq<World>, steps: seq<Step>, i: nat)
    requires Follows(run, steps) && i < |steps| && steps[i].Begin?
    ensures var t, step := run[i].tables, steps[i];
      step.id in run[i + 1].preparations <==>
      && !t.closed && step.clientID in t.clients && t.clients[step.clientID].sessionID == step.sessionID
      && var state := t.clients[step.clientID];
      && Stored(state.sync) && Check(state.sync, step.request) == Proceed
      && Askable(step.declared, state.mode, step.allowEmpty) && Available(t, step.clientID, state.mode, step.declared)
  {
    assert Moves(run, steps, i);
    RoutesAlongRun(run, steps, i);
    BegunIff(run[i], steps[i]);
  }

  // ---------------------------------------------------------------------
  // Sessions and reservations
  // ---------------------------------------------------------------------

  lemma ClientLeavesIff(w: World, step: Step, w': World, clientID: string)
    requires Can(w, step) && w' == Do(w, step) && clientID in w.tables.clients
    ensures clientID !in w'.tables.clients <==>
      || (step.Detach? && step.clientID == clientID && step.sessionID == w.tables.clients[clientID].sessionID)
      || step.CloseAll?
  {
  }

  ghost predicate NothingLeadsTo(t: Tables, clientID: string) {
    && (forall route <- t.routes :: t.routes[route].clientID != clientID)
    && (forall route <- t.endpoints :: route in t.routes)
  }

  /**
   In every run a client leaves if and only if its current session detaches or
   the registry closes, and then no route or endpoint is left to it.
   */
  lemma LeavingIsExact(run: seq<World>, steps: seq<Step>, i: nat, clientID: string)
    requires Follows(run, steps) && i < |steps| && clientID in run[i].tables.clients
    ensures clientID !in run[i + 1].tables.clients <==>
      || (steps[i].Detach? && steps[i].clientID == clientID && steps[i].sessionID == run[i].tables.clients[clientID].sessionID)
      || steps[i].CloseAll?
    ensures clientID !in run[i + 1].tables.clients ==> NothingLeadsTo(run[i + 1].tables, clientID)
  {
    assert Moves(run, steps, i);
    ClientLeavesIff(run[i], steps[i], run[i + 1], clientID);
    RoutesAlongRun(run, steps, i + 1);
  }

  /** A new session takes over the client's proxies as they are, with nothing applied yet. */
  lemma AttachIsExact(w: World, step: Step)
    requires step.Attach? && Can(w, step)
    ensures var t, t' := w.tables, Do(w, step).tables;
      && t' == t.(clients := t'.clients) && step.clientID in t'.clients
      && t'.clients == t.clients[step.clientID := t'.clients[step.clientID]]
      && var state := t'.clients[step.clientID];
      && state.sessionID == step.sessionID && state.mode == step.mode && state.sync.revision == 0
      && state.sync.requests == map[]
      && state.proxies == if step.clientID in t.clients then t.clients[step.clientID].proxies else map[]
  {
  }

  /** Every route bound now is bound by the managed client the candidate reserves it for, or is not in the candidate. */
  ghost predicate Compatible(t: Tables, reserved: map<Route, string>) {
    forall route <- t.routes | route in reserved ::
      && reserved[route] == t.routes[route].clientID && t.routes[route].clientID in t.clients
      && t.clients[t.routes[route].clientID].mode == Managed
  }

  /** Reservations are prepared if and only if they are compatible, come into force when they are committed, and touch nothing else. */
  lemma ReservingIsExact(w: World, step: Step)
    requires Can(w, step) && (step.ReserveBegin? || step.ReserveEnd?)
    ensures step.ReserveBegin? ==>
      Do(w, step) == w.(barrier := if Compatible(w.tables, step.reserved) then Some(step.reserved) else w.barrier)
    ensures step.ReserveEnd? ==>
      Do(w, step) == w.(barrier := None, tables := w.tables.(reserved := if step.commit then w.barrier.value else w.tables.reserved))
  {
    if step.ReserveBegin? {
      assert Compatible(w.tables, step.reserved) <==> Adopts(w.tables, step.reserved);
    }
  }
}
