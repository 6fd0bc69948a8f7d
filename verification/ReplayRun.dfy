/**
 A run in which a Forward set is published without a new proxy generation: two
 syncs are applied, and then the first is replayed from the proxy registry's
 cache with a new Forward transaction (internal/proxy/registry/sync.go,
 sync_publication.go). The proxies stay at the second revision.
 */
module ReplayRun {
  import opened Options
  import opened Authentication
  import opened SyncCache
  import opened ProxyRegistry
  import opened CoordinatedSync

  const CLIENT := "client"
  const SESSION := "session"
  const KEY := ForwardRegistry.SessionKey(CLIENT, SESSION)
  const CONTEXT := Context(Shared, "", Selector("token"), 1)
  const FIRST := Request("first", 1, "one")
  const SECOND := Request("second", 2, "two")
  const NO_IDS: map<string, nat> := map[]

  function Anything(context: Context, declaration: ForwardRegistry.Declaration): ForwardRegistry.Verdict {
    ForwardRegistry.Verdict(true, true)
  }

  // ---------------------------------------------------------------------
  // Playing steps
  // ---------------------------------------------------------------------

  ghost function Tried(s: System, step: Step): Option<System> {
    if Can(s, step) then Some(Do(s, step)) else None
  }

  ghost function ProxyTried(w: ProxyRuns.World, step: ProxyRuns.Step): Option<ProxyRuns.World> {
    if ProxyRuns.Can(w, step) then Some(ProxyRuns.Do(w, step)) else None
  }

  ghost function ForwardTried(f: ForwardRuns.State, step: ForwardRuns.Step): Option<ForwardRuns.State> {
    if ForwardRuns.Can(f, step) then Some(ForwardRuns.Do(f, step)) else None
  }

  /** Some run ends in this state. */
  ghost predicate Reached(s: System) {
    exists run: seq<System>, steps: seq<Step> :: Follows(run, steps) && run[|steps|] == s
  }

  /** A run, one step longer. */
  lemma OneMore(run: seq<System>, steps: seq<Step>, step: Step, s: System)
    requires Follows(run, steps) && Tried(run[|steps|], step) == Some(s)
    ensures Follows(run + [s], steps + [step])
  {
    var longer, more := run + [s], steps + [step];
    forall i | 0 <= i < |more| ensures Can(longer[i], more[i]) && longer[i + 1] == Do(longer[i], more[i]) {
      if i < |steps| {
        assert longer[i] == run[i] && longer[i + 1] == run[i + 1] && more[i] == steps[i];
      }
    }
  }

  lemma StepReaches(s: System, step: Step, s': System)
    requires Reached(s) && Tried(s, step) == Some(s')
    ensures Reached(s')
  {
    var run: seq<System>, steps: seq<Step> :| Follows(run, steps) && run[|steps|] == s;
    OneMore(run, steps, step, s');
    assert (run + [s'])[|steps + [step]|] == s';
  }

  lemma ProxyAloneReaches(s: System, step: ProxyRuns.Step, w: ProxyRuns.World)
    requires Reached(s) && ProxyTried(s.proxy, step) == Some(w) && !step.Publish? && s.answer.None?
    ensures Reached(s.(proxy := w))
  {
    StepReaches(s, ProxyAlone(step), s.(proxy := w));
  }

  lemma ForwardAloneReaches(s: System, step: ForwardRuns.Step, f: ForwardRuns.State)
    requires Reached(s) && ForwardTried(s.forward, step) == Some(f) && !step.Commit?
    ensures Reached(s.(forward := f))
  {
    StepReaches(s, ForwardAlone(step), s.(forward := f));
  }

  lemma CoordinateReaches(s: System, id: nat, transaction: nat, w: ProxyRuns.World, f: ForwardRuns.State)
    requires Reached(s) && s.answer.None? && PublishesProxies(s, id) && PublishesForwards(s, transaction, Anything)
    requires ProxyTried(s.proxy, ProxyRuns.Publish(id)) == Some(w)
    requires ForwardTried(s.forward, ForwardRuns.Commit(transaction, Anything, true)) == Some(f)
    ensures Reached(System(w, f, None))
  {
    StepReaches(s, Coordinate(id, transaction, Anything), System(w, f, None));
  }

  // ---------------------------------------------------------------------
  // One sync without proxies, applied
  // ---------------------------------------------------------------------

  /** One attached client. */
  function OneClient(sync: SyncState<SyncResult>): Tables {
    Tables(map[CLIENT := ClientState(SESSION, Shared, sync, map[])], map[], map[], map[], false)
  }

  function Proxies(sync: SyncState<SyncResult>, preparations: map<nat, Preparation>,
                   retirements: map<nat, set<ProxyRuns.Resource>>): ProxyRuns.World
  {
    ProxyRuns.World(OneClient(sync), preparations, retirements, map[], map[], None)
  }

  function Prepared(sync: SyncState<SyncResult>, request: Request, next: Option<Bindings>): Preparation {
    Preparation(CLIENT, SESSION, request, map[], sync.revision, Shared, map[], map[], map[], next)
  }

  function BeginProxies(id: nat, request: Request): ProxyRuns.Step {
    ProxyRuns.Begin(id, CLIENT, SESSION, request, map[], true)
  }

  lemma BeginLeads(sync: SyncState<SyncResult>, retirements: map<nat, set<ProxyRuns.Resource>>, id: nat, request: Request)
    requires Remembers(sync) && Check(sync, request) == Proceed && id !in retirements
    ensures ProxyTried(Proxies(sync, map[], retirements), BeginProxies(id, request)) ==
            Some(Proxies(sync, map[id := Prepared(sync, request, None)], retirements))
  {
    var t := OneClient(sync);
    var none: Declared := map[];
    assert Admissible(t, CLIENT, none, true);
    assert Reusable(t, none) == map[];
  }

  lemma NothingIsCreated(p: Preparation)
    requires p.declared == map[]
    ensures NextBindings(p, NO_IDS) == map[] && ProxyRuns.Created(p, NO_IDS) == map[]
  {
  }

  lemma NothingIsAdded(w: ProxyRuns.World, created: map<ProxyRuns.Resource, Declaration>, preparations: map<nat, Preparation>)
    requires created == map[]
    ensures w.(preparations := preparations, place := w.place + created, closes := w.closes + map r <- created :: 0) ==
            w.(preparations := preparations)
  {
    assert w.place + created == w.place;
    assert w.closes + (map r <- created :: 0) == w.closes;
  }

  /** Nothing declared, nothing to build. */
  lemma BuildLeads(w: ProxyRuns.World, id: nat, p: Preparation)
    requires id in w.preparations && w.preparations[id] == p && p.declared == map[] && p.next.None?
    ensures ProxyTried(w, ProxyRuns.Build(id, NO_IDS)) ==
            Some(w.(preparations := w.preparations[id := p.(next := Some(map[]))]))
  {
    NothingIsCreated(p);
    NothingIsAdded(w, ProxyRuns.Created(p, NO_IDS), w.preparations[id := p.(next := Some(map[]))]);
  }

  function Result(request: Request): SyncResult { Applied(request.revision, map[]) }

  lemma NothingIsReplaced()
    ensures var none: Bindings := map[];
      Rerouted(map[], none, none) == map[] && Relocated(map[], none, none) == map[] && ProxyRuns.Retired(none, none) == {}
  {
    var none: Bindings := map[];
    assert RoutesOf(none) == {} && ByRoute(none) == map[] && EndpointsOf(none) == map[];
  }

  ghost predicate Empty(p: Preparation) {
    p.declared == map[] && p.existing == map[] && p.reusable == map[] && p.next == Some(map[])
  }

  lemma PublishNothing(t: Tables, p: Preparation, state: ClientState)
    requires Empty(p) && t.clients == map[p.clientID := state] && state.proxies == map[]
    requires t.routes == map[] && t.endpoints == map[]
    ensures PublishedTables(t, p) ==
      t.(clients := map[p.clientID := state.(sync := Cached(state.sync, p.request, Result(p.request)))])
  {
    var t' := PublishedTables(t, p);
    assert t'.routes == t.routes && t'.endpoints == t.endpoints by { NothingIsReplaced(); }
    assert ResultOf(p) == Result(p.request);
    var after := state.(sync := Cached(state.sync, p.request, Result(p.request)));
    assert after == state.(proxies := p.next.value, sync := Cached(state.sync, p.request, ResultOf(p)));
    assert t'.clients == t.clients[p.clientID := after];
    assert t.clients[p.clientID := after] == map[p.clientID := after];
  }

  lemma EmptyIsPublishable(t: Tables, p: Preparation)
    requires Empty(p) && p.clientID in t.clients && t.clients[p.clientID].sessionID == p.sessionID
    requires t.clients[p.clientID].sync.revision == p.baseRevision
    ensures Publishable(t, p)
  {
  }

  lemma PublishTried(w: ProxyRuns.World, id: nat, w': ProxyRuns.World)
    requires id in w.preparations && id !in w.retirements && w.barrier.None? && w.preparations[id].next.Some?
    requires ProxyRuns.Settled(w, id) == w'
    ensures ProxyTried(w, ProxyRuns.Publish(id)) == Some(w')
  {
  }

  lemma PublishSettles(w: ProxyRuns.World, id: nat)
    requires id in w.preparations && w.preparations[id].next.Some? && Publishable(w.tables, w.preparations[id])
    ensures ProxyRuns.Settled(w, id) == ProxyRuns.Published(w, id)
  {
  }

  lemma PublishedIs(w: ProxyRuns.World, id: nat, p: Preparation, w': ProxyRuns.World)
    requires w.preparations == map[id := p] && Empty(p) && p.clientID in w.tables.clients
    requires w' == w.(tables := PublishedTables(w.tables, p), preparations := map[], retirements := w.retirements[id := {}])
    ensures ProxyRuns.Published(w, id) == w'
  {
    NothingIsReplaced();
    Singleton(id, p, p);
  }

  lemma Singleton<V>(key: nat, before: V, after: V)
    ensures map[key := before][key := after] == map[key := after] && map[key := before] - {key} == map[]
  {
  }

  function BeginForwards(transaction: nat, reserved: nat, next: nat): ForwardRuns.Step {
    ForwardRuns.Begin(transaction, KEY, CONTEXT, [], Anything, reserved, next, map[])
  }

  /** These names are free. */
  ghost predicate Unused(f: ForwardRuns.State, transaction: nat, reserved: nat, next: nat) {
    !f.closed && transaction !in f.transactions && reserved !in f.sets && next !in f.sets && reserved != next
  }

  ghost function Begun(f: ForwardRuns.State, transaction: nat, reserved: nat, next: nat): ForwardRuns.State {
    ForwardRuns.Begun(f, transaction, KEY, reserved, next, map[])
  }

  ghost function Committed(f: ForwardRuns.State, transaction: nat, reserved: nat, next: nat): ForwardRuns.State {
    var begun := Begun(f, transaction, reserved, next);
    ForwardRuns.Discarded(begun, transaction).(sessions := begun.sessions[KEY := next])
  }

  lemma ForwardLeads(f: ForwardRuns.State, transaction: nat, reserved: nat, next: nat)
    requires Unused(f, transaction, reserved, next)
    ensures ForwardTried(f, BeginForwards(transaction, reserved, next)) == Some(Begun(f, transaction, reserved, next))
    ensures var begun := Begun(f, transaction, reserved, next);
      && next in begun.sets && begun.transactions[transaction].next == next && ForwardRuns.Ready(begun, transaction, Anything)
      && ForwardTried(begun, ForwardRuns.Commit(transaction, Anything, true)) == Some(Committed(f, transaction, reserved, next))
  {
  }

  /** Between two syncs. */
  ghost function Before(sync: SyncState<SyncResult>, retirements: map<nat, set<ProxyRuns.Resource>>, f: ForwardRuns.State): System {
    System(Proxies(sync, map[], retirements), f, None)
  }

  lemma ForwardBegins(s: System, transaction: nat, reserved: nat, next: nat)
    requires Reached(s) && Unused(s.forward, transaction, reserved, next)
    ensures Reached(s.(forward := Begun(s.forward, transaction, reserved, next)))
  {
    ForwardLeads(s.forward, transaction, reserved, next);
    ForwardAloneReaches(s, BeginForwards(transaction, reserved, next), Begun(s.forward, transaction, reserved, next));
  }

  lemma ProxyBegins(sync: SyncState<SyncResult>, retirements: map<nat, set<ProxyRuns.Resource>>, f: ForwardRuns.State,
                    id: nat, request: Request)
    requires Remembers(sync) && Check(sync, request) == Proceed && id !in retirements
    requires Reached(System(Proxies(sync, map[], retirements), f, None))
    ensures Reached(System(Proxies(sync, map[id := Prepared(sync, request, None)], retirements), f, None))
  {
    var w := Proxies(sync, map[id := Prepared(sync, request, None)], retirements);
    BeginLeads(sync, retirements, id, request);
    ProxyAloneReaches(System(Proxies(sync, map[], retirements), f, None), BeginProxies(id, request), w);
  }

  lemma ProxyBuilds(sync: SyncState<SyncResult>, retirements: map<nat, set<ProxyRuns.Resource>>, f: ForwardRuns.State,
                    id: nat, request: Request)
    requires Reached(System(Proxies(sync, map[id := Prepared(sync, request, None)], retirements), f, None))
    ensures Reached(System(Proxies(sync, map[id := Prepared(sync, request, Some(map[]))], retirements), f, None))
  {
    var p := Prepared(sync, request, None);
    var w, w' := Proxies(sync, map[id := p], retirements), Proxies(sync, map[id := p.(next := Some(map[]))], retirements);
    assert ProxyTried(w, ProxyRuns.Build(id, NO_IDS)) == Some(w') by {
      BuildLeads(w, id, p);
      Singleton(id, p, p.(next := Some(map[])));
    }
    ProxyAloneReaches(System(w, f, None), ProxyRuns.Build(id, NO_IDS), w');
  }

  lemma ProxyPublishes(sync: SyncState<SyncResult>, retirements: map<nat, set<ProxyRuns.Resource>>, id: nat, p: Preparation)
    requires id !in retirements && Empty(p) && p.clientID == CLIENT && p.sessionID == SESSION
    requires p.baseRevision == sync.revision
    ensures var w := Proxies(sync, map[id := p], retirements);
      && Publishable(w.tables, p)
      && ProxyTried(w, ProxyRuns.Publish(id)) ==
         Some(Proxies(Cached(sync, p.request, Result(p.request)), map[], retirements[id := {}]))
  {
    var t := OneClient(sync);
    EmptyIsPublishable(t, p);
    PublishNothing(t, p, t.clients[CLIENT]);
    var w, w' := Proxies(sync, map[id := p], retirements),
                 Proxies(Cached(sync, p.request, Result(p.request)), map[], retirements[id := {}]);
    PublishedIs(w, id, p, w');
    PublishSettles(w, id);
    PublishTried(w, id, w');
  }

  lemma SyncCommits(sync: SyncState<SyncResult>, retirements: map<nat, set<ProxyRuns.Resource>>, f: ForwardRuns.State,
                    id: nat, transaction: nat, reserved: nat, next: nat, request: Request)
    requires id !in retirements && Unused(f, transaction, reserved, next)
    requires Reached(System(Proxies(sync, map[id := Prepared(sync, request, Some(map[]))], retirements),
                            Begun(f, transaction, reserved, next), None))
    ensures Reached(Before(Cached(sync, request, Result(request)), retirements[id := {}],
                           Committed(f, transaction, reserved, next)))
  {
    var p, begun := Prepared(sync, request, Some(map[])), Begun(f, transaction, reserved, next);
    ProxyPublishes(sync, retirements, id, p);
    ForwardLeads(f, transaction, reserved, next);
    CoordinateReaches(System(Proxies(sync, map[id := p], retirements), begun, None), id, transaction,
                      Proxies(Cached(sync, request, Result(request)), map[], retirements[id := {}]),
                      Committed(f, transaction, reserved, next));
  }

  lemma SyncReaches(sync: SyncState<SyncResult>, retirements: map<nat, set<ProxyRuns.Resource>>, f: ForwardRuns.State,
                    id: nat, transaction: nat, reserved: nat, next: nat, request: Request)
    requires Remembers(sync) && Check(sync, request) == Proceed && id !in retirements
    requires Unused(f, transaction, reserved, next) && Reached(Before(sync, retirements, f))
    ensures Reached(Before(Cached(sync, request, Result(request)), retirements[id := {}],
                           Committed(f, transaction, reserved, next)))
  {
    var begun := Begun(f, transaction, reserved, next);
    ForwardBegins(Before(sync, retirements, f), transaction, reserved, next);
    ProxyBegins(sync, retirements, begun, id, request);
    ProxyBuilds(sync, retirements, begun, id, request);
    SyncCommits(sync, retirements, f, id, transaction, reserved, next, request);
  }

  // ---------------------------------------------------------------------
  // The whole run
  // ---------------------------------------------------------------------

  function AfterFirst(): SyncState<SyncResult> { Cached(NoSync(), FIRST, Result(FIRST)) }
  function AfterSecond(): SyncState<SyncResult> { Cached(AfterFirst(), SECOND, Result(SECOND)) }

  lemma CachesAre()
    ensures Remembers(NoSync<SyncResult>()) && Check(NoSync<SyncResult>(), FIRST) == Proceed
    ensures Remembers(AfterFirst()) && Check(AfterFirst(), SECOND) == Proceed
    ensures Remembers(AfterSecond()) && Check(AfterSecond(), FIRST) == Verdict.Replay(Result(FIRST))
    ensures AfterSecond().revision == 2
  {
    var none: SyncState<SyncResult> := NoSync();
    assert Tidy(none);
    CachedStaysTidy(none, FIRST, Result(FIRST));
    CachedStaysTidy(AfterFirst(), SECOND, Result(SECOND));
  }

  const ATTACH := ProxyRuns.Attach(CLIENT, SESSION, Shared)
  const NONE_RETIRED: map<nat, set<ProxyRuns.Resource>> := map[]
  const ONE_RETIRED: map<nat, set<ProxyRuns.Resource>> := map[1 := {}]
  const TWO_RETIRED: map<nat, set<ProxyRuns.Resource>> := map[1 := {}, 2 := {}]

  ghost function ForwardAfterFirst(): ForwardRuns.State { Committed(ForwardRuns.EMPTY, 0, 0, 1) }
  ghost function ForwardAfterSecond(): ForwardRuns.State { Committed(ForwardAfterFirst(), 1, 2, 3) }

  lemma NamesAreUnused()
    ensures Unused(ForwardRuns.EMPTY, 0, 0, 1)
    ensures Unused(ForwardAfterFirst(), 1, 2, 3)
    ensures Unused(ForwardAfterSecond(), 2, 4, 5)
  {
  }

  lemma StartIsReached()
    ensures Reached(START)
  {
    var run: seq<System>, steps: seq<Step> := [START], [];
    assert Follows(run, steps) && run[|steps|] == START;
  }

  lemma AttachedIsReached()
    ensures Reached(Before(NoSync(), NONE_RETIRED, ForwardRuns.EMPTY))
  {
    StartIsReached();
    ProxyAloneReaches(START, ATTACH, Proxies(NoSync(), map[], NONE_RETIRED));
  }

  lemma BothApply()
    ensures Reached(Before(AfterSecond(), TWO_RETIRED, ForwardAfterSecond()))
  {
    CachesAre();
    NamesAreUnused();
    AttachedIsReached();
    SyncReaches(NoSync(), NONE_RETIRED, ForwardRuns.EMPTY, 1, 0, 0, 1, FIRST);
    assert NONE_RETIRED[1 := {}] == ONE_RETIRED && ONE_RETIRED[2 := {}] == TWO_RETIRED;
    SyncReaches(AfterFirst(), ONE_RETIRED, ForwardAfterFirst(), 2, 1, 2, 3, SECOND);
  }

  ghost function ThirdBegun(): System {
    Before(AfterSecond(), TWO_RETIRED, ForwardAfterSecond()).(forward := Begun(ForwardAfterSecond(), 2, 4, 5))
  }

  const RECALL := Recall(CLIENT, SESSION, FIRST)

  ghost function Recalled(): System { ThirdBegun().(answer := Some(Answer(CLIENT, SESSION, FIRST, 2))) }

  lemma RecallTried(s: System)
    requires s.proxy == Proxies(AfterSecond(), map[], TWO_RETIRED) && s.answer.None?
    ensures Tried(s, RECALL) == Some(s.(answer := Some(Answer(CLIENT, SESSION, FIRST, 2))))
  {
    CachesAre();
    assert Recalls(OneClient(AfterSecond()), CLIENT, SESSION, FIRST);
  }

  lemma RecalledIsReached()
    ensures Reached(Recalled())
  {
    BothApply();
    NamesAreUnused();
    ForwardBegins(Before(AfterSecond(), TWO_RETIRED, ForwardAfterSecond()), 2, 4, 5);
    RecallTried(ThirdBegun());
    StepReaches(ThirdBegun(), RECALL, Recalled());
  }

  function ReplayStep(): Step { CoordinatedSync.Replay(2, Anything) }

  ghost function Replayed(): System { System(Recalled().proxy, Committed(ForwardAfterSecond(), 2, 4, 5), None) }

  lemma ReplayTried()
    ensures PublishesAlone(Recalled(), ReplayStep()) && Tried(Recalled(), ReplayStep()) == Some(Replayed())
  {
    NamesAreUnused();
    ForwardLeads(ForwardAfterSecond(), 2, 4, 5);
  }

  /** The Forward set of the answered request is out and the proxies are at a newer revision. */
  ghost predicate OlderForwardsOut(before: System, after: System) {
    && before.answer == Some(Answer(CLIENT, SESSION, FIRST, 2)) && after.proxy == before.proxy
    && CLIENT in before.proxy.tables.clients && before.proxy.tables.clients[CLIENT].sync.revision == 2
    && KEY in after.forward.sessions && after.forward.sessions[KEY] == 5
  }

  lemma ReplayIsOlder()
    ensures OlderForwardsOut(Recalled(), Replayed())
  {
    CachesAre();
  }

  /**
   The pairing is one-sided: there is a run that ends with a replay of the first
   request publishing its Forward set while the proxies stay at the second revision.
   */
  lemma ReplayPublishesAlone() returns (run: seq<System>, steps: seq<Step>)
    ensures Follows(run, steps) && |steps| > 0 && PublishesAlone(run[|steps| - 1], steps[|steps| - 1])
    ensures OlderForwardsOut(run[|steps| - 1], run[|steps|])
  {
    RecalledIsReached();
    ReplayTried();
    ReplayIsOlder();
    var before: seq<System>, earlier: seq<Step> :| Follows(before, earlier) && before[|earlier|] == Recalled();
    OneMore(before, earlier, ReplayStep(), Replayed());
    run, steps := before + [Replayed()], earlier + [ReplayStep()];
  }
}
