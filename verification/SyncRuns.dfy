/**
 One session and any number of overlapping syncs: each checks its request,
 works outside the locks, and publishes only if the revision it started from
 still stands (internal/proxy/registry/sync.go, sync_commit.go).
 */
module SyncRuns {
  import opened Options
  import opened SyncCache

  /** A sync between its check and its publication remembers the revision it started from. */
  datatype Attempt = Attempt(request: Request, base: nat)

  datatype Applied<R> = Applied(request: Request, result: R)

  datatype World<R> = World(state: SyncState<R>, attempts: map<nat, Attempt>, log: seq<Applied<R>>)

  /** `accepted` is what the tests of publishSync other than the revision test say. */
  datatype Step<R> =
    | Arrive(attempt: nat, request: Request)
    | Publish(attempt: nat, accepted: bool, result: R)

  ghost predicate Can<R>(w: World<R>, step: Step<R>) {
    match step
    case Arrive(attempt, _) => attempt !in w.attempts && Stored(w.state)
    case Publish(attempt, _, _) => attempt in w.attempts
  }

  predicate Publishes<R>(w: World<R>, attempt: nat, accepted: bool)
    requires attempt in w.attempts
  {
    accepted && w.attempts[attempt].base == w.state.revision
  }

  ghost function Do<R>(w: World<R>, step: Step<R>): World<R>
    requires Can(w, step)
  {
    match step
    case Arrive(attempt, request) =>
      if Check(w.state, request) == Proceed
      then w.(attempts := w.attempts[attempt := Attempt(request, w.state.revision)]) else w
    case Publish(attempt, accepted, result) =>
      var request, left := w.attempts[attempt].request, w.attempts - {attempt};
      if Publishes(w, attempt, accepted)
      then World(Cached(w.state, request, result), left, w.log + [Applied(request, result)])
      else w.(attempts := left)
  }

  /** Where the cached part of the log starts. */
  function Oldest<R>(log: seq<Applied<R>>): nat { if |log| <= MAX_CACHED then 0 else |log| - MAX_CACHED }

  ghost predicate Increasing<R>(log: seq<Applied<R>>) {
    && (forall k | 0 <= k < |log| :: log[k].request.revision > 0)
    && (forall k, l | 0 <= k < l < |log| :: log[k].request.revision < log[l].request.revision)
  }

  /** The cache is the end of the log. */
  ghost predicate Mirrors<R>(state: SyncState<R>, log: seq<Applied<R>>) {
    && |state.order| == |log| - Oldest(log)
    && (forall i | 0 <= i < |state.order| ::
          var applied := log[Oldest(log) + i];
          && state.order[i] == applied.request.id && applied.request.id in state.requests
          && state.requests[applied.request.id] ==
             Entry(applied.request.revision, applied.request.fingerprint, applied.result))
    && (if log == [] then state.revision == 0
        else
          var last := log[|log| - 1];
          state.revision == last.request.revision && state.fingerprint == last.request.fingerprint &&
          state.result == Some(last.result))
  }

  /** A sync whose base is still current cannot have been overtaken by its own replay. */
  ghost predicate Unovertaken<R>(w: World<R>) {
    forall a <- w.attempts ::
      && w.attempts[a].base < w.attempts[a].request.revision && w.attempts[a].base <= w.state.revision
      && (w.attempts[a].base == w.state.revision ==> w.attempts[a].request.id !in w.state.requests)
  }

  ghost predicate Invariant<R>(w: World<R>) {
    Tidy(w.state) && Increasing(w.log) && Mirrors(w.state, w.log) && Unovertaken(w)
  }

  lemma CachedStillMirrors<R>(state: SyncState<R>, log: seq<Applied<R>>, request: Request, result: R)
    requires Tidy(state) && Mirrors(state, log) && request.id !in state.requests
    ensures Mirrors(Cached(state, request, result), log + [Applied(request, result)])
  {
    var state', log' := Cached(state, request, result), log + [Applied(request, result)];
    var dropped := if |state.order| == MAX_CACHED then 1 else 0;
    forall i | 0 <= i < |state'.order|
      ensures
        var applied := log'[Oldest(log') + i];
        && state'.order[i] == applied.request.id && applied.request.id in state'.requests
        && state'.requests[applied.request.id] ==
           Entry(applied.request.revision, applied.request.fingerprint, applied.result)
    {
      if i < |state'.order| - 1 {
        assert state'.order[i] == state.order[i + dropped];
      }
    }
  }

  lemma OneMoreIncreases<R>(log: seq<Applied<R>>, applied: Applied<R>)
    requires Increasing(log) && applied.request.revision > 0
    requires log != [] ==> log[|log| - 1].request.revision < applied.request.revision
    ensures Increasing(log + [applied])
  {
  }

  lemma PublishKeepsInvariant<R>(w: World<R>, attempt: nat, result: R)
    requires Invariant(w) && attempt in w.attempts && w.attempts[attempt].base == w.state.revision
    ensures var request := w.attempts[attempt].request;
      Invariant(World(Cached(w.state, request, result), w.attempts - {attempt}, w.log + [Applied(request, result)]))
  {
    var request := w.attempts[attempt].request;
    CachedStaysTidy(w.state, request, result);
    CachedStillMirrors(w.state, w.log, request, result);
    OneMoreIncreases(w.log, Applied(request, result));
  }

  lemma StepKeepsInvariant<R>(w: World<R>, step: Step<R>)
    requires Invariant(w) && Can(w, step)
    ensures Invariant(Do(w, step))
  {
    if step.Publish? && Publishes(w, step.attempt, step.accepted) {
      PublishKeepsInvariant(w, step.attempt, step.result);
    }
  }

  ghost predicate Follows<R>(run: seq<World<R>>, steps: seq<Step<R>>) {
    && |run| == |steps| + 1
    && run[0] == World(NoSync(), map[], [])
    && (forall i | 0 <= i < |steps| :: Can(run[i], steps[i]) && run[i + 1] == Do(run[i], steps[i]))
  }

  lemma {:induction false} InvariantAlongRun<R>(run: seq<World<R>>, steps: seq<Step<R>>, i: nat)
    requires Follows(run, steps) && i < |run|
    ensures Invariant(run[i])
  {
    if i > 0 {
      InvariantAlongRun(run, steps, i - 1);
      StepKeepsInvariant(run[i - 1], steps[i - 1]);
    }
  }

  /** However syncs overlap, the revisions a session applies strictly increase. */
  lemma RevisionsIncrease<R>(run: seq<World<R>>, steps: seq<Step<R>>, i: nat, k: nat, l: nat)
    requires Follows(run, steps) && i < |run| && k < l < |run[i].log|
    ensures run[i].log[k].request.revision < run[i].log[l].request.revision
  {
    InvariantAlongRun(run, steps, i);
  }

  /**
   What a replay of any applied request gets, at any later time: its own
   stored result while it is among the last sixteen, a refusal afterwards.
   */
  lemma ReplayOfApplied<R>(run: seq<World<R>>, steps: seq<Step<R>>, i: nat, k: nat)
    requires Follows(run, steps) && i < |run| && k < |run[i].log|
    ensures Stored(run[i].state)
    ensures var verdict := Check(run[i].state, run[i].log[k].request);
      if k >= Oldest(run[i].log) then verdict == Replay(run[i].log[k].result) else verdict.Refuse?
  {
    InvariantAlongRun(run, steps, i);
    var w := run[i];
    if k >= Oldest(w.log) {
      assert w.state.order[k - Oldest(w.log)] == w.log[k].request.id;
    } else if w.log[k].request.id in w.state.requests {
      var j :| 0 <= j < |w.state.order| && w.state.order[j] == w.log[k].request.id;
      assert w.state.requests[w.log[k].request.id].revision == w.log[Oldest(w.log) + j].request.revision;
    }
  }

  /** Nothing but an application of the same revision and payload is ever answered from the cache. */
  lemma ReplaysAreGenuine<R>(run: seq<World<R>>, steps: seq<Step<R>>, i: nat, request: Request, result: R)
    returns (k: nat)
    requires Follows(run, steps) && i < |run| && Stored(run[i].state) && Check(run[i].state, request) == Replay(result)
    ensures k < |run[i].log| && run[i].log[k].result == result
    ensures run[i].log[k].request.(id := request.id) == request
  {
    InvariantAlongRun(run, steps, i);
    var w := run[i];
    if request.id in w.state.requests {
      var j :| 0 <= j < |w.state.order| && w.state.order[j] == request.id;
      k := Oldest(w.log) + j;
    } else {
      k := |w.log| - 1;
    }
  }

  /** A sync in flight whose request was applied meanwhile, by a replay of it, is not applied again. */
  lemma OvertakenIsDropped<R>(run: seq<World<R>>, steps: seq<Step<R>>, i: nat, attempt: nat, accepted: bool, k: nat)
    requires Follows(run, steps) && i < |run| && attempt in run[i].attempts && k < |run[i].log|
    requires run[i].log[k].request.revision >= run[i].attempts[attempt].request.revision
    ensures !Publishes(run[i], attempt, accepted)
  {
    InvariantAlongRun(run, steps, i);
    var w := run[i];
    assert w.log[k].request.revision <= w.log[|w.log| - 1].request.revision;
  }

  // ---------------------------------------------------------------------
  // The server's check in front of the proxy registry's
  // ---------------------------------------------------------------------

  /** The two caches of one session: the server's over whole configurations, the proxy registry's over proxies. */
  datatype Layers<A, B> = Layers(server: Option<SyncState<A>>, proxy: SyncState<B>)

  /** One sync request: its proxies are part of its payload. `applied` holds the results if both registries commit. */
  datatype Sync<A, B> = Sync(request: Request, proxies: string, applied: Option<(A, B)>)

  function ServerState<A, B>(l: Layers<A, B>): SyncState<A> { if l.server.Some? then l.server.value else NoSync() }

  function ServerVerdict<A, B>(l: Layers<A, B>, request: Request): Verdict<A>
    requires Stored(ServerState(l))
  {
    if l.server.None? then Proceed else Check(l.server.value, request)
  }

  function ProxyRequest<A, B>(sync: Sync<A, B>): Request { sync.request.(fingerprint := sync.proxies) }

  /** synchronizeConfiguration: the server answers or refuses, or else the proxy registry does. */
  function Synchronized<A, B>(l: Layers<A, B>, sync: Sync<A, B>): Layers<A, B>
    requires Stored(ServerState(l)) && Stored(l.proxy)
  {
    if ServerVerdict(l, sync.request) != Proceed || sync.applied.None? then l
    else match Check(l.proxy, ProxyRequest(sync))
      case Refuse(_) => l
      case Replay(_) => Layers(Some(Cached(ServerState(l), sync.request, sync.applied.value.0)), l.proxy)
      case Proceed => Layers(Some(Cached(ServerState(l), sync.request, sync.applied.value.0)),
                             Cached(l.proxy, ProxyRequest(sync), sync.applied.value.1))
  }

  /** Both caches hold the same requests under the same revision. */
  ghost predicate InStep<A, B>(l: Layers<A, B>) {
    var server := ServerState(l);
    && Stored(server) && Stored(l.proxy)
    && server.order == l.proxy.order && server.requests.Keys == l.proxy.requests.Keys
    && server.revision == l.proxy.revision
  }

  /** What the server lets through, the proxy registry does not answer from its cache. */
  lemma ServerShields<A, B>(l: Layers<A, B>, sync: Sync<A, B>)
    requires InStep(l) && ServerVerdict(l, sync.request) == Proceed
    ensures !Check(l.proxy, ProxyRequest(sync)).Replay?
  {
  }

  lemma SynchronizedStaysInStep<A, B>(l: Layers<A, B>, sync: Sync<A, B>)
    requires InStep(l)
    ensures InStep(Synchronized(l, sync))
  {
    if ServerVerdict(l, sync.request) == Proceed {
      ServerShields(l, sync);
    }
  }

  ghost predicate Layered<A, B>(run: seq<Layers<A, B>>, syncs: seq<Sync<A, B>>) {
    && |run| == |syncs| + 1
    && run[0] == Layers(None, NoSync())
    && (forall i | 0 <= i < |syncs| ::
          Stored(ServerState(run[i])) && Stored(run[i].proxy) && run[i + 1] == Synchronized(run[i], syncs[i]))
  }

  lemma {:induction false} LayersStayInStep<A, B>(run: seq<Layers<A, B>>, syncs: seq<Sync<A, B>>, i: nat)
    requires Layered(run, syncs) && i < |run|
    ensures InStep(run[i])
  {
    if i > 0 {
      LayersStayInStep(run, syncs, i - 1);
      SynchronizedStaysInStep(run[i - 1], syncs[i - 1]);
    }
  }

  /**
   In a session whose syncs all come through the server, one after the other,
   no request reaches the proxy registry's replay: the server answers or
   refuses it first. So there a Forward set is never published without its proxies.
   */
  lemma NoReplayBehindServer<A, B>(run: seq<Layers<A, B>>, syncs: seq<Sync<A, B>>, i: nat)
    requires Layered(run, syncs) && i < |syncs|
    ensures InStep(run[i])
    ensures ServerVerdict(run[i], syncs[i].request) == Proceed ==> !Check(run[i].proxy, ProxyRequest(syncs[i])).Replay?
  {
    LayersStayInStep(run, syncs, i);
    if ServerVerdict(run[i], syncs[i].request) == Proceed {
      ServerShields(run[i], syncs[i]);
    }
  }
}
