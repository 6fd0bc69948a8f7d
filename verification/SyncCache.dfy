/**
 Replay protection for configuration syncs: the sixteen-entry request cache
 and the revision test, as the proxy registry keeps them per client
 (internal/proxy/registry/sync.go, sync_result.go) and as the server keeps
 them per session (internal/server/configuration_sync_cache.go).
 */
module SyncCache {
  import opened Options

  const MAX_CACHED := 16

  /** `fingerprint` is the encoded payload itself, SHA-256 being taken as injective. */
  datatype Request = Request(id: string, revision: nat, fingerprint: string)

  datatype Entry<R> = Entry(revision: nat, fingerprint: string, result: R)

  datatype SyncState<R> = SyncState(
    revision: nat,
    fingerprint: string,
    result: Option<R>,
    requests: map<string, Entry<R>>,
    order: seq<string>)

  function NoSync<R>(): SyncState<R> { SyncState(0, "", None, map[], []) }

  datatype Reason = RequestChanged | StaleRevision | RevisionChanged

  datatype Verdict<R> = Proceed | Replay(result: R) | Refuse(reason: Reason)

  /** A result is stored exactly when something has been applied. */
  predicate Stored<R>(state: SyncState<R>) { state.revision > 0 ==> state.result.Some? }

  function Check<R>(state: SyncState<R>, request: Request): Verdict<R>
    requires Stored(state)
  {
    if request.id in state.requests then
      var cached := state.requests[request.id];
      if cached.revision == request.revision && cached.fingerprint == request.fingerprint
      then Replay(cached.result) else Refuse(RequestChanged)
    else if request.revision == 0 || request.revision < state.revision then Refuse(StaleRevision)
    else if request.revision == state.revision then
      if request.fingerprint == state.fingerprint then Replay(state.result.value) else Refuse(RevisionChanged)
    else Proceed
  }

  function Cached<R>(state: SyncState<R>, request: Request, result: R): SyncState<R> {
    var full := |state.order| == MAX_CACHED;
    var requests := if full then state.requests - {state.order[0]} else state.requests;
    var order := if full then state.order[1..] else state.order;
    SyncState(request.revision, request.fingerprint, Some(result),
              requests[request.id := Entry(request.revision, request.fingerprint, result)], order + [request.id])
  }

  /** The map and the order list hold the same IDs, each once, and no more than sixteen. */
  ghost predicate Tidy<R>(state: SyncState<R>) {
    && |state.order| <= MAX_CACHED
    && (forall i, j | 0 <= i < j < |state.order| :: state.order[i] != state.order[j])
    && state.requests.Keys == (set i | 0 <= i < |state.order| :: state.order[i])
  }

  /** Nothing cached is newer than the revision applied last. */
  ghost predicate Dated<R>(state: SyncState<R>) {
    forall id <- state.requests :: 0 < state.requests[id].revision <= state.revision
  }

  lemma CachedStaysTidy<R>(state: SyncState<R>, request: Request, result: R)
    requires Tidy(state) && request.id !in state.requests
    ensures Tidy(Cached(state, request, result))
  {
    var state' := Cached(state, request, result);
    var dropped := if |state.order| == MAX_CACHED then 1 else 0;
    assert forall i | 0 <= i < |state'.order| - 1 :: state'.order[i] == state.order[i + dropped];
    forall id
      ensures id in state'.requests <==> exists i | 0 <= i < |state'.order| :: state'.order[i] == id
    {
      if id in state'.requests && id != request.id {
        var i :| 0 <= i < |state.order| && state.order[i] == id;
        assert state'.order[i - dropped] == id;
      }
      if id == request.id {
        assert state'.order[|state'.order| - 1] == id;
      }
    }
  }

  // ---------------------------------------------------------------------
  // The objects
  // ---------------------------------------------------------------------

  /** The server's states, one per client and session. */
  class ConfigurationSyncs<R> {
    var states: map<(string, string), SyncState<R>>

    ghost predicate Valid() reads this {
      forall key <- states :: Tidy(states[key]) && Stored(states[key])
    }

    constructor ()
      ensures Valid() && states == map[]
    {
      states := map[];
    }

    /** A session without a state lets every request through. */
    method CheckConfigurationSync(clientID: string, sessionID: string, request: Request) returns (verdict: Verdict<R>)
      requires Valid()
      ensures verdict == if (clientID, sessionID) in states then Check(states[(clientID, sessionID)], request) else Proceed
    {
      var key := (clientID, sessionID);
      if key !in states {
        return Proceed;
      }
      var state := states[key];
      if request.id in state.requests {
        var cached := state.requests[request.id];
        if cached.revision == request.revision && cached.fingerprint == request.fingerprint {
          return Replay(cached.result);
        }
        return Refuse(RequestChanged);
      }
      if request.revision == 0 || request.revision < state.revision {
        return Refuse(StaleRevision);
      }
      if request.revision == state.revision {
        if state.fingerprint == request.fingerprint {
          return Replay(state.result.value);
        }
        return Refuse(RevisionChanged);
      }
      return Proceed;
    }

    /** Called after a request that was let through has been applied, so that its ID is not cached yet. */
    method CacheConfigurationSync(clientID: string, sessionID: string, request: Request, result: R)
      modifies this
      ensures
        var before := if (clientID, sessionID) in old(states) then old(states)[(clientID, sessionID)] else NoSync();
        && states == old(states)[(clientID, sessionID) := Cached(before, request, result)]
        && (old(Valid()) && request.id !in before.requests ==> Valid())
    {
      var key := (clientID, sessionID);
      var state := if key in states then states[key] else NoSync();
      if Tidy(state) && request.id !in state.requests {
        CachedStaysTidy(state, request, result);
      }
      if |state.order| == MAX_CACHED {
        var oldest := state.order[0];
        state := state.(order := state.order[1..], requests := state.requests - {oldest});
      }
      state := state.(order := state.order + [request.id],
                      requests := state.requests[request.id := Entry(request.revision, request.fingerprint, result)]);
      state := state.(revision := request.revision, fingerprint := request.fingerprint, result := Some(result));
      states := states[key := state];
    }

    method ClearConfigurationSync(clientID: string, sessionID: string)
      requires Valid()
      modifies this
      ensures Valid() && states == old(states) - {(clientID, sessionID)}
    {
      states := states - {(clientID, sessionID)};
    }
  }
}
