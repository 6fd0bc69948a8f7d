/**
 Configuration reload against session registration
 (internal/server/configuration_reload.go, internal/server/session_handshake.go,
 internal/config/authentication_files.go). A reload holds the authentication
 barrier for writing while it replaces the authentication snapshot and drops
 the sessions it revokes; a registration holds it for reading from the check
 of its context to the insertion of its record. Everything else the session
 registry does runs without the barrier.
 */
module ReloadBarrier {
  import opened Options
  import opened Authentication
  import opened Sessions
  import SessionRuns

  /** `permissions` and `configuration` stand for whatever else the client's file holds. */
  datatype GovernedClient = GovernedClient(token: string, permissions: nat)
  datatype ManagedClient = ManagedClient(token: string, configuration: nat)

  datatype ServerConfig = ServerConfig(
    sharedToken: Option<string>,
    governed: map<string, GovernedClient>,
    managed: map<string, ManagedClient>)

  // ---------------------------------------------------------------------
  // The candidate snapshot and the contexts it revokes
  // ---------------------------------------------------------------------

  ghost predicate Configured(config: ServerConfig, record: Record) {
    match record.context.mode
    case Shared =>
      config.sharedToken == Some(record.token) && record.token != "" && record.context.clientID == ""
    case Governed =>
      record.context.clientID in config.governed && config.governed[record.context.clientID].token == record.token
    case Managed =>
      record.context.clientID in config.managed && config.managed[record.context.clientID].token == record.token
  }

  /** The snapshot holds the records of the configuration, all of them and no others. */
  ghost predicate Describes(config: ServerConfig, snapshot: Snapshot) {
    && WellFiled(snapshot)
    && (forall selector <- snapshot :: Configured(config, snapshot[selector]))
    && (forall record | Configured(config, record) ::
          && Selector(record.token) in snapshot
          && SameIdentity(snapshot[Selector(record.token)].context, record.context))
  }

  function Unissued(mode: Mode, clientID: string, token: string): Record {
    Record(Context(mode, clientID, Selector(token), 0), token)
  }

  ghost predicate Lists(config: ServerConfig, records: seq<Record>) {
    && (forall i | 0 <= i < |records| :: Configured(config, records[i]) &&
          records[i] == Unissued(records[i].context.mode, records[i].context.clientID, records[i].token))
    && (config.sharedToken.Some? && config.sharedToken.value != "" ==>
          Unissued(Shared, "", config.sharedToken.value) in records)
    && (forall id <- config.governed :: Unissued(Governed, id, config.governed[id].token) in records)
    && (forall id <- config.managed :: Unissued(Managed, id, config.managed[id].token) in records)
    && DistinctIdentities(records)
  }

  /** One record a client, in any order. */
  ghost predicate ListsClients(tokens: map<string, string>, mode: Mode, left: set<string>, records: seq<Record>) {
    && (forall record <- records ::
          record.context.clientID in tokens && record == Unissued(mode, record.context.clientID, tokens[record.context.clientID]))
    && (forall id <- tokens | id !in left :: Unissued(mode, id, tokens[id]) in records)
    && (forall record <- records :: record.context.clientID !in left)
    && DistinctIdentities(records)
  }

  ghost predicate DistinctIdentities(records: seq<Record>) {
    forall i, j | 0 <= i < j < |records| :: !SameIdentity(records[i].context, records[j].context)
  }

  /** No token is given to two identities. */
  ghost predicate TokensDiffer(config: ServerConfig) {
    forall left, right | Configured(config, left) && Configured(config, right) && left.token == right.token ::
      SameIdentity(left.context, right.context)
  }

  method ListClients(tokens: map<string, string>, mode: Mode) returns (records: seq<Record>)
    ensures ListsClients(tokens, mode, {}, records)
  {
    records := [];
    var left := tokens.Keys;
    while left != {}
      invariant left <= tokens.Keys && ListsClients(tokens, mode, left, records)
      decreases left
    {
      var id :| id in left;
      left := left - {id};
      assert forall record <- records :: record.context.clientID != id;
      records := records + [Unissued(mode, id, tokens[id])];
    }
  }

  method ListRecords(config: ServerConfig) returns (records: seq<Record>)
    ensures Lists(config, records)
  {
    var common: seq<Record> := [];
    if config.sharedToken.Some? && config.sharedToken.value != "" {
      common := [Unissued(Shared, "", config.sharedToken.value)];
    }
    var governedTokens := map id <- config.governed :: config.governed[id].token;
    var governed := ListClients(governedTokens, Governed);
    var managedTokens := map id <- config.managed :: config.managed[id].token;
    var managed := ListClients(managedTokens, Managed);
    records := common + governed + managed;
    forall i | 0 <= i < |records|
      ensures Configured(config, records[i])
      ensures records[i] == Unissued(records[i].context.mode, records[i].context.clientID, records[i].token)
    {
      assert records[i] in common || records[i] in governed || records[i] in managed;
    }
    ModesSeparate(common, governed, managed);
    forall id <- config.governed ensures Unissued(Governed, id, config.governed[id].token) in records {
      assert Unissued(Governed, id, governedTokens[id]) in governed;
    }
    forall id <- config.managed ensures Unissued(Managed, id, config.managed[id].token) in records {
      assert Unissued(Managed, id, managedTokens[id]) in managed;
    }
  }

  lemma ModesSeparate(shared: seq<Record>, governed: seq<Record>, managed: seq<Record>)
    requires DistinctIdentities(shared) && DistinctIdentities(governed) && DistinctIdentities(managed)
    requires forall i | 0 <= i < |shared| :: shared[i].context.mode == Shared
    requires forall i | 0 <= i < |governed| :: governed[i].context.mode == Governed
    requires forall i | 0 <= i < |managed| :: managed[i].context.mode == Managed
    ensures DistinctIdentities(shared + governed + managed)
  {
  }

  /** Since every identity is listed once, a repeated token is a token of two identities. */
  lemma RepeatedTokensAreShared(config: ServerConfig, records: seq<Record>)
    requires Lists(config, records)
    ensures DistinctTokens(records) <==> TokensDiffer(config)
  {
    if DistinctTokens(records) {
      forall left, right | Configured(config, left) && Configured(config, right) && left.token == right.token
        ensures SameIdentity(left.context, right.context)
      {
        var i := IndexOf(config, records, left);
        var j := IndexOf(config, records, right);
        assert i == j;
      }
    }
    if TokensDiffer(config) {
      forall i, j | 0 <= i < j < |records| ensures records[i].token != records[j].token {
        assert Configured(config, records[i]) && Configured(config, records[j]);
      }
    }
  }

  lemma IndexOf(config: ServerConfig, records: seq<Record>, record: Record) returns (i: nat)
    requires Lists(config, records) && Configured(config, record)
    ensures i < |records| && records[i] == Unissued(record.context.mode, record.context.clientID, record.token)
  {
    i :| 0 <= i < |records| && records[i] == Unissued(record.context.mode, record.context.clientID, record.token);
  }

  /** Fails exactly when two identities are configured with one token; otherwise describes the configuration. */
  method BuildAuthenticationSnapshot(config: ServerConfig) returns (result: SnapshotResult)
    ensures result.Built? <==> TokensDiffer(config)
    ensures result.Built? ==> Describes(config, result.snapshot)
  {
    var records := ListRecords(config);
    RepeatedTokensAreShared(config, records);
    result := NewSnapshot(records);
    if result.Built? {
      ListedIsDescribed(config, records, result.snapshot);
    }
  }

  lemma ListedIsDescribed(config: ServerConfig, records: seq<Record>, snapshot: Snapshot)
    requires Lists(config, records) && WellFiled(snapshot)
    requires snapshot.Values == (set i | 0 <= i < |records| :: Filed(records[i]))
    ensures Describes(config, snapshot)
  {
    assert forall i | 0 <= i < |records| :: Filed(records[i]) == records[i];
    forall selector <- snapshot
      ensures Configured(config, snapshot[selector])
    {
      assert snapshot[selector] in snapshot.Values;
    }
    forall record | Configured(config, record)
      ensures Selector(record.token) in snapshot
      ensures SameIdentity(snapshot[Selector(record.token)].context, record.context)
    {
      var listed := Unissued(record.context.mode, record.context.clientID, record.token);
      var i := IndexOf(config, records, record);
      assert Filed(records[i]) in snapshot.Values;
      var selector :| selector in snapshot && snapshot[selector] == listed;
    }
  }

  function GovernedOf(config: ServerConfig, clientID: string): Option<GovernedClient> {
    if clientID in config.governed then Some(config.governed[clientID]) else None
  }

  predicate Revokes(candidateSnapshot: Snapshot, current: ServerConfig, candidate: ServerConfig, context: Context) {
    || !ContainsRecord(candidateSnapshot, context)
    || (context.mode == Governed && GovernedOf(current, context.clientID) != GovernedOf(candidate, context.clientID))
  }

  ghost function RevokedContexts(currentSnapshot: Snapshot, candidateSnapshot: Snapshot,
                                 current: ServerConfig, candidate: ServerConfig): set<Context>
  {
    set context <- Contexts(currentSnapshot) | Revokes(candidateSnapshot, current, candidate, context)
  }

  method RevokedAuthenticationContexts(currentSnapshot: Snapshot, candidateSnapshot: Snapshot,
                                       current: ServerConfig, candidate: ServerConfig)
    returns (revoked: seq<Context>)
    ensures forall context ::
      context in revoked <==> context in RevokedContexts(currentSnapshot, candidateSnapshot, current, candidate)
  {
    revoked := [];
    var remaining := Contexts(currentSnapshot);
    while remaining != {}
      invariant remaining <= Contexts(currentSnapshot)
      invariant forall context :: context in revoked <==>
        (context !in remaining && context in RevokedContexts(currentSnapshot, candidateSnapshot, current, candidate))
      decreases remaining
    {
      var context :| context in remaining;
      remaining := remaining - {context};
      if Revokes(candidateSnapshot, current, candidate, context) {
        revoked := revoked + [context];
      }
    }
  }

  predicate AuthenticationChanged(current: ServerConfig, candidate: ServerConfig) {
    current != candidate
  }

  ghost function KeysOf(contexts: set<Context>): set<RevokedKey> {
    set context <- contexts :: KeyOf(context)
  }

  ghost function CredentialsOf(contexts: set<Context>): set<Credential> {
    set context <- contexts :: context.credentialID
  }

  // ---------------------------------------------------------------------
  // One reload
  // ---------------------------------------------------------------------

  /** A reload from `store` under `current` to `store'` under `candidate`, revoking `revoked`. */
  ghost predicate Reloads(store: StoreState, current: ServerConfig, candidate: ServerConfig, snapshot: Snapshot,
                          revoked: set<Context>, store': StoreState)
  {
    && Describes(candidate, snapshot)
    && revoked == RevokedContexts(store.current, snapshot, current, candidate)
    && Replaces(store.current, store.last, snapshot, CredentialsOf(revoked), store'.current, store'.last)
  }

  ghost predicate Consistent(store: StoreState, config: ServerConfig) {
    Issued(store) && Describes(config, store.current)
  }

  lemma ReloadStaysConsistent(store: StoreState, current: ServerConfig, candidate: ServerConfig, snapshot: Snapshot,
                              revoked: set<Context>, store': StoreState)
    requires Consistent(store, current) && Reloads(store, current, candidate, snapshot, revoked, store')
    ensures Consistent(store', candidate)
  {
    forall selector <- store'.current
      ensures store'.current[selector].context.credentialID == selector == Selector(store'.current[selector].token)
      ensures Configured(candidate, store'.current[selector])
    {
      assert SameButGeneration(store'.current[selector], snapshot[selector]);
      assert Configured(candidate, snapshot[selector]);
    }
    forall record | Configured(candidate, record)
      ensures Selector(record.token) in store'.current
      ensures SameIdentity(store'.current[Selector(record.token)].context, record.context)
    {
      assert SameButGeneration(store'.current[Selector(record.token)], snapshot[Selector(record.token)]);
    }
  }

  /** A context the old snapshot accepted survives exactly when it is not revoked. */
  lemma SurvivesIffNotRevoked(store: StoreState, current: ServerConfig, candidate: ServerConfig, snapshot: Snapshot,
                              revoked: set<Context>, store': StoreState, context: Context)
    requires Consistent(store, current) && Reloads(store, current, candidate, snapshot, revoked, store')
    requires IsCurrent(store.current, context)
    ensures IsCurrent(store'.current, context) <==> context !in revoked
    ensures context in revoked <==> KeyOf(context) in KeysOf(revoked)
  {
    var selector := context.credentialID;
    assert store.current[selector].context == context;
    assert forall other <- revoked | other.credentialID == selector :: other == context;
    ReplacementKeepsExactly(store.current, store.last, snapshot, CredentialsOf(revoked),
                            store'.current, store'.last, context);
  }

  /**
   What a context stands for: a governed client's whole entry, a managed
   client's Token, the shared Token. How a managed client is configured
   otherwise is the rollout's business.
   */
  datatype Standing = GovernedEntry(entry: Option<GovernedClient>) | ManagedToken(token: Option<string>)
                    | SharedToken(shared: Option<string>)

  function StandingOf(config: ServerConfig, context: Context): Standing {
    match context.mode
    case Governed =>
      GovernedEntry(if context.clientID in config.governed then Some(config.governed[context.clientID]) else None)
    case Managed =>
      ManagedToken(if context.clientID in config.managed then Some(config.managed[context.clientID].token) else None)
    case Shared => SharedToken(config.sharedToken)
  }

  ghost predicate Unaltered(current: ServerConfig, candidate: ServerConfig, context: Context) {
    StandingOf(current, context) == StandingOf(candidate, context)
  }

  /** A current context is that of a configured identity and carries the digest of its Token. */
  lemma CurrentIsConfigured(store: StoreState, config: ServerConfig, context: Context)
    requires Consistent(store, config) && IsCurrent(store.current, context)
    ensures Configured(config, store.current[context.credentialID])
    ensures context.credentialID == Selector(store.current[context.credentialID].token)
    ensures store.current[context.credentialID].context == context && context.generation <= store.last
  {
  }

  /** The candidate has the context's record exactly if the identity is still configured with the same Token. */
  lemma RecordRemainsIff(snapshot: Snapshot, candidate: ServerConfig, record: Record)
    requires Describes(candidate, snapshot) && record.context.credentialID == Selector(record.token)
    ensures ContainsRecord(snapshot, record.context) <==> Configured(candidate, record)
  {
    if ContainsRecord(snapshot, record.context) {
      assert Configured(candidate, snapshot[record.context.credentialID]);
      assert snapshot[record.context.credentialID].token == record.token;
    }
  }

  lemma ConfiguredTwice(current: ServerConfig, candidate: ServerConfig, record: Record)
    requires Configured(current, record)
    ensures Unaltered(current, candidate, record.context) ==> Configured(candidate, record)
    ensures Configured(candidate, record) && record.context.mode != Governed ==> Unaltered(current, candidate, record.context)
  {
  }

  /** Across a reload a current context stays current if and only if what it stands for is configured as before. */
  lemma SurvivesIffUnaltered(store: StoreState, current: ServerConfig, candidate: ServerConfig, snapshot: Snapshot,
                             revoked: set<Context>, store': StoreState, context: Context)
    requires Consistent(store, current) && Reloads(store, current, candidate, snapshot, revoked, store')
    requires IsCurrent(store.current, context)
    ensures IsCurrent(store'.current, context) <==> Unaltered(current, candidate, context)
  {
    var record := store.current[context.credentialID];
    CurrentIsConfigured(store, current, context);
    RecordRemainsIff(snapshot, candidate, record);
    ConfiguredTwice(current, candidate, record);
    SurvivesIffNotRevoked(store, current, candidate, snapshot, revoked, store', context);
    assert context in Contexts(store.current);
  }

  /** An unchanged authentication configuration revokes nothing, so skipping the purge is safe. */
  lemma UnchangedRevokesNothing(store: StoreState, current: ServerConfig, snapshot: Snapshot,
                                revoked: set<Context>, store': StoreState)
    requires Consistent(store, current) && Reloads(store, current, current, snapshot, revoked, store')
    ensures revoked == {}
  {
    forall context <- Contexts(store.current)
      ensures !Revokes(snapshot, current, current, context)
    {
      var selector :| selector in store.current && store.current[selector].context == context;
      assert Configured(current, store.current[selector]);
    }
  }

  ghost function StillCurrent(clients: Clients, snapshot: Snapshot): Clients {
    map id <- clients | IsCurrent(snapshot, clients[id].authentication) :: clients[id]
  }

  ghost predicate AllCurrent(clients: Clients, snapshot: Snapshot) {
    forall id <- clients :: IsCurrent(snapshot, clients[id].authentication)
  }

  /** Dropping the revoked keys drops exactly the sessions whose context stopped being current. */
  lemma PurgeIsExact(store: StoreState, current: ServerConfig, candidate: ServerConfig, snapshot: Snapshot,
                     revoked: set<Context>, store': StoreState, clients: Clients)
    requires Consistent(store, current) && Reloads(store, current, candidate, snapshot, revoked, store')
    requires AllCurrent(clients, store.current)
    ensures Unrevoked(clients, KeysOf(revoked)) == StillCurrent(clients, store'.current)
    ensures !AuthenticationChanged(current, candidate) ==> StillCurrent(clients, store'.current) == clients
  {
    forall id <- clients
      ensures IsCurrent(store'.current, clients[id].authentication) <==>
              KeyOf(clients[id].authentication) !in KeysOf(revoked)
    {
      SurvivesIffNotRevoked(store, current, candidate, snapshot, revoked, store', clients[id].authentication);
    }
    SameFilter(clients, KeysOf(revoked), store'.current);
    if !AuthenticationChanged(current, candidate) {
      UnchangedRevokesNothing(store, current, snapshot, revoked, store');
    }
  }

  /** The sessions whose identities a change of configuration leaves as they are. */
  ghost function Untouched(clients: Clients, current: ServerConfig, candidate: ServerConfig): Clients {
    map id <- clients | Unaltered(current, candidate, clients[id].authentication) :: clients[id]
  }

  lemma SurvivorsAreUntouched(store: StoreState, current: ServerConfig, candidate: ServerConfig, snapshot: Snapshot,
                              revoked: set<Context>, store': StoreState, clients: Clients)
    requires Consistent(store, current) && Reloads(store, current, candidate, snapshot, revoked, store')
    requires AllCurrent(clients, store.current)
    ensures StillCurrent(clients, store'.current) == Untouched(clients, current, candidate)
  {
    forall id <- clients
      ensures IsCurrent(store'.current, clients[id].authentication) <==> Unaltered(current, candidate, clients[id].authentication)
    {
      SurvivesIffUnaltered(store, current, candidate, snapshot, revoked, store', clients[id].authentication);
    }
  }

  lemma SameFilter(clients: Clients, keys: set<RevokedKey>, snapshot: Snapshot)
    requires forall id <- clients ::
      IsCurrent(snapshot, clients[id].authentication) <==> KeyOf(clients[id].authentication) !in keys
    ensures Unrevoked(clients, keys) == StillCurrent(clients, snapshot)
    ensures keys == {} ==> StillCurrent(clients, snapshot) == clients
  {
  }

  /** The keys and credentials of a list of contexts are those of its set. */
  lemma SameKeys(revoked: seq<Context>, contexts: set<Context>)
    requires forall context :: context in revoked <==> context in contexts
    ensures Credentials(revoked) == CredentialsOf(contexts) && RevokedKeys(revoked) == KeysOf(contexts)
  {
  }

  class Service {
    var configuration: ServerConfig
    const store: Store
    const registry: Registry

    ghost predicate Valid()
      reads this, store, registry
    {
      && Consistent(StoreState(store.current, store.nextGeneration), configuration)
      && AllCurrent(registry.clients, store.current)
    }

    constructor (configuration: ServerConfig, store: Store, registry: Registry)
      requires Consistent(StoreState(store.current, store.nextGeneration), configuration) && registry.clients == map[]
      ensures Valid() && this.store == store && this.registry == registry && this.configuration == configuration
    {
      this.configuration := configuration;
      this.store := store;
      this.registry := registry;
    }

    /**
     The part of a reload that holds the barrier. `preparable` and
     `otherChanges` stand for the validation of the rest of the candidate and
     for changes outside authentication. A failed reload changes nothing; an
     applied one leaves exactly the sessions whose identities are configured as before.
     */
    method ApplyConfigurationCandidate(candidate: ServerConfig, preparable: bool, otherChanges: bool)
      returns (applied: bool, revokedSessions: seq<ExpiredClient>)
      requires Valid()
      modifies this, store, registry
      ensures Valid()
      ensures !applied ==> configuration == old(configuration) && store.current == old(store.current) &&
                           store.nextGeneration == old(store.nextGeneration) &&
                           registry.clients == old(registry.clients) && revokedSessions == []
      ensures applied <==> preparable && (AuthenticationChanged(old(configuration), candidate) || otherChanges) && TokensDiffer(candidate)
      ensures applied ==> configuration == candidate
      ensures applied ==> registry.clients == Untouched(old(registry.clients), old(configuration), candidate)
      ensures applied ==> ReportsExpiry(revokedSessions, old(registry.clients),
                                        old(registry.clients).Keys - registry.clients.Keys)
    {
      applied, revokedSessions := false, [];
      if !preparable {
        return;
      }
      if !AuthenticationChanged(configuration, candidate) && !otherChanges {
        return;
      }
      var built := BuildAuthenticationSnapshot(candidate);
      if built.DuplicateToken? {
        return;
      }
      revokedSessions := Publish(candidate, built.snapshot);
      applied := true;
    }

    /** Publishes a candidate whose snapshot has been built, and drops the sessions it revokes. */
    method Publish(candidate: ServerConfig, snapshot: Snapshot) returns (revokedSessions: seq<ExpiredClient>)
      requires Valid() && Describes(candidate, snapshot)
      modifies this, store, registry
      ensures Valid() && configuration == candidate
      ensures registry.clients == Untouched(old(registry.clients), old(configuration), candidate)
      ensures ReportsExpiry(revokedSessions, old(registry.clients), old(registry.clients).Keys - registry.clients.Keys)
    {
      revokedSessions := [];
      var revoked := RevokedAuthenticationContexts(store.current, snapshot, configuration, candidate);
      var changed := AuthenticationChanged(configuration, candidate);
      ghost var before := StoreState(store.current, store.nextGeneration);
      ghost var clients := registry.clients;
      ghost var revokedSet := RevokedContexts(store.current, snapshot, configuration, candidate);
      ghost var config0 := configuration;
      SameKeys(revoked, revokedSet);

      configuration := candidate;
      store.ReplaceRevoking(snapshot, revoked);
      ghost var after := StoreState(store.current, store.nextGeneration);
      PurgeIsExact(before, config0, candidate, snapshot, revokedSet, after, clients);
      ReloadStaysConsistent(before, config0, candidate, snapshot, revokedSet, after);
      SurvivorsAreUntouched(before, config0, candidate, snapshot, revokedSet, after, clients);
      if changed {
        revokedSessions := registry.RevokeAuthentication(revoked);
        assert RevokedIDs(clients, KeysOf(revokedSet)) == clients.Keys - registry.clients.Keys;
      } else {
        assert clients.Keys - registry.clients.Keys == {};
      }
    }
  }

  // ---------------------------------------------------------------------
  // Every interleaving of reloads, registrations and unguarded registry calls
  // ---------------------------------------------------------------------

  /** Where the writer of the barrier stands. */
  datatype Gate =
    | Open
    | Preparing
    | Published(revoked: set<Context>, changed: bool)
    | Purged

  /** Where a registration that holds the barrier for reading stands. */
  datatype Reader = Entered | Checked(context: Context)

  datatype System = System(
    store: StoreState, config: ServerConfig, clients: Clients, gate: Gate, readers: map<nat, Reader>)

  datatype Step =
    | Enter(thread: nat)
    | Check(thread: nat, context: Context)
    | Register(thread: nat, hello: Hello, now: nat, maxClients: int)
    | Unguarded(event: SessionRuns.Event)
    | Lock
    | Abandon
    | Publish(candidate: ServerConfig, snapshot: Snapshot)
    | Purge
    | Unlock

  ghost predicate Takes(s: System, step: Step, s': System) {
    match step
    case Enter(thread) =>
      s.gate.Open? && thread !in s.readers && s' == s.(readers := s.readers[thread := Entered])
    case Check(thread, context) =>
      && thread in s.readers && s.readers[thread].Entered?
      && s' == s.(readers := if IsCurrent(s.store.current, context)
                             then s.readers[thread := Checked(context)] else s.readers - {thread})
    case Register(thread, hello, now, maxClients) =>
      && thread in s.readers && s.readers[thread] == Checked(hello.authentication)
      && s' == s.(readers := s.readers - {thread}, clients := Registered(s.clients, maxClients, hello, now))
    case Unguarded(event) =>
      && !event.action.Register?
      && s' == s.(clients := SessionRuns.Apply(s.clients, 0, event))
    case Lock =>
      s.gate.Open? && s.readers == map[] && s' == s.(gate := Preparing)
    case Abandon =>
      s.gate.Preparing? && s' == s.(gate := Open)
    case Publish(candidate, snapshot) =>
      && s.gate.Preparing?
      && var revoked := RevokedContexts(s.store.current, snapshot, s.config, candidate);
      && Reloads(s.store, s.config, candidate, snapshot, revoked, s'.store)
      && s' == s.(store := s'.store, config := candidate,
                  gate := Published(revoked, AuthenticationChanged(s.config, candidate)))
    case Purge =>
      && s.gate.Published?
      && s' == s.(gate := Purged, clients := if s.gate.changed then Unrevoked(s.clients, KeysOf(s.gate.revoked))
                                             else s.clients)
    case Unlock =>
      s.gate.Purged? && s' == s.(gate := Open)
  }

  ghost predicate Invariant(s: System) {
    && Consistent(s.store, s.config)
    && (!s.gate.Open? ==> s.readers == map[])
    && (forall thread <- s.readers | s.readers[thread].Checked? ::
          IsCurrent(s.store.current, s.readers[thread].context))
    && (if s.gate.Published? then
          forall id <- s.clients :: IsCurrent(s.store.current, s.clients[id].authentication) <==>
                                    !(s.gate.changed && KeyOf(s.clients[id].authentication) in KeysOf(s.gate.revoked))
        else AllCurrent(s.clients, s.store.current))
  }

  ghost predicate Starts(s: System) {
    Consistent(s.store, s.config) && s.clients == map[] && s.gate.Open? && s.readers == map[]
  }

  lemma UnguardedKeepsAuthentication(clients: Clients, event: SessionRuns.Event)
    requires !event.action.Register?
    ensures var next := SessionRuns.Apply(clients, 0, event);
      next.Keys <= clients.Keys && forall id <- next :: next[id].authentication == clients[id].authentication
  {
  }

  lemma PublishKeepsInvariant(s: System, candidate: ServerConfig, snapshot: Snapshot, s': System)
    requires Invariant(s) && Takes(s, Publish(candidate, snapshot), s')
    ensures Invariant(s')
  {
    var revoked := RevokedContexts(s.store.current, snapshot, s.config, candidate);
    ReloadStaysConsistent(s.store, s.config, candidate, snapshot, revoked, s'.store);
    forall id <- s.clients
      ensures IsCurrent(s'.store.current, s.clients[id].authentication) <==>
              !(s'.gate.changed && KeyOf(s.clients[id].authentication) in KeysOf(revoked))
    {
      SurvivesIffNotRevoked(s.store, s.config, candidate, snapshot, revoked, s'.store, s.clients[id].authentication);
      if !s'.gate.changed {
        UnchangedRevokesNothing(s.store, s.config, snapshot, revoked, s'.store);
      }
    }
  }

  lemma StepKeepsInvariant(s: System, step: Step, s': System)
    requires Invariant(s) && Takes(s, step, s')
    ensures Invariant(s')
  {
    match step
    case Publish(candidate, snapshot) => PublishKeepsInvariant(s, candidate, snapshot, s');
    case Unguarded(event) => UnguardedKeepsAuthentication(s.clients, event);
    case _ =>
  }

  ghost predicate TakesAt(run: seq<System>, steps: seq<Step>, i: nat)
    requires |run| == |steps| + 1 && i < |steps|
  {
    Takes(run[i], steps[i], run[i + 1])
  }

  ghost predicate Reachable(run: seq<System>, steps: seq<Step>) {
    && |run| == |steps| + 1
    && Starts(run[0])
    && (forall i: nat | i < |steps| :: TakesAt(run, steps, i))
  }

  lemma {:induction false} InvariantAlongRun(run: seq<System>, steps: seq<Step>, i: nat)
    requires Reachable(run, steps) && i < |run|
    ensures Invariant(run[i])
  {
    if i > 0 {
      InvariantAlongRun(run, steps, i - 1);
      assert TakesAt(run, steps, i - 1);
      StepKeepsInvariant(run[i - 1], steps[i - 1], run[i]);
    }
  }

  /**
   Whenever the barrier is not held for writing, every session record carries
   a context the current snapshot accepts, in every interleaving.
   */
  lemma OpenBarrierMeansCurrent(run: seq<System>, steps: seq<Step>, i: nat, id: string)
    requires Reachable(run, steps) && i < |run| && run[i].gate.Open? && id in run[i].clients
    ensures IsCurrent(run[i].store.current, run[i].clients[id].authentication)
  {
    InvariantAlongRun(run, steps, i);
  }

  /** The store's part of a run: every step replaces the snapshot or leaves it. */
  lemma {:induction false} LastGrows(run: seq<System>, steps: seq<Step>, i: nat, j: nat)
    requires Reachable(run, steps) && i <= j < |run|
    ensures run[i].store.last <= run[j].store.last
    decreases j - i
  {
    if i < j {
      LastGrows(run, steps, i, j - 1);
      assert TakesAt(run, steps, j - 1);
    }
  }

  lemma StepKeepsDead(s: System, step: Step, s': System, context: Context)
    requires Takes(s, step, s') && context.generation <= s.store.last && !IsCurrent(s.store.current, context)
    ensures !IsCurrent(s'.store.current, context)
  {
    if step.Publish? {
      var revoked := RevokedContexts(s.store.current, step.snapshot, s.config, step.candidate);
      assert Replaces(s.store.current, s.store.last, step.snapshot, CredentialsOf(revoked), s'.store.current, s'.store.last);
      StaysRevoked(s.store, s'.store, context);
    }
  }

  lemma StepKeepsEntry(s: System, step: Step, s': System, context: Context)
    requires Invariant(s) && Takes(s, step, s') && IsCurrent(s.store.current, context) && IsCurrent(s'.store.current, context)
    ensures s'.config == s.config || Unaltered(s.config, s'.config, context)
  {
    if step.Publish? {
      var revoked := RevokedContexts(s.store.current, step.snapshot, s.config, step.candidate);
      SurvivesIffUnaltered(s.store, s.config, step.candidate, step.snapshot, revoked, s'.store, context);
    }
  }

  lemma DeadInRun(run: seq<System>, steps: seq<Step>, i: nat, j: nat, context: Context)
    requires Reachable(run, steps) && i <= j < |steps| && IsCurrent(run[i].store.current, context)
    requires !IsCurrent(run[j].store.current, context)
    ensures !IsCurrent(run[j + 1].store.current, context)
  {
    InvariantAlongRun(run, steps, i);
    CurrentIsConfigured(run[i].store, run[i].config, context);
    LastGrows(run, steps, i, j);
    assert TakesAt(run, steps, j);
    StepKeepsDead(run[j], steps[j], run[j + 1], context);
  }

  lemma EntryInRun(run: seq<System>, steps: seq<Step>, i: nat, context: Context)
    requires Reachable(run, steps) && i < |steps|
    requires IsCurrent(run[i].store.current, context) && IsCurrent(run[i + 1].store.current, context)
    ensures Unaltered(run[i].config, run[i + 1].config, context)
  {
    InvariantAlongRun(run, steps, i);
    CurrentIsConfigured(run[i].store, run[i].config, context);
    assert TakesAt(run, steps, i);
    StepKeepsEntry(run[i], steps[i], run[i + 1], context);
  }

  lemma {:induction false} AcceptedBetween(run: seq<System>, steps: seq<Step>, i: nat, k: nat, j: nat, context: Context)
    requires Reachable(run, steps) && i <= k <= j < |run|
    requires IsCurrent(run[i].store.current, context) && IsCurrent(run[j].store.current, context)
    ensures IsCurrent(run[k].store.current, context)
    decreases j - k
  {
    if k < j {
      AcceptedBetween(run, steps, i, k + 1, j, context);
      if !IsCurrent(run[k].store.current, context) {
        DeadInRun(run, steps, i, k, context);
      }
    }
  }

  /**
   Over every run: as long as a context is accepted, what it stands for has not
   changed. So no context outlives a change of its governed entry, not even one
   that is taken back before anybody looks.
   */
  lemma {:induction false} AcceptedMeansUnaltered(run: seq<System>, steps: seq<Step>, i: nat, j: nat, context: Context)
    requires Reachable(run, steps) && i < j < |run|
    requires IsCurrent(run[i].store.current, context) && IsCurrent(run[j].store.current, context)
    ensures Unaltered(run[i].config, run[j].config, context)
    decreases j - i
  {
    AcceptedBetween(run, steps, i, j - 1, j, context);
    EntryInRun(run, steps, j - 1, context);
    if i < j - 1 {
      AcceptedMeansUnaltered(run, steps, i, j - 1, context);
    }
  }

  /** A session that is found online twice has its entry, Token or shared Token as it was, whatever was reloaded meanwhile. */
  lemma SessionsKeepTheirEntries(run: seq<System>, steps: seq<Step>, i: nat, j: nat, id: string)
    requires Reachable(run, steps) && i < j < |run| && run[i].gate.Open? && run[j].gate.Open?
    requires id in run[i].clients && id in run[j].clients
    requires run[i].clients[id].authentication == run[j].clients[id].authentication
    ensures Unaltered(run[i].config, run[j].config, run[i].clients[id].authentication)
  {
    OpenBarrierMeansCurrent(run, steps, i, id);
    OpenBarrierMeansCurrent(run, steps, j, id);
    AcceptedMeansUnaltered(run, steps, i, j, run[i].clients[id].authentication);
  }
}
