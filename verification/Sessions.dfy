/**
 The session registry (internal/session/registry.go): one record per ClientID,
 created, resumed, activated, suspended and swept under one mutex. Each
 critical section is a function on the table of records; the class below
 performs it in place. Times are natural numbers of milliseconds.
 */
module Sessions {
  import opened Options
  import opened Authentication

  const RECOVERY_WINDOW: int := 60_000

  datatype Phase = Initializing | Active | Suspended

  /** `suspendedAt` is None where the source holds the zero time. */
  datatype ClientRecord = ClientRecord(
    sessionID: string,
    previousSessionID: string,
    phase: Phase,
    connection: nat,
    lastHeartbeatAt: nat,
    lastHeartbeatSequence: nat,
    suspendedAt: Option<nat>,
    authentication: Context)

  type Clients = map<string, ClientRecord>

  datatype SessionError =
    | SessionExpired
    | ServerCapacityReached
    | AuthenticationFailed
    | ClientIDRecoveryPending
    | ClientIDAlreadyOnline
    | ResumeSessionMismatch

  predicate Retryable(error: SessionError) {
    error in {SessionExpired, ServerCapacityReached, ClientIDRecoveryPending}
  }

  datatype Registration = Created | Resumed(previousConnection: nat) | Refused(error: SessionError)

  /** The recovery window of a record's first suspension is over. */
  predicate WindowElapsed(record: ClientRecord, now: nat) {
    record.suspendedAt.Some? && now - record.suspendedAt.value >= RECOVERY_WINDOW
  }

  datatype Hello = Hello(clientID: string, resume: string, sessionID: string, connection: nat, authentication: Context)

  /** The decision RegisterAuthenticated takes, before it changes anything. */
  function Decide(clients: Clients, maxClients: int, hello: Hello, now: nat): Registration {
    if hello.clientID !in clients then
      if hello.resume != "" then Refused(SessionExpired)
      else if maxClients > 0 && |clients| >= maxClients then Refused(ServerCapacityReached)
      else Created
    else
      var record := clients[hello.clientID];
      if record.authentication != hello.authentication then Refused(AuthenticationFailed)
      else if hello.resume != "" && WindowElapsed(record, now) then Refused(SessionExpired)
      else match record.phase
        case Initializing =>
          if hello.resume == "" || hello.resume == record.sessionID || hello.resume == record.previousSessionID
          then Refused(ClientIDRecoveryPending) else Refused(ClientIDAlreadyOnline)
        case Active =>
          if hello.resume != "" && hello.resume == record.sessionID
          then Refused(ClientIDRecoveryPending) else Refused(ClientIDAlreadyOnline)
        case Suspended =>
          if hello.resume == "" then Refused(ClientIDRecoveryPending)
          else if hello.resume != record.sessionID && hello.resume != record.previousSessionID
          then Refused(ResumeSessionMismatch)
          else Resumed(record.connection)
  }

  function Registered(clients: Clients, maxClients: int, hello: Hello, now: nat): Clients {
    match Decide(clients, maxClients, hello, now)
    case Created =>
      clients[hello.clientID := ClientRecord(
        hello.sessionID, "", Initializing, hello.connection, now, 0, None, hello.authentication)]
    case Resumed(_) =>
      clients[hello.clientID := clients[hello.clientID].(
        previousSessionID := hello.resume, sessionID := hello.sessionID, phase := Initializing,
        connection := hello.connection, lastHeartbeatAt := now, lastHeartbeatSequence := 0,
        authentication := hello.authentication)]
    case Refused(_) => clients
  }

  predicate Owns(clients: Clients, clientID: string, sessionID: string) {
    clientID in clients && clients[clientID].sessionID == sessionID
  }

  predicate CanActivate(clients: Clients, clientID: string, sessionID: string, now: nat) {
    && Owns(clients, clientID, sessionID)
    && clients[clientID].phase == Initializing
    && !WindowElapsed(clients[clientID], now)
  }

  function Activated(clients: Clients, clientID: string, sessionID: string, now: nat): Clients {
    if CanActivate(clients, clientID, sessionID, now) then
      clients[clientID := clients[clientID].(phase := Active, previousSessionID := "", lastHeartbeatAt := now,
                                             lastHeartbeatSequence := 0, suspendedAt := None)]
    else clients
  }

  predicate AcceptsHeartbeat(clients: Clients, clientID: string, sessionID: string, sequence: nat, now: nat) {
    && Owns(clients, clientID, sessionID)
    && clients[clientID].phase != Initializing
    && sequence > clients[clientID].lastHeartbeatSequence
    && !(clients[clientID].phase == Suspended && WindowElapsed(clients[clientID], now))
  }

  function Beaten(clients: Clients, clientID: string, sessionID: string, sequence: nat, now: nat): Clients {
    if AcceptsHeartbeat(clients, clientID, sessionID, sequence, now) then
      clients[clientID := clients[clientID].(phase := Active, lastHeartbeatAt := now,
                                             lastHeartbeatSequence := sequence, suspendedAt := None)]
    else clients
  }

  function Disconnected(clients: Clients, clientID: string, sessionID: string, now: nat): Clients {
    if Owns(clients, clientID, sessionID) && clients[clientID].phase != Suspended then
      var since := if clients[clientID].suspendedAt.None? then Some(now) else clients[clientID].suspendedAt;
      clients[clientID := clients[clientID].(phase := Suspended, suspendedAt := since)]
    else clients
  }

  function Removed(clients: Clients, clientID: string, sessionID: string): Clients {
    if Owns(clients, clientID, sessionID) then clients - {clientID} else clients
  }

  predicate SuspendedBySweep(record: ClientRecord, now: nat, heartbeatTimeout: int) {
    record.phase == Active && now - record.lastHeartbeatAt >= heartbeatTimeout
  }

  predicate ExpiredBySweep(record: ClientRecord, now: nat, heartbeatTimeout: int) {
    !SuspendedBySweep(record, now, heartbeatTimeout) && WindowElapsed(record, now)
  }

  function SweptRecord(record: ClientRecord, now: nat, heartbeatTimeout: int): ClientRecord {
    if SuspendedBySweep(record, now, heartbeatTimeout)
    then record.(phase := Suspended, suspendedAt := Some(now)) else record
  }

  function Swept(clients: Clients, now: nat, heartbeatTimeout: int): Clients {
    map clientID <- clients | !ExpiredBySweep(clients[clientID], now, heartbeatTimeout) ::
      SweptRecord(clients[clientID], now, heartbeatTimeout)
  }

  /** RevokeAuthentication matches a record by credential and generation only. */
  datatype RevokedKey = RevokedKey(credentialID: Credential, generation: nat)

  function KeyOf(context: Context): RevokedKey {
    RevokedKey(context.credentialID, context.generation)
  }

  function RevokedKeys(contexts: seq<Context>): set<RevokedKey> {
    set i | 0 <= i < |contexts| :: KeyOf(contexts[i])
  }

  function Unrevoked(clients: Clients, keys: set<RevokedKey>): Clients {
    map clientID <- clients | KeyOf(clients[clientID].authentication) !in keys :: clients[clientID]
  }

  datatype Client = Client(clientID: string, sessionID: string)
  datatype ExpiredClient = ExpiredClient(clientID: string, sessionID: string, connection: nat, authentication: Context)

  function Expiry(clientID: string, record: ClientRecord): ExpiredClient {
    ExpiredClient(clientID, record.sessionID, record.connection, record.authentication)
  }

  /** The list names each client of `ids` exactly once, as it stood in `clients`. */
  ghost predicate ReportsExpiry(list: seq<ExpiredClient>, clients: Clients, ids: set<string>) {
    && ids <= clients.Keys
    && |list| == |ids|
    && (forall clientID <- ids :: Expiry(clientID, clients[clientID]) in list)
  }

  ghost predicate ReportsSuspension(list: seq<Client>, clients: Clients, ids: set<string>) {
    && ids <= clients.Keys
    && |list| == |ids|
    && (forall clientID <- ids :: Client(clientID, clients[clientID].sessionID) in list)
  }

  ghost function SuspendedIDs(clients: Clients, now: nat, heartbeatTimeout: int): set<string> {
    set clientID <- clients | SuspendedBySweep(clients[clientID], now, heartbeatTimeout)
  }

  ghost function ExpiredIDs(clients: Clients, now: nat, heartbeatTimeout: int): set<string> {
    set clientID <- clients | ExpiredBySweep(clients[clientID], now, heartbeatTimeout)
  }

  ghost function RevokedIDs(clients: Clients, keys: set<RevokedKey>): set<string> {
    set clientID <- clients | KeyOf(clients[clientID].authentication) in keys
  }

  /** How far a revocation has come, with `remaining` still to look at. */
  ghost predicate RevocationSoFar(before: Clients, keys: set<RevokedKey>, remaining: set<string>,
                                  clients: Clients, revoked: seq<ExpiredClient>)
  {
    && remaining <= before.Keys
    && clients == (map id <- before | id in remaining || KeyOf(before[id].authentication) !in keys :: before[id])
    && ReportsExpiry(revoked, before, RevokedIDs(before, keys) - remaining)
  }

  lemma RevocationStep(before: Clients, keys: set<RevokedKey>, remaining: set<string>, clients: Clients,
                       revoked: seq<ExpiredClient>, clientID: string)
    requires RevocationSoFar(before, keys, remaining, clients, revoked) && clientID in remaining
    ensures clientID in clients && clients[clientID] == before[clientID]
    ensures KeyOf(clients[clientID].authentication) in keys ==>
      RevocationSoFar(before, keys, remaining - {clientID}, clients - {clientID},
                      revoked + [Expiry(clientID, clients[clientID])])
    ensures KeyOf(clients[clientID].authentication) !in keys ==>
      RevocationSoFar(before, keys, remaining - {clientID}, clients, revoked)
  {
    var ids := RevokedIDs(before, keys);
    if KeyOf(before[clientID].authentication) in keys {
      assert ids - (remaining - {clientID}) == (ids - remaining) + {clientID};
    } else {
      assert ids - (remaining - {clientID}) == ids - remaining;
    }
  }

  lemma RevocationDone(before: Clients, keys: set<RevokedKey>, clients: Clients, revoked: seq<ExpiredClient>)
    requires RevocationSoFar(before, keys, {}, clients, revoked)
    ensures clients == Unrevoked(before, keys) && ReportsExpiry(revoked, before, RevokedIDs(before, keys))
  {
    assert RevokedIDs(before, keys) - {} == RevokedIDs(before, keys);
  }

  /** How far a sweep has come, with `remaining` still to look at. */
  ghost predicate SweepSoFar(before: Clients, now: nat, timeout: int, remaining: set<string>, clients: Clients,
                             suspended: seq<Client>, expired: seq<ExpiredClient>)
  {
    && remaining <= before.Keys
    && clients == (map id <- before | id in remaining || !ExpiredBySweep(before[id], now, timeout) ::
                     if id in remaining then before[id] else SweptRecord(before[id], now, timeout))
    && ReportsSuspension(suspended, before, SuspendedIDs(before, now, timeout) - remaining)
    && ReportsExpiry(expired, before, ExpiredIDs(before, now, timeout) - remaining)
  }

  lemma SweepStep(before: Clients, now: nat, timeout: int, remaining: set<string>, clients: Clients,
                  suspended: seq<Client>, expired: seq<ExpiredClient>, id: string)
    requires SweepSoFar(before, now, timeout, remaining, clients, suspended, expired) && id in remaining
    ensures id in clients && clients[id] == before[id]
    ensures SuspendedBySweep(clients[id], now, timeout) ==>
      SweepSoFar(before, now, timeout, remaining - {id}, clients[id := SweptRecord(clients[id], now, timeout)],
                 suspended + [Client(id, clients[id].sessionID)], expired)
    ensures ExpiredBySweep(clients[id], now, timeout) ==>
      SweepSoFar(before, now, timeout, remaining - {id}, clients - {id}, suspended,
                 expired + [Expiry(id, clients[id])])
    ensures !SuspendedBySweep(clients[id], now, timeout) && !ExpiredBySweep(clients[id], now, timeout) ==>
      SweepSoFar(before, now, timeout, remaining - {id}, clients, suspended, expired)
  {
    var silent, late := SuspendedIDs(before, now, timeout), ExpiredIDs(before, now, timeout);
    var rest := remaining - {id};
    if SuspendedBySweep(before[id], now, timeout) {
      assert silent - rest == (silent - remaining) + {id};
      assert late - rest == late - remaining;
    } else if ExpiredBySweep(before[id], now, timeout) {
      assert silent - rest == silent - remaining;
      assert late - rest == (late - remaining) + {id};
    } else {
      assert silent - rest == silent - remaining;
      assert late - rest == late - remaining;
    }
  }

  lemma SweepDone(before: Clients, now: nat, timeout: int, clients: Clients,
                  suspended: seq<Client>, expired: seq<ExpiredClient>)
    requires SweepSoFar(before, now, timeout, {}, clients, suspended, expired)
    ensures clients == Swept(before, now, timeout)
    ensures ReportsSuspension(suspended, before, SuspendedIDs(before, now, timeout))
    ensures ReportsExpiry(expired, before, ExpiredIDs(before, now, timeout))
  {
    assert SuspendedIDs(before, now, timeout) - {} == SuspendedIDs(before, now, timeout);
    assert ExpiredIDs(before, now, timeout) - {} == ExpiredIDs(before, now, timeout);
  }

  method CollectKeys(contexts: seq<Context>) returns (keys: set<RevokedKey>)
    ensures keys == RevokedKeys(contexts)
  {
    keys := {};
    for i := 0 to |contexts|
      invariant keys == RevokedKeys(contexts[..i])
    {
      keys := keys + {KeyOf(contexts[i])};
      assert contexts[..i + 1] == contexts[..i] + [contexts[i]];
    }
    assert contexts[..|contexts|] == contexts;
  }

  // ---------------------------------------------------------------------
  // The registry object
  // ---------------------------------------------------------------------

  class Registry {
    var clients: Clients
    const maxClients: int

    constructor (maxClients: int)
      ensures clients == map[] && this.maxClients == maxClients
    {
      this.clients := map[];
      this.maxClients := maxClients;
    }

    method RegisterAuthenticated(hello: Hello, now: nat) returns (registration: Registration)
      modifies this
      ensures registration == Decide(old(clients), maxClients, hello, now)
      ensures clients == Registered(old(clients), maxClients, hello, now)
    {
      if hello.clientID !in clients {
        if hello.resume != "" {
          return Refused(SessionExpired);
        }
        if maxClients > 0 && |clients| >= maxClients {
          return Refused(ServerCapacityReached);
        }
        clients := clients[hello.clientID := ClientRecord(
          hello.sessionID, "", Initializing, hello.connection, now, 0, None, hello.authentication)];
        return Created;
      }
      var record := clients[hello.clientID];
      if record.authentication != hello.authentication {
        return Refused(AuthenticationFailed);
      }
      if hello.resume != "" && record.suspendedAt.Some? && now - record.suspendedAt.value >= RECOVERY_WINDOW {
        return Refused(SessionExpired);
      }
      if record.phase == Initializing {
        if hello.resume == "" || hello.resume == record.sessionID || hello.resume == record.previousSessionID {
          return Refused(ClientIDRecoveryPending);
        }
        return Refused(ClientIDAlreadyOnline);
      }
      if record.phase == Active {
        if hello.resume != "" && hello.resume == record.sessionID {
          return Refused(ClientIDRecoveryPending);
        }
        return Refused(ClientIDAlreadyOnline);
      }
      if hello.resume == "" {
        return Refused(ClientIDRecoveryPending);
      }
      if hello.resume != record.sessionID && hello.resume != record.previousSessionID {
        return Refused(ResumeSessionMismatch);
      }
      registration := Resumed(record.connection);
      record := record.(previousSessionID := hello.resume);
      record := record.(sessionID := hello.sessionID, phase := Initializing, connection := hello.connection);
      record := record.(lastHeartbeatAt := now, lastHeartbeatSequence := 0, authentication := hello.authentication);
      clients := clients[hello.clientID := record];
    }

    method Activate(clientID: string, sessionID: string, now: nat) returns (activated: bool)
      modifies this
      ensures activated == CanActivate(old(clients), clientID, sessionID, now)
      ensures clients == Activated(old(clients), clientID, sessionID, now)
    {
      if clientID !in clients || clients[clientID].sessionID != sessionID || clients[clientID].phase != Initializing {
        return false;
      }
      var record := clients[clientID];
      if record.suspendedAt.Some? && now - record.suspendedAt.value >= RECOVERY_WINDOW {
        return false;
      }
      record := record.(phase := Active, previousSessionID := "");
      record := record.(lastHeartbeatAt := now, lastHeartbeatSequence := 0, suspendedAt := None);
      clients := clients[clientID := record];
      activated := true;
    }

    method Heartbeat(clientID: string, sessionID: string, sequence: nat, now: nat)
      returns (accepted: bool, reactivated: bool)
      modifies this
      ensures accepted == AcceptsHeartbeat(old(clients), clientID, sessionID, sequence, now)
      ensures reactivated <==> accepted && old(clients)[clientID].phase == Suspended
      ensures clients == Beaten(old(clients), clientID, sessionID, sequence, now)
    {
      if clientID !in clients || clients[clientID].sessionID != sessionID || clients[clientID].phase == Initializing ||
         sequence == 0 || sequence <= clients[clientID].lastHeartbeatSequence {
        return false, false;
      }
      var record := clients[clientID];
      if record.phase == Suspended && WindowElapsed(record, now) {
        return false, false;
      }
      reactivated := record.phase == Suspended;
      record := record.(phase := Active, lastHeartbeatAt := now);
      record := record.(lastHeartbeatSequence := sequence, suspendedAt := None);
      clients := clients[clientID := record];
      accepted := true;
    }

    method Disconnect(clientID: string, sessionID: string, now: nat)
      modifies this
      ensures clients == Disconnected(old(clients), clientID, sessionID, now)
    {
      if clientID !in clients || clients[clientID].sessionID != sessionID {
        return;
      }
      var record := clients[clientID];
      if record.phase != Suspended {
        record := record.(phase := Suspended);
        if record.suspendedAt.None? {
          record := record.(suspendedAt := Some(now));
        }
        clients := clients[clientID := record];
      }
    }

    method Remove(clientID: string, sessionID: string)
      modifies this
      ensures clients == Removed(old(clients), clientID, sessionID)
    {
      if clientID in clients && clients[clientID].sessionID == sessionID {
        clients := clients - {clientID};
      }
    }

    /** Suspends the silent and deletes the expired, reporting each once. */
    method Sweep(now: nat, heartbeatTimeout: int) returns (suspended: seq<Client>, expired: seq<ExpiredClient>)
      modifies this
      ensures clients == Swept(old(clients), now, heartbeatTimeout)
      ensures ReportsSuspension(suspended, old(clients), SuspendedIDs(old(clients), now, heartbeatTimeout))
      ensures ReportsExpiry(expired, old(clients), ExpiredIDs(old(clients), now, heartbeatTimeout))
    {
      ghost var before := clients;
      var remaining := clients.Keys;
      suspended, expired := [], [];
      while remaining != {}
        invariant SweepSoFar(before, now, heartbeatTimeout, remaining, clients, suspended, expired)
        decreases remaining
      {
        var clientID :| clientID in remaining;
        SweepStep(before, now, heartbeatTimeout, remaining, clients, suspended, expired, clientID);
        remaining := remaining - {clientID};
        var record := clients[clientID];
        if record.phase == Active && now - record.lastHeartbeatAt >= heartbeatTimeout {
          clients := clients[clientID := record.(phase := Suspended, suspendedAt := Some(now))];
          suspended := suspended + [Client(clientID, record.sessionID)];
        } else if record.suspendedAt.Some? && now - record.suspendedAt.value >= RECOVERY_WINDOW {
          clients := clients - {clientID};
          expired := expired + [Expiry(clientID, record)];
        }
      }
      SweepDone(before, now, heartbeatTimeout, clients, suspended, expired);
    }

    /** Deletes exactly the records whose credential and generation are revoked, and reports each once. */
    method RevokeAuthentication(contexts: seq<Context>) returns (revoked: seq<ExpiredClient>)
      modifies this
      ensures clients == Unrevoked(old(clients), RevokedKeys(contexts))
      ensures ReportsExpiry(revoked, old(clients), RevokedIDs(old(clients), RevokedKeys(contexts)))
    {
      ghost var before := clients;
      var keys := CollectKeys(contexts);
      var remaining := clients.Keys;
      revoked := [];
      while remaining != {}
        invariant RevocationSoFar(before, keys, remaining, clients, revoked)
        decreases remaining
      {
        var clientID :| clientID in remaining;
        RevocationStep(before, keys, remaining, clients, revoked, clientID);
        remaining := remaining - {clientID};
        if KeyOf(clients[clientID].authentication) in keys {
          revoked := revoked + [Expiry(clientID, clients[clientID])];
          clients := clients - {clientID};
        }
      }
      RevocationDone(before, keys, clients, revoked);
    }
  }
}
