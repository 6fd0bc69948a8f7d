/**
 Virtual-network channel pools (internal/vnet/pool.go). A pool is prepared with
 one ticket per channel, its channels are claimed and acknowledged by
 concurrent binds, and the last acknowledgement activates the whole pool.
 Pools and connections are named by numbers that stand for their identity.
 */
module VNetPool {
  import opened Authentication
  import opened Options

  type PoolID = nat
  type Connection = nat

  datatype Spec = Spec(
    clientID: string, sessionID: string, transportGeneration: nat, virtualIP: string, poolGeneration: nat,
    channelCount: nat, mtu: nat, writeTimeout: int, authentication: Context)

  predicate ValidSpec(spec: Spec) {
    && spec.clientID != "" && spec.sessionID != "" && spec.virtualIP != "" && spec.poolGeneration != 0
    && 1 <= spec.channelCount <= 8 && spec.mtu >= 68 && spec.writeTimeout > 0
  }

  /** Tickets are compared by digest, an injective function, so by themselves. */
  datatype Channel = Channel(ticket: nat, connection: Option<Connection>, ready: bool)

  /**
   A pending pool and the pool made from it share their done channel. Each has
   its own Once: `pendingOnce` and `poolOnce` say which has run, `doneCloses`
   how often the shared channel was closed.
   */
  datatype Entry = Entry(
    spec: Spec, channels: seq<Channel>, expiresAt: int, pendingOnce: bool, poolOnce: bool, doneCloses: nat)

  datatype Binding = Binding(
    clientID: string, sessionID: string, transportGeneration: nat, virtualIP: string, poolGeneration: nat,
    channelCount: nat, channelIndex: nat, ticket: nat)

  predicate BindingMatchesPool(b: Binding, spec: Spec, authentication: Context) {
    && b.clientID == spec.clientID && b.sessionID == spec.sessionID
    && b.transportGeneration == spec.transportGeneration && b.virtualIP == spec.virtualIP
    && b.poolGeneration == spec.poolGeneration && b.channelCount == spec.channelCount
    && authentication == spec.authentication
  }

  /** `pools` are the pending pools that became pools; `discarded` those taken out to be closed. */
  datatype State = State(
    entries: map<PoolID, Entry>,
    pending: map<string, PoolID>,
    active: map<string, PoolID>,
    pools: set<PoolID>,
    discarded: set<PoolID>,
    closed: bool)

  const EMPTY := State(map[], map[], map[], {}, {}, false)

  predicate Complete(channels: seq<Channel>) {
    forall k | 0 <= k < |channels| :: channels[k].ready
  }

  // ---------------------------------------------------------------------
  // Critical sections
  // ---------------------------------------------------------------------

  predicate Prepares(s: State, spec: Spec, lifetime: int) { ValidSpec(spec) && lifetime > 0 }

  /** Prepare: the new entry replaces an older pending one, which is discarded; a closed broker discards the new one. */
  function Prepared(s: State, id: PoolID, spec: Spec, tickets: seq<nat>, now: int, lifetime: int): State
    requires |tickets| == spec.channelCount
  {
    if !Prepares(s, spec, lifetime) then s
    else
      var channels := seq(|tickets|, k requires 0 <= k < |tickets| => Channel(tickets[k], None, false));
      var entries := s.entries[id := Entry(spec, channels, now + lifetime, false, false, 0)];
      if s.closed then s.(entries := entries, discarded := s.discarded + {id})
      else s.(entries := entries, pending := s.pending[spec.clientID := id],
              discarded := s.discarded + if spec.clientID in s.pending then {s.pending[spec.clientID]} else {})
  }

  predicate Claims(s: State, b: Binding, authentication: Context, now: int) {
    && !s.closed && b.clientID in s.pending && s.pending[b.clientID] in s.entries
    && var entry := s.entries[s.pending[b.clientID]];
    && now < entry.expiresAt && BindingMatchesPool(b, entry.spec, authentication) && b.channelIndex < |entry.channels|
    && entry.channels[b.channelIndex].connection.None? && entry.channels[b.channelIndex].ticket == b.ticket
  }

  /** Bind's first section: claims the channel for the connection. */
  function Claimed(s: State, b: Binding, connection: Connection): State
    requires b.clientID in s.pending && s.pending[b.clientID] in s.entries
    requires b.channelIndex < |s.entries[s.pending[b.clientID]].channels|
  {
    var id := s.pending[b.clientID];
    var entry := s.entries[id];
    var channel := entry.channels[b.channelIndex].(connection := Some(connection));
    s.(entries := s.entries[id := entry.(channels := entry.channels[b.channelIndex := channel])])
  }

  /** Bind's second section goes on only if the very pool it claimed is still pending. */
  predicate Readies(s: State, clientID: string, id: PoolID, cancelled: bool, now: int) {
    clientID in s.pending && s.pending[clientID] == id && id in s.entries && !cancelled && now < s.entries[id].expiresAt
  }

  function Readied(s: State, clientID: string, id: PoolID, index: nat): State
    requires id in s.entries && index < |s.entries[id].channels|
  {
    var entry := s.entries[id];
    var channels := entry.channels[index := entry.channels[index].(ready := true)];
    var marked := s.(entries := s.entries[id := entry.(channels := channels)]);
    if Complete(channels)
    then marked.(pending := s.pending - {clientID}, active := s.active[clientID := id], pools := s.pools + {id})
    else marked
  }

  predicate Removes(spec: Spec, sessionID: string, generation: nat) {
    spec.sessionID == sessionID && (generation == 0 || spec.poolGeneration == generation)
  }

  predicate RemovesPending(s: State, clientID: string, sessionID: string, generation: nat) {
    clientID in s.pending && s.pending[clientID] in s.entries &&
    Removes(s.entries[s.pending[clientID]].spec, sessionID, generation)
  }

  predicate RemovesActive(s: State, clientID: string, sessionID: string, generation: nat) {
    clientID in s.active && s.active[clientID] in s.entries &&
    Removes(s.entries[s.active[clientID]].spec, sessionID, generation)
  }

  /** RemoveGeneration: zero means the entire session. */
  function Removed(s: State, clientID: string, sessionID: string, generation: nat): State {
    var fewer := if RemovesActive(s, clientID, sessionID, generation) then s.(active := s.active - {clientID}) else s;
    if RemovesPending(s, clientID, sessionID, generation)
    then fewer.(pending := s.pending - {clientID}, discarded := s.discarded + {s.pending[clientID]}) else fewer
  }

  function Expired(s: State, clientID: string, generation: nat): State {
    if clientID in s.pending && s.pending[clientID] in s.entries &&
       s.entries[s.pending[clientID]].spec.poolGeneration == generation
    then s.(pending := s.pending - {clientID}, discarded := s.discarded + {s.pending[clientID]}) else s
  }

  function ClosedBroker(s: State): State {
    if s.closed then s
    else s.(closed := true, pending := map[], active := map[], discarded := s.discarded + s.pending.Values)
  }

  /** closePendingPool runs its Once. */
  function PendingClosed(entry: Entry): Entry {
    if entry.pendingOnce then entry else entry.(pendingOnce := true, doneCloses := entry.doneCloses + 1)
  }

  /** Pool.stop runs its own Once. */
  function PoolStopped(entry: Entry): Entry {
    if entry.poolOnce then entry else entry.(poolOnce := true, doneCloses := entry.doneCloses + 1)
  }

  // ---------------------------------------------------------------------
  // Every interleaving
  // ---------------------------------------------------------------------

  /** A bind between claim and acknowledgement. */
  datatype Bind = Bind(clientID: string, id: PoolID, index: nat, connection: Connection)

  /** `binds` are in flight; `closes` counts how often each claimed connection was closed by a pool. */
  datatype World = World(state: State, binds: map<nat, Bind>, closes: map<Connection, nat>)

  datatype Step =
    | Prepare(id: PoolID, spec: Spec, tickets: seq<nat>, now: int, lifetime: int)
    | Claim(bind: nat, connection: Connection, binding: Binding, authentication: Context, now: int)
    | Fail(bind: nat)
    | Finish(bind: nat, cancelled: bool, now: int)
    | RemoveGeneration(clientID: string, sessionID: string, generation: nat)
    | Expire(clientID: string, generation: nat)
    | CloseBroker
    | RunClosePending(id: PoolID)
    | RunStop(id: PoolID)

  /** Pools and connections have new names; closePendingPool runs on discarded pools, stop on activated ones, at any time. */
  ghost predicate Can(w: World, step: Step) {
    match step
    case Prepare(id, spec, tickets, _, _) => id !in w.state.entries && |tickets| == spec.channelCount
    case Claim(bind, connection, _, _, _) => bind !in w.binds && connection !in w.closes
    case Fail(bind) => bind in w.binds
    case Finish(bind, _, _) =>
      && bind in w.binds && w.binds[bind].id in w.state.entries
      && w.binds[bind].index < |w.state.entries[w.binds[bind].id].channels|
    case RunClosePending(id) => id in w.state.discarded && id in w.state.entries
    case RunStop(id) => id in w.state.pools && id in w.state.entries
    case _ => true
  }

  ghost predicate Carries(entry: Entry, connection: Connection) {
    exists k | 0 <= k < |entry.channels| :: entry.channels[k].connection == Some(connection)
  }

  /** Every connection the entry carries is closed with it. */
  ghost function Closing(closes: map<Connection, nat>, before: Entry, after: Entry): map<Connection, nat> {
    map c <- closes :: closes[c] + if Carries(before, c) && before != after then 1 else 0
  }

  ghost function CloseEntry(w: World, id: PoolID, after: Entry): World
    requires id in w.state.entries
  {
    w.(state := w.state.(entries := w.state.entries[id := after]), closes := Closing(w.closes, w.state.entries[id], after))
  }

  ghost function Do(w: World, step: Step): World
    requires Can(w, step)
  {
    match step
    case Prepare(id, spec, tickets, now, lifetime) => w.(state := Prepared(w.state, id, spec, tickets, now, lifetime))
    case Claim(bind, connection, binding, authentication, now) =>
      if !Claims(w.state, binding, authentication, now) then w
      else World(Claimed(w.state, binding, connection),
                 w.binds[bind := Bind(binding.clientID, w.state.pending[binding.clientID], binding.channelIndex, connection)],
                 w.closes[connection := 0])
    case Fail(bind) => w.(binds := w.binds - {bind})
    case Finish(bind, cancelled, now) =>
      var b := w.binds[bind];
      if Readies(w.state, b.clientID, b.id, cancelled, now)
      then w.(state := Readied(w.state, b.clientID, b.id, b.index), binds := w.binds - {bind})
      else w.(binds := w.binds - {bind})
    case RemoveGeneration(clientID, sessionID, generation) =>
      w.(state := Removed(w.state, clientID, sessionID, generation))
    case Expire(clientID, generation) => w.(state := Expired(w.state, clientID, generation))
    case CloseBroker => w.(state := ClosedBroker(w.state))
    case RunClosePending(id) => CloseEntry(w, id, PendingClosed(w.state.entries[id]))
    case RunStop(id) => CloseEntry(w, id, PoolStopped(w.state.entries[id]))
  }

  /** Each pool is pending, discarded, or a pool, and one only; only its own Once can have run. */
  ghost predicate Placed(s: State) {
    && (forall c <- s.pending ::
          && s.pending[c] in s.entries && s.entries[s.pending[c]].spec.clientID == c
          && s.pending[c] !in s.pools && s.pending[c] !in s.discarded)
    && (forall c <- s.active :: s.active[c] in s.pools)
    && s.pools !! s.discarded && s.pools <= s.entries.Keys && s.discarded <= s.entries.Keys
  }

  ghost predicate EntrySound(s: State, id: PoolID)
    requires id in s.entries
  {
    var e := s.entries[id];
    && (e.pendingOnce ==> id in s.discarded) && (e.poolOnce ==> id in s.pools)
    && e.doneCloses == (if e.pendingOnce then 1 else 0) + (if e.poolOnce then 1 else 0)
    && (id in s.pools ==> Complete(e.channels))
    && |e.channels| == e.spec.channelCount
    && (forall k | 0 <= k < |e.channels| :: e.channels[k].ready ==> e.channels[k].connection.Some?)
  }

  /** A bind in flight holds a claimed channel that is not ready. */
  ghost predicate BindSound(s: State, b: Bind) {
    && b.id in s.entries && b.index < |s.entries[b.id].channels|
    && s.entries[b.id].spec.clientID == b.clientID
    && s.entries[b.id].channels[b.index].connection == Some(b.connection)
    && !s.entries[b.id].channels[b.index].ready
  }

  ghost predicate At(s: State, id: PoolID, k: nat, c: Connection) {
    id in s.entries && k < |s.entries[id].channels| && s.entries[id].channels[k].connection == Some(c)
  }

  /** Every claimed connection is in one channel of one pool, and was closed as often as that pool's done channel. */
  ghost predicate Owned(w: World) {
    && (forall id, k, c | At(w.state, id, k, c) :: c in w.closes && w.closes[c] == w.state.entries[id].doneCloses)
    && (forall id, k, other, l, c | At(w.state, id, k, c) && At(w.state, other, l, c) :: id == other && k == l)
  }

  ghost predicate EntriesSound(s: State) {
    forall id <- s.entries :: EntrySound(s, id)
  }

  ghost predicate BindsSound(w: World) {
    && (forall b <- w.binds :: BindSound(w.state, w.binds[b]))
    && (forall b <- w.binds, d <- w.binds | b != d :: w.binds[b].connection != w.binds[d].connection)
  }

  ghost predicate Invariant(w: World) {
    Placed(w.state) && EntriesSound(w.state) && BindsSound(w) && Owned(w)
  }

  // Steps that only move pools between the tables.

  ghost predicate Shuffles(s: State, s': State) {
    s'.entries == s.entries && s'.pools == s.pools && s.discarded <= s'.discarded
  }

  lemma ShuffleKeeps(w: World, w': World)
    requires Invariant(w) && Shuffles(w.state, w'.state) && Placed(w'.state) && w'.closes == w.closes
    requires w'.binds.Keys <= w.binds.Keys && forall b <- w'.binds :: w'.binds[b] == w.binds[b]
    ensures Invariant(w')
  {
    forall id <- w'.state.entries ensures EntrySound(w'.state, id) {
      assert EntrySound(w.state, id);
    }
    forall b <- w'.binds ensures BindSound(w'.state, w'.binds[b]) {
      assert BindSound(w.state, w.binds[b]);
    }
    forall id, k, c ensures At(w'.state, id, k, c) <==> At(w.state, id, k, c) {
    }
  }

  lemma RemovedStaysPlaced(s: State, clientID: string, sessionID: string, generation: nat)
    requires Placed(s)
    ensures Placed(Removed(s, clientID, sessionID, generation))
  {
  }

  lemma ExpiredStaysPlaced(s: State, clientID: string, generation: nat)
    requires Placed(s)
    ensures Placed(Expired(s, clientID, generation))
  {
  }

  lemma ClosedStaysPlaced(s: State)
    requires Placed(s)
    ensures Placed(ClosedBroker(s))
  {
  }

  // Steps that change one entry.

  /** What a change to one entry must respect for the others to be untouched by it. */
  ghost predicate ChangesOne(s: State, s': State, id: PoolID, entry: Entry) {
    s'.entries == s.entries[id := entry] && s.pools <= s'.pools && s.discarded <= s'.discarded &&
    s'.pools <= s.pools + {id}
  }

  lemma OthersStaySound(s: State, s': State, id: PoolID, entry: Entry)
    requires EntriesSound(s) && ChangesOne(s, s', id, entry) && EntrySound(s', id)
    ensures EntriesSound(s')
  {
    forall other <- s'.entries ensures EntrySound(s', other) {
      if other != id {
        assert EntrySound(s, other);
      }
    }
  }

  /** Closing: the entry's channels stay, so owners and binds do. */
  lemma CloseEntryKeeps(w: World, id: PoolID, after: Entry)
    requires Invariant(w) && id in w.state.entries
    requires
      || (id in w.state.discarded && after == PendingClosed(w.state.entries[id]))
      || (id in w.state.pools && after == PoolStopped(w.state.entries[id]))
    ensures Invariant(CloseEntry(w, id, after))
  {
    var w', before := CloseEntry(w, id, after), w.state.entries[id];
    assert EntrySound(w.state, id);
    OthersStaySound(w.state, w'.state, id, after);
    forall b <- w'.binds ensures BindSound(w'.state, w'.binds[b]) {
      assert BindSound(w.state, w.binds[b]);
    }
    CloseEntryKeepsOwners(w, id, after);
  }

  lemma CloseEntryKeepsOwners(w: World, id: PoolID, after: Entry)
    requires Owned(w) && id in w.state.entries && after.channels == w.state.entries[id].channels
    requires after == w.state.entries[id] || after.doneCloses == w.state.entries[id].doneCloses + 1
    ensures Owned(CloseEntry(w, id, after))
  {
    var w', before := CloseEntry(w, id, after), w.state.entries[id];
    forall other, k, c ensures At(w'.state, other, k, c) <==> At(w.state, other, k, c) {
    }
    forall other, k: nat, c | At(w'.state, other, k, c)
      ensures c in w'.closes && w'.closes[c] == w'.state.entries[other].doneCloses
    {
      assert At(w.state, other, k, c);
      if other == id {
        assert before.channels[k].connection == Some(c);
      }
      if Carries(before, c) {
        var l :| 0 <= l < |before.channels| && before.channels[l].connection == Some(c);
        assert At(w.state, id, l, c);
      }
    }
  }

  lemma PreparedStaysPlaced(s: State, id: PoolID, spec: Spec, tickets: seq<nat>, now: int, lifetime: int)
    requires Placed(s) && id !in s.entries && |tickets| == spec.channelCount
    ensures Placed(Prepared(s, id, spec, tickets, now, lifetime))
  {
  }

  lemma SameOwners(w: World, w': World)
    requires Owned(w) && w'.closes == w.closes
    requires forall id, k, c :: At(w'.state, id, k, c) <==> At(w.state, id, k, c)
    requires forall id <- w.state.entries :: id in w'.state.entries && w'.state.entries[id].doneCloses == w.state.entries[id].doneCloses
    ensures Owned(w')
  {
  }

  /** A new entry has no connection in any channel. */
  lemma NewEntryKeeps(w: World, w': World, id: PoolID, entry: Entry)
    requires Invariant(w) && id !in w.state.entries && ChangesOne(w.state, w'.state, id, entry)
    requires EntrySound(w'.state, id)
    requires w'.binds == w.binds && w'.closes == w.closes && Placed(w'.state)
    requires forall k | 0 <= k < |entry.channels| :: entry.channels[k].connection.None?
    ensures Invariant(w')
  {
    OthersStaySound(w.state, w'.state, id, entry);
    forall b <- w'.binds ensures BindSound(w'.state, w'.binds[b]) {
      assert BindSound(w.state, w.binds[b]);
    }
    forall other, k, c ensures At(w'.state, other, k, c) <==> At(w.state, other, k, c) {
    }
    SameOwners(w, w');
  }

  lemma PrepareKeeps(w: World, w': World, id: PoolID, spec: Spec, tickets: seq<nat>, now: int, lifetime: int)
    requires Invariant(w) && id !in w.state.entries && |tickets| == spec.channelCount
    requires Prepares(w.state, spec, lifetime)
    requires w' == w.(state := Prepared(w.state, id, spec, tickets, now, lifetime))
    ensures Invariant(w')
  {
    PreparedStaysPlaced(w.state, id, spec, tickets, now, lifetime);
    assert EntrySound(w'.state, id);
    NewEntryKeeps(w, w', id, w'.state.entries[id]);
  }

  lemma ClaimKeepsBinds(w: World, w': World, bind: nat, b: Bind)
    requires BindsSound(w) && Owned(w) && bind !in w.binds && b.connection !in w.closes
    requires w'.binds == w.binds[bind := b] && BindSound(w'.state, b)
    requires forall id, k, c | At(w.state, id, k, c) :: At(w'.state, id, k, c)
    requires forall id <- w.state.entries :: id in w'.state.entries && w'.state.entries[id].spec == w.state.entries[id].spec
    requires forall id <- w.state.entries :: |w'.state.entries[id].channels| == |w.state.entries[id].channels|
    requires forall id <- w.state.entries, k: nat | k < |w.state.entries[id].channels| ::
      w'.state.entries[id].channels[k].ready == w.state.entries[id].channels[k].ready
    ensures BindsSound(w')
  {
    forall d <- w.binds
      ensures BindSound(w'.state, w.binds[d]) && w.binds[d].connection != b.connection
    {
      var earlier := w.binds[d];
      assert BindSound(w.state, earlier) && At(w.state, earlier.id, earlier.index, earlier.connection);
      assert At(w'.state, earlier.id, earlier.index, earlier.connection);
    }
  }

  lemma ClaimKeepsOwners(w: World, w': World, id: PoolID, index: nat, connection: Connection)
    requires Owned(w) && id in w.state.entries && id in w'.state.entries && w.state.entries[id].doneCloses == 0
    requires w'.state.entries[id].doneCloses == 0
    requires connection !in w.closes && w'.closes == w.closes[connection := 0]
    requires forall other, k, c :: At(w'.state, other, k, c) <==>
               At(w.state, other, k, c) || (other == id && k == index && c == connection)
    requires forall other <- w'.state.entries | other != id :: other in w.state.entries && w'.state.entries[other] == w.state.entries[other]
    ensures Owned(w')
  {
  }

  lemma ClaimKeeps(w: World, w': World, bind: nat, connection: Connection, b: Binding, authentication: Context,
                   now: int)
    requires Invariant(w) && Can(w, Claim(bind, connection, b, authentication, now))
    requires Claims(w.state, b, authentication, now)
    requires w' == Do(w, Claim(bind, connection, b, authentication, now))
    ensures Invariant(w')
  {
    var id := w.state.pending[b.clientID];
    assert EntrySound(w.state, id);
    OthersStaySound(w.state, w'.state, id, w'.state.entries[id]);
    forall other, k, c
      ensures At(w'.state, other, k, c) <==> At(w.state, other, k, c) || (other == id && k == b.channelIndex && c == connection)
    {
    }
    ClaimKeepsOwners(w, w', id, b.channelIndex, connection);
    ClaimKeepsBinds(w, w', bind, w'.binds[bind]);
  }

  lemma FinishKeepsBinds(w: World, w': World, bind: nat, id: PoolID, index: nat)
    requires BindsSound(w) && bind in w.binds && w.binds[bind].id == id && w.binds[bind].index == index
    requires w'.binds == w.binds - {bind}
    requires forall other <- w.state.entries | other != id :: other in w'.state.entries && w'.state.entries[other] == w.state.entries[other]
    requires id in w.state.entries && id in w'.state.entries && index < |w.state.entries[id].channels|
    requires var e := w.state.entries[id];
      w'.state.entries[id] == e.(channels := e.channels[index := e.channels[index].(ready := true)])
    ensures BindsSound(w')
  {
    forall d <- w'.binds ensures BindSound(w'.state, w'.binds[d]) {
      assert BindSound(w.state, w.binds[d]) && BindSound(w.state, w.binds[bind]);
    }
  }

  lemma ReadiedStaysPlaced(s: State, clientID: string, id: PoolID, index: nat)
    requires Placed(s) && clientID in s.pending && s.pending[clientID] == id && id in s.entries
    requires index < |s.entries[id].channels|
    ensures Placed(Readied(s, clientID, id, index))
  {
  }

  lemma ReadiedStaysSound(s: State, clientID: string, id: PoolID, index: nat)
    requires EntriesSound(s) && Placed(s) && clientID in s.pending && s.pending[clientID] == id && id in s.entries
    requires index < |s.entries[id].channels| && s.entries[id].channels[index].connection.Some?
    ensures EntriesSound(Readied(s, clientID, id, index))
  {
    var s' := Readied(s, clientID, id, index);
    assert EntrySound(s, id);
    assert EntrySound(s', id);
    OthersStaySound(s, s', id, s'.entries[id]);
  }

  lemma ReadiedKeepsPlaces(s: State, s': State, clientID: string, id: PoolID, index: nat)
    requires id in s.entries && index < |s.entries[id].channels| && s'.entries == Readied(s, clientID, id, index).entries
    ensures forall other, k, c :: At(s', other, k, c) <==> At(s, other, k, c)
  {
  }

  lemma ReadiedKeepsOwners(w: World, w': World, clientID: string, id: PoolID, index: nat)
    requires Owned(w) && id in w.state.entries && index < |w.state.entries[id].channels| && w'.closes == w.closes
    requires w'.state.entries == Readied(w.state, clientID, id, index).entries
    ensures Owned(w')
  {
    ReadiedKeepsPlaces(w.state, w'.state, clientID, id, index);
    SameOwners(w, w');
  }

  lemma FinishKeeps(w: World, w': World, bind: nat, b: Bind)
    requires Invariant(w) && bind in w.binds && b == w.binds[bind]
    requires b.clientID in w.state.pending && w.state.pending[b.clientID] == b.id && b.id in w.state.entries
    requires b.index < |w.state.entries[b.id].channels|
    requires w' == w.(state := Readied(w.state, b.clientID, b.id, b.index), binds := w.binds - {bind})
    ensures Invariant(w')
  {
    assert BindSound(w.state, b);
    assert Placed(w'.state) by { ReadiedStaysPlaced(w.state, b.clientID, b.id, b.index); }
    assert EntriesSound(w'.state) by { ReadiedStaysSound(w.state, b.clientID, b.id, b.index); }
    assert BindsSound(w') by { FinishKeepsBinds(w, w', bind, b.id, b.index); }
    assert Owned(w') by { ReadiedKeepsOwners(w, w', b.clientID, b.id, b.index); }
  }

  lemma StepKeepsInvariant(w: World, step: Step)
    requires Invariant(w) && Can(w, step)
    ensures Invariant(Do(w, step))
  {
    var w' := Do(w, step);
    if w' != w {
      match step
      case Prepare(id, spec, tickets, now, lifetime) => PrepareKeeps(w, w', id, spec, tickets, now, lifetime);
      case Claim(bind, connection, b, authentication, now) => ClaimKeeps(w, w', bind, connection, b, authentication, now);
      case Fail(bind) => ShuffleKeeps(w, w');
      case Finish(bind, cancelled, now) =>
        if Readies(w.state, w.binds[bind].clientID, w.binds[bind].id, cancelled, now) {
          FinishKeeps(w, w', bind, w.binds[bind]);
        } else {
          ShuffleKeeps(w, w');
        }
      case RemoveGeneration(clientID, sessionID, generation) =>
        RemovedStaysPlaced(w.state, clientID, sessionID, generation);
        ShuffleKeeps(w, w');
      case Expire(clientID, generation) =>
        ExpiredStaysPlaced(w.state, clientID, generation);
        ShuffleKeeps(w, w');
      case CloseBroker =>
        ClosedStaysPlaced(w.state);
        ShuffleKeeps(w, w');
      case RunClosePending(id) => CloseEntryKeeps(w, id, PendingClosed(w.state.entries[id]));
      case RunStop(id) => CloseEntryKeeps(w, id, PoolStopped(w.state.entries[id]));
    }
  }

  ghost predicate Moves(run: seq<World>, steps: seq<Step>, i: nat)
    requires |run| == |steps| + 1 && i < |steps|
  {
    Can(run[i], steps[i]) && run[i + 1] == Do(run[i], steps[i])
  }

  ghost predicate Follows(run: seq<World>, steps: seq<Step>) {
    && |run| == |steps| + 1
    && run[0] == World(EMPTY, map[], map[])
    && (forall i: nat | i < |steps| :: Moves(run, steps, i))
  }

  lemma {:induction false} InvariantAlongRun(run: seq<World>, steps: seq<Step>, i: nat)
    requires Follows(run, steps) && i < |run|
    ensures Invariant(run[i])
  {
    if i > 0 {
      InvariantAlongRun(run, steps, i - 1);
      assert Moves(run, steps, i - 1);
      StepKeepsInvariant(run[i - 1], steps[i - 1]);
    }
  }

  /** The done channel a pending pool shares with its pool is closed at most once, by one of the two Onces. */
  lemma DoneClosedAtMostOnce(run: seq<World>, steps: seq<Step>, i: nat, id: PoolID)
    requires Follows(run, steps) && i < |run| && id in run[i].state.entries
    ensures run[i].state.entries[id].doneCloses <= 1
    ensures !(run[i].state.entries[id].pendingOnce && run[i].state.entries[id].poolOnce)
  {
    InvariantAlongRun(run, steps, i);
    assert EntrySound(run[i].state, id);
  }

  /** Every claimed connection sits in one channel of one pool and is closed exactly when that pool's done channel is. */
  lemma ConnectionsHaveOneOwner(run: seq<World>, steps: seq<Step>, i: nat, id: PoolID, k: nat, c: Connection)
    requires Follows(run, steps) && i < |run| && At(run[i].state, id, k, c)
    ensures forall other, l | At(run[i].state, other, l, c) :: other == id && l == k
    ensures c in run[i].closes && run[i].closes[c] == run[i].state.entries[id].doneCloses <= 1
  {
    InvariantAlongRun(run, steps, i);
    assert EntrySound(run[i].state, id);
  }

  /** No pool is active while a bind of it is between claim and acknowledgement. */
  lemma NoActivationDuringBind(run: seq<World>, steps: seq<Step>, i: nat, bind: nat)
    requires Follows(run, steps) && i < |run| && bind in run[i].binds
    ensures run[i].binds[bind].id !in run[i].state.pools
    ensures forall c <- run[i].state.active :: run[i].state.active[c] != run[i].binds[bind].id
  {
    InvariantAlongRun(run, steps, i);
    assert BindSound(run[i].state, run[i].binds[bind]);
    assert EntrySound(run[i].state, run[i].binds[bind].id);
  }

  /** The step acknowledges the bind of one channel. */
  ghost predicate Acknowledges(w: World, step: Step, id: PoolID, index: nat) {
    && Can(w, step) && step.Finish? && w.binds[step.bind].id == id && w.binds[step.bind].index == index
    && Readies(w.state, w.binds[step.bind].clientID, id, step.cancelled, step.now)
  }

  ghost predicate IsReady(w: World, id: PoolID, index: nat) {
    id in w.state.entries && index < |w.state.entries[id].channels| && w.state.entries[id].channels[index].ready
  }

  lemma ReadyComesFromAcknowledgement(w: World, step: Step, id: PoolID, index: nat)
    requires Can(w, step) && IsReady(Do(w, step), id, index)
    ensures IsReady(w, id, index) || Acknowledges(w, step, id, index)
  {
  }

  lemma ReadyInRun(run: seq<World>, steps: seq<Step>, i: nat, id: PoolID, index: nat)
    requires Follows(run, steps) && i < |steps| && IsReady(run[i + 1], id, index) && !IsReady(run[i], id, index)
    ensures Acknowledges(run[i], steps[i], id, index)
  {
    assert Moves(run, steps, i);
    ReadyComesFromAcknowledgement(run[i], steps[i], id, index);
  }

  ghost predicate WasAcknowledged(run: seq<World>, steps: seq<Step>, i: nat, id: PoolID, index: nat)
    requires |run| == |steps| + 1 && i < |run|
  {
    exists j: nat | j < i :: Acknowledges(run[j], steps[j], id, index)
  }

  lemma {:induction false} ReadyWasAcknowledged(run: seq<World>, steps: seq<Step>, i: nat, id: PoolID, index: nat)
    requires Follows(run, steps) && i < |run| && IsReady(run[i], id, index)
    ensures WasAcknowledged(run, steps, i, id, index)
  {
    if IsReady(run[i - 1], id, index) {
      ReadyWasAcknowledged(run, steps, i - 1, id, index);
    } else {
      ReadyInRun(run, steps, i - 1, id, index);
    }
  }

  /** A pool is active only after every one of its channels was claimed and acknowledged, each by its own bind. */
  lemma ActiveWasFullyAcknowledged(run: seq<World>, steps: seq<Step>, i: nat, clientID: string, index: nat)
    requires Follows(run, steps) && i < |run| && clientID in run[i].state.active
    requires run[i].state.active[clientID] in run[i].state.entries
    requires index < run[i].state.entries[run[i].state.active[clientID]].spec.channelCount
    ensures WasAcknowledged(run, steps, i, run[i].state.active[clientID], index)
  {
    InvariantAlongRun(run, steps, i);
    assert EntrySound(run[i].state, run[i].state.active[clientID]);
    ReadyWasAcknowledged(run, steps, i, run[i].state.active[clientID], index);
  }

  // ---------------------------------------------------------------------
  // The broker
  // ---------------------------------------------------------------------

  class PoolBroker {
    var entries: map<PoolID, Entry>
    var pending: map<string, PoolID>
    var active: map<string, PoolID>
    var closed: bool
    ghost var pools: set<PoolID>
    ghost var discarded: set<PoolID>

    ghost function View(): State reads this { State(entries, pending, active, pools, discarded, closed) }

    /** The tables name existing pools only. */
    ghost predicate Valid() reads this {
      (forall c <- pending :: pending[c] in entries) && forall c <- active :: active[c] in entries
    }

    constructor ()
      ensures View() == EMPTY && Valid()
    {
      entries, pending, active, closed, pools, discarded := map[], map[], map[], false, {}, {};
    }

    method Prepare(id: PoolID, spec: Spec, tickets: seq<nat>, now: int, lifetime: int) returns (offered: bool)
      requires Valid() && id !in entries && |tickets| == spec.channelCount
      modifies this
      ensures Valid() && View() == Prepared(old(View()), id, spec, tickets, now, lifetime)
      ensures offered == (ValidSpec(spec) && lifetime > 0 && !old(closed))
    {
      if !ValidSpec(spec) || lifetime <= 0 {
        return false;
      }
      var channels: seq<Channel> := [];
      for k := 0 to |tickets|
        invariant |channels| == k && forall l | 0 <= l < k :: channels[l] == Channel(tickets[l], None, false)
      {
        channels := channels + [Channel(tickets[k], None, false)];
      }
      assert channels == seq(|tickets|, k requires 0 <= k < |tickets| => Channel(tickets[k], None, false));
      entries := entries[id := Entry(spec, channels, now + lifetime, false, false, 0)];
      if closed {
        discarded := discarded + {id};
        return false;
      }
      if spec.clientID in pending {
        discarded := discarded + {pending[spec.clientID]};
      }
      pending := pending[spec.clientID := id];
      return true;
    }

    /** Bind, up to the claim. */
    method ClaimChannel(b: Binding, connection: Connection, authentication: Context, now: int)
      returns (claimed: Option<PoolID>)
      requires Valid()
      modifies this
      ensures Valid()
      ensures claimed.Some? <==> old(Claims(View(), b, authentication, now))
      ensures claimed.Some? ==>
        && old(Claims(View(), b, authentication, now)) && claimed.value == old(pending)[b.clientID]
        && View() == Claimed(old(View()), b, connection)
      ensures claimed.None? ==> View() == old(View())
    {
      if closed || b.clientID !in pending {
        return None;
      }
      var id := pending[b.clientID];
      var entry := entries[id];
      if now >= entry.expiresAt || !BindingMatchesPool(b, entry.spec, authentication) || b.channelIndex >= |entry.channels| {
        return None;
      }
      var channel := entry.channels[b.channelIndex];
      if channel.connection.Some? || channel.ticket != b.ticket {
        return None;
      }
      entries := entries[id := entry.(channels := entry.channels[b.channelIndex := channel.(connection := Some(connection))])];
      return Some(id);
    }

    /** Bind, after the acknowledgement was sent; the last channel to become ready activates the pool. */
    method FinishBind(clientID: string, id: PoolID, index: nat, cancelled: bool, now: int)
      returns (bound: bool, previous: Option<PoolID>)
      requires Valid() && id in entries && index < |entries[id].channels|
      modifies this
      ensures Valid() && bound == old(Readies(View(), clientID, id, cancelled, now))
      ensures View() == if bound then Readied(old(View()), clientID, id, index) else old(View())
      ensures previous ==
        if clientID in old(pending) && clientID !in pending && clientID in old(active) then Some(old(active)[clientID]) else None
    {
      previous := None;
      if clientID !in pending || pending[clientID] != id || cancelled || now >= entries[id].expiresAt {
        return false, None;
      }
      var entry := entries[id];
      var channels := entry.channels[index := entry.channels[index].(ready := true)];
      entries := entries[id := entry.(channels := channels)];
      var complete := true;
      for k := 0 to |channels|
        invariant complete <==> forall l | 0 <= l < k :: channels[l].ready
      {
        complete := complete && channels[k].ready;
      }
      if complete {
        pending := pending - {clientID};
        previous := if clientID in active then Some(active[clientID]) else None;
        active := active[clientID := id];
        pools := pools + {id};
      }
      return true, previous;
    }

    /** Returns what is to be closed outside the lock. */
    method RemoveGeneration(clientID: string, sessionID: string, generation: nat)
      returns (waiting: Option<PoolID>, pool: Option<PoolID>)
      requires Valid()
      modifies this
      ensures Valid() && View() == Removed(old(View()), clientID, sessionID, generation)
      ensures waiting == if old(RemovesPending(View(), clientID, sessionID, generation)) then Some(old(pending)[clientID]) else None
      ensures pool == if old(RemovesActive(View(), clientID, sessionID, generation)) then Some(old(active)[clientID]) else None
    {
      waiting, pool := None, None;
      if clientID in pending && Removes(entries[pending[clientID]].spec, sessionID, generation) {
        waiting := Some(pending[clientID]);
        pending := pending - {clientID};
        discarded := discarded + {waiting.value};
      }
      if clientID in active && Removes(entries[active[clientID]].spec, sessionID, generation) {
        pool := Some(active[clientID]);
        active := active - {clientID};
      }
    }

    method Expire(clientID: string, generation: nat)
      requires Valid()
      modifies this
      ensures Valid() && View() == Expired(old(View()), clientID, generation)
    {
      if clientID in pending && entries[pending[clientID]].spec.poolGeneration == generation {
        discarded := discarded + {pending[clientID]};
        pending := pending - {clientID};
      }
    }

    /** Returns everything that is to be closed outside the lock. */
    method Close() returns (waiting: set<PoolID>, running: set<PoolID>)
      requires Valid()
      modifies this
      ensures Valid() && View() == ClosedBroker(old(View()))
      ensures waiting == (if old(closed) then {} else old(pending).Values)
      ensures running == (if old(closed) then {} else old(active).Values)
    {
      if closed {
        return {}, {};
      }
      closed := true;
      waiting, running := pending.Values, active.Values;
      discarded := discarded + waiting;
      pending, active := map[], map[];
    }

    method ClosePendingPool(id: PoolID)
      requires Valid() && id in entries
      modifies this
      ensures Valid() && View() == old(View()).(entries := old(entries)[id := PendingClosed(old(entries)[id])])
    {
      if !entries[id].pendingOnce {
        entries := entries[id := entries[id].(pendingOnce := true, doneCloses := entries[id].doneCloses + 1)];
      }
    }

    method StopPool(id: PoolID)
      requires Valid() && id in entries
      modifies this
      ensures Valid() && View() == old(View()).(entries := old(entries)[id := PoolStopped(old(entries)[id])])
    {
      if !entries[id].poolOnce {
        entries := entries[id := entries[id].(poolOnce := true, doneCloses := entries[id].doneCloses + 1)];
      }
    }
  }
}
