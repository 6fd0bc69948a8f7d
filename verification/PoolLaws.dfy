/**
 Which connection holds a channel of a pool and why (internal/vnet/pool.go),
 in terms of the tickets that were issued and presented.
 */
module PoolLaws {
  import opened Authentication
  import opened Options
  import opened VNetPool

  // ---------------------------------------------------------------------
  // Claims
  // ---------------------------------------------------------------------

  /** The bind presents the channel's own ticket and everything the pool was prepared with. */
  predicate Presents(b: Binding, authentication: Context, spec: Spec, index: nat, ticket: nat) {
    && b.ticket == ticket && b.channelIndex == index
    && b.clientID == spec.clientID && b.sessionID == spec.sessionID
    && b.transportGeneration == spec.transportGeneration && b.virtualIP == spec.virtualIP
    && b.poolGeneration == spec.poolGeneration && b.channelCount == spec.channelCount
    && authentication == spec.authentication
  }

  /** The client's pending pool has that channel, in time, and nobody has claimed it. */
  ghost predicate Claimable(s: State, clientID: string, index: nat, now: int) {
    && !s.closed && clientID in s.pending && s.pending[clientID] in s.entries
    && var entry := s.entries[s.pending[clientID]];
    now < entry.expiresAt && index < |entry.channels| && entry.channels[index].connection.None?
  }

  /** A bind claims a channel if and only if it is claimable and everything is presented. */
  lemma ClaimsIff(s: State, b: Binding, authentication: Context, now: int)
    ensures Claims(s, b, authentication, now) <==>
      && Claimable(s, b.clientID, b.channelIndex, now)
      && var entry := s.entries[s.pending[b.clientID]];
      Presents(b, authentication, entry.spec, b.channelIndex, entry.channels[b.channelIndex].ticket)
  {
  }

  /** The step claims this channel of a pool with this spec and ticket for the connection, in time. */
  ghost predicate ClaimsFor(step: Step, spec: Spec, index: nat, ticket: nat, expiresAt: int, connection: Connection) {
    && step.Claim? && step.connection == connection && step.now < expiresAt
    && Presents(step.binding, step.authentication, spec, index, ticket)
  }

  /** The step prepares the pool with this spec, ticket at this index, and expiry. */
  ghost predicate Issues(step: Step, id: PoolID, spec: Spec, index: nat, ticket: nat, expiresAt: int) {
    && step.Prepare? && step.id == id && step.spec == spec && index < |step.tickets| && step.tickets[index] == ticket
    && step.now + step.lifetime == expiresAt
  }

  ghost predicate WasIssued(steps: seq<Step>, i: nat, id: PoolID, spec: Spec, index: nat, ticket: nat, expiresAt: int)
    requires i <= |steps|
  {
    exists k: nat | k < i :: Issues(steps[k], id, spec, index, ticket, expiresAt)
  }

  ghost predicate WasClaimed(steps: seq<Step>, i: nat, id: PoolID, spec: Spec, index: nat, ticket: nat, expiresAt: int,
                             connection: Connection)
    requires i <= |steps|
  {
    exists j: nat | j < i ::
      ClaimsFor(steps[j], spec, index, ticket, expiresAt, connection) && WasIssued(steps, j, id, spec, index, ticket, expiresAt)
  }

  /** What never changes about a channel of a pool. */
  ghost predicate SameChannel(before: State, after: State, id: PoolID, index: nat) {
    && id in before.entries && id in after.entries && before.entries[id].spec == after.entries[id].spec
    && before.entries[id].expiresAt == after.entries[id].expiresAt
    && index < |before.entries[id].channels| && index < |after.entries[id].channels|
    && before.entries[id].channels[index].ticket == after.entries[id].channels[index].ticket
  }

  lemma ChannelOrigin(w: World, step: Step, w': World, id: PoolID, index: nat)
    requires Can(w, step) && w' == Do(w, step) && id in w'.state.entries && index < |w'.state.entries[id].channels|
    ensures var entry := w'.state.entries[id];
      || SameChannel(w.state, w'.state, id, index)
      || (Issues(step, id, entry.spec, index, entry.channels[index].ticket, entry.expiresAt) &&
          entry.channels[index].connection.None?)
  {
  }

  lemma ConnectionOrigin(w: World, step: Step, w': World, id: PoolID, index: nat)
    requires Can(w, step) && w' == Do(w, step) && SameChannel(w.state, w'.state, id, index)
    requires w'.state.entries[id].channels[index].connection.Some?
    ensures var entry := w'.state.entries[id];
      || w.state.entries[id].channels[index].connection == entry.channels[index].connection
      || ClaimsFor(step, entry.spec, index, entry.channels[index].ticket, entry.expiresAt, entry.channels[index].connection.value)
  {
    if step.Claim? {
      ClaimsIff(w.state, step.binding, step.authentication, step.now);
    }
  }

  lemma IssuedLonger(steps: seq<Step>, i: nat, id: PoolID, spec: Spec, index: nat, ticket: nat, expiresAt: int)
    requires i < |steps|
    requires WasIssued(steps, i, id, spec, index, ticket, expiresAt) || Issues(steps[i], id, spec, index, ticket, expiresAt)
    ensures WasIssued(steps, i + 1, id, spec, index, ticket, expiresAt)
  {
  }

  lemma ClaimedLonger(steps: seq<Step>, i: nat, id: PoolID, spec: Spec, index: nat, ticket: nat, expiresAt: int,
                      connection: Connection)
    requires i < |steps|
    requires
      || WasClaimed(steps, i, id, spec, index, ticket, expiresAt, connection)
      || (ClaimsFor(steps[i], spec, index, ticket, expiresAt, connection) &&
          WasIssued(steps, i, id, spec, index, ticket, expiresAt))
    ensures WasClaimed(steps, i + 1, id, spec, index, ticket, expiresAt, connection)
  {
  }

  /** Every channel is as it was issued when its pool was prepared. */
  lemma {:induction false} TicketsWereIssued(run: seq<World>, steps: seq<Step>, i: nat, id: PoolID, index: nat)
    requires Follows(run, steps) && i < |run| && id in run[i].state.entries
    requires index < |run[i].state.entries[id].channels|
    ensures var entry := run[i].state.entries[id];
      WasIssued(steps, i, id, entry.spec, index, entry.channels[index].ticket, entry.expiresAt)
  {
    if i > 0 {
      assert Moves(run, steps, i - 1);
      ChannelOrigin(run[i - 1], steps[i - 1], run[i], id, index);
      var entry := run[i].state.entries[id];
      if SameChannel(run[i - 1].state, run[i].state, id, index) {
        TicketsWereIssued(run, steps, i - 1, id, index);
      }
      IssuedLonger(steps, i - 1, id, entry.spec, index, entry.channels[index].ticket, entry.expiresAt);
    }
  }

  /**
   In every run whoever holds a channel has claimed it, before its pool's
   expiry, with the ticket that was issued for that channel when the pool was
   prepared, and with the pool's own client, session, transport, address,
   generation, number of channels and authentication.
   */
  lemma {:induction false} HolderPresentedTicket(run: seq<World>, steps: seq<Step>, i: nat, id: PoolID, index: nat)
    requires Follows(run, steps) && i < |run| && id in run[i].state.entries
    requires index < |run[i].state.entries[id].channels| && run[i].state.entries[id].channels[index].connection.Some?
    ensures var entry := run[i].state.entries[id];
      WasClaimed(steps, i, id, entry.spec, index, entry.channels[index].ticket, entry.expiresAt,
                 entry.channels[index].connection.value)
  {
    if i > 0 {
      assert Moves(run, steps, i - 1);
      var entry := run[i].state.entries[id];
      var ticket, connection := entry.channels[index].ticket, entry.channels[index].connection.value;
      ChannelOrigin(run[i - 1], steps[i - 1], run[i], id, index);
      ConnectionOrigin(run[i - 1], steps[i - 1], run[i], id, index);
      if run[i - 1].state.entries[id].channels[index].connection == Some(connection) {
        HolderPresentedTicket(run, steps, i - 1, id, index);
      } else {
        TicketsWereIssued(run, steps, i - 1, id, index);
      }
      ClaimedLonger(steps, i - 1, id, entry.spec, index, ticket, entry.expiresAt, connection);
    }
  }

  // ---------------------------------------------------------------------
  // Acknowledgement and removal
  // ---------------------------------------------------------------------

  /**
   An acknowledged bind makes its channel ready if and only if the very pool it
   claimed is still the client's pending one, in time and not cancelled; the
   pool becomes the active one if and only if that was its last channel.
   */
  lemma FinishedIff(w: World, bind: nat, cancelled: bool, now: int)
    requires Can(w, Finish(bind, cancelled, now))
    ensures var b, w' := w.binds[bind], Do(w, Finish(bind, cancelled, now));
      && var entry := w.state.entries[b.id];
      if b.clientID in w.state.pending && w.state.pending[b.clientID] == b.id && !cancelled && now < entry.expiresAt then
        && w'.state.entries[b.id].channels == entry.channels[b.index := entry.channels[b.index].(ready := true)]
        && (w'.state.active == if Completes(entry, b.index) then w.state.active[b.clientID := b.id] else w.state.active)
        && (w'.state.pending == if Completes(entry, b.index) then w.state.pending - {b.clientID} else w.state.pending)
      else w'.state == w.state
  {
    var entry := w.state.entries[w.binds[bind].id];
    var index := w.binds[bind].index;
    CompletesIff(entry, index);
  }

  /** All other channels are ready already. */
  ghost predicate Completes(entry: Entry, index: nat) {
    forall k | 0 <= k < |entry.channels| && k != index :: entry.channels[k].ready
  }

  lemma CompletesIff(entry: Entry, index: nat)
    requires index < |entry.channels|
    ensures Completes(entry, index) <==> Complete(entry.channels[index := entry.channels[index].(ready := true)])
  {
    var channels := entry.channels[index := entry.channels[index].(ready := true)];
    if Complete(channels) {
      forall k | 0 <= k < |entry.channels| && k != index ensures entry.channels[k].ready {
        assert channels[k].ready;
      }
    }
  }

  /** Removing a session's generation leaves no pool of it with the client; any other pool, and any other client's, stays. */
  lemma RemovalIsExact(s: State, clientID: string, sessionID: string, generation: nat, other: string)
    requires Placed(s)
    ensures var s' := Removed(s, clientID, sessionID, generation);
      && (other in s'.pending <==>
          other in s.pending && !(other == clientID && OfGeneration(s.entries[s.pending[other]].spec, sessionID, generation)))
      && (other in s'.active <==>
          other in s.active && !(other == clientID && OfGeneration(s.entries[s.active[other]].spec, sessionID, generation)))
      && (other in s'.pending ==> s'.pending[other] == s.pending[other])
      && (other in s'.active ==> s'.active[other] == s.active[other])
  {
  }

  /** Generation zero stands for all of the session. */
  predicate OfGeneration(spec: Spec, sessionID: string, generation: nat) {
    spec.sessionID == sessionID && (generation == 0 || spec.poolGeneration == generation)
  }

  /** An expiry takes the client's pending pool away if it is of that generation, and nothing else. */
  lemma ExpiryIsExact(s: State, clientID: string, generation: nat, other: string)
    requires Placed(s)
    ensures var s' := Expired(s, clientID, generation);
      && s'.active == s.active && s'.entries == s.entries
      && (other in s'.pending <==>
          other in s.pending && !(other == clientID && s.entries[s.pending[other]].spec.poolGeneration == generation))
      && (other in s'.pending ==> s'.pending[other] == s.pending[other])
      && s'.discarded == s.discarded + (set c <- s.pending | c !in s'.pending :: s.pending[c])
  {
    var s' := Expired(s, clientID, generation);
    assert forall c <- s.pending | c !in s'.pending :: c == clientID;
    assert (set c <- s.pending | c !in s'.pending :: s.pending[c]) ==
           if clientID in s.pending && clientID !in s'.pending then {s.pending[clientID]} else {};
  }

  /** A closed broker has no pool, pending or active, and every pool that was pending is to be closed. */
  lemma ClosingIsExact(s: State)
    requires !s.closed
    ensures var s' := ClosedBroker(s);
      && s'.closed && s'.pending == map[] && s'.active == map[] && s'.entries == s.entries
      && s'.discarded == s.discarded + s.pending.Values
  {
  }

  /**
   A valid pool that is prepared becomes the client's pending one, all channels
   unclaimed, each with its own ticket; the one it replaces is to be closed, and
   so is the new one if the broker is closed.
   */
  lemma PreparationIsExact(s: State, id: PoolID, spec: Spec, tickets: seq<nat>, now: int, lifetime: int)
    requires |tickets| == spec.channelCount && id !in s.entries
    ensures var s' := Prepared(s, id, spec, tickets, now, lifetime);
      var valid := spec.clientID != "" && spec.sessionID != "" && spec.virtualIP != "" && spec.poolGeneration != 0 &&
                   1 <= spec.channelCount <= 8 && spec.mtu >= 68 && spec.writeTimeout > 0 && lifetime > 0;
      if !valid then s' == s
      else
        && id in s'.entries && s'.entries == s.entries[id := s'.entries[id]] && s'.active == s.active
        && s'.entries[id].spec == spec && s'.entries[id].expiresAt == now + lifetime && |s'.entries[id].channels| == |tickets|
        && (forall k | 0 <= k < |tickets| :: s'.entries[id].channels[k] == Channel(tickets[k], None, false))
        && s'.pending == (if s.closed then s.pending else s.pending[spec.clientID := id])
        && s'.discarded == s.discarded + if s.closed then {id} else if spec.clientID in s.pending then {s.pending[spec.clientID]} else {}
  {
  }
}
