/**
 Exactly when a session is registered, resumed, activated, kept alive and
 suspended (internal/session/registry.go), in terms of what happened before.
 */
module SessionLaws {
  import opened Options
  import opened Sessions
  import opened SessionRuns

  // ---------------------------------------------------------------------
  // Registration and resume
  // ---------------------------------------------------------------------

  /** A client without a record may start a session if it does not claim an old one and there is room. */
  ghost predicate MayStart(clients: Clients, maxClients: int, hello: Hello) {
    hello.clientID !in clients && hello.resume == "" && (maxClients <= 0 || |clients| < maxClients)
  }

  /** A suspended client may resume with either of its two session IDs, as the same identity, within a minute. */
  ghost predicate MayResume(clients: Clients, hello: Hello, now: nat) {
    && hello.clientID in clients && hello.resume != ""
    && var record := clients[hello.clientID];
    && record.phase == Suspended && record.authentication == hello.authentication
    && (hello.resume == record.sessionID || hello.resume == record.previousSessionID)
    && (record.suspendedAt.Some? ==> now < record.suspendedAt.value + 60_000)
  }

  /**
   A hello is accepted if and only if it may start or resume. It then owns the
   record, which remembers the session it replaced and since when it was
   suspended; a refused hello changes nothing.
   */
  lemma AcceptedIff(clients: Clients, maxClients: int, hello: Hello, now: nat)
    ensures Decide(clients, maxClients, hello, now).Created? <==> MayStart(clients, maxClients, hello)
    ensures Decide(clients, maxClients, hello, now).Resumed? <==> MayResume(clients, hello, now)
    ensures var next := Registered(clients, maxClients, hello, now);
      if MayStart(clients, maxClients, hello) || MayResume(clients, hello, now) then
        && hello.clientID in next && next == clients[hello.clientID := next[hello.clientID]]
        && var record := next[hello.clientID];
        && record.sessionID == hello.sessionID && record.previousSessionID == hello.resume
        && record.connection == hello.connection && record.authentication == hello.authentication
        && record.phase == Initializing && record.lastHeartbeatAt == now && record.lastHeartbeatSequence == 0
        && record.suspendedAt == if hello.clientID in clients then clients[hello.clientID].suspendedAt else None
      else next == clients
  {
  }

  /** Step i accepts a hello of the client. */
  ghost predicate AcceptsHello(run: Run, i: nat, id: string)
    requires |run.states| == |run.events| + 1 && i < |run.events|
  {
    && run.events[i].action.Register?
    && var hello := run.events[i].action.hello;
    && hello.clientID == id
    && (MayStart(run.states[i], run.maxClients, hello) || MayResume(run.states[i], hello, run.events[i].at))
  }

  /** Step i activates the client's session. */
  ghost predicate Activates(run: Run, i: nat, id: string)
    requires |run.states| == |run.events| + 1 && i < |run.events|
  {
    && run.events[i].action.Activate? && run.events[i].action.clientID == id && id in run.states[i]
    && var record := run.states[i][id];
    && record.sessionID == run.events[i].action.sessionID && record.phase == Initializing
    && (record.suspendedAt.Some? ==> run.events[i].at < record.suspendedAt.value + 60_000)
  }

  /** Step i accepts a heartbeat of the client's session. */
  ghost predicate AcceptsBeat(run: Run, i: nat, id: string)
    requires |run.states| == |run.events| + 1 && i < |run.events|
  {
    && run.events[i].action.Beat? && run.events[i].action.clientID == id && id in run.states[i]
    && var record := run.states[i][id];
    && record.sessionID == run.events[i].action.sessionID && record.phase != Initializing
    && run.events[i].action.sequence > record.lastHeartbeatSequence
    && (record.phase == Suspended && record.suspendedAt.Some? ==>
          run.events[i].at < record.suspendedAt.value + 60_000)
  }

  /** The record's last accepted hello, with which it shares its session, connection and identity. */
  ghost predicate FromHello(run: Run, i: nat, id: string, k: nat)
    requires |run.states| == |run.events| + 1 && i < |run.states| && id in run.states[i] && k < i
  {
    && AcceptsHello(run, k, id) && (forall l: nat | k < l < i :: !AcceptsHello(run, l, id))
    && var hello, record := run.events[k].action.hello, run.states[i][id];
    && record.sessionID == hello.sessionID && record.connection == hello.connection
    && record.authentication == hello.authentication
    && record.previousSessionID == if exists l: nat | k < l < i :: Activates(run, l, id) then "" else hello.resume
  }

  lemma RecordStep(run: Run, i: nat, id: string)
    requires |run.states| == |run.events| + 1 && i < |run.events| && StepsAt(run, i) && id in run.states[i + 1]
    requires !AcceptsHello(run, i, id)
    ensures id in run.states[i]
    ensures var before, after := run.states[i][id], run.states[i + 1][id];
      && after.sessionID == before.sessionID && after.connection == before.connection
      && after.authentication == before.authentication
      && after.previousSessionID == if Activates(run, i, id) then "" else before.previousSessionID
  {
    if run.events[i].action.Register? {
      AcceptedIff(run.states[i], run.maxClients, run.events[i].action.hello, run.events[i].at);
    }
  }

  /**
   In every run a record is that of the last hello accepted for its client: it
   carries that hello's session, connection and identity, and as long as the
   session has not been activated, the session that hello resumed.
   */
  lemma {:induction false} RecordIsLastHello(run: Run, i: nat, id: string) returns (k: nat)
    requires Follows(run) && i < |run.states| && id in run.states[i]
    ensures k < i && FromHello(run, i, id, k)
    decreases i
  {
    assert StepsAt(run, i - 1);
    if AcceptsHello(run, i - 1, id) {
      k := i - 1;
      AcceptedIff(run.states[i - 1], run.maxClients, run.events[i - 1].action.hello, run.events[i - 1].at);
    } else {
      RecordStep(run, i - 1, id);
      k := RecordIsLastHello(run, i - 1, id);
      FromHelloLonger(run, i - 1, id, k);
    }
  }

  lemma FromHelloLonger(run: Run, i: nat, id: string, k: nat)
    requires |run.states| == |run.events| + 1 && i < |run.events| && StepsAt(run, i) && id in run.states[i + 1]
    requires !AcceptsHello(run, i, id) && id in run.states[i] && k < i && FromHello(run, i, id, k)
    ensures FromHello(run, i + 1, id, k)
  {
    RecordStep(run, i, id);
    if Activates(run, i, id) {
      assert exists l: nat | k < l < i + 1 :: Activates(run, l, id);
    } else {
      assert (exists l: nat | k < l < i + 1 :: Activates(run, l, id)) <==> exists l: nat | k < l < i :: Activates(run, l, id);
    }
  }

  // ---------------------------------------------------------------------
  // Life signs and sweeps
  // ---------------------------------------------------------------------

  /** The client gave a sign of life: a hello, an activation or a heartbeat that was accepted. */
  ghost predicate Sign(run: Run, i: nat, id: string)
    requires |run.states| == |run.events| + 1 && i < |run.events|
  {
    AcceptsHello(run, i, id) || Activates(run, i, id) || AcceptsBeat(run, i, id)
  }

  ghost predicate LastSign(run: Run, i: nat, id: string, k: nat)
    requires |run.states| == |run.events| + 1 && i < |run.states| && k < i
  {
    Sign(run, k, id) && forall l: nat | k < l < i :: !Sign(run, l, id)
  }

  lemma SignStep(run: Run, i: nat, id: string)
    requires |run.states| == |run.events| + 1 && i < |run.events| && StepsAt(run, i) && id in run.states[i + 1]
    ensures Sign(run, i, id) ==> run.states[i + 1][id].lastHeartbeatAt == run.events[i].at
    ensures !Sign(run, i, id) ==>
      id in run.states[i] && run.states[i + 1][id].lastHeartbeatAt == run.states[i][id].lastHeartbeatAt
  {
    if run.events[i].action.Register? {
      AcceptedIff(run.states[i], run.maxClients, run.events[i].action.hello, run.events[i].at);
    }
  }

  ghost predicate SignedLastAt(run: Run, i: nat, id: string, at: nat)
    requires |run.states| == |run.events| + 1 && i < |run.states|
  {
    exists k: nat | k < i :: LastSign(run, i, id, k) && run.events[k].at == at
  }

  lemma SignedLonger(run: Run, i: nat, id: string, at: nat)
    requires |run.states| == |run.events| + 1 && i < |run.events| && SignedLastAt(run, i, id, at) && !Sign(run, i, id)
    ensures SignedLastAt(run, i + 1, id, at)
  {
    var k: nat :| k < i && LastSign(run, i, id, k) && run.events[k].at == at;
    assert LastSign(run, i + 1, id, k);
  }

  lemma SignedNow(run: Run, i: nat, id: string)
    requires |run.states| == |run.events| + 1 && i < |run.events| && Sign(run, i, id)
    ensures SignedLastAt(run, i + 1, id, run.events[i].at)
  {
    assert LastSign(run, i + 1, id, i);
  }

  /** In every run a record's heartbeat time is that of the last sign of life. */
  lemma {:induction false} TimeOfLastSign(run: Run, i: nat, id: string)
    requires Follows(run) && i < |run.states| && id in run.states[i]
    ensures SignedLastAt(run, i, id, run.states[i][id].lastHeartbeatAt)
    decreases i
  {
    assert StepsAt(run, i - 1);
    SignStep(run, i - 1, id);
    if Sign(run, i - 1, id) {
      SignedNow(run, i - 1, id);
    } else {
      TimeOfLastSign(run, i - 1, id);
      SignedLonger(run, i - 1, id, run.states[i][id].lastHeartbeatAt);
    }
  }

  lemma SuspensionStep(run: Run, i: nat, id: string)
    requires |run.states| == |run.events| + 1 && i < |run.events| && StepsAt(run, i) && id in run.states[i]
    requires run.states[i][id].phase != Suspended
    ensures var record, event := run.states[i][id], run.events[i];
      id in run.states[i + 1] && run.states[i + 1][id].phase == Suspended <==>
      || event.action == Disconnect(id, record.sessionID)
      || (event.action.Sweep? && record.phase == Active && event.at - record.lastHeartbeatAt >= event.action.heartbeatTimeout)
  {
  }

  /**
   In every run a client becomes suspended if and only if its own session
   disconnects, or a sweep finds it active without a sign of life for the
   timeout: one that beats in time is never suspended by a sweep, a silent one is.
   */
  lemma SuspendedIff(run: Run, i: nat, id: string) returns (k: nat)
    requires Follows(run) && i < |run.events| && id in run.states[i] && run.states[i][id].phase != Suspended
    ensures k < i && LastSign(run, i, id, k)
    ensures var record, event := run.states[i][id], run.events[i];
      id in run.states[i + 1] && run.states[i + 1][id].phase == Suspended <==>
      || event.action == Disconnect(id, record.sessionID)
      || (event.action.Sweep? && record.phase == Active && event.at - run.events[k].at >= event.action.heartbeatTimeout)
  {
    assert StepsAt(run, i);
    TimeOfLastSign(run, i, id);
    k :| k < i && LastSign(run, i, id, k) && run.events[k].at == run.states[i][id].lastHeartbeatAt;
    SuspensionStep(run, i, id);
  }

  /** In every run a client becomes active if and only if its session is activated or a heartbeat wakes it. */
  lemma ActiveIff(run: Run, i: nat, id: string)
    requires Follows(run) && i < |run.events| && id in run.states[i] && run.states[i][id].phase != Active
    ensures id in run.states[i + 1] && run.states[i + 1][id].phase == Active <==> Activates(run, i, id) || AcceptsBeat(run, i, id)
    ensures id in run.states[i + 1] && run.states[i + 1][id].phase == Active ==> run.states[i + 1][id].suspendedAt.None?
  {
    assert StepsAt(run, i);
    if run.events[i].action.Register? {
      AcceptedIff(run.states[i], run.maxClients, run.events[i].action.hello, run.events[i].at);
    }
  }

  /**
   In every run a client's record goes away if and only if its session is
   removed, its credential is revoked, or a sweep finds its minute over.
   */
  lemma GoneIff(run: Run, i: nat, id: string)
    requires Follows(run) && i < |run.events| && id in run.states[i]
    ensures var record, event := run.states[i][id], run.events[i];
      id !in run.states[i + 1] <==>
      || event.action == Remove(id, record.sessionID)
      || (event.action.Revoke? && RevokedKey(record.authentication.credentialID, record.authentication.generation) in event.action.keys)
      || (event.action.Sweep? && record.suspendedAt.Some? && event.at >= record.suspendedAt.value + 60_000)
  {
    assert StepsAt(run, i);
    AlwaysCoherent(run, i);
  }

  // ---------------------------------------------------------------------
  // Heartbeats
  // ---------------------------------------------------------------------

  /** The client's heartbeats count from zero again: its hello was accepted or its session activated. */
  ghost predicate Resets(run: Run, k: nat, id: string)
    requires |run.states| == |run.events| + 1 && k < |run.events|
  {
    AcceptsHello(run, k, id) || Activates(run, k, id)
  }

  /** The sequence a heartbeat must exceed, as the history has it. */
  ghost predicate Threshold(run: Run, i: nat, id: string, sequence: nat)
    requires |run.states| == |run.events| + 1 && i < |run.states|
  {
    exists k: nat | k < i :: LastCount(run, i, id, k) && SetsThreshold(run, k, id, sequence)
  }

  ghost predicate LastCount(run: Run, i: nat, id: string, k: nat)
    requires |run.states| == |run.events| + 1 && i < |run.states|
  {
    forall l: nat | k < l < i :: !Resets(run, l, id) && !AcceptsBeat(run, l, id)
  }

  ghost predicate SetsThreshold(run: Run, k: nat, id: string, sequence: nat)
    requires |run.states| == |run.events| + 1 && k < |run.events|
  {
    || (Resets(run, k, id) && sequence == 0)
    || (AcceptsBeat(run, k, id) && sequence == run.events[k].action.sequence)
  }

  lemma ThresholdLonger(run: Run, i: nat, id: string, sequence: nat)
    requires |run.states| == |run.events| + 1 && i < |run.events| && Threshold(run, i, id, sequence)
    requires !Resets(run, i, id) && !AcceptsBeat(run, i, id)
    ensures Threshold(run, i + 1, id, sequence)
  {
    var k: nat :| k < i && LastCount(run, i, id, k) && SetsThreshold(run, k, id, sequence);
    assert LastCount(run, i + 1, id, k);
  }

  lemma ThresholdNow(run: Run, i: nat, id: string, sequence: nat)
    requires |run.states| == |run.events| + 1 && i < |run.events| && SetsThreshold(run, i, id, sequence)
    ensures Threshold(run, i + 1, id, sequence)
  {
    assert LastCount(run, i + 1, id, i);
  }

  lemma SequenceStep(run: Run, i: nat, id: string)
    requires |run.states| == |run.events| + 1 && i < |run.events| && StepsAt(run, i) && id in run.states[i + 1]
    ensures AcceptsBeat(run, i, id) ==> run.states[i + 1][id].lastHeartbeatSequence == run.events[i].action.sequence
    ensures Resets(run, i, id) ==> run.states[i + 1][id].lastHeartbeatSequence == 0
    ensures !Resets(run, i, id) && !AcceptsBeat(run, i, id) ==>
      id in run.states[i] && run.states[i + 1][id].lastHeartbeatSequence == run.states[i][id].lastHeartbeatSequence
  {
    if run.events[i].action.Register? {
      AcceptedIff(run.states[i], run.maxClients, run.events[i].action.hello, run.events[i].at);
    }
  }

  /**
   In every run the sequence a heartbeat must exceed is that of the last one
   accepted, or zero if a hello or an activation was accepted after it.
   */
  lemma {:induction false} SequenceOfLastBeat(run: Run, i: nat, id: string)
    requires Follows(run) && i < |run.states| && id in run.states[i]
    ensures Threshold(run, i, id, run.states[i][id].lastHeartbeatSequence)
    decreases i
  {
    assert StepsAt(run, i - 1);
    SequenceStep(run, i - 1, id);
    var sequence := run.states[i][id].lastHeartbeatSequence;
    if AcceptsBeat(run, i - 1, id) || Resets(run, i - 1, id) {
      ThresholdNow(run, i - 1, id, sequence);
    } else {
      SequenceOfLastBeat(run, i - 1, id);
      ThresholdLonger(run, i - 1, id, sequence);
    }
  }
}
