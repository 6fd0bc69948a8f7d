/**
 What holds over every run of the session registry: the recovery window is
 anchored at the first suspension, and accepted heartbeats of one session
 strictly increase.
 */
module SessionRuns {
  import opened Options
  import opened Sessions

  datatype Action =
    | Register(hello: Hello)
    | Activate(clientID: string, sessionID: string)
    | Beat(clientID: string, sessionID: string, sequence: nat)
    | Disconnect(clientID: string, sessionID: string)
    | Remove(clientID: string, sessionID: string)
    | Sweep(heartbeatTimeout: int)
    | Revoke(keys: set<RevokedKey>)

  datatype Event = Event(at: nat, action: Action)

  function Apply(clients: Clients, maxClients: int, event: Event): Clients {
    match event.action
    case Register(hello) => Registered(clients, maxClients, hello, event.at)
    case Activate(clientID, sessionID) => Activated(clients, clientID, sessionID, event.at)
    case Beat(clientID, sessionID, sequence) => Beaten(clients, clientID, sessionID, sequence, event.at)
    case Disconnect(clientID, sessionID) => Disconnected(clients, clientID, sessionID, event.at)
    case Remove(clientID, sessionID) => Removed(clients, clientID, sessionID)
    case Sweep(heartbeatTimeout) => Swept(clients, event.at, heartbeatTimeout)
    case Revoke(keys) => Unrevoked(clients, keys)
  }

  datatype Run = Run(maxClients: int, states: seq<Clients>, events: seq<Event>)

  ghost predicate StepsAt(run: Run, i: nat)
    requires |run.states| == |run.events| + 1 && i < |run.events|
  {
    run.states[i + 1] == Apply(run.states[i], run.maxClients, run.events[i])
  }

  ghost predicate Follows(run: Run) {
    && |run.states| == |run.events| + 1
    && run.states[0] == map[]
    && (forall i: nat | i < |run.events| :: StepsAt(run, i))
  }

  /** Every hello carries a session ID that no earlier hello carried, and that is not empty. */
  ghost predicate FreshSessions(run: Run) {
    && (forall i | 0 <= i < |run.events| && run.events[i].action.Register? :: run.events[i].action.hello.sessionID != "")
    && (forall i, j | 0 <= i < j < |run.events| && run.events[i].action.Register? && run.events[j].action.Register? ::
          run.events[i].action.hello.sessionID != run.events[j].action.hello.sessionID)
  }

  // ---------------------------------------------------------------------
  // Phases and the recovery window
  // ---------------------------------------------------------------------

  /** Active records hold no suspension; suspended ones know when it began. */
  ghost predicate Coherent(clients: Clients) {
    forall id <- clients ::
      && (clients[id].phase == Active ==> clients[id].suspendedAt.None?)
      && (clients[id].phase == Suspended ==> clients[id].suspendedAt.Some?)
  }

  lemma {:induction false} AlwaysCoherent(run: Run, i: nat)
    requires Follows(run) && i < |run.states|
    ensures Coherent(run.states[i])
    decreases i
  {
    if i > 0 {
      AlwaysCoherent(run, i - 1);
      assert StepsAt(run, i - 1);
    }
  }

  ghost predicate SuspendedSince(clients: Clients, id: string, since: nat) {
    id in clients && clients[id].suspendedAt == Some(since)
  }

  /** The client is gone, or came back before its window closed. */
  ghost predicate Resolved(clients: Clients, id: string, since: nat, at: nat) {
    id !in clients || (clients[id].phase == Active && at < since + RECOVERY_WINDOW)
  }

  /** No single step moves the start of a suspension: it stays, or the suspension is resolved in time. */
  lemma AnchorStep(clients: Clients, maxClients: int, event: Event, id: string, since: nat)
    requires Coherent(clients) && SuspendedSince(clients, id, since)
    ensures var next := Apply(clients, maxClients, event);
      Resolved(next, id, since, event.at) || SuspendedSince(next, id, since)
    ensures event.action.Sweep? && event.at >= since + RECOVERY_WINDOW ==> id !in Apply(clients, maxClients, event)
  {
  }

  /** Whatever failed resumes and disconnects happen in between, the suspension keeps its first start. */
  lemma {:induction false} AnchorHolds(run: Run, i: nat, j: nat, id: string, since: nat)
    requires Follows(run) && i <= j < |run.states| && SuspendedSince(run.states[i], id, since)
    ensures SuspendedSince(run.states[j], id, since)
         || exists k | i < k <= j :: Resolved(run.states[k], id, since, run.events[k - 1].at)
    decreases j - i
  {
    if i < j {
      AnchorHolds(run, i, j - 1, id, since);
      if SuspendedSince(run.states[j - 1], id, since) {
        AlwaysCoherent(run, j - 1);
        assert StepsAt(run, j - 1);
        AnchorStep(run.states[j - 1], run.maxClients, run.events[j - 1], id, since);
        if !SuspendedSince(run.states[j], id, since) {
          assert Resolved(run.states[j], id, since, run.events[j - 1].at);
        }
      }
    }
  }

  /**
   The recovery window: a client suspended since `since` is active again
   before `since` plus one minute, or it has been removed by the time of the
   first sweep that runs at or after that instant.
   */
  lemma RecoveryWindowCloses(run: Run, i: nat, sweep: nat, id: string, since: nat)
    requires Follows(run) && i <= sweep < |run.events| && SuspendedSince(run.states[i], id, since)
    requires run.events[sweep].action.Sweep? && run.events[sweep].at >= since + RECOVERY_WINDOW
    ensures exists k | i < k <= sweep + 1 :: Resolved(run.states[k], id, since, run.events[k - 1].at)
  {
    AnchorHolds(run, i, sweep, id, since);
    if SuspendedSince(run.states[sweep], id, since) {
      AlwaysCoherent(run, sweep);
      assert StepsAt(run, sweep);
      AnchorStep(run.states[sweep], run.maxClients, run.events[sweep], id, since);
      assert Resolved(run.states[sweep + 1], id, since, run.events[sweep].at);
    }
  }

  // ---------------------------------------------------------------------
  // Heartbeats
  // ---------------------------------------------------------------------

  ghost predicate AcceptedBeat(run: Run, i: nat, id: string, sessionID: string, sequence: nat)
    requires Follows(run) && i < |run.events|
  {
    && run.events[i].action == Beat(id, sessionID, sequence)
    && AcceptsHeartbeat(run.states[i], id, sessionID, sequence, run.events[i].at)
  }

  ghost predicate IntroducedBefore(run: Run, j: nat, sessionID: string) {
    exists k | 0 <= k < j && k < |run.events| ::
      run.events[k].action.Register? && run.events[k].action.hello.sessionID == sessionID
  }

  lemma {:induction false} SessionsAreIntroduced(run: Run, j: nat, id: string)
    requires Follows(run) && j < |run.states| && id in run.states[j]
    ensures IntroducedBefore(run, j, run.states[j][id].sessionID)
    decreases j
  {
    var event := run.events[j - 1];
    assert StepsAt(run, j - 1);
    if id in run.states[j - 1] && run.states[j][id].sessionID == run.states[j - 1][id].sessionID {
      SessionsAreIntroduced(run, j - 1, id);
    } else {
      assert event.action.Register? && event.action.hello.sessionID == run.states[j][id].sessionID;
    }
  }

  /** Once a beat was accepted, the session stays initialized and remembers at least that sequence. */
  lemma {:induction false} BeatIsRemembered(run: Run, i: nat, j: nat, id: string, sessionID: string, sequence: nat)
    requires Follows(run) && FreshSessions(run) && i < j < |run.states|
    requires AcceptedBeat(run, i, id, sessionID, sequence)
    requires Owns(run.states[j], id, sessionID)
    ensures run.states[j][id].phase != Initializing && run.states[j][id].lastHeartbeatSequence >= sequence
    decreases j
  {
    var event := run.events[j - 1];
    assert StepsAt(run, j - 1);
    if i < j - 1 {
      if Owns(run.states[j - 1], id, sessionID) {
        BeatIsRemembered(run, i, j - 1, id, sessionID, sequence);
      }
      if event.action.Register? && event.action.hello.sessionID == sessionID {
        SessionsAreIntroduced(run, i, id);
        assert false;
      }
    }
  }

  /** Accepted heartbeat sequences of one session strictly increase. */
  lemma HeartbeatsIncrease(run: Run, i: nat, j: nat, id: string, sessionID: string, first: nat, second: nat)
    requires Follows(run) && FreshSessions(run) && i < j < |run.events|
    requires AcceptedBeat(run, i, id, sessionID, first) && AcceptedBeat(run, j, id, sessionID, second)
    ensures first < second
  {
    BeatIsRemembered(run, i, j, id, sessionID, first);
  }
}
