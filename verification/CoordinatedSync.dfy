/**
 One configuration sync publishes a proxy set and a Forward set together
 (internal/proxy/registry/sync_publication.go, sync_rollback.go,
 internal/forward/registry/sync_transaction.go, internal/server/configuration_sync.go).
 The Forward transaction wraps the proxy publication: it revalidates under its
 own lock, runs the proxy publication inside, and installs its set only if
 that was applied.
 */
module CoordinatedSync {
  import opened Options
  import opened SyncCache
  import opened ProxyRegistry
  import ProxyRuns
  import ProxyObjects
  import ForwardRegistry
  import ForwardRuns

  // ---------------------------------------------------------------------
  // The objects
  // ---------------------------------------------------------------------

  /** syncCandidateResources: what a sync has made and not handed over. `closed` lists what it has closed, in order. */
  class CandidateResources {
    var owned: set<ProxyRuns.Resource>
    ghost var closed: multiset<ProxyRuns.Resource>

    constructor (owned: set<ProxyRuns.Resource>)
      ensures this.owned == owned && closed == multiset{}
    {
      this.owned := owned;
      closed := multiset{};
    }

    /** Closes everything still owned, so that a second rollback closes nothing. */
    method Rollback()
      modifies this
      ensures owned == {} && closed == old(closed) + multiset(old(owned))
    {
      closed := closed + multiset(owned);
      Release();
    }

    /** Hands everything over without closing it. */
    method Release()
      modifies this
      ensures owned == {} && closed == old(closed)
    {
      owned := {};
    }
  }

  /** What both tests say before anything is published. */
  ghost predicate BothReady(transaction: ForwardRegistry.SyncTransaction, policy: ForwardRegistry.Policy, t: Tables,
                            p: Preparation)
    requires p.next.Some?
    reads transaction, transaction.registry, transaction.next
  {
    transaction.Ready(policy) && Publishable(t, p)
  }

  /**
   commitSync coordinated by CommitWith: both sets are published or neither
   is; what the sync made is handed over in the first case and closed exactly
   once in the second, however often rollback runs afterwards.
   */
  method CommitSync(registry: ProxyObjects.Registry, p: Preparation, resources: CandidateResources,
                    transaction: ForwardRegistry.SyncTransaction, policy: ForwardRegistry.Policy)
    returns (result: SyncResult, retired: Option<set<ProxyRuns.Resource>>)
    requires ProxyObjects.MayAttempt(registry.View(), p) && resources.closed == multiset{}
    requires transaction.registry != null ==>
      && transaction.registry.Valid()
      && (forall key <- transaction.registry.sessions :: transaction.registry.sessions[key] != transaction.next)
    modifies registry, resources, transaction, transaction.registry
    ensures result.Applied? <==> old(BothReady(transaction, policy, registry.View(), p))
    ensures result.Applied? <==> retired.Some?
    ensures result.Applied? ==>
      && p.clientID in old(registry.View()).clients && registry.View() == PublishedTables(old(registry.View()), p)
      && retired.value == ProxyRuns.Retired(p.existing, p.next.value)
      && old(transaction.registry) != null
      && old(transaction.registry).sessions == old(transaction.registry.sessions)[transaction.session := transaction.next]
    ensures result.Rejected? ==>
      && registry.View() == old(registry.View())
      && (old(transaction.registry) != null ==> old(transaction.registry).sessions == old(transaction.registry.sessions))
    ensures resources.owned == {} && resources.closed == if result.Applied? then multiset{} else multiset(old(resources.owned))
  {
    ghost var forward := transaction.registry;
    result, retired := Rejected(SessionInactive), None;
    var ready := transaction.Revalidate(policy);
    if ready {
      result, retired := registry.PublishSync(p);
      if result.Applied? {
        transaction.Install();
      }
    }
    if retired.Some? {
      resources.Release();
    } else {
      resources.Rollback();
    }
  }

  /** A replayed proxy result: the Forward set alone is published, or the replay is rejected. */
  method CoordinateCachedSync(cached: SyncResult, transaction: ForwardRegistry.SyncTransaction,
                              policy: ForwardRegistry.Policy)
    returns (result: SyncResult)
    requires transaction.registry != null ==>
      && transaction.registry.Valid()
      && (forall key <- transaction.registry.sessions :: transaction.registry.sessions[key] != transaction.next)
    modifies transaction, transaction.registry
    ensures result == if old(transaction.Ready(policy)) then cached else Rejected(SessionInactive)
    ensures old(transaction.registry) != null ==>
      old(transaction.registry).sessions ==
      old(if transaction.registry == null then map[]
          else if transaction.Ready(policy) then transaction.registry.sessions[transaction.session := transaction.next]
          else transaction.registry.sessions)
  {
    var committed := transaction.CommitWith(policy, true);
    return if committed then cached else Rejected(SessionInactive);
  }

  // ---------------------------------------------------------------------
  // Every interleaving of both registries
  // ---------------------------------------------------------------------

  /**
   A sync the proxy registry has answered from its cache and whose Forward set
   is still to be committed: the request, and the revision the proxies had.
   */
  datatype Answer = Answer(clientID: string, sessionID: string, request: Request, revision: nat)

  /** While an answer is pending its sync holds the registration lock. */
  datatype System = System(proxy: ProxyRuns.World, forward: ForwardRuns.State, answer: Option<Answer>)

  const START := System(ProxyRuns.START, ForwardRuns.EMPTY, None)

  /**
   A coordinated publication, the two halves of a replay, or a step of one
   registry alone. The registries' own publications do not occur alone: every
   sync is coordinated.
   */
  datatype Step =
    | Coordinate(id: nat, transaction: nat, policy: ForwardRegistry.Policy)
    | Recall(clientID: string, sessionID: string, request: Request)
    | Replay(transaction: nat, policy: ForwardRegistry.Policy)
    | ProxyAlone(proxyStep: ProxyRuns.Step)
    | ForwardAlone(forwardStep: ForwardRuns.Step)

  /** The test of publishSync. */
  ghost predicate PublishesProxies(s: System, id: nat) {
    && id in s.proxy.preparations && s.proxy.preparations[id].next.Some?
    && Publishable(s.proxy.tables, s.proxy.preparations[id])
  }

  /** The test of CommitWith before its companion. */
  ghost predicate PublishesForwards(s: System, transaction: nat, policy: ForwardRegistry.Policy) {
    && transaction in s.forward.transactions && s.forward.transactions[transaction].next in s.forward.sets
    && ForwardRuns.Ready(s.forward, transaction, policy)
  }

  /** The proxy registry answers the request from its cache. */
  ghost predicate Recalls(t: Tables, clientID: string, sessionID: string, request: Request) {
    && Attached(t, clientID, sessionID) && Stored(t.clients[clientID].sync)
    && Check(t.clients[clientID].sync, request).Replay?
  }

  predicate NeedsRegistrationLock(step: ProxyRuns.Step) {
    step.Begin? || step.Publish? || step.Detach? || step.CloseAll? || step.ReserveBegin? || step.ReserveEnd?
  }

  /** The step the proxy registry takes, if any: the Forward test comes first and a failure rolls the sync back. */
  ghost function ProxyPart(s: System, step: Step): Option<ProxyRuns.Step> {
    match step
    case Coordinate(id, transaction, policy) =>
      Some(if PublishesForwards(s, transaction, policy) then ProxyRuns.Publish(id) else ProxyRuns.Abandon(id))
    case ProxyAlone(proxyStep) => Some(proxyStep)
    case _ => None
  }

  /** The step the Forward registry takes; the proxy publication is its companion. */
  ghost function ForwardPart(s: System, step: Step): ForwardRuns.Step {
    match step
    case Coordinate(id, transaction, policy) => ForwardRuns.Commit(transaction, policy, PublishesProxies(s, id))
    case Replay(transaction, policy) => ForwardRuns.Commit(transaction, policy, true)
    case ForwardAlone(forwardStep) => forwardStep
    case _ => ForwardRuns.Elsewhere
  }

  ghost function AnswerAfter(s: System, step: Step): Option<Answer>
    requires step.Recall? ==> step.clientID in s.proxy.tables.clients
  {
    match step
    case Recall(clientID, sessionID, request) =>
      Some(Answer(clientID, sessionID, request, s.proxy.tables.clients[clientID].sync.revision))
    case Replay(_, _) => None
    case _ => s.answer
  }

  ghost predicate Can(s: System, step: Step) {
    && (ProxyPart(s, step).Some? ==> ProxyRuns.Can(s.proxy, ProxyPart(s, step).value))
    && ForwardRuns.Can(s.forward, ForwardPart(s, step))
    && match step
       case Coordinate(_, _, _) => s.answer.None?
       case Recall(clientID, sessionID, request) =>
         s.answer.None? && s.proxy.barrier.None? && Recalls(s.proxy.tables, clientID, sessionID, request)
       case Replay(_, _) => s.answer.Some?
       case ProxyAlone(proxyStep) =>
         && !proxyStep.Publish? && (NeedsRegistrationLock(proxyStep) ==> s.answer.None?)
         && (proxyStep.Attach? && s.answer.Some? ==> proxyStep.sessionID != s.answer.value.sessionID)
       case ForwardAlone(forwardStep) => !forwardStep.Commit?
  }

  ghost function Do(s: System, step: Step): System
    requires Can(s, step)
  {
    System(if ProxyPart(s, step).Some? then ProxyRuns.Do(s.proxy, ProxyPart(s, step).value) else s.proxy,
           ForwardRuns.Do(s.forward, ForwardPart(s, step)),
           AnswerAfter(s, step))
  }

  ghost predicate Publishes(s: System, step: Step) {
    step.Coordinate? && PublishesProxies(s, step.id) && PublishesForwards(s, step.transaction, step.policy)
  }

  ghost predicate PublishesAlone(s: System, step: Step) {
    step.Replay? && PublishesForwards(s, step.transaction, step.policy)
  }

  lemma PublicationInstalls(w: ProxyRuns.World, id: nat)
    requires id in w.preparations && ProxyRuns.Can(w, ProxyRuns.Publish(id)) && Publishable(w.tables, w.preparations[id])
    ensures ProxyRuns.Do(w, ProxyRuns.Publish(id)).tables == PublishedTables(w.tables, w.preparations[id])
  {
  }

  lemma CommitInstalls(s: ForwardRuns.State, transaction: nat, policy: ForwardRegistry.Policy)
    requires transaction in s.transactions && s.transactions[transaction].next in s.sets
    requires ForwardRuns.Can(s, ForwardRuns.Commit(transaction, policy, true)) && ForwardRuns.Ready(s, transaction, policy)
    ensures ForwardRuns.Do(s, ForwardRuns.Commit(transaction, policy, true)).sessions ==
      s.sessions[s.transactions[transaction].session := s.transactions[transaction].next]
  {
  }

  lemma PublishesBoth(s: System, step: Step)
    requires Can(s, step) && Publishes(s, step)
    ensures var s', p, t := Do(s, step), s.proxy.preparations[step.id], s.forward.transactions[step.transaction];
      && s'.proxy.tables == PublishedTables(s.proxy.tables, p)
      && s'.forward.sessions == s.forward.sessions[t.session := t.next]
  {
    PublicationInstalls(s.proxy, step.id);
    CommitInstalls(s.forward, step.transaction, step.policy);
  }

  lemma PublishesNeither(s: System, step: Step)
    requires Can(s, step) && step.Coordinate? && !Publishes(s, step)
    ensures Do(s, step).proxy.tables == s.proxy.tables && Do(s, step).forward.sessions == s.forward.sessions
    ensures Do(s, step).forward.sets == s.forward.sets
  {
  }

  /** A coordinated commit publishes both sets, exactly when both registries' tests pass; else nobody sees a change. */
  lemma AllOrNothing(s: System, step: Step, key: ForwardRegistry.SessionKey, name: string)
    requires Can(s, step) && step.Coordinate?
    ensures var s', p, t := Do(s, step), s.proxy.preparations[step.id], s.forward.transactions[step.transaction];
      if Publishes(s, step) then
        && s'.proxy.tables == PublishedTables(s.proxy.tables, p)
        && s'.forward.sessions == s.forward.sessions[t.session := t.next]
      else
        && s'.proxy.tables == s.proxy.tables
        && ForwardRuns.Lookup(s'.forward, key, name) == ForwardRuns.Lookup(s.forward, key, name)
  {
    if Publishes(s, step) {
      PublishesBoth(s, step);
    } else {
      PublishesNeither(s, step);
    }
  }

  // ---------------------------------------------------------------------
  // Runs
  // ---------------------------------------------------------------------

  ghost predicate Follows(run: seq<System>, steps: seq<Step>) {
    && |run| == |steps| + 1
    && run[0] == START
    && (forall i | 0 <= i < |steps| :: Can(run[i], steps[i]) && run[i + 1] == Do(run[i], steps[i]))
  }

  /** Both registries keep their invariants: routes inverse, reservations respected, resources owned once, sets not reused. */
  lemma {:induction false} BothInvariants(run: seq<System>, steps: seq<Step>, i: nat)
    returns (ledger: map<ProxyRuns.Resource, ProxyRuns.Owner>)
    requires Follows(run, steps) && i < |run|
    ensures ProxyRuns.Invariant(run[i].proxy, ledger) && ForwardRuns.Invariant(run[i].forward)
  {
    if i == 0 {
      ledger := map[];
    } else {
      ledger := BothInvariants(run, steps, i - 1);
      ledger := StepKeepsBoth(run[i - 1], steps[i - 1], run[i], ledger);
    }
  }

  lemma StepKeepsBoth(s: System, step: Step, s': System, ledger: map<ProxyRuns.Resource, ProxyRuns.Owner>)
    returns (ledger': map<ProxyRuns.Resource, ProxyRuns.Owner>)
    requires Can(s, step) && s' == Do(s, step)
    requires ProxyRuns.Invariant(s.proxy, ledger) && ForwardRuns.Invariant(s.forward)
    ensures ProxyRuns.Invariant(s'.proxy, ledger') && ForwardRuns.Invariant(s'.forward)
  {
    ledger' := ledger;
    if ProxyPart(s, step).Some? {
      ledger' := ProxyRuns.StepKeepsInvariant(s.proxy, ProxyPart(s, step).value, s'.proxy, ledger);
    }
    ForwardRuns.StepKeepsInvariant(s.forward, ForwardPart(s, step));
  }

  /** The joint run as the Forward registry sees it. */
  ghost function ForwardStates(run: seq<System>): seq<ForwardRuns.State> {
    seq(|run|, i requires 0 <= i < |run| => run[i].forward)
  }

  ghost function ForwardSteps(run: seq<System>, steps: seq<Step>): seq<ForwardRuns.Step>
    requires |run| == |steps| + 1
  {
    seq(|steps|, i requires 0 <= i < |steps| => ForwardPart(run[i], steps[i]))
  }

  lemma ForwardSees(run: seq<System>, steps: seq<Step>)
    requires Follows(run, steps)
    ensures ForwardRuns.Follows(ForwardStates(run), ForwardSteps(run, steps))
  {
  }

  ghost predicate PublishesForwardSet(s: System, step: Step) { Publishes(s, step) || PublishesAlone(s, step) }

  lemma PublishingCommits(s: System, step: Step)
    requires Can(s, step) && PublishesForwardSet(s, step)
    ensures ForwardRuns.Commits(s.forward, ForwardPart(s, step))
  {
  }

  /** Of the syncs prepared over one Forward set of a session, at most one publishes it, proxies included or by a replay. */
  lemma AtMostOnePublishes(run: seq<System>, steps: seq<Step>, i: nat, j: nat)
    requires Follows(run, steps) && i < j < |steps|
    requires PublishesForwardSet(run[i], steps[i]) && PublishesForwardSet(run[j], steps[j])
    ensures var first := run[i].forward.transactions[steps[i].transaction];
      var second := run[j].forward.transactions[steps[j].transaction];
      first.session != second.session || first.previous != second.previous
  {
    ForwardSees(run, steps);
    PublishingCommits(run[i], steps[i]);
    PublishingCommits(run[j], steps[j]);
    ForwardRuns.AtMostOneCommits(ForwardStates(run), ForwardSteps(run, steps), i, j);
  }

  // ---------------------------------------------------------------------
  // Exactly when a generation is published
  // ---------------------------------------------------------------------

  /**
   The Forward set of a transaction that is still open becomes published in
   exactly two ways: by a coordinated publication that passes both tests, or by
   a replay of a cached proxy result that passes the Forward test.
   */
  lemma ForwardPublishedIff(s: System, step: Step, transaction: nat)
    requires Can(s, step) && ForwardRuns.Sound(s.forward)
    requires transaction in s.forward.transactions && s.forward.transactions[transaction].live
    ensures ForwardRuns.Published(Do(s, step).forward, s.forward.transactions[transaction].next) <==>
      PublishesForwardSet(s, step) && step.transaction == transaction
  {
    if PublishesForwardSet(s, step) {
      var t := s.forward.transactions[step.transaction];
      assert t.session in Do(s, step).forward.sessions;
    }
  }

  /** What an attached client's proxies are, as a generation. */
  ghost predicate SameGeneration(t: Tables, t': Tables, clientID: string)
    requires clientID in t.clients && clientID in t'.clients
  {
    t.clients[clientID].proxies == t'.clients[clientID].proxies &&
    t.clients[clientID].sync.revision == t'.clients[clientID].sync.revision
  }

  lemma ProxyStepAlone(w: ProxyRuns.World, step: ProxyRuns.Step, clientID: string)
    requires ProxyRuns.Can(w, step) && !step.Publish? && !step.Attach?
    ensures var t, t' := w.tables, ProxyRuns.Do(w, step).tables;
      clientID in t'.clients ==> clientID in t.clients && t'.clients[clientID] == t.clients[clientID]
  {
  }

  /** A publication gives its client a greater revision. */
  lemma PublicationAdvances(t: Tables, p: Preparation)
    requires p.next.Some? && Publishable(t, p) && ProxyRuns.PreparationSound(p)
    ensures PublishedTables(t, p).clients[p.clientID].sync.revision > t.clients[p.clientID].sync.revision
  {
  }

  /**
   An attached client gets a new proxy generation exactly in a coordinated
   publication of its own, and then its Forward set is published with it; so a
   Forward set that is published without one is a replay's.
   */
  lemma GenerationsComeInPairs(s: System, step: Step, ledger: map<ProxyRuns.Resource, ProxyRuns.Owner>, clientID: string)
    requires ProxyRuns.Invariant(s.proxy, ledger) && Can(s, step)
    requires step.ProxyAlone? ==> !step.proxyStep.Attach?
    requires clientID in s.proxy.tables.clients && clientID in Do(s, step).proxy.tables.clients
    ensures !SameGeneration(s.proxy.tables, Do(s, step).proxy.tables, clientID) <==>
      Publishes(s, step) && s.proxy.preparations[step.id].clientID == clientID
  {
    if Publishes(s, step) {
      PublishesBoth(s, step);
      PublicationAdvances(s.proxy.tables, s.proxy.preparations[step.id]);
    } else if step.Coordinate? {
      PublishesNeither(s, step);
    } else if step.ProxyAlone? {
      ProxyStepAlone(s.proxy, step.proxyStep, clientID);
    }
  }

  // ---------------------------------------------------------------------
  // Replays
  // ---------------------------------------------------------------------

  /** The pending answer is of a request no newer than the proxies, which have not changed since. */
  ghost predicate AnswerStands(s: System) {
    s.answer.Some? ==>
      var a := s.answer.value;
      && 0 < a.request.revision <= a.revision
      && (Attached(s.proxy.tables, a.clientID, a.sessionID) ==>
            s.proxy.tables.clients[a.clientID].sync.revision == a.revision)
  }

  lemma RecalledIsNoNewer(t: Tables, clientID: string, sessionID: string, request: Request)
    requires Recalls(t, clientID, sessionID, request) && Synced(t)
    ensures 0 < request.revision <= t.clients[clientID].sync.revision
  {
  }

  /** Without the registration lock only a new session touches a client's record. */
  lemma UnlockedProxyStep(w: ProxyRuns.World, step: ProxyRuns.Step, clientID: string, sessionID: string)
    requires ProxyRuns.Can(w, step) && !NeedsRegistrationLock(step) && (step.Attach? ==> step.sessionID != sessionID)
    ensures var t, t' := w.tables, ProxyRuns.Do(w, step).tables;
      Attached(t', clientID, sessionID) ==>
        Attached(t, clientID, sessionID) && t'.clients[clientID].sync == t.clients[clientID].sync
  {
  }

  lemma StepKeepsAnswer(s: System, step: Step)
    requires Can(s, step) && AnswerStands(s) && Synced(s.proxy.tables)
    ensures AnswerStands(Do(s, step))
  {
    match step
    case Recall(clientID, sessionID, request) => RecalledIsNoNewer(s.proxy.tables, clientID, sessionID, request);
    case ProxyAlone(proxyStep) =>
      if s.answer.Some? {
        UnlockedProxyStep(s.proxy, proxyStep, s.answer.value.clientID, s.answer.value.sessionID);
      }
    case _ =>
  }

  lemma {:induction false} AnswersAlongRun(run: seq<System>, steps: seq<Step>, i: nat)
    requires Follows(run, steps) && i < |run|
    ensures AnswerStands(run[i])
  {
    if i > 0 {
      AnswersAlongRun(run, steps, i - 1);
      var _ := BothInvariants(run, steps, i - 1);
      StepKeepsAnswer(run[i - 1], steps[i - 1]);
    }
  }

  /**
   The revisions at a replay, in every run: the Forward set is that of a request
   the proxy registry has applied; if its session is still attached the proxies
   carry the revision they had when it was answered, the request's own or a newer one.
   */
  lemma ReplayRevision(run: seq<System>, steps: seq<Step>, i: nat)
    requires Follows(run, steps) && i < |steps| && steps[i].Replay?
    ensures run[i].answer.Some?
    ensures var a, t := run[i].answer.value, run[i].proxy.tables;
      && 0 < a.request.revision <= a.revision && Do(run[i], steps[i]).proxy.tables == t
      && (Attached(t, a.clientID, a.sessionID) ==> t.clients[a.clientID].sync.revision == a.revision)
  {
    AnswersAlongRun(run, steps, i);
  }
}
