/**
 Every interleaving of Forward transactions, removals, policy changes and
 closing (internal/forward/registry). Binding sets are named by numbers that
 stand for their identity.
 */
module ForwardRuns {
  import opened Authentication
  import opened ForwardRegistry
  import opened Options

  type Generation = nat

  datatype Transaction = Transaction(session: SessionKey, previous: Generation, next: Generation, live: bool)

  /** `sets` holds every set ever made, published or not. */
  datatype State = State(
    sessions: map<SessionKey, Generation>,
    sets: map<Generation, Bindings>,
    transactions: map<nat, Transaction>,
    closed: bool)

  const EMPTY := State(map[], map[], map[], false)

  datatype Step =
    | Begin(transaction: nat, key: SessionKey, context: Context, declarations: seq<Declaration>, policy: Policy,
            reserved: Generation, next: Generation, prepared: Bindings)
    | Commit(transaction: nat, policy: Policy, companion: bool)
    | Rollback(transaction: nat)
    | Remove(key: SessionKey)
    | ApplyPolicy(policy: Policy)
    | Close
    | Elsewhere

  /** Elsewhere is a step of some other part of the server. New transactions and new sets have new names; a prepared set is the one BeginSync builds. */
  ghost predicate Can(s: State, step: Step) {
    match step
    case Begin(transaction, key, context, declarations, policy, reserved, next, prepared) =>
      && transaction !in s.transactions && reserved !in s.sets && next !in s.sets && reserved != next
      && (Acceptable(declarations, context, policy) ==> Prepares(prepared, declarations, context, policy))
    case Commit(transaction, _, _) => transaction in s.transactions && s.transactions[transaction].next in s.sets
    case Rollback(transaction) => transaction in s.transactions
    case _ => true
  }

  /** The tests of CommitWith before its companion. */
  ghost predicate Ready(s: State, transaction: nat, policy: Policy)
    requires transaction in s.transactions && s.transactions[transaction].next in s.sets
  {
    var t := s.transactions[transaction];
    && t.live && !s.closed
    && t.session in s.sessions && s.sessions[t.session] == t.previous
    && StillAllowed(s.sets[t.next], policy)
  }

  ghost function Begun(s: State, transaction: nat, key: SessionKey, reserved: Generation, next: Generation,
                       prepared: Bindings): State
  {
    var previous := if key in s.sessions then s.sessions[key] else reserved;
    var sets := if key in s.sessions then s.sets else s.sets[reserved := map[]];
    s.(sessions := s.sessions[key := previous],
       sets := sets[next := prepared],
       transactions := s.transactions[transaction := Transaction(key, previous, next, true)])
  }

  ghost function Discarded(s: State, transaction: nat): State
    requires transaction in s.transactions
  {
    s.(transactions := s.transactions[transaction := s.transactions[transaction].(live := false)])
  }

  ghost predicate Published(s: State, generation: Generation) {
    exists key <- s.sessions :: s.sessions[key] == generation
  }

  ghost function Do(s: State, step: Step): State
    requires Can(s, step)
  {
    match step
    case Begin(transaction, key, context, declarations, policy, reserved, next, prepared) =>
      if !Acceptable(declarations, context, policy) || s.closed then s
      else Begun(s, transaction, key, reserved, next, prepared)
    case Commit(transaction, policy, companion) =>
      var t := s.transactions[transaction];
      if !Ready(s, transaction, policy) then Discarded(s, transaction)
      else if !companion then s
      else Discarded(s, transaction).(sessions := s.sessions[t.session := t.next])
    case Rollback(transaction) => Discarded(s, transaction)
    case Remove(key) => s.(sessions := s.sessions - {key})
    case ApplyPolicy(policy) =>
      s.(sets := map generation <- s.sets ::
                   if Published(s, generation) then Repoliced(s.sets[generation], policy) else s.sets[generation])
    case Close => s.(sessions := map[], closed := true)
    case Elsewhere => s
  }

  ghost predicate Commits(s: State, step: Step) {
    && Can(s, step) && step.Commit? && step.companion && Ready(s, step.transaction, step.policy)
  }

  // ---------------------------------------------------------------------
  // A set that has gone never comes back
  // ---------------------------------------------------------------------

  /** Neither published nor still to be published. */
  ghost predicate Departed(s: State, generation: Generation) {
    && generation in s.sets
    && (forall key <- s.sessions :: s.sessions[key] != generation)
    && (forall t <- s.transactions | s.transactions[t].live :: s.transactions[t].next != generation)
  }

  /** Each transaction's observed set is still its session's set, or gone for good. */
  ghost predicate Observes(s: State, t: nat)
    requires t in s.transactions
  {
    var transaction := s.transactions[t];
    (transaction.session in s.sessions && s.sessions[transaction.session] == transaction.previous) ||
    Departed(s, transaction.previous)
  }

  ghost predicate Sound(s: State) {
    && (forall key <- s.sessions :: s.sessions[key] in s.sets)
    && (forall key <- s.sessions, other <- s.sessions | key != other :: s.sessions[key] != s.sessions[other])
    && (forall t <- s.transactions :: s.transactions[t].next in s.sets)
    && (forall t <- s.transactions, u <- s.transactions | t != u :: s.transactions[t].next != s.transactions[u].next)
    && (forall t <- s.transactions, key <- s.sessions | s.transactions[t].live :: s.sessions[key] != s.transactions[t].next)
  }

  ghost predicate Invariant(s: State) {
    Sound(s) && forall t <- s.transactions :: Observes(s, t)
  }

  lemma BegunStaysSound(s: State, transaction: nat, key: SessionKey, reserved: Generation, next: Generation,
                        prepared: Bindings)
    requires Sound(s) && transaction !in s.transactions && reserved !in s.sets && next !in s.sets && reserved != next
    ensures Sound(Begun(s, transaction, key, reserved, next, prepared))
  {
  }

  lemma StepStaysSound(s: State, step: Step)
    requires Sound(s) && Can(s, step)
    ensures Sound(Do(s, step))
  {
    match step
    case Begin(transaction, key, _, _, _, reserved, next, prepared) =>
      BegunStaysSound(s, transaction, key, reserved, next, prepared);
    case _ =>
  }

  lemma DepartedStays(s: State, step: Step, generation: Generation)
    requires Sound(s) && Can(s, step) && Departed(s, generation)
    ensures Departed(Do(s, step), generation)
  {
  }

  lemma StillObserves(s: State, step: Step, t: nat)
    requires Sound(s) && Can(s, step) && t in s.transactions && Observes(s, t)
    ensures Observes(Do(s, step), t)
  {
    if Departed(s, s.transactions[t].previous) {
      DepartedStays(s, step, s.transactions[t].previous);
    }
  }

  lemma StepKeepsInvariant(s: State, step: Step)
    requires Invariant(s) && Can(s, step)
    ensures Invariant(Do(s, step))
  {
    StepStaysSound(s, step);
    forall t <- Do(s, step).transactions
      ensures Observes(Do(s, step), t)
    {
      if t in s.transactions {
        StillObserves(s, step, t);
      }
    }
  }

  ghost predicate Follows(run: seq<State>, steps: seq<Step>) {
    && |run| == |steps| + 1
    && run[0] == EMPTY
    && (forall i | 0 <= i < |steps| :: Can(run[i], steps[i]) && run[i + 1] == Do(run[i], steps[i]))
  }

  lemma {:induction false} InvariantAlongRun(run: seq<State>, steps: seq<Step>, i: nat)
    requires Follows(run, steps) && i < |run|
    ensures Invariant(run[i])
  {
    if i > 0 {
      InvariantAlongRun(run, steps, i - 1);
      StepKeepsInvariant(run[i - 1], steps[i - 1]);
    }
  }

  lemma {:induction false} DepartedForever(run: seq<State>, steps: seq<Step>, i: nat, j: nat, generation: Generation)
    requires Follows(run, steps) && i <= j < |run| && Departed(run[i], generation)
    ensures Departed(run[j], generation)
    decreases j - i
  {
    if i < j {
      DepartedForever(run, steps, i, j - 1, generation);
      InvariantAlongRun(run, steps, j - 1);
      DepartedStays(run[j - 1], steps[j - 1], generation);
    }
  }

  /** A transaction keeps its session and its two sets, and once dead stays dead. */
  lemma {:induction false} TransactionsPersist(run: seq<State>, steps: seq<Step>, i: nat, j: nat, t: nat)
    requires Follows(run, steps) && i <= j < |run| && t in run[i].transactions
    ensures t in run[j].transactions
    ensures run[j].transactions[t] == run[i].transactions[t].(live := run[j].transactions[t].live)
    ensures run[j].transactions[t].live ==> run[i].transactions[t].live
    decreases j - i
  {
    if i < j {
      TransactionsPersist(run, steps, i, j - 1, t);
    }
  }

  /**
   However transactions interleave, at most one of those prepared over one set
   of a session commits, and one transaction commits at most once.
   */
  lemma AtMostOneCommits(run: seq<State>, steps: seq<Step>, i: nat, j: nat)
    requires Follows(run, steps) && i < j < |steps| && Commits(run[i], steps[i]) && Commits(run[j], steps[j])
    ensures var first := run[i].transactions[steps[i].transaction];
      var second := run[j].transactions[steps[j].transaction];
      first.session != second.session || first.previous != second.previous
    ensures steps[i].transaction != steps[j].transaction
  {
    var first := run[i].transactions[steps[i].transaction];
    InvariantAlongRun(run, steps, i);
    assert Departed(run[i + 1], first.previous);
    DepartedForever(run, steps, i + 1, j, first.previous);
    TransactionsPersist(run, steps, i + 1, j, steps[i].transaction);
  }

  /** No transaction begun before its session was removed commits afterwards. */
  lemma NoneAfterRemove(run: seq<State>, steps: seq<Step>, i: nat, j: nat)
    requires Follows(run, steps) && i < j < |steps| && steps[i].Remove?
    requires steps[j].Commit? && steps[j].transaction in run[i].transactions
    requires run[i].transactions[steps[j].transaction].session == steps[i].key
    ensures !Commits(run[j], steps[j])
  {
    var t := steps[j].transaction;
    var previous := run[i].transactions[t].previous;
    InvariantAlongRun(run, steps, i);
    InvariantAlongRun(run, steps, i + 1);
    assert Observes(run[i + 1], t);
    DepartedForever(run, steps, i + 1, j, previous);
    TransactionsPersist(run, steps, i, j, t);
  }

  lemma {:induction false} ClosedForever(run: seq<State>, steps: seq<Step>, i: nat, j: nat)
    requires Follows(run, steps) && i <= j < |run| && run[i].closed
    ensures run[j].closed
    decreases j - i
  {
    if i < j {
      ClosedForever(run, steps, i, j - 1);
    }
  }

  /** Nothing commits once the registry has been closed. */
  lemma NoneAfterClose(run: seq<State>, steps: seq<Step>, i: nat, j: nat)
    requires Follows(run, steps) && i < j < |steps| && steps[i].Close?
    ensures !Commits(run[j], steps[j])
  {
    ClosedForever(run, steps, i + 1, j);
  }

  // ---------------------------------------------------------------------
  // What lookups see
  // ---------------------------------------------------------------------

  ghost function Lookup(s: State, key: SessionKey, name: string): Option<Binding> {
    if key in s.sessions && s.sessions[key] in s.sets && name in s.sets[s.sessions[key]]
    then Some(s.sets[s.sessions[key]][name]) else None
  }

  /** Preparing, failing to commit and rolling back change nothing a lookup can see. */
  lemma UnpublishedIsInvisible(s: State, step: Step, key: SessionKey, name: string)
    requires Invariant(s) && Can(s, step) && (step.Begin? || step.Rollback? || (step.Commit? && !Commits(s, step)))
    ensures Lookup(Do(s, step), key, name) == Lookup(s, key, name)
  {
  }

  /** A commit shows exactly the prepared set to its session, and nothing new to any other. */
  lemma CommitShowsPrepared(s: State, step: Step, key: SessionKey, name: string)
    requires Invariant(s) && Commits(s, step)
    ensures var t := s.transactions[step.transaction];
      Lookup(Do(s, step), key, name) ==
      if key != t.session then Lookup(s, key, name)
      else if name in s.sets[t.next] then Some(s.sets[t.next][name]) else None
  {
  }

  /** Every published binding is as active as the policy grants. */
  ghost predicate Agrees(s: State, policy: Policy) {
    forall key <- s.sessions | s.sessions[key] in s.sets :: AgreeingSet(s.sets[s.sessions[key]], policy)
  }

  ghost predicate AgreeingSet(bindings: Bindings, policy: Policy) {
    forall name <- bindings ::
      bindings[name].active == policy(bindings[name].authentication, bindings[name].declaration).active
  }

  /**
   Applying a policy makes every published binding agree with it, and until
   the policy changes again no commit, however stale its preparation, brings
   in a binding that does not.
   */
  lemma PolicyStaysInForce(s: State, step: Step, policy: Policy)
    requires Invariant(s) && Can(s, step)
    requires step.ApplyPolicy? || Agrees(s, policy)
    requires step.ApplyPolicy? || step.Commit? ==> step.policy == policy
    ensures Agrees(Do(s, step), policy)
  {
    var s' := Do(s, step);
    forall key <- s'.sessions | s'.sessions[key] in s'.sets
      ensures AgreeingSet(s'.sets[s'.sessions[key]], policy)
    {
      if step.ApplyPolicy? {
        assert Published(s, s.sessions[key]);
      }
    }
  }
}
