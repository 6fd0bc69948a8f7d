/**
 Exactly when a Forward transaction commits (internal/forward/registry/
 sync_transaction.go), in terms of what happened to its session since it began.
 */
module ForwardLaws {
  import opened Authentication
  import opened ForwardRegistry
  import opened ForwardRuns
  import opened Options

  /** The step takes the session's set away from a transaction that observed it. */
  ghost predicate Overtakes(s: State, step: Step, key: SessionKey) {
    || step.Close? || step == Remove(key)
    || (Commits(s, step) && s.transactions[step.transaction].session == key)
  }

  /** The transaction observes the session's current set and has its own set still prepared as it was built. */
  ghost predicate Stands(s: State, t: nat, key: SessionKey, prepared: Bindings) {
    && t in s.transactions && s.transactions[t].session == key && s.transactions[t].next in s.sets
    && s.sets[s.transactions[t].next] == prepared
    && !s.closed && key in s.sessions && s.sessions[key] == s.transactions[t].previous
  }

  lemma BegunStands(s: State, step: Step)
    requires Can(s, step) && step.Begin? && Acceptable(step.declarations, step.context, step.policy) && !s.closed
    ensures Stands(Do(s, step), step.transaction, step.key, step.prepared) && Do(s, step).transactions[step.transaction].live
  {
  }

  lemma StepStands(s: State, step: Step, t: nat, key: SessionKey, prepared: Bindings)
    requires Sound(s) && Can(s, step) && Stands(s, t, key, prepared) && s.transactions[t].live && !Overtakes(s, step, key)
    ensures Stands(Do(s, step), t, key, prepared)
  {
    if step.ApplyPolicy? {
      assert !Published(s, s.transactions[t].next);
    }
  }

  /** The set it observed is gone, so it will not commit. */
  lemma OvertakenDeparts(s: State, step: Step, t: nat, key: SessionKey)
    requires Invariant(s) && Can(s, step) && t in s.transactions && s.transactions[t].session == key && Overtakes(s, step, key)
    ensures Do(s, step).closed || Departed(Do(s, step), s.transactions[t].previous)
  {
    StepKeepsInvariant(s, step);
    assert Observes(Do(s, step), t);
  }

  lemma StandsInRun(run: seq<State>, steps: seq<Step>, i: nat, t: nat, key: SessionKey, prepared: Bindings)
    requires Follows(run, steps) && i < |steps| && Stands(run[i], t, key, prepared) && !Overtakes(run[i], steps[i], key)
    requires t in run[i + 1].transactions && run[i + 1].transactions[t].live
    ensures Stands(run[i + 1], t, key, prepared)
  {
    TransactionsPersist(run, steps, i, i + 1, t);
    InvariantAlongRun(run, steps, i);
    StepStands(run[i], steps[i], t, key, prepared);
  }

  lemma {:induction false} StandsUnlessOvertaken(run: seq<State>, steps: seq<Step>, i: nat, j: nat, t: nat, key: SessionKey,
                                                 prepared: Bindings)
    requires Follows(run, steps) && i <= j < |run| && Stands(run[i], t, key, prepared)
    requires t in run[j].transactions && run[j].transactions[t].live
    requires forall k: nat | i <= k < j :: !Overtakes(run[k], steps[k], key)
    ensures Stands(run[j], t, key, prepared)
    decreases j - i
  {
    if i < j {
      TransactionsPersist(run, steps, i, j - 1, t);
      TransactionsPersist(run, steps, j - 1, j, t);
      StandsUnlessOvertaken(run, steps, i, j - 1, t, key, prepared);
      StandsInRun(run, steps, j - 1, t, key, prepared);
    }
  }

  lemma OvertakenDoesNotCommit(run: seq<State>, steps: seq<Step>, i: nat, k: nat, j: nat, t: nat, key: SessionKey)
    requires Follows(run, steps) && i <= k < j < |steps| && t in run[i].transactions && run[i].transactions[t].session == key
    requires Overtakes(run[k], steps[k], key) && steps[j].Commit? && steps[j].transaction == t
    ensures !Commits(run[j], steps[j])
  {
    TransactionsPersist(run, steps, i, k, t);
    TransactionsPersist(run, steps, k, j, t);
    InvariantAlongRun(run, steps, k);
    OvertakenDeparts(run[k], steps[k], t, key);
    if run[k + 1].closed {
      ClosedForever(run, steps, k + 1, j);
    } else {
      DepartedForever(run, steps, k + 1, j, run[k].transactions[t].previous);
    }
  }

  /**
   In every run a transaction that has not been given up commits if and only if
   its companion accepts, the policy in force grants its bindings as it did when
   they were prepared, and since it began its session was not removed, no other
   transaction of the session has committed and the registry was not closed.
   */
  lemma CommitsIff(run: seq<State>, steps: seq<Step>, i: nat, j: nat)
    requires Follows(run, steps) && i < j < |steps| && steps[i].Begin? && steps[i].transaction in run[i + 1].transactions
    requires steps[j].Commit? && steps[j].transaction == steps[i].transaction
    requires run[j].transactions[steps[j].transaction].live
    ensures Commits(run[j], steps[j]) <==>
      && steps[j].companion
      && (forall name <- steps[i].prepared ::
            var b := steps[i].prepared[name];
            steps[j].policy(b.authentication, b.declaration) == Verdict(true, b.active))
      && (forall k: nat | i < k < j :: !Overtakes(run[k], steps[k], steps[i].key))
  {
    var t, key := steps[i].transaction, steps[i].key;
    BegunStands(run[i], steps[i]);
    if k: nat :| i < k < j && Overtakes(run[k], steps[k], key) {
      OvertakenDoesNotCommit(run, steps, i + 1, k, j, t, key);
    } else {
      StandsUnlessOvertaken(run, steps, i + 1, j, t, key, steps[i].prepared);
    }
  }

  /** What a client may declare: up to 128 Forwards with different names, each a canonical target with a port over TCP or UDP that the policy knows. */
  ghost predicate Declarable(declarations: seq<Declaration>, context: Context, policy: Policy) {
    && |declarations| <= 128
    && (forall d <- declarations ::
          d.wellFormed && d.targetPort > 0 && d.kind in {Tcp, Udp} && policy(context, d).configured)
    && (forall i, j | 0 <= i < j < |declarations| :: declarations[i].name != declarations[j].name)
  }

  /** A transaction begins if and only if the registry is open and everything declared may be declared. */
  lemma BeginsIff(s: State, step: Step)
    requires Can(s, step) && step.Begin?
    ensures step.transaction in Do(s, step).transactions <==> !s.closed && Declarable(step.declarations, step.context, step.policy)
  {
    assert Declarable(step.declarations, step.context, step.policy) <==>
           Acceptable(step.declarations, step.context, step.policy);
  }

  /** A transaction that was rolled back, has failed a commit or has committed never commits again. */
  lemma GivenUpForGood(run: seq<State>, steps: seq<Step>, i: nat, j: nat)
    requires Follows(run, steps) && i < j < |steps| && steps[j].Commit?
    requires steps[i] == Rollback(steps[j].transaction) ||
             (steps[i].Commit? && steps[i].transaction == steps[j].transaction && steps[i].companion)
    ensures !Commits(run[j], steps[j])
  {
    var t := steps[j].transaction;
    assert t in run[i].transactions && run[i + 1] == Do(run[i], steps[i]);
    TransactionsPersist(run, steps, i + 1, j, t);
  }

  /** Removing a session's set hides all its bindings and nobody else's; closing hides all. */
  lemma RemovalIsExact(s: State, step: Step, key: SessionKey, name: string)
    requires Can(s, step) && (step.Remove? || step.Close?)
    ensures Lookup(Do(s, step), key, name) == if step.Close? || step.key == key then None else Lookup(s, key, name)
  {
  }
}
