/**
 The verdict on a configuration sync and the fate of one that was let through
 (internal/proxy/registry/sync.go, sync_commit.go), read off the requests that
 were applied before.
 */
module SyncLaws {
  import opened SyncCache
  import opened SyncRuns

  // ---------------------------------------------------------------------
  // The verdict
  // ---------------------------------------------------------------------

  /** The request ID is one of the last sixteen applied, as number k. */
  ghost predicate Recent<R>(log: seq<Applied<R>>, k: nat, id: string) {
    k < |log| && |log| <= k + 16 && log[k].request.id == id
  }

  /** The ID is not among the last sixteen and the revision is beyond every one applied. */
  ghost predicate New<R>(log: seq<Applied<R>>, request: Request) {
    && (forall k: nat | k < |log| :: !Recent(log, k, request.id))
    && request.revision > 0 && (forall k | 0 <= k < |log| :: log[k].request.revision < request.revision)
  }

  /** Number k answers the request: it is the same request, recent under its ID or, if its ID is not recent, the last one applied. */
  ghost predicate Answers<R>(log: seq<Applied<R>>, k: nat, request: Request) {
    && k < |log| && log[k].request.revision == request.revision && log[k].request.fingerprint == request.fingerprint
    && (Recent(log, k, request.id) || (k == |log| - 1 && forall l: nat | l < |log| :: !Recent(log, l, request.id)))
  }

  lemma CachedIsRecent<R>(w: World<R>, id: string)
    requires Invariant(w)
    ensures id in w.state.requests <==> exists k: nat | k < |w.log| :: Recent(w.log, k, id)
  {
    if id in w.state.requests {
      var i :| 0 <= i < |w.state.order| && w.state.order[i] == id;
      assert Recent(w.log, Oldest(w.log) + i, id);
    }
    if k: nat :| k < |w.log| && Recent(w.log, k, id) {
      assert w.state.order[k - Oldest(w.log)] == id;
    }
  }

  lemma RecentIsCached<R>(w: World<R>, k: nat, id: string)
    requires Invariant(w) && Recent(w.log, k, id)
    ensures id in w.state.requests
    ensures w.state.requests[id] == Entry(w.log[k].request.revision, w.log[k].request.fingerprint, w.log[k].result)
  {
    assert w.state.order[k - Oldest(w.log)] == id;
  }

  lemma LastIsHighest<R>(w: World<R>, revision: nat)
    requires Invariant(w)
    ensures revision > 0 && (forall k | 0 <= k < |w.log| :: w.log[k].request.revision < revision) <==>
      revision > w.state.revision
  {
    if w.log != [] {
      assert w.log[|w.log| - 1].request.revision == w.state.revision;
    }
  }

  /** A request is let through if and only if it is new. */
  lemma ProceedsIff<R>(w: World<R>, request: Request)
    requires Invariant(w) && Stored(w.state)
    ensures Check(w.state, request) == Proceed <==> New(w.log, request)
  {
    CachedIsRecent(w, request.id);
    LastIsHighest(w, request.revision);
  }

  lemma AnsweredFromCache<R>(w: World<R>, request: Request, k: nat)
    requires Invariant(w) && Stored(w.state) && Recent(w.log, k, request.id)
    ensures Check(w.state, request) ==
      if w.log[k].request.revision == request.revision && w.log[k].request.fingerprint == request.fingerprint
      then Replay(w.log[k].result) else Refuse(RequestChanged)
  {
    RecentIsCached(w, k, request.id);
  }

  lemma AnsweredFromLast<R>(w: World<R>, request: Request)
    requires Invariant(w) && Stored(w.state) && forall k: nat | k < |w.log| :: !Recent(w.log, k, request.id)
    ensures Check(w.state, request).Replay? <==> w.log != [] && Answers(w.log, |w.log| - 1, request)
    ensures Check(w.state, request).Replay? ==> Check(w.state, request).result == w.log[|w.log| - 1].result
  {
    CachedIsRecent(w, request.id);
  }

  /** A request is answered from the cache if and only if it is the same as one applied before that the cache still answers for. */
  lemma ReplayedIff<R>(w: World<R>, request: Request, result: R)
    requires Invariant(w) && Stored(w.state)
    ensures Check(w.state, request) == Replay(result) <==>
      exists k: nat | k < |w.log| :: Answers(w.log, k, request) && w.log[k].result == result
  {
    if k: nat :| k < |w.log| && Recent(w.log, k, request.id) {
      AnsweredFromCache(w, request, k);
      forall l: nat | l < |w.log| && Answers(w.log, l, request) ensures l == k {
        OneRecent(w, k, l, request.id);
      }
      assert Answers(w.log, k, request) <==> Check(w.state, request).Replay?;
    } else {
      AnsweredFromLast(w, request);
    }
  }

  /** Recent request IDs are different. */
  lemma OneRecent<R>(w: World<R>, k: nat, l: nat, id: string)
    requires Invariant(w) && Recent(w.log, k, id) && Recent(w.log, l, id)
    ensures k == l
  {
    assert w.state.order[k - Oldest(w.log)] == id && w.state.order[l - Oldest(w.log)] == id;
  }

  /** In every run the verdict on any request is what the requests applied so far say. */
  lemma VerdictIff<R>(run: seq<World<R>>, steps: seq<Step<R>>, i: nat, request: Request, result: R)
    requires Follows(run, steps) && i < |run|
    ensures Stored(run[i].state)
    ensures Check(run[i].state, request) == Proceed <==> New(run[i].log, request)
    ensures Check(run[i].state, request) == Replay(result) <==>
      exists k: nat | k < |run[i].log| :: Answers(run[i].log, k, request) && run[i].log[k].result == result
  {
    InvariantAlongRun(run, steps, i);
    ProceedsIff(run[i], request);
    ReplayedIff(run[i], request, result);
  }

  // ---------------------------------------------------------------------
  // The fate of a sync that was let through
  // ---------------------------------------------------------------------

  lemma LogStep<R>(w: World<R>, step: Step<R>)
    requires Invariant(w) && Can(w, step)
    ensures var w' := Do(w, step);
      && (w'.log == w.log ==> w'.state == w.state)
      && (w'.log != w.log ==> |w'.log| == |w.log| + 1 && w'.state.revision > w.state.revision)
  {
  }

  lemma {:induction false} RevisionsRise<R>(run: seq<World<R>>, steps: seq<Step<R>>, i: nat, j: nat)
    requires Follows(run, steps) && i <= j < |run|
    ensures |run[i].log| <= |run[j].log| && run[i].state.revision <= run[j].state.revision
    ensures |run[i].log| == |run[j].log| <==> run[i].state.revision == run[j].state.revision
    decreases j - i
  {
    if i < j {
      RevisionsRise(run, steps, i, j - 1);
      InvariantAlongRun(run, steps, j - 1);
      LogStep(run[j - 1], steps[j - 1]);
    }
  }

  lemma AttemptStep<R>(w: World<R>, step: Step<R>, attempt: nat)
    requires Can(w, step) && attempt in w.attempts && attempt in Do(w, step).attempts
    ensures Do(w, step).attempts[attempt] == w.attempts[attempt]
  {
  }

  lemma {:induction false} AttemptStays<R>(run: seq<World<R>>, steps: seq<Step<R>>, i: nat, j: nat, attempt: nat)
    requires Follows(run, steps) && i <= j < |run| && forall k | i <= k <= j :: attempt in run[k].attempts
    ensures run[j].attempts[attempt] == run[i].attempts[attempt]
    decreases j - i
  {
    if i < j {
      AttemptStays(run, steps, i, j - 1, attempt);
      assert attempt in run[j].attempts && run[j] == Do(run[j - 1], steps[j - 1]);
      AttemptStep(run[j - 1], steps[j - 1], attempt);
    }
  }

  /**
   In every run a sync that was let through is applied if and only if the other
   tests of the publication pass and nothing has been applied since it arrived.
   */
  lemma AppliedIff<R>(run: seq<World<R>>, steps: seq<Step<R>>, i: nat, j: nat)
    requires Follows(run, steps) && i < j < |steps| && steps[i].Arrive? && steps[j].Publish?
    requires steps[i].attempt == steps[j].attempt && steps[i].attempt in run[i + 1].attempts
    requires forall k | i < k <= j :: steps[j].attempt in run[k].attempts
    ensures run[j + 1].log ==
      if steps[j].accepted && |run[j].log| == |run[i].log|
      then run[j].log + [Applied(steps[i].request, steps[j].result)] else run[j].log
  {
    AttemptStays(run, steps, i + 1, j, steps[j].attempt);
    RevisionsRise(run, steps, i, j);
    assert run[i + 1].attempts[steps[i].attempt] == Attempt(steps[i].request, run[i].state.revision);
  }
}
