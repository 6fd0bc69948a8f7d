/**
 The server's authentication store (internal/authentication/authentication.go):
 immutable snapshots of Token-backed records, and a store that replaces the
 snapshot while rotating the generation of every record it must revoke.
 */
module Authentication {

  datatype Mode = Shared | Governed | Managed

  /** SHA-256 of a Token, taken as an injective function. */
  datatype Credential = Digest(token: string)

  /** The authenticated identity bound to a transport connection. */
  datatype Context = Context(mode: Mode, clientID: string, credentialID: Credential, generation: nat)

  datatype Record = Record(context: Context, token: string)

  type Snapshot = map<Credential, Record>

  datatype SnapshotResult = Built(snapshot: Snapshot) | DuplicateToken

  function Selector(token: string): Credential {
    Digest(token)
  }

  predicate SameIdentity(left: Context, right: Context) {
    left.mode == right.mode && left.clientID == right.clientID
  }

  predicate IsCurrent(snapshot: Snapshot, context: Context) {
    && context.credentialID in snapshot
    && SameIdentity(snapshot[context.credentialID].context, context)
    && snapshot[context.credentialID].context.generation == context.generation
  }

  predicate ContainsRecord(snapshot: Snapshot, context: Context) {
    && context.credentialID in snapshot
    && SameIdentity(snapshot[context.credentialID].context, context)
  }

  /** Every record is filed under its own credential, and carries it. */
  ghost predicate WellFiled(snapshot: Snapshot) {
    forall selector <- snapshot ::
      snapshot[selector].context.credentialID == selector == Selector(snapshot[selector].token)
  }

  /** The set Snapshot.Contexts lists. */
  function Contexts(snapshot: Snapshot): set<Context> {
    set selector <- snapshot :: snapshot[selector].context
  }

  ghost predicate DistinctTokens(records: seq<Record>) {
    forall i, j | 0 <= i < j < |records| :: records[i].token != records[j].token
  }

  function Filed(record: Record): Record {
    record.(context := record.context.(credentialID := Selector(record.token)))
  }

  /** Fails exactly on a repeated Token; otherwise files each record once, changing only its credential. */
  method NewSnapshot(records: seq<Record>) returns (result: SnapshotResult)
    ensures result.Built? <==> DistinctTokens(records)
    ensures result.Built? ==>
      && WellFiled(result.snapshot)
      && result.snapshot.Values == (set i | 0 <= i < |records| :: Filed(records[i]))
  {
    var index: Snapshot := map[];
    for i := 0 to |records|
      invariant DistinctTokens(records[..i])
      invariant WellFiled(index)
      invariant forall k | 0 <= k < i :: Selector(records[k].token) in index && index[Selector(records[k].token)] == Filed(records[k])
      invariant forall selector <- index :: exists k | 0 <= k < i :: selector == Selector(records[k].token)
    {
      var selector := Selector(records[i].token);
      if selector in index {
        ghost var k :| 0 <= k < i && selector == Selector(records[k].token);
        assert records[k].token == records[i].token;
        return DuplicateToken;
      }
      index := index[selector := Filed(records[i])];
    }
    assert records[..|records|] == records;
    result := Built(index);
  }

  // ---------------------------------------------------------------------
  // One replacement
  // ---------------------------------------------------------------------

  ghost predicate Retains(current: Snapshot, candidate: Snapshot, rotated: set<Credential>, selector: Credential)
    requires selector in candidate
  {
    && selector in current
    && SameIdentity(current[selector].context, candidate[selector].context)
    && selector !in rotated
  }

  ghost predicate SameButGeneration(left: Record, right: Record) {
    left == right.(context := right.context.(generation := left.context.generation))
  }

  /**
   What one ReplaceRevoking may do: it publishes the candidate's records, a
   retained record keeps its generation, and every other record gets a
   generation that no store state before it ever used, each a different one.
   The order in which fresh generations are handed out is left open, as map
   iteration leaves it open in the source.
   */
  ghost predicate Replaces(current: Snapshot, last: nat, candidate: Snapshot, rotated: set<Credential>,
                           next: Snapshot, last': nat)
  {
    next.Keys == candidate.Keys && Assigns(current, last, candidate, rotated, next, last')
  }

  /** The records handed out so far follow the rule, for any part of the candidate. */
  ghost predicate Assigns(current: Snapshot, last: nat, candidate: Snapshot, rotated: set<Credential>,
                          next: Snapshot, last': nat)
  {
    && last <= last'
    && next.Keys <= candidate.Keys
    && (forall selector <- next :: SameButGeneration(next[selector], candidate[selector]))
    && (forall selector <- next | Retains(current, candidate, rotated, selector) ::
          next[selector].context.generation == current[selector].context.generation)
    && (forall selector <- next | !Retains(current, candidate, rotated, selector) ::
          last < next[selector].context.generation <= last')
    && (forall a <- next, b <- next |
          a != b && !Retains(current, candidate, rotated, a) && !Retains(current, candidate, rotated, b) ::
          next[a].context.generation != next[b].context.generation)
  }

  function Credentials(revoked: seq<Context>): set<Credential> {
    set i | 0 <= i < |revoked| :: revoked[i].credentialID
  }

  class Store {
    var current: Snapshot
    var nextGeneration: nat

    constructor (snapshot: Snapshot)
      ensures nextGeneration == 1
      ensures current.Keys == snapshot.Keys
      ensures forall selector <- current ::
        SameButGeneration(current[selector], snapshot[selector]) && current[selector].context.generation == 1
    {
      nextGeneration := 1;
      current := map selector <- snapshot ::
        snapshot[selector].(context := snapshot[selector].context.(generation := 1));
    }

    method ReplaceRevoking(candidate: Snapshot, revoked: seq<Context>)
      modifies this
      ensures Replaces(old(current), old(nextGeneration), candidate, Credentials(revoked), current, nextGeneration)
    {
      var previous := current;
      var rotated: set<Credential> := {};
      for i := 0 to |revoked|
        invariant rotated == Credentials(revoked[..i])
      {
        rotated := rotated + {revoked[i].credentialID};
        assert revoked[..i + 1] == revoked[..i] + [revoked[i]];
      }
      assert revoked[..|revoked|] == revoked;

      var records: Snapshot := map[];
      var remaining := candidate.Keys;
      while remaining != {}
        invariant remaining <= candidate.Keys && records.Keys == candidate.Keys - remaining
        invariant current == previous
        invariant Assigns(previous, old(nextGeneration), candidate, rotated, records, nextGeneration)
        decreases |remaining|
      {
        var selector :| selector in remaining;
        remaining := remaining - {selector};
        var record := candidate[selector];
        ghost var records0, last0 := records, nextGeneration;
        if selector in previous && SameIdentity(previous[selector].context, record.context) && selector !in rotated {
          record := record.(context := record.context.(generation := previous[selector].context.generation));
        } else {
          nextGeneration := nextGeneration + 1;
          record := record.(context := record.context.(generation := nextGeneration));
        }
        records := records[selector := record];
        AssignsOneMore(previous, old(nextGeneration), candidate, rotated, records0, last0, selector, record, nextGeneration);
      }
      current := records;
    }
  }

  /** Assigning one more selector, by either branch, follows the rule. */
  lemma AssignsOneMore(current: Snapshot, last: nat, candidate: Snapshot, rotated: set<Credential>,
                       next: Snapshot, last0: nat, selector: Credential, record: Record, last1: nat)
    requires Assigns(current, last, candidate, rotated, next, last0)
    requires selector in candidate && selector !in next && SameButGeneration(record, candidate[selector])
    requires if Retains(current, candidate, rotated, selector)
             then last1 == last0 && record.context.generation == current[selector].context.generation
             else last1 == last0 + 1 && record.context.generation == last1
    ensures Assigns(current, last, candidate, rotated, next[selector := record], last1)
  {
    var next' := next[selector := record];
    forall s <- next' | !Retains(current, candidate, rotated, s)
      ensures last < next'[s].context.generation <= last1
    {
      assert s == selector || s in next;
    }
  }

  /** One replacement keeps exactly the contexts that the candidate retains and that were not revoked. */
  lemma ReplacementKeepsExactly(current: Snapshot, last: nat, candidate: Snapshot, rotated: set<Credential>,
                                next: Snapshot, last': nat, context: Context)
    requires Replaces(current, last, candidate, rotated, next, last')
    requires IsCurrent(current, context) && context.generation <= last
    ensures IsCurrent(next, context) <==> ContainsRecord(candidate, context) && context.credentialID !in rotated
  {
    if context.credentialID in next {
      assert SameButGeneration(next[context.credentialID], candidate[context.credentialID]);
    }
  }

  // ---------------------------------------------------------------------
  // Every sequence of replacements
  // ---------------------------------------------------------------------

  datatype StoreState = StoreState(current: Snapshot, last: nat)

  ghost predicate Issued(s: StoreState) {
    forall selector <- s.current :: s.current[selector].context.generation <= s.last
  }

  ghost predicate Replacement(s: StoreState, s': StoreState) {
    exists candidate: Snapshot, rotated: set<Credential> ::
      Replaces(s.current, s.last, candidate, rotated, s'.current, s'.last)
  }

  ghost predicate StoreRun(run: seq<StoreState>) {
    && |run| > 0
    && Issued(run[0])
    && (forall i | 0 <= i < |run| - 1 :: Replacement(run[i], run[i + 1]))
  }

  lemma {:induction false} GenerationsGrow(run: seq<StoreState>, i: nat, j: nat)
    requires StoreRun(run) && i <= j < |run|
    ensures run[i].last <= run[j].last && Issued(run[j])
    decreases j
  {
    if j > 0 {
      GenerationsGrow(run, if i < j then i else i - 1, j - 1);
      assert Replacement(run[j - 1], run[j]);
    }
  }

  lemma StaysRevoked(s: StoreState, s': StoreState, context: Context)
    requires Replacement(s, s') && context.generation <= s.last && !IsCurrent(s.current, context)
    ensures !IsCurrent(s'.current, context)
  {
    var candidate: Snapshot, rotated: set<Credential> :|
      Replaces(s.current, s.last, candidate, rotated, s'.current, s'.last);
    var selector := context.credentialID;
    if selector in s'.current {
      assert SameButGeneration(s'.current[selector], candidate[selector]);
    }
  }

  /**
   A context that was once issued and then stopped being current is dead for
   ever: no later sequence of replacements, whether it drops and re-adds the
   Token or switches its mode there and back, makes it current again.
   */
  lemma {:induction false} RevokedContextNeverReturns(run: seq<StoreState>, i: nat, j: nat, k: nat, context: Context)
    requires StoreRun(run) && i <= j <= k < |run|
    requires IsCurrent(run[i].current, context) && !IsCurrent(run[j].current, context)
    ensures !IsCurrent(run[k].current, context)
    decreases k
  {
    if j < k {
      RevokedContextNeverReturns(run, i, j, k - 1, context);
      GenerationsGrow(run, 0, i);
      GenerationsGrow(run, i, k - 1);
      StaysRevoked(run[k - 1], run[k], context);
    }
  }
}
