/**
 Exactly when a peer pair is offered, activated and dropped
 (internal/server/vnetwork_peer.go), in terms of the reports that were made.
 */
module PeerLaws {
  import opened Options
  import opened PeerPairs

  // ---------------------------------------------------------------------
  // Offers
  // ---------------------------------------------------------------------

  /** How many pairs the client is in, on either side. */
  ghost function PairsWith(s: State, clientID: string): set<Key> {
    set key <- s.pairs | key.firstID == clientID || key.secondID == clientID
  }

  /** The pair can be offered: both eligible, and it waits out a failure no longer, or is new and within the bounds. */
  ghost predicate Offerable(s: State, source: string, target: string, now: nat, eligible: bool) {
    var key := PairKey(source, target);
    && eligible
    && (if key in s.pairs then s.pairs[key].retryAfter.Some? && s.pairs[key].retryAfter.value <= now
        else |s.pairs| < 4096 && |PairsWith(s, source)| < 64 && |PairsWith(s, target)| < 64)
  }

  /** An offer is made if and only if the pair can be offered; it then has a generation nobody had, with nobody ready, for fifteen seconds. */
  lemma OfferedIff(s: State, source: string, target: string, now: nat, eligible: bool)
    ensures var s', key := Offered(s, source, target, now, eligible), PairKey(source, target);
      if Offerable(s, source, target, now, eligible) then
        && s'.sequence == s.sequence + 1 && key in s'.pairs && s'.pairs == s.pairs[key := s'.pairs[key]]
        && var pair := s'.pairs[key];
        && pair.generation == s'.sequence && pair.ready == {} && !pair.active && pair.retryAfter.None?
        && pair.expiresAt == now + 15_000_000_000
      else s' == s
  {
    assert PairsWith(s, source) == PeersOf(s.pairs, source) && PairsWith(s, target) == PeersOf(s.pairs, target);
  }

  // ---------------------------------------------------------------------
  // Activation
  // ---------------------------------------------------------------------

  /** The side has reported and has not lost that by a failure: in the pair's current generation only one report counts. */
  lemma ReadyOfKey(s: State, step: Step, key: Key, id: string, generation: nat)
    requires Reports(s, step, key, id, generation)
    ensures var s' := Do(s, step); key in s'.pairs && s'.pairs[key].generation == generation && id in s'.pairs[key].ready
  {
  }

  ghost predicate StandsAt(s: State, key: Key, generation: nat) {
    key in s.pairs && s.pairs[key].generation == generation && s.pairs[key].retryAfter.None?
  }

  /**
   A report counts if it is its sender's current session's, names the generation
   that stands, and comes before the offer is over or when the pair is active.
   One that comes too late fails the pair; any other changes nothing.
   */
  lemma ReportsIff(s: State, step: Step, key: Key, id: string, generation: nat)
    requires step.Ready? && step.clientID == id && step.generation == generation && PairKey(id, step.peerID) == key
    ensures Reports(s, step, key, id, generation) <==>
      step.current && StandsAt(s, key, generation) && (s.pairs[key].active || step.now < s.pairs[key].expiresAt)
    ensures !Reports(s, step, key, id, generation) ==>
      Do(s, step) ==
        if step.current && StandsAt(s, key, generation)
        then s.(pairs := s.pairs[key := s.pairs[key].(ready := {}, active := false, retryAfter := Some(step.now + 10_000_000_000))])
        else s
  {
  }

  /** While a generation stands, nobody who is ready becomes unready. */
  lemma ReadyStays(s: State, step: Step, key: Key, id: string, generation: nat)
    requires Sound(s) && StandsAt(s, key, generation) && id in s.pairs[key].ready && StandsAt(Do(s, step), key, generation)
    ensures id in Do(s, step).pairs[key].ready
  {
  }

  /** A generation that stands now has stood since it was offered. */
  lemma StoodBefore(s: State, step: Step, key: Key, generation: nat)
    requires Sound(s) && generation <= s.sequence && StandsAt(Do(s, step), key, generation)
    ensures StandsAt(s, key, generation)
  {
  }

  lemma StoodInRun(run: seq<State>, steps: seq<Step>, i: nat, key: Key, generation: nat)
    requires Follows(run, steps) && i < |steps| && generation <= run[i].sequence && StandsAt(run[i + 1], key, generation)
    ensures StandsAt(run[i], key, generation)
  {
    PairsAlongRun(run, steps, i);
    assert Moves(run, steps, i);
    StoodBefore(run[i], steps[i], key, generation);
  }

  lemma ReadyInRun(run: seq<State>, steps: seq<Step>, i: nat, key: Key, id: string, generation: nat)
    requires Follows(run, steps) && i < |steps| && StandsAt(run[i], key, generation) && StandsAt(run[i + 1], key, generation)
    requires id in run[i].pairs[key].ready || Reports(run[i], steps[i], key, id, generation)
    ensures id in run[i + 1].pairs[key].ready
  {
    PairsAlongRun(run, steps, i);
    assert Moves(run, steps, i);
    if Reports(run[i], steps[i], key, id, generation) {
      ReadyOfKey(run[i], steps[i], key, id, generation);
    } else {
      ReadyStays(run[i], steps[i], key, id, generation);
    }
  }

  lemma {:induction false} SequenceGrows(run: seq<State>, steps: seq<Step>, i: nat, j: nat)
    requires Follows(run, steps) && i <= j < |run|
    ensures run[i].sequence <= run[j].sequence
    decreases j - i
  {
    if i < j {
      SequenceGrows(run, steps, i, j - 1);
      assert Moves(run, steps, j - 1);
    }
  }

  lemma ReportNamesKnown(run: seq<State>, steps: seq<Step>, j: nat, i: nat, key: Key, id: string, generation: nat)
    requires Follows(run, steps) && j <= i < |steps| && Reports(run[j], steps[j], key, id, generation)
    ensures generation <= run[i].sequence
  {
    PairsAlongRun(run, steps, j);
    assert PairSound(key, run[j].pairs[key], run[j].sequence);
    SequenceGrows(run, steps, j, i);
  }

  /** Whoever has reported ready in a generation that stands is marked ready. */
  lemma {:induction false} ReportIsRemembered(run: seq<State>, steps: seq<Step>, j: nat, i: nat, key: Key, id: string,
                                              generation: nat)
    requires Follows(run, steps) && j < i < |run| && Reports(run[j], steps[j], key, id, generation)
    requires StandsAt(run[i], key, generation)
    ensures id in run[i].pairs[key].ready
    decreases i - j
  {
    ReportNamesKnown(run, steps, j, i - 1, key, id, generation);
    StoodInRun(run, steps, i - 1, key, generation);
    if j < i - 1 {
      ReportIsRemembered(run, steps, j, i - 1, key, id, generation);
    }
    ReadyInRun(run, steps, i - 1, key, id, generation);
  }

  /** In every run the sides marked ready in a generation that stands are exactly those that have reported ready in it. */
  lemma ReadyIffReported(run: seq<State>, steps: seq<Step>, i: nat, key: Key, id: string, generation: nat)
    requires Follows(run, steps) && i < |run| && StandsAt(run[i], key, generation)
    ensures id in run[i].pairs[key].ready <==> HasReported(run, steps, i, key, id, generation)
  {
    if id in run[i].pairs[key].ready {
      ReadyWasReported(run, steps, i, key, id);
    }
    if HasReported(run, steps, i, key, id, generation) {
      var j: nat :| j < i && Reports(run[j], steps[j], key, id, generation);
      ReportIsRemembered(run, steps, j, i, key, id, generation);
    }
  }

  /** In every run a generation that stands is active if and only if both its sides have reported ready in it. */
  lemma ActiveIffBothReported(run: seq<State>, steps: seq<Step>, i: nat, key: Key, generation: nat)
    requires Follows(run, steps) && i < |run| && StandsAt(run[i], key, generation)
    ensures run[i].pairs[key].active <==>
      HasReported(run, steps, i, key, key.firstID, generation) && HasReported(run, steps, i, key, key.secondID, generation)
  {
    PairsAlongRun(run, steps, i);
    assert PairSound(key, run[i].pairs[key], run[i].sequence);
    ReadyIffReported(run, steps, i, key, key.firstID, generation);
    ReadyIffReported(run, steps, i, key, key.secondID, generation);
  }

  // ---------------------------------------------------------------------
  // The end of a pair
  // ---------------------------------------------------------------------

  /** Revoking a client leaves no pair with it on either side and every other pair as it is; revoking nobody in particular leaves none. */
  lemma RevocationIsExact(s: State, clientID: string, key: Key)
    ensures var s' := Revoked(s, clientID);
      && s'.sequence == s.sequence
      && (key in s'.pairs <==> key in s.pairs && clientID != "" && key.firstID != clientID && key.secondID != clientID)
      && (key in s'.pairs ==> s'.pairs[key] == s.pairs[key])
  {
  }

  /** As time passes a pair is dropped once its retry delay is over, and fails once its offer is over without being taken up. */
  lemma ExpiryIsExact(s: State, now: nat, key: Key)
    ensures var s' := Expired(s, now);
      && s'.sequence == s.sequence
      && (key in s'.pairs <==> key in s.pairs && !(s.pairs[key].retryAfter.Some? && s.pairs[key].retryAfter.value <= now))
      && (key in s'.pairs ==>
            var pair := s.pairs[key];
            s'.pairs[key] ==
              if pair.retryAfter.None? && !pair.active && pair.expiresAt <= now
              then pair.(ready := {}, active := false, retryAfter := Some(now + 10_000_000_000)) else pair)
  {
  }

  /** A failure ends exactly the named generation of the pair, if it stands, for ten seconds. */
  lemma FailureIsExact(s: State, key: Key, generation: nat, now: nat)
    ensures var s' := Failed(s, key, generation, now);
      if StandsAt(s, key, generation) then
        s' == s.(pairs := s.pairs[key := s.pairs[key].(ready := {}, active := false, retryAfter := Some(now + 10_000_000_000))])
      else s' == s
  {
  }
}
