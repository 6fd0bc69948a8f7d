/**
 Direct peer pairs on the virtual network (internal/server/vnetwork_peer.go):
 the server offers a generation to two clients, activates it when both have
 reported ready, and never brings a failed or revoked generation back.
 */
module PeerPairs {
  import opened Options
  import opened Counting
  import opened Text

  const MAX_PAIRS := 4096
  const MAX_NODE_PEERS := 64
  const SECOND := 1_000_000_000
  const OFFER_LIFETIME := 15 * SECOND
  const RETRY_DELAY := 10 * SECOND

  /** The two client IDs in text order. */
  datatype Key = Key(firstID: string, secondID: string)

  function PairKey(left: string, right: string): Key {
    if Compare(right, left) < 0 then Key(right, left) else Key(left, right)
  }

  /** A pair's key does not depend on who asks, and names exactly its two clients. */
  lemma KeyIsSymmetric(left: string, right: string)
    ensures PairKey(left, right) == PairKey(right, left)
    ensures {PairKey(left, right).firstID, PairKey(left, right).secondID} == {left, right}
  {
    CompareIsAntisymmetric(left, right);
    CompareIsZeroOnlyOnEqual(left, right);
  }

  /** `retryAfter` is set once the generation has failed. */
  datatype Pair = Pair(generation: nat, ready: set<string>, active: bool, expiresAt: nat, retryAfter: Option<nat>)

  type Pairs = map<Key, Pair>

  predicate Involves(key: Key, clientID: string) { key.firstID == clientID || key.secondID == clientID }

  function PeersOf(pairs: Pairs, clientID: string): set<Key> { set key <- pairs | Involves(key, clientID) }

  predicate BothReady(key: Key, pair: Pair) { key.firstID in pair.ready && key.secondID in pair.ready }

  // ---------------------------------------------------------------------
  // Critical sections
  // ---------------------------------------------------------------------

  datatype State = State(pairs: Pairs, sequence: nat)

  predicate Waits(pair: Pair, now: nat) { pair.retryAfter.None? || now < pair.retryAfter.value }

  /** `eligible` says whether both sessions are registered with an active pool. */
  predicate Offers(s: State, source: string, target: string, now: nat, eligible: bool) {
    var key := PairKey(source, target);
    && (key in s.pairs ==> !Waits(s.pairs[key], now))
    && (key !in s.pairs ==>
          |s.pairs| < MAX_PAIRS && |PeersOf(s.pairs, source)| < MAX_NODE_PEERS && |PeersOf(s.pairs, target)| < MAX_NODE_PEERS)
    && eligible
  }

  function Offered(s: State, source: string, target: string, now: nat, eligible: bool): State {
    if !Offers(s, source, target, now, eligible) then s
    else State(s.pairs[PairKey(source, target) := Pair(s.sequence + 1, {}, false, now + OFFER_LIFETIME, None)], s.sequence + 1)
  }

  function FailedPair(pair: Pair, now: nat): Pair {
    pair.(ready := {}, active := false, retryAfter := Some(now + RETRY_DELAY))
  }

  predicate Fails(s: State, key: Key, generation: nat) {
    key in s.pairs && s.pairs[key].generation == generation && s.pairs[key].retryAfter.None?
  }

  function Failed(s: State, key: Key, generation: nat, now: nat): State {
    if Fails(s, key, generation) then s.(pairs := s.pairs[key := FailedPair(s.pairs[key], now)]) else s
  }

  /** A ready report counts for the current generation of a session's own pair, unless it has failed. */
  predicate Counts(s: State, clientID: string, current: bool, peerID: string, generation: nat) {
    var key := PairKey(clientID, peerID);
    current && key in s.pairs && s.pairs[key].generation == generation && s.pairs[key].retryAfter.None?
  }

  predicate TooLate(pair: Pair, now: nat) { now >= pair.expiresAt && !pair.active }

  function Readied(pair: Pair, key: Key, clientID: string): Pair {
    var reported := pair.(ready := pair.ready + {clientID});
    reported.(active := pair.active || BothReady(key, reported))
  }

  function Reported(s: State, clientID: string, current: bool, peerID: string, generation: nat, now: nat): State {
    var key := PairKey(clientID, peerID);
    if !Counts(s, clientID, current, peerID, generation) then s
    else if TooLate(s.pairs[key], now) then s.(pairs := s.pairs[key := FailedPair(s.pairs[key], now)])
    else s.(pairs := s.pairs[key := Readied(s.pairs[key], key, clientID)])
  }

  /** An empty client ID revokes every pair. */
  predicate Revokes(key: Key, clientID: string) { clientID == "" || Involves(key, clientID) }

  function Revoked(s: State, clientID: string): State {
    s.(pairs := map key <- s.pairs | !Revokes(key, clientID) :: s.pairs[key])
  }

  predicate Retried(pair: Pair, now: nat) { pair.retryAfter.Some? && now >= pair.retryAfter.value }

  function Aged(pair: Pair, now: nat): Pair {
    if pair.retryAfter.None? && !pair.active && now >= pair.expiresAt then FailedPair(pair, now) else pair
  }

  function Expired(s: State, now: nat): State {
    s.(pairs := map key <- s.pairs | !Retried(s.pairs[key], now) :: Aged(s.pairs[key], now))
  }

  // ---------------------------------------------------------------------
  // Every run
  // ---------------------------------------------------------------------

  datatype Step =
    | Offer(source: string, target: string, now: nat, eligible: bool)
    | Ready(clientID: string, current: bool, peerID: string, generation: nat, now: nat)
    | Fail(key: Key, generation: nat, now: nat)
    | Revoke(clientID: string)
    | Expire(now: nat)

  function Do(s: State, step: Step): State {
    match step
    case Offer(source, target, now, eligible) => Offered(s, source, target, now, eligible)
    case Ready(clientID, current, peerID, generation, now) => Reported(s, clientID, current, peerID, generation, now)
    case Fail(key, generation, now) => Failed(s, key, generation, now)
    case Revoke(clientID) => Revoked(s, clientID)
    case Expire(now) => Expired(s, now)
  }

  /** The generation is that of a pair, not yet failed. */
  ghost predicate Live(s: State, generation: nat) {
    exists key <- s.pairs :: s.pairs[key].generation == generation && s.pairs[key].retryAfter.None?
  }

  ghost predicate ActiveIn(s: State, generation: nat) {
    exists key <- s.pairs :: s.pairs[key].generation == generation && s.pairs[key].active
  }

  /** The step turns a generation active. */
  ghost predicate Activates(s: State, step: Step, generation: nat) {
    !ActiveIn(s, generation) && ActiveIn(Do(s, step), generation)
  }

  ghost predicate PairSound(key: Key, pair: Pair, sequence: nat) {
    && 1 <= pair.generation <= sequence
    && (pair.active ==> BothReady(key, pair) && pair.retryAfter.None?)
    && (pair.retryAfter.Some? ==> pair.ready == {})
    && (!pair.active && pair.retryAfter.None? ==> !BothReady(key, pair))
  }

  ghost predicate Sound(s: State) {
    && (forall key <- s.pairs :: PairSound(key, s.pairs[key], s.sequence))
    && (forall key <- s.pairs, other <- s.pairs | key != other :: s.pairs[key].generation != s.pairs[other].generation)
  }

  ghost predicate Bounded(s: State) {
    |s.pairs| <= MAX_PAIRS && forall clientID :: |PeersOf(s.pairs, clientID)| <= MAX_NODE_PEERS
  }

  /** A pair that keeps its generation and stays in order itself leaves the rest in order. */
  lemma UpdateStaysSound(s: State, key: Key, pair: Pair)
    requires Sound(s) && key in s.pairs && pair.generation == s.pairs[key].generation && PairSound(key, pair, s.sequence)
    ensures Sound(s.(pairs := s.pairs[key := pair]))
  {
  }

  lemma ReportStaysSound(s: State, clientID: string, current: bool, peerID: string, generation: nat, now: nat)
    requires Sound(s)
    ensures Sound(Reported(s, clientID, current, peerID, generation, now))
  {
    var key := PairKey(clientID, peerID);
    if Counts(s, clientID, current, peerID, generation) {
      assert PairSound(key, s.pairs[key], s.sequence);
      UpdateStaysSound(s, key, FailedPair(s.pairs[key], now));
      UpdateStaysSound(s, key, Readied(s.pairs[key], key, clientID));
    }
  }

  lemma OfferStaysSound(s: State, source: string, target: string, now: nat, eligible: bool)
    requires Sound(s)
    ensures Sound(Offered(s, source, target, now, eligible))
  {
  }

  lemma StepStaysSound(s: State, step: Step)
    requires Sound(s)
    ensures Sound(Do(s, step))
  {
    match step
    case Offer(source, target, now, eligible) => OfferStaysSound(s, source, target, now, eligible);
    case Ready(clientID, current, peerID, generation, now) => ReportStaysSound(s, clientID, current, peerID, generation, now);
    case Fail(key, generation, now) =>
      if Fails(s, key, generation) {
        UpdateStaysSound(s, key, FailedPair(s.pairs[key], now));
      }
    case Revoke(_) =>
    case Expire(_) =>
  }

  lemma FewerStayBounded(s: State, s': State)
    requires Bounded(s) && s'.pairs.Keys <= s.pairs.Keys
    ensures Bounded(s')
  {
    SubsetCardinality(s'.pairs.Keys, s.pairs.Keys);
    assert |s'.pairs.Keys| == |s'.pairs| && |s.pairs.Keys| == |s.pairs|;
    forall clientID ensures |PeersOf(s'.pairs, clientID)| <= MAX_NODE_PEERS {
      SubsetCardinality(PeersOf(s'.pairs, clientID), PeersOf(s.pairs, clientID));
    }
  }

  lemma PeersMore(pairs: Pairs, key: Key, pair: Pair, clientID: string)
    requires key !in pairs
    ensures |PeersOf(pairs[key := pair], clientID)| == |PeersOf(pairs, clientID)| + if Involves(key, clientID) then 1 else 0
  {
    assert PeersOf(pairs[key := pair], clientID) == PeersOf(pairs, clientID) + if Involves(key, clientID) then {key} else {};
  }

  lemma KeyInvolves(source: string, target: string, clientID: string)
    ensures Involves(PairKey(source, target), clientID) <==> clientID == source || clientID == target
  {
  }

  lemma OfferStaysBounded(s: State, s': State, source: string, target: string, key: Key, pair: Pair)
    requires Bounded(s) && key == PairKey(source, target) && key !in s.pairs && s'.pairs == s.pairs[key := pair]
    requires |s.pairs| < MAX_PAIRS && |PeersOf(s.pairs, source)| < MAX_NODE_PEERS
    requires |PeersOf(s.pairs, target)| < MAX_NODE_PEERS
    ensures Bounded(s')
  {
    CardinalityMore(s.pairs, key, pair);
    forall clientID ensures |PeersOf(s'.pairs, clientID)| <= MAX_NODE_PEERS {
      PeersMore(s.pairs, key, pair, clientID);
      KeyInvolves(source, target, clientID);
    }
  }

  lemma StepStaysBounded(s: State, step: Step)
    requires Bounded(s)
    ensures Bounded(Do(s, step))
  {
    if step.Offer? && Offers(s, step.source, step.target, step.now, step.eligible) && PairKey(step.source, step.target) !in s.pairs {
      var key, s' := PairKey(step.source, step.target), Do(s, step);
      OfferStaysBounded(s, s', step.source, step.target, key, s'.pairs[key]);
    } else {
      FewerStayBounded(s, Do(s, step));
    }
  }

  ghost predicate Moves(run: seq<State>, steps: seq<Step>, i: nat)
    requires |run| == |steps| + 1 && i < |steps|
  {
    run[i + 1] == Do(run[i], steps[i])
  }

  ghost predicate Follows(run: seq<State>, steps: seq<Step>) {
    && |run| == |steps| + 1
    && run[0] == State(map[], 0)
    && (forall i: nat | i < |steps| :: Moves(run, steps, i))
  }

  /** In every run at most 4096 pairs exist and at most 64 per client, and an active pair has both sides ready and no retry delay. */
  lemma {:induction false} PairsAlongRun(run: seq<State>, steps: seq<Step>, i: nat)
    requires Follows(run, steps) && i < |run|
    ensures Sound(run[i]) && Bounded(run[i])
  {
    if i > 0 {
      PairsAlongRun(run, steps, i - 1);
      assert Moves(run, steps, i - 1);
      StepStaysSound(run[i - 1], steps[i - 1]);
      StepStaysBounded(run[i - 1], steps[i - 1]);
    } else {
      forall clientID ensures PeersOf(run[0].pairs, clientID) == {} {
      }
    }
  }

  /** A generation that has been handed out and is not live will not become live again. */
  lemma DeadStaysDead(s: State, step: Step, generation: nat)
    requires Sound(s) && generation <= s.sequence && !Live(s, generation)
    ensures generation <= Do(s, step).sequence && !Live(Do(s, step), generation)
  {
    var s' := Do(s, step);
    forall key <- s'.pairs | s'.pairs[key].generation == generation ensures s'.pairs[key].retryAfter.Some? {
      assert key in s.pairs && s.pairs[key].generation == generation;
    }
  }

  lemma {:induction false} DeadForever(run: seq<State>, steps: seq<Step>, i: nat, j: nat, generation: nat)
    requires Follows(run, steps) && i <= j < |run| && generation <= run[i].sequence && !Live(run[i], generation)
    ensures generation <= run[j].sequence && !Live(run[j], generation)
    decreases j - i
  {
    if i < j {
      DeadForever(run, steps, i, j - 1, generation);
      PairsAlongRun(run, steps, j - 1);
      assert Moves(run, steps, j - 1);
      DeadStaysDead(run[j - 1], steps[j - 1], generation);
    }
  }

  /** Once a generation has failed or was revoked it is never activated. */
  lemma NoActivationAfterEnd(run: seq<State>, steps: seq<Step>, i: nat, j: nat, generation: nat)
    requires Follows(run, steps) && i <= j < |steps| && generation <= run[i].sequence && !Live(run[i], generation)
    ensures !Activates(run[j], steps[j], generation)
  {
    DeadForever(run, steps, i, j + 1, generation);
    PairsAlongRun(run, steps, j + 1);
    assert Moves(run, steps, j);
  }

  /** An active generation stays active until it is dead. */
  lemma ActiveUntilDead(s: State, step: Step, generation: nat)
    requires Sound(s) && ActiveIn(s, generation)
    ensures ActiveIn(Do(s, step), generation) || (generation <= Do(s, step).sequence && !Live(Do(s, step), generation))
  {
    var s' := Do(s, step);
    var key :| key in s.pairs && s.pairs[key].generation == generation && s.pairs[key].active;
    assert PairSound(key, s.pairs[key], s.sequence);
    if !ActiveIn(s', generation) {
      forall other <- s'.pairs | s'.pairs[other].generation == generation ensures s'.pairs[other].retryAfter.Some? {
        ActiveTurnsFailed(s, step, generation, key, other);
      }
    }
  }

  lemma ActiveTurnsFailed(s: State, step: Step, generation: nat, key: Key, other: Key)
    requires Sound(s) && key in s.pairs && s.pairs[key].generation == generation && s.pairs[key].active
    requires other in Do(s, step).pairs && Do(s, step).pairs[other].generation == generation
    ensures Do(s, step).pairs[other].active || Do(s, step).pairs[other].retryAfter.Some?
  {
    assert PairSound(key, s.pairs[key], s.sequence);
    assert other in s.pairs ==> (s.pairs[other].generation == generation ==> other == key);
  }

  lemma {:induction false} ActiveOrDead(run: seq<State>, steps: seq<Step>, i: nat, j: nat, generation: nat)
    requires Follows(run, steps) && i <= j < |run| && ActiveIn(run[i], generation)
    ensures ActiveIn(run[j], generation) || (generation <= run[j].sequence && !Live(run[j], generation))
    decreases j - i
  {
    if i < j {
      ActiveOrDead(run, steps, i, j - 1, generation);
      PairsAlongRun(run, steps, j - 1);
      assert Moves(run, steps, j - 1);
      if ActiveIn(run[j - 1], generation) {
        ActiveUntilDead(run[j - 1], steps[j - 1], generation);
      } else {
        DeadStaysDead(run[j - 1], steps[j - 1], generation);
      }
    }
  }

  /** Each generation is activated at most once. */
  lemma ActivatedAtMostOnce(run: seq<State>, steps: seq<Step>, i: nat, j: nat, generation: nat)
    requires Follows(run, steps) && i < j < |steps| && Activates(run[i], steps[i], generation)
    ensures !Activates(run[j], steps[j], generation)
  {
    assert Moves(run, steps, i);
    ActiveOrDead(run, steps, i + 1, j, generation);
    if !ActiveIn(run[j], generation) {
      NoActivationAfterEnd(run, steps, j, j, generation);
    }
  }

  /** Reports and failures of any generation but the pair's current one change nothing. */
  lemma OldReportsChangeNothing(s: State, step: Step)
    requires step.Ready? || step.Fail?
    requires var key := if step.Ready? then PairKey(step.clientID, step.peerID) else step.key;
      key in s.pairs ==> s.pairs[key].generation != step.generation
    ensures Do(s, step) == s
  {
  }

  lemma ActivationIsReport(s: State, step: Step, generation: nat, key: Key)
    requires Sound(s) && !ActiveIn(s, generation)
    requires key in Do(s, step).pairs && Do(s, step).pairs[key].generation == generation
    requires Do(s, step).pairs[key].active
    ensures step.Ready? && step.generation == generation
    ensures Counts(s, step.clientID, step.current, step.peerID, generation)
    ensures key == PairKey(step.clientID, step.peerID)
    ensures forall id | id in {key.firstID, key.secondID} && id != step.clientID :: id in s.pairs[key].ready
  {
    if key in s.pairs && s.pairs[key].generation == generation {
      assert !s.pairs[key].active;
    }
  }

  /** The step is a side's ready report that counts for the generation and comes in time. */
  ghost predicate Reports(s: State, step: Step, key: Key, id: string, generation: nat) {
    && step.Ready? && step.clientID == id && step.generation == generation && PairKey(id, step.peerID) == key
    && Counts(s, id, step.current, step.peerID, generation) && !TooLate(s.pairs[key], step.now)
  }

  ghost predicate HasReported(run: seq<State>, steps: seq<Step>, i: nat, key: Key, id: string, generation: nat)
    requires |run| == |steps| + 1 && i <= |steps|
  {
    exists j: nat | j < i :: Reports(run[j], steps[j], key, id, generation)
  }

  lemma ReadyStep(s: State, step: Step, key: Key, id: string)
    requires key in Do(s, step).pairs && id in Do(s, step).pairs[key].ready
    ensures var generation := Do(s, step).pairs[key].generation;
      || Reports(s, step, key, id, generation)
      || (key in s.pairs && s.pairs[key].generation == generation && id in s.pairs[key].ready)
  {
  }

  /** A side is marked ready only because it has reported so, in the generation that is current now. */
  lemma {:induction false} ReadyWasReported(run: seq<State>, steps: seq<Step>, i: nat, key: Key, id: string)
    requires Follows(run, steps) && i < |run| && key in run[i].pairs && id in run[i].pairs[key].ready
    ensures HasReported(run, steps, i, key, id, run[i].pairs[key].generation)
  {
    var generation := run[i].pairs[key].generation;
    assert Moves(run, steps, i - 1);
    ReadyStep(run[i - 1], steps[i - 1], key, id);
    if !Reports(run[i - 1], steps[i - 1], key, id, generation) {
      ReadyWasReported(run, steps, i - 1, key, id);
      var j: nat :| j < i - 1 && Reports(run[j], steps[j], key, id, generation);
    }
  }

  /**
   A generation is activated by a ready report of one side, and by then each of
   the two sides has reported ready in that very generation, in time.
   */
  lemma ActivationNeedsBoth(run: seq<State>, steps: seq<Step>, i: nat, generation: nat)
    requires Follows(run, steps) && i < |steps| && Activates(run[i], steps[i], generation)
    ensures steps[i].Ready?
    ensures var key := PairKey(steps[i].clientID, steps[i].peerID);
      && Reports(run[i], steps[i], key, steps[i].clientID, generation)
      && HasReported(run, steps, i + 1, key, steps[i].clientID, generation)
      && HasReported(run, steps, i + 1, key, steps[i].peerID, generation)
  {
    PairsAlongRun(run, steps, i);
    PairsAlongRun(run, steps, i + 1);
    assert Moves(run, steps, i);
    var key :| key in run[i + 1].pairs && run[i + 1].pairs[key].generation == generation && run[i + 1].pairs[key].active;
    ActivationIsReport(run[i], steps[i], generation, key);
    KeyIsSymmetric(steps[i].clientID, steps[i].peerID);
    ReadyWasReported(run, steps, i + 1, key, steps[i].clientID);
    ReadyWasReported(run, steps, i + 1, key, steps[i].peerID);
  }

  // ---------------------------------------------------------------------
  // The coordinator
  // ---------------------------------------------------------------------

  datatype Report = ReportReady | ReportFailed | ReportClosed | ReportUnknown

  ghost function Seen(pairs: Pairs, left: set<Key>, clientID: string): set<Key> {
    set key <- pairs | key !in left && Involves(key, clientID)
  }

  lemma SeenMore(pairs: Pairs, left: set<Key>, key: Key, clientID: string)
    requires key in pairs && key in left
    ensures |Seen(pairs, left - {key}, clientID)| == |Seen(pairs, left, clientID)| + if Involves(key, clientID) then 1 else 0
  {
    assert Seen(pairs, left - {key}, clientID) == Seen(pairs, left, clientID) + if Involves(key, clientID) then {key} else {};
  }

  class Coordinator {
    var pairs: Pairs
    var sequence: nat

    function View(): State reads this { State(pairs, sequence) }

    constructor ()
      ensures View() == State(map[], 0)
    {
      pairs, sequence := map[], 0;
    }

    /** How many pairs each of two clients is in. */
    method CountPeers(source: string, target: string) returns (sourceCount: nat, targetCount: nat)
      ensures sourceCount == |PeersOf(pairs, source)| && targetCount == |PeersOf(pairs, target)|
    {
      sourceCount, targetCount := 0, 0;
      var left := pairs.Keys;
      while left != {}
        invariant left <= pairs.Keys
        invariant sourceCount == |Seen(pairs, left, source)| && targetCount == |Seen(pairs, left, target)|
        decreases left
      {
        var key :| key in left;
        SeenMore(pairs, left, key, source);
        SeenMore(pairs, left, key, target);
        left := left - {key};
        if key.firstID == source || key.secondID == source {
          sourceCount := sourceCount + 1;
        }
        if key.firstID == target || key.secondID == target {
          targetCount := targetCount + 1;
        }
      }
      assert Seen(pairs, {}, source) == PeersOf(pairs, source) && Seen(pairs, {}, target) == PeersOf(pairs, target);
    }

    method OfferPeer(source: string, target: string, now: nat, eligible: bool) returns (offered: Option<nat>)
      modifies this
      ensures View() == Offered(old(View()), source, target, now, eligible)
      ensures offered == if old(Offers(View(), source, target, now, eligible)) then Some(sequence) else None
    {
      var key := PairKey(source, target);
      if key in pairs && (pairs[key].retryAfter.None? || now < pairs[key].retryAfter.value) {
        return None;
      }
      if key !in pairs && |pairs| >= MAX_PAIRS {
        return None;
      }
      if key !in pairs {
        var sourceCount, targetCount := CountPeers(source, target);
        if sourceCount >= MAX_NODE_PEERS || targetCount >= MAX_NODE_PEERS {
          return None;
        }
      }
      if !eligible {
        return None;
      }
      sequence := sequence + 1;
      pairs := pairs[key := Pair(sequence, {}, false, now + OFFER_LIFETIME, None)];
      return Some(sequence);
    }

    method FailPeerPair(left: string, right: string, generation: nat, now: nat)
      modifies this
      ensures View() == Failed(old(View()), PairKey(left, right), generation, now)
    {
      var key := PairKey(left, right);
      if key !in pairs || pairs[key].generation != generation || pairs[key].retryAfter.Some? {
        return;
      }
      pairs := pairs[key := FailedPair(pairs[key], now)];
    }

    /** `activated` says that this report completed the pair. */
    method PeerStatus(clientID: string, current: bool, peerID: string, generation: nat, report: Report, now: nat)
      returns (activated: bool)
      modifies this
      ensures report.ReportReady? ==> View() == Reported(old(View()), clientID, current, peerID, generation, now)
      ensures report.ReportFailed? || report.ReportClosed? ==>
        View() == if current then Failed(old(View()), PairKey(clientID, peerID), generation, now) else old(View())
      ensures report.ReportUnknown? ==> View() == old(View())
      ensures activated <==>
        var key := PairKey(clientID, peerID);
        && report.ReportReady? && old(Counts(View(), clientID, current, peerID, generation))
        && key in pairs && pairs[key].active && !old(pairs)[key].active
    {
      activated := false;
      var key := PairKey(clientID, peerID);
      if !current || key !in pairs || pairs[key].generation != generation {
        return;
      }
      match report {
        case ReportUnknown => return;
        case ReportFailed => FailPeerPair(clientID, peerID, generation, now); return;
        case ReportClosed => FailPeerPair(clientID, peerID, generation, now); return;
        case ReportReady =>
      }
      var pair := pairs[key];
      if pair.retryAfter.Some? {
        return;
      }
      if now >= pair.expiresAt && !pair.active {
        pairs := pairs[key := FailedPair(pair, now)];
        return;
      }
      pair := pair.(ready := pair.ready + {clientID});
      var ready := key.firstID in pair.ready && key.secondID in pair.ready;
      activated := ready && !pair.active;
      if activated {
        pair := pair.(active := true);
      }
      pairs := pairs[key := pair];
    }

    method RevokePeers(clientID: string)
      modifies this
      ensures View() == Revoked(old(View()), clientID)
    {
      var left := pairs.Keys;
      while left != {}
        invariant left <= old(pairs).Keys && sequence == old(sequence)
        invariant pairs == map key <- old(pairs) | key in left || !Revokes(key, clientID) :: old(pairs)[key]
        decreases left
      {
        var key :| key in left;
        left := left - {key};
        if clientID == "" || key.firstID == clientID || key.secondID == clientID {
          pairs := pairs - {key};
        }
      }
    }

    method ExpirePeerPairs(now: nat)
      modifies this
      ensures View() == Expired(old(View()), now)
    {
      var left := pairs.Keys;
      while left != {}
        invariant left <= old(pairs).Keys && sequence == old(sequence)
        invariant pairs == map key <- old(pairs) | key in left || !Retried(old(pairs)[key], now) ::
                             if key in left then old(pairs)[key] else Aged(old(pairs)[key], now)
        decreases left
      {
        var key :| key in left;
        left := left - {key};
        var pair := pairs[key];
        if pair.retryAfter.Some? {
          if now >= pair.retryAfter.value {
            pairs := pairs - {key};
          }
        } else if !pair.active && now >= pair.expiresAt {
          pairs := pairs[key := FailedPair(pair, now)];
        }
      }
    }
  }
}
