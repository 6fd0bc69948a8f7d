/**
 Exactly when the UDP limiter admits an association and reserves queue space
 (internal/proxy/udp/limiter.go): in terms of the associations there are and
 of the admissions made, not of the counters it keeps.
 */
module UdpLaws {
  import opened Options
  import opened Counting
  import opened Text
  import opened UdpLimiter

  // ---------------------------------------------------------------------
  // Rates
  // ---------------------------------------------------------------------

  ghost predicate InSecond(now: nat, second: nat) { second * SECOND <= now < (second + 1) * SECOND }

  /** The attempt has room elsewhere, and none of its quotas has been used up in its second. */
  ghost predicate Entitled(before: seq<Attempt>, a: Attempt)
    decreases |before|, 1
  {
    && a.capacity
    && GrantedIn(before, Everyone, a.now / SECOND) < a.config.maxNewPerSecond
    && GrantedIn(before, OneClient(a.clientID), a.now / SECOND) < a.config.maxNewPerSecondPerClient
    && GrantedIn(before, OneProxy(a.proxyKey), a.now / SECOND) < a.config.maxNewPerSecondPerProxy
  }

  /** The plain rule: look at the whole history and count who was entitled in that second. */
  ghost function GrantedIn(attempts: seq<Attempt>, subject: Subject, second: nat): nat
    decreases |attempts|, 0
  {
    if attempts == [] then 0
    else
      var before, last := attempts[..|attempts| - 1], attempts[|attempts| - 1];
      GrantedIn(before, subject, second) +
      if InSecond(last.now, second) && Concerns(subject, last) && Entitled(before, last) then 1 else 0
  }

  lemma WindowIsSecond(now: nat, second: nat)
    ensures Window(now) == second <==> InSecond(now, second)
  {
  }

  lemma SeenDecides(counter: RateCounter, window: nat, limit: int)
    ensures RateAllowed(counter, window, limit) <==> Seen(counter, window) < limit
  {
  }

  /** Before an attempt, each counter it is tested against shows the admissions of its second. */
  lemma CounterShows(before: seq<Attempt>, a: Attempt, subject: Subject)
    requires ClockAdvances(before + [a])
    ensures var window := Window(a.now);
      RateAllowed(CounterFor(CleanedRates(RatesFrom(before), window), subject), window, Quota(subject, a.config)) <==>
      AdmittedIn(before, subject, window) < Quota(subject, a.config)
  {
    var window := Window(a.now);
    assert (before + [a])[..|before|] == before;
    WindowsAdvance(before + [a]);
    CountersRemember(before, subject, window);
    CleaningForgetsNothing(RatesFrom(before), subject, window);
    SeenDecides(CounterFor(CleanedRates(RatesFrom(before), window), subject), window, Quota(subject, a.config));
  }

  /** An attempt is admitted if and only if there is capacity and none of its three quotas is used up. */
  lemma AdmittedIff(before: seq<Attempt>, a: Attempt)
    requires ClockAdvances(before + [a])
    ensures Admitted(RatesFrom(before), a) <==>
      && a.capacity
      && AdmittedIn(before, Everyone, Window(a.now)) < a.config.maxNewPerSecond
      && AdmittedIn(before, OneClient(a.clientID), Window(a.now)) < a.config.maxNewPerSecondPerClient
      && AdmittedIn(before, OneProxy(a.proxyKey), Window(a.now)) < a.config.maxNewPerSecondPerProxy
  {
    CounterShows(before, a, Everyone);
    CounterShows(before, a, OneClient(a.clientID));
    CounterShows(before, a, OneProxy(a.proxyKey));
  }

  lemma {:induction false} CountsAgree(attempts: seq<Attempt>, subject: Subject, second: nat)
    requires ClockAdvances(attempts)
    ensures AdmittedIn(attempts, subject, second) == GrantedIn(attempts, subject, second)
    decreases |attempts|, 0
  {
    if attempts != [] {
      var before, last := attempts[..|attempts| - 1], attempts[|attempts| - 1];
      WindowsAdvance(attempts);
      CountsAgree(before, subject, second);
      assert before + [last] == attempts;
      AdmittedIffEntitled(before, last);
      WindowIsSecond(last.now, second);
    }
  }

  /**
   The limiter's counters, windows and cleanup refine the plain rule: with a
   clock that does not run backwards an attempt is admitted if and only if it
   is entitled by the history.
   */
  lemma {:induction false} AdmittedIffEntitled(before: seq<Attempt>, a: Attempt)
    requires ClockAdvances(before + [a])
    ensures Admitted(RatesFrom(before), a) <==> Entitled(before, a)
    decreases |before|, 1
  {
    assert (before + [a])[..|before|] == before;
    WindowsAdvance(before + [a]);
    AdmittedIff(before, a);
    CountsAgree(before, Everyone, a.now / SECOND);
    CountsAgree(before, OneClient(a.clientID), a.now / SECOND);
    CountsAgree(before, OneProxy(a.proxyKey), a.now / SECOND);
  }

  // ---------------------------------------------------------------------
  // Capacity
  // ---------------------------------------------------------------------

  /** Whose places are counted. */
  datatype Share = Anybody | ClientShare(clientID: string) | ProxyShare(proxyKey: string) | SourceShare(source: Address)

  predicate Belongs(claim: Claim, share: Share) {
    match share
    case Anybody => true
    case ClientShare(clientID) => claim.clientID == clientID
    case ProxyShare(proxyKey) => claim.proxyKey == proxyKey
    case SourceShare(source) => claim.source == Some(source)
  }

  /** The places held, by open leases and by closings that have not come to their second section. */
  ghost function Places(claims: Claims, share: Share): set<Holder> {
    set holder <- claims | claims[holder].occupying && Belongs(claims[holder], share)
  }

  ghost function PendingPlaces(claims: Claims, share: Share): set<Holder> {
    set holder <- claims | claims[holder].pending && Belongs(claims[holder], share)
  }

  lemma CountIsPlaces<K>(claims: Claims, key: Claim -> Option<K>, k: K, places: set<Holder>)
    requires forall holder :: holder in places <==> holder in claims && key(claims[holder]) == Some(k)
    ensures Count(Tally(KeysBy(claims, key)), k) == |places|
  {
    TallyCounts(KeysBy(claims, key), k);
    assert Having(KeysBy(claims, key), k) == places;
  }

  lemma SizeIsPlaces<K>(claims: Claims, key: Claim -> Option<K>, places: set<Holder>)
    requires forall holder :: holder in places <==> holder in claims && key(claims[holder]).Some?
    ensures |KeysBy(claims, key)| == |places|
  {
    assert KeysBy(claims, key).Keys == places;
    assert |KeysBy(claims, key).Keys| == |KeysBy(claims, key)|;
  }

  lemma BooksArePlaces(claims: Claims, clientID: string, proxyKey: string)
    ensures Books(claims).total == |Places(claims, Anybody)|
    ensures Count(Books(claims).clients, clientID) == |Places(claims, ClientShare(clientID))|
    ensures Count(Books(claims).proxies, proxyKey) == |Places(claims, ProxyShare(proxyKey))|
  {
    SizeIsPlaces(claims, ClientOf, Places(claims, Anybody));
    CountIsPlaces(claims, ClientOf, clientID, Places(claims, ClientShare(clientID)));
    CountIsPlaces(claims, ProxyOf, proxyKey, Places(claims, ProxyShare(proxyKey)));
  }

  lemma BooksArePendingPlaces(claims: Claims, clientID: string, proxyKey: string)
    ensures Books(claims).pending == |PendingPlaces(claims, Anybody)|
    ensures Count(Books(claims).pendingClients, clientID) == |PendingPlaces(claims, ClientShare(clientID))|
    ensures Count(Books(claims).pendingProxies, proxyKey) == |PendingPlaces(claims, ProxyShare(proxyKey))|
  {
    SizeIsPlaces(claims, PendingClientOf, PendingPlaces(claims, Anybody));
    CountIsPlaces(claims, PendingClientOf, clientID, PendingPlaces(claims, ClientShare(clientID)));
    CountIsPlaces(claims, PendingProxyOf, proxyKey, PendingPlaces(claims, ProxyShare(proxyKey)));
  }

  lemma BooksAreSourcePlaces(claims: Claims, source: Address)
    ensures Count(Books(claims).sources, source) == |Places(claims, SourceShare(source))|
  {
    CountIsPlaces(claims, SourceOf, source, Places(claims, SourceShare(source)));
  }

  /** A limit has been reached by the places that are held. */
  ghost predicate Full(claims: Claims, config: Config, clientID: string, proxyKey: string, source: Option<Address>) {
    || |Places(claims, Anybody)| >= config.maxAssociations
    || |Places(claims, ClientShare(clientID))| >= config.maxAssociationsPerClient
    || |Places(claims, ProxyShare(proxyKey))| >= config.maxAssociationsPerProxy
    || (source.Some? && |Places(claims, SourceShare(source.value))| >= config.maxAssociationsPerSourceIP)
    || |PendingPlaces(claims, Anybody)| >= config.maxPendingAssociations
    || |PendingPlaces(claims, ClientShare(clientID))| >= config.maxPendingAssociationsPerClient
    || |PendingPlaces(claims, ProxyShare(proxyKey))| >= config.maxPendingAssociationsPerProxy
  }

  lemma CapacityReachedIff(w: World, config: Config, clientID: string, proxyKey: string, source: Option<Address>)
    requires Invariant(w)
    ensures CapacityReached(w.totals, config, clientID, proxyKey, source) <==>
      Full(ClaimsOf(w), config, clientID, proxyKey, source)
  {
    var claims := ClaimsOf(w);
    BooksArePlaces(claims, clientID, proxyKey);
    BooksArePendingPlaces(claims, clientID, proxyKey);
    if source.Some? {
      BooksAreSourcePlaces(claims, source.value);
    }
  }

  /** Who holds a place: an open lease, and a lease whose Close has not come to its second section. */
  lemma PlacesAre(w: World, lease: nat, operation: nat, share: Share)
    requires Sane(w)
    ensures OfLease(lease) in Places(ClaimsOf(w), share) <==>
      lease in w.leases && !w.leases[lease].closed && Belongs(LeaseClaim(w.leases[lease]), share)
    ensures OfOperation(operation) in Places(ClaimsOf(w), share) <==>
      && operation in w.operations && w.operations[operation].Closing?
      && Belongs(LeaseClaim(w.leases[w.operations[operation].lease]), share)
    ensures OfLease(lease) in PendingPlaces(ClaimsOf(w), share) <==>
      && lease in w.leases && !w.leases[lease].closed && w.leases[lease].pending
      && Belongs(LeaseClaim(w.leases[lease]), share)
    ensures OfOperation(operation) in PendingPlaces(ClaimsOf(w), share) <==>
      && operation in w.operations && (w.operations[operation].Activating? || w.operations[operation].wasPending)
      && Belongs(LeaseClaim(w.leases[w.operations[operation].lease]), share)
  {
    ClaimsAre(w, OfLease(lease));
    ClaimsAre(w, OfOperation(operation));
  }

  /** In every run an association is acquired if and only if the rates allow it and no limit has been reached. */
  lemma AcquiredIff(run: seq<World>, events: seq<Event>, i: nat)
    requires Follows(run, events) && i < |events| && events[i].step.Acquire?
    ensures var step, config := events[i].step, events[i].config;
      step.lease in run[i + 1].leases <==>
      events[i].rated && !Full(ClaimsOf(run[i]), config, step.clientID, step.proxyKey, step.source)
  {
    ConservationAlongRun(run, events, i);
    var step := events[i].step;
    CapacityReachedIff(run[i], events[i].config, step.clientID, step.proxyKey, step.source);
  }

  ghost predicate RoomToQueue(w: World, lease: nat, size: nat, config: Config, queued: int)
    requires lease in w.leases
  {
    && !w.leases[lease].closed && w.leases[lease].queued + size <= config.maxQueuedBytesPerAssociation
    && queued + size <= config.maxQueuedBytes
  }

  lemma ReserveStep(w: World, lease: nat, size: nat, config: Config, rated: bool, queued: int)
    requires lease in w.leases && w.totals.queuedBytes == queued
    ensures var w' := Do(w, ReserveQueue(lease, size), config, rated);
      && lease in w'.leases
      && var reserved: nat := if RoomToQueue(w, lease, size, config, queued) then size else 0;
      && w'.leases[lease].queued == w.leases[lease].queued + reserved && w'.totals.queuedBytes == queued + reserved
  {
  }

  lemma QueuedIsSum(run: seq<World>, events: seq<Event>, i: nat)
    requires Follows(run, events) && i < |run|
    ensures run[i].totals.queuedBytes == Sum(QueuedOf(ClaimsOf(run[i])))
  {
    ConservationAlongRun(run, events, i);
  }

  /**
   In every run bytes are reserved if and only if the lease is open and both
   what it has queued and what is queued in all leave room for them.
   */
  lemma ReservedIff(run: seq<World>, events: seq<Event>, i: nat)
    requires Follows(run, events) && i < |events| && events[i].step.ReserveQueue?
    ensures var step, queued := events[i].step, Sum(QueuedOf(ClaimsOf(run[i])));
      && step.lease in run[i].leases && step.lease in run[i + 1].leases
      && var reserved: nat := if RoomToQueue(run[i], step.lease, step.size, events[i].config, queued) then step.size else 0;
      && run[i + 1].leases[step.lease].queued == run[i].leases[step.lease].queued + reserved
      && run[i + 1].totals.queuedBytes == queued + reserved
  {
    QueuedIsSum(run, events, i);
    var step := events[i].step;
    ReserveStep(run[i], step.lease, step.size, events[i].config, events[i].rated, Sum(QueuedOf(ClaimsOf(run[i]))));
  }

  /** Released bytes go back to the lease and to the limiter, unless the lease is closed and Close returns them all. */
  lemma ReleaseIsExact(w: World, lease: nat, size: nat, config: Config, rated: bool)
    requires Can(w, ReleaseQueue(lease, size))
    ensures var w', released := Do(w, ReleaseQueue(lease, size), config, rated), if w.leases[lease].closed then 0 else size;
      && w'.leases == w.leases[lease := w.leases[lease].(queued := w.leases[lease].queued - released)]
      && w'.totals == w.totals.(queuedBytes := w.totals.queuedBytes - released)
  {
  }

  /** Activating an open pending lease takes its pending mark at once and gives the pending place back in the second section. */
  lemma ActivationIsExact(w: World, operation: nat, lease: nat, config: Config, rated: bool)
    requires Can(w, BeginActivate(operation, lease))
    ensures var w' := Do(w, BeginActivate(operation, lease), config, rated);
      && w'.totals == w.totals
      && if !w.leases[lease].closed && w.leases[lease].pending then
           && w'.leases == w.leases[lease := w.leases[lease].(pending := false)]
           && w'.operations == w.operations[operation := Activating(lease)]
         else w' == w
  {
  }

  lemma ActivationEnds(w: World, operation: nat, config: Config, rated: bool)
    requires Sane(w) && Can(w, FinishActivate(operation))
    ensures var w' := Do(w, FinishActivate(operation), config, rated);
      && w'.totals.pending == w.totals.pending - 1 && w'.totals.total == w.totals.total
      && w'.leases == w.leases && w'.operations == w.operations - {operation}
  {
  }

  /** Closing an open lease takes its bytes at once and gives its place, and its pending place if it had one, back in the second section. */
  lemma ClosingIsExact(w: World, operation: nat, lease: nat, config: Config, rated: bool)
    requires Can(w, BeginClose(operation, lease))
    ensures var w' := Do(w, BeginClose(operation, lease), config, rated);
      && w'.totals == w.totals
      && if !w.leases[lease].closed then
           && w'.leases == w.leases[lease := w.leases[lease].(closed := true, queued := 0)]
           && w'.operations == w.operations[operation := Closing(lease, w.leases[lease].pending, w.leases[lease].queued)]
         else w' == w
  {
  }

  lemma ClosingEnds(w: World, operation: nat, config: Config, rated: bool)
    requires Sane(w) && Can(w, FinishClose(operation))
    ensures var w', closing := Do(w, FinishClose(operation), config, rated), w.operations[operation];
      && w'.totals.total == w.totals.total - 1 && w'.totals.queuedBytes == w.totals.queuedBytes - closing.queued
      && w'.totals.pending == w.totals.pending - (if closing.wasPending then 1 else 0)
      && w'.leases == w.leases && w'.operations == w.operations - {operation}
  {
  }

  /** The limits per proxy are per client and proxy name: client IDs have no NUL. */
  lemma ProxyKeysSeparate(clientID: string, name: string, otherID: string, otherName: string)
    requires '\0' !in clientID && '\0' !in otherID
    ensures ProxyKey(clientID, name) == ProxyKey(otherID, otherName) <==> clientID == otherID && name == otherName
  {
    JoinedTexts(clientID, name, otherID, otherName);
  }
}
