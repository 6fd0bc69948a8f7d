/**
 UDP association accounting (internal/proxy/udp/limiter.go). A lease has its
 own mutex beside the limiter's; Activate and Close take them one after the
 other, so between their two critical sections the limiter still holds what
 the lease no longer shows. Conservation therefore counts the operations in
 flight as well as the open leases.
 */
module UdpLimiter {
  import opened Options
  import opened Counting

  type Address = nat

  datatype Config = Config(
    maxAssociations: int,
    maxAssociationsPerClient: int,
    maxAssociationsPerProxy: int,
    maxAssociationsPerSourceIP: int,
    maxPendingAssociations: int,
    maxPendingAssociationsPerClient: int,
    maxPendingAssociationsPerProxy: int,
    maxNewPerSecond: int,
    maxNewPerSecondPerClient: int,
    maxNewPerSecondPerProxy: int,
    maxQueuedBytes: int,
    maxQueuedBytesPerAssociation: int)

  /** The counters the limiter keeps. */
  datatype Totals = Totals(
    total: int,
    pending: int,
    queuedBytes: int,
    clients: map<string, int>,
    pendingClients: map<string, int>,
    proxies: map<string, int>,
    pendingProxies: map<string, int>,
    sources: map<Address, int>)

  const NO_TOTALS := Totals(0, 0, 0, map[], map[], map[], map[], map[])

  /** What one holder claims from the limiter: a place, a pending place, queued bytes. */
  datatype Claim = Claim(
    clientID: string, proxyKey: string, source: Option<Address>, occupying: bool, pending: bool, queued: int)

  // The key under which a claim is counted in each map, if it is counted there.
  function ClientOf(claim: Claim): Option<string> { if claim.occupying then Some(claim.clientID) else None }
  function ProxyOf(claim: Claim): Option<string> { if claim.occupying then Some(claim.proxyKey) else None }
  function SourceOf(claim: Claim): Option<Address> { if claim.occupying then claim.source else None }
  function PendingClientOf(claim: Claim): Option<string> { if claim.pending then Some(claim.clientID) else None }
  function PendingProxyOf(claim: Claim): Option<string> { if claim.pending then Some(claim.proxyKey) else None }

  function Credited(t: Totals, claim: Claim): Totals {
    Totals(t.total + (if claim.occupying then 1 else 0), t.pending + (if claim.pending then 1 else 0),
           t.queuedBytes + claim.queued,
           Raised(t.clients, ClientOf(claim)), Raised(t.pendingClients, PendingClientOf(claim)),
           Raised(t.proxies, ProxyOf(claim)), Raised(t.pendingProxies, PendingProxyOf(claim)),
           Raised(t.sources, SourceOf(claim)))
  }

  function Debited(t: Totals, claim: Claim): Totals {
    Totals(t.total - (if claim.occupying then 1 else 0), t.pending - (if claim.pending then 1 else 0),
           t.queuedBytes - claim.queued,
           Lowered(t.clients, ClientOf(claim)), Lowered(t.pendingClients, PendingClientOf(claim)),
           Lowered(t.proxies, ProxyOf(claim)), Lowered(t.pendingProxies, PendingProxyOf(claim)),
           Lowered(t.sources, SourceOf(claim)))
  }

  /** The capacity part of the test in acquire. */
  predicate CapacityReached(t: Totals, config: Config, clientID: string, proxyKey: string, source: Option<Address>) {
    || t.total >= config.maxAssociations
    || Count(t.clients, clientID) >= config.maxAssociationsPerClient
    || Count(t.proxies, proxyKey) >= config.maxAssociationsPerProxy
    || (source.Some? && Count(t.sources, source.value) >= config.maxAssociationsPerSourceIP)
    || t.pending >= config.maxPendingAssociations
    || Count(t.pendingClients, clientID) >= config.maxPendingAssociationsPerClient
    || Count(t.pendingProxies, proxyKey) >= config.maxPendingAssociationsPerProxy
  }

  // ---------------------------------------------------------------------
  // Leases, operations in flight, and their claims
  // ---------------------------------------------------------------------

  datatype Lease = Lease(
    clientID: string, proxyKey: string, source: Option<Address>, pending: bool, queued: int, closed: bool)

  /** An Activate or a Close that has left its first critical section and not yet entered its second. */
  datatype Operation = Activating(lease: nat) | Closing(lease: nat, wasPending: bool, queued: int)

  datatype World = World(totals: Totals, leases: map<nat, Lease>, operations: map<nat, Operation>)

  datatype Holder = OfLease(lease: nat) | OfOperation(operation: nat)

  function LeaseClaim(lease: Lease): Claim {
    Claim(lease.clientID, lease.proxyKey, lease.source, true, lease.pending, lease.queued)
  }

  function OperationClaim(lease: Lease, operation: Operation): Claim {
    match operation
    case Activating(_) => Claim(lease.clientID, lease.proxyKey, lease.source, false, true, 0)
    case Closing(_, wasPending, queued) =>
      Claim(lease.clientID, lease.proxyKey, lease.source, true, wasPending, queued)
  }

  datatype Step =
    | Acquire(lease: nat, clientID: string, proxyKey: string, source: Option<Address>)
    | BeginActivate(operation: nat, lease: nat)
    | FinishActivate(operation: nat)
    | ReserveQueue(lease: nat, size: nat)
    | ReleaseQueue(lease: nat, size: nat)
    | BeginClose(operation: nat, lease: nat)
    | FinishClose(operation: nat)

  /**
   Fresh leases and operations get fresh names, calls go to leases that were
   handed out, and a holder releases only bytes it has reserved.
   */
  predicate Can(w: World, step: Step) {
    match step
    case Acquire(lease, _, _, _) => lease !in w.leases
    case BeginActivate(operation, lease) => operation !in w.operations && lease in w.leases
    case FinishActivate(operation) => operation in w.operations && w.operations[operation].Activating?
    case ReserveQueue(lease, _) => lease in w.leases
    case ReleaseQueue(lease, size) =>
      lease in w.leases && (!w.leases[lease].closed ==> size <= w.leases[lease].queued)
    case BeginClose(operation, lease) => operation !in w.operations && lease in w.leases
    case FinishClose(operation) => operation in w.operations && w.operations[operation].Closing?
  }

  predicate OwnsLease(w: World, step: Step) {
    (step.FinishActivate? || step.FinishClose?) && step.operation in w.operations ==>
      w.operations[step.operation].lease in w.leases
  }

  /** Each critical section; `config` is what the limiter holds at that moment, `rated` the rate limiters' verdict. */
  function Do(w: World, step: Step, config: Config, rated: bool): World
    requires Can(w, step) && OwnsLease(w, step)
  {
    match step
    case Acquire(lease, clientID, proxyKey, source) =>
      if CapacityReached(w.totals, config, clientID, proxyKey, source) || !rated then w
      else
        var acquired := Lease(clientID, proxyKey, source, true, 0, false);
        w.(totals := Credited(w.totals, LeaseClaim(acquired)), leases := w.leases[lease := acquired])
    case BeginActivate(operation, lease) =>
      if w.leases[lease].closed || !w.leases[lease].pending then w
      else w.(leases := w.leases[lease := w.leases[lease].(pending := false)],
              operations := w.operations[operation := Activating(lease)])
    case FinishActivate(operation) =>
      var claim := OperationClaim(w.leases[w.operations[operation].lease], w.operations[operation]);
      w.(totals := Debited(w.totals, claim), operations := w.operations - {operation})
    case ReserveQueue(lease, size) =>
      if w.leases[lease].closed || w.leases[lease].queued + size > config.maxQueuedBytesPerAssociation ||
         w.totals.queuedBytes + size > config.maxQueuedBytes then w
      else Queued(w, lease, size)
    case ReleaseQueue(lease, size) =>
      if w.leases[lease].closed then w else Queued(w, lease, Less(size))
    case BeginClose(operation, lease) =>
      if w.leases[lease].closed then w
      else w.(leases := w.leases[lease := w.leases[lease].(closed := true, queued := 0)],
              operations := w.operations[operation := Closing(lease, w.leases[lease].pending, w.leases[lease].queued)])
    case FinishClose(operation) =>
      var claim := OperationClaim(w.leases[w.operations[operation].lease], w.operations[operation]);
      w.(totals := Debited(w.totals, claim), operations := w.operations - {operation})
  }

  function Less(size: nat): int { 0 - size }

  function Queued(w: World, lease: nat, size: int): World
    requires lease in w.leases
  {
    w.(leases := w.leases[lease := w.leases[lease].(queued := w.leases[lease].queued + size)],
       totals := w.totals.(queuedBytes := w.totals.queuedBytes + size))
  }

  // ---------------------------------------------------------------------
  // Books over claims
  // ---------------------------------------------------------------------

  type Claims = map<Holder, Claim>

  ghost function QueuedOf(claims: Claims): map<Holder, int> {
    map holder <- claims :: claims[holder].queued
  }

  /** Every counter of the limiter is the sum of the claims. */
  ghost function Books(claims: Claims): Totals {
    Totals(|KeysBy(claims, ClientOf)|, |KeysBy(claims, PendingClientOf)|, Sum(QueuedOf(claims)),
           Tally(KeysBy(claims, ClientOf)), Tally(KeysBy(claims, PendingClientOf)),
           Tally(KeysBy(claims, ProxyOf)), Tally(KeysBy(claims, PendingProxyOf)),
           Tally(KeysBy(claims, SourceOf)))
  }

  lemma QueuedMore(claims: Claims, holder: Holder, claim: Claim)
    requires holder !in claims
    ensures Sum(QueuedOf(claims[holder := claim])) == Sum(QueuedOf(claims)) + claim.queued
  {
    SumMore(QueuedOf(claims), holder, claim.queued);
    assert QueuedOf(claims[holder := claim]) == QueuedOf(claims)[holder := claim.queued];
  }

  lemma QueuedLess(claims: Claims, holder: Holder)
    requires holder in claims
    ensures Sum(QueuedOf(claims)) == Sum(QueuedOf(claims - {holder})) + claims[holder].queued
  {
    SumLess(QueuedOf(claims), holder);
    assert QueuedOf(claims - {holder}) == QueuedOf(claims) - {holder};
  }

  lemma CreditBalances(claims: Claims, holder: Holder, claim: Claim)
    requires holder !in claims
    ensures Books(claims[holder := claim]) == Credited(Books(claims), claim)
  {
    RaiseTally(claims, ClientOf, holder, claim);
    RaiseTally(claims, PendingClientOf, holder, claim);
    RaiseTally(claims, ProxyOf, holder, claim);
    RaiseTally(claims, PendingProxyOf, holder, claim);
    RaiseTally(claims, SourceOf, holder, claim);
    QueuedMore(claims, holder, claim);
  }

  /** Every counter that a debit lowers is positive, so no clamp hides a mismatch. */
  ghost predicate Covers(t: Totals, claim: Claim) {
    && (claim.occupying ==> t.total >= 1 && Count(t.clients, claim.clientID) >= 1 && Count(t.proxies, claim.proxyKey) >= 1)
    && (claim.occupying && claim.source.Some? ==> Count(t.sources, claim.source.value) >= 1)
    && (claim.pending ==> t.pending >= 1 && Count(t.pendingClients, claim.clientID) >= 1 &&
                          Count(t.pendingProxies, claim.proxyKey) >= 1)
  }

  lemma DebitIsCovered(claims: Claims, holder: Holder)
    requires holder in claims
    ensures Covers(Books(claims), claims[holder])
  {
    if claims[holder].occupying {
      TallyCovers(claims, ClientOf, holder);
      TallyCovers(claims, ProxyOf, holder);
    }
    if claims[holder].occupying && claims[holder].source.Some? {
      TallyCovers(claims, SourceOf, holder);
    }
    if claims[holder].pending {
      TallyCovers(claims, PendingClientOf, holder);
      TallyCovers(claims, PendingProxyOf, holder);
    }
  }

  lemma DebitBalances(claims: Claims, holder: Holder)
    requires holder in claims
    ensures Books(claims - {holder}) == Debited(Books(claims), claims[holder])
  {
    var claim, books, less := claims[holder], Books(claims), Books(claims - {holder});
    assert less.clients == Lowered(books.clients, ClientOf(claim)) &&
           less.total == books.total - (if claim.occupying then 1 else 0) by {
      LowerTally(claims, ClientOf, holder);
    }
    assert less.pendingClients == Lowered(books.pendingClients, PendingClientOf(claim)) &&
           less.pending == books.pending - (if claim.pending then 1 else 0) by {
      LowerTally(claims, PendingClientOf, holder);
    }
    assert less.proxies == Lowered(books.proxies, ProxyOf(claim)) by { LowerTally(claims, ProxyOf, holder); }
    assert less.pendingProxies == Lowered(books.pendingProxies, PendingProxyOf(claim)) by {
      LowerTally(claims, PendingProxyOf, holder);
    }
    assert less.sources == Lowered(books.sources, SourceOf(claim)) by { LowerTally(claims, SourceOf, holder); }
    assert less.queuedBytes == books.queuedBytes - claim.queued by { QueuedLess(claims, holder); }
  }

  lemma CreditUndoesDebit(t: Totals, claim: Claim)
    requires Covers(t, claim)
    ensures Credited(Debited(t, claim), claim) == t
  {
    RaiseUndoesLower(t.clients, ClientOf(claim));
    RaiseUndoesLower(t.pendingClients, PendingClientOf(claim));
    RaiseUndoesLower(t.proxies, ProxyOf(claim));
    RaiseUndoesLower(t.pendingProxies, PendingProxyOf(claim));
    RaiseUndoesLower(t.sources, SourceOf(claim));
  }

  /** Replacing a holder's claim is debiting the old one and crediting the new one. */
  lemma ReplaceBalances(claims: Claims, holder: Holder, claim: Claim)
    requires holder in claims
    ensures Books(claims[holder := claim]) == Credited(Debited(Books(claims), claims[holder]), claim)
  {
    DebitBalances(claims, holder);
    CreditBalances(claims - {holder}, holder, claim);
    assert (claims - {holder})[holder := claim] == claims[holder := claim];
  }

  /** A claim that changes hands leaves every counter as it is. */
  lemma MoveBalances(claims: Claims, from: Holder, to: Holder)
    requires from in claims && to !in claims
    ensures Books((claims - {from})[to := claims[from]]) == Books(claims)
  {
    DebitBalances(claims, from);
    DebitIsCovered(claims, from);
    CreditBalances(claims - {from}, to, claims[from]);
    CreditUndoesDebit(Books(claims), claims[from]);
  }

  /** Splitting a pending place off a claim leaves every counter as it is. */
  lemma SplitBalances(claims: Claims, from: Holder, to: Holder)
    requires from in claims && to !in claims && claims[from].occupying && claims[from].pending
    ensures var claim := claims[from];
      Books(claims[from := claim.(pending := false)][to := claim.(occupying := false, queued := 0)]) == Books(claims)
  {
    var claim := claims[from];
    var kept, split := claim.(pending := false), claim.(occupying := false, queued := 0);
    ReplaceBalances(claims, from, kept);
    CreditBalances(claims[from := kept], to, split);
    DebitIsCovered(claims, from);
    SplitUndoesDebit(Books(claims), claim);
  }

  lemma SplitUndoesDebit(t: Totals, claim: Claim)
    requires Covers(t, claim) && claim.occupying && claim.pending
    ensures Credited(Credited(Debited(t, claim), claim.(pending := false)),
                     claim.(occupying := false, queued := 0)) == t
  {
    RaiseUndoesLower(t.clients, ClientOf(claim));
    RaiseUndoesLower(t.pendingClients, PendingClientOf(claim));
    RaiseUndoesLower(t.proxies, ProxyOf(claim));
    RaiseUndoesLower(t.pendingProxies, PendingProxyOf(claim));
    RaiseUndoesLower(t.sources, SourceOf(claim));
  }

  /** More or fewer queued bytes change one counter only. */
  lemma RequeueBalances(claims: Claims, claims': Claims, holder: Holder, size: int, books: Totals)
    requires holder in claims && holder in claims' && books == Books(claims)
    requires claims'[holder] == claims[holder].(queued := claims[holder].queued + size)
    requires claims' == claims[holder := claims'[holder]]
    ensures Books(claims') == books.(queuedBytes := books.queuedBytes + size)
  {
    DebitIsCovered(claims, holder);
    Requeue(claims, holder, size, books);
  }

  lemma Requeue(claims: Claims, holder: Holder, size: int, books: Totals)
    requires holder in claims && books == Books(claims) && Covers(books, claims[holder])
    ensures Books(claims[holder := claims[holder].(queued := claims[holder].queued + size)]) ==
            books.(queuedBytes := books.queuedBytes + size)
  {
    RequeueUndoesDebit(books, claims[holder], size);
    ReplaceBalances(claims, holder, claims[holder].(queued := claims[holder].queued + size));
  }

  lemma RequeueUndoesDebit(t: Totals, claim: Claim, size: int)
    requires Covers(t, claim)
    ensures Credited(Debited(t, claim), claim.(queued := claim.queued + size)) ==
            t.(queuedBytes := t.queuedBytes + size)
  {
    CreditUndoesDebit(t, claim);
  }

  // ---------------------------------------------------------------------
  // Conservation in every interleaving
  // ---------------------------------------------------------------------

  /** Open leases hold a claim, and so do operations between their two sections. */
  ghost predicate Holds(w: World, holder: Holder) {
    match holder
    case OfLease(lease) => lease in w.leases && !w.leases[lease].closed
    case OfOperation(operation) => operation in w.operations && w.operations[operation].lease in w.leases
  }

  /** An open lease claims what it shows; an operation claims what its second section will return. */
  ghost function ClaimAt(w: World, holder: Holder): Claim
    requires Holds(w, holder)
  {
    match holder
    case OfLease(lease) => LeaseClaim(w.leases[lease])
    case OfOperation(operation) => OperationClaim(w.leases[w.operations[operation].lease], w.operations[operation])
  }

  ghost function ClaimsOf(w: World): Claims {
    map holder | holder in (set lease <- w.leases :: OfLease(lease)) + (set operation <- w.operations :: OfOperation(operation))
                 && Holds(w, holder) :: ClaimAt(w, holder)
  }

  lemma ClaimsAre(w: World, holder: Holder)
    ensures holder in ClaimsOf(w) <==> Holds(w, holder)
    ensures Holds(w, holder) ==> ClaimsOf(w)[holder] == ClaimAt(w, holder)
  {
  }

  lemma SameClaims(w: World, claims: Claims)
    requires forall holder :: holder in claims <==> Holds(w, holder)
    requires forall holder | Holds(w, holder) :: claims[holder] == ClaimAt(w, holder)
    ensures ClaimsOf(w) == claims
  {
    forall holder
      ensures holder in ClaimsOf(w) <==> holder in claims
      ensures holder in claims ==> ClaimsOf(w)[holder] == claims[holder]
    {
      ClaimsAre(w, holder);
    }
  }

  ghost predicate Sane(w: World) {
    && (forall operation <- w.operations :: w.operations[operation].lease in w.leases)
    && (forall operation <- w.operations | w.operations[operation].Closing? :: w.operations[operation].queued >= 0)
    && (forall lease <- w.leases :: w.leases[lease].queued >= 0)
  }

  ghost predicate Invariant(w: World) {
    Sane(w) && w.totals == Books(ClaimsOf(w))
  }

  lemma AcquiredClaims(w: World, w': World, lease: nat, acquired: Lease)
    requires lease !in w.leases && !acquired.closed
    requires forall operation <- w.operations :: w.operations[operation].lease in w.leases
    requires w'.leases == w.leases[lease := acquired] && w'.operations == w.operations
    ensures OfLease(lease) !in ClaimsOf(w)
    ensures ClaimsOf(w') == ClaimsOf(w)[OfLease(lease) := LeaseClaim(acquired)]
  {
    var claims := ClaimsOf(w)[OfLease(lease) := LeaseClaim(acquired)];
    ClaimsAre(w, OfLease(lease));
    forall holder
      ensures holder in claims <==> Holds(w', holder)
      ensures Holds(w', holder) ==> claims[holder] == ClaimAt(w', holder)
    {
      ClaimsAre(w, holder);
    }
    SameClaims(w', claims);
  }

  lemma ActivatingClaims(w: World, w': World, operation: nat, lease: nat)
    requires operation !in w.operations && lease in w.leases && !w.leases[lease].closed
    requires w'.leases == w.leases[lease := w.leases[lease].(pending := false)]
    requires w'.operations == w.operations[operation := Activating(lease)]
    ensures OfLease(lease) in ClaimsOf(w) && OfOperation(operation) !in ClaimsOf(w)
    ensures var claim := ClaimsOf(w)[OfLease(lease)];
      && claim == LeaseClaim(w.leases[lease])
      && ClaimsOf(w') == ClaimsOf(w)[OfLease(lease) := claim.(pending := false)]
                                    [OfOperation(operation) :=
                                       Claim(claim.clientID, claim.proxyKey, claim.source, false, true, 0)]
  {
    ClaimsAre(w, OfLease(lease));
    ClaimsAre(w, OfOperation(operation));
    var claim := LeaseClaim(w.leases[lease]);
    var claims := ClaimsOf(w)[OfLease(lease) := claim.(pending := false)]
                             [OfOperation(operation) :=
                                Claim(claim.clientID, claim.proxyKey, claim.source, false, true, 0)];
    forall holder
      ensures holder in claims <==> Holds(w', holder)
      ensures Holds(w', holder) ==> claims[holder] == ClaimAt(w', holder)
    {
      ClaimsAre(w, holder);
    }
    SameClaims(w', claims);
  }

  lemma ClosingClaims(w: World, w': World, operation: nat, lease: nat)
    requires operation !in w.operations && lease in w.leases && !w.leases[lease].closed
    requires w'.leases == w.leases[lease := w.leases[lease].(closed := true, queued := 0)]
    requires w'.operations ==
             w.operations[operation := Closing(lease, w.leases[lease].pending, w.leases[lease].queued)]
    ensures OfLease(lease) in ClaimsOf(w) && OfOperation(operation) !in ClaimsOf(w)
    ensures ClaimsOf(w') == (ClaimsOf(w) - {OfLease(lease)})[OfOperation(operation) := ClaimsOf(w)[OfLease(lease)]]
  {
    ClaimsAre(w, OfLease(lease));
    ClaimsAre(w, OfOperation(operation));
    var claims := (ClaimsOf(w) - {OfLease(lease)})[OfOperation(operation) := ClaimsOf(w)[OfLease(lease)]];
    forall holder
      ensures holder in claims <==> Holds(w', holder)
      ensures Holds(w', holder) ==> claims[holder] == ClaimAt(w', holder)
    {
      ClaimsAre(w, holder);
    }
    SameClaims(w', claims);
  }

  lemma FinishedClaims(w: World, w': World, operation: nat)
    requires operation in w.operations && w.operations[operation].lease in w.leases
    requires w'.leases == w.leases && w'.operations == w.operations - {operation}
    ensures OfOperation(operation) in ClaimsOf(w)
    ensures ClaimsOf(w)[OfOperation(operation)] ==
            OperationClaim(w.leases[w.operations[operation].lease], w.operations[operation])
    ensures ClaimsOf(w') == ClaimsOf(w) - {OfOperation(operation)}
  {
    ClaimsAre(w, OfOperation(operation));
    var claims := ClaimsOf(w) - {OfOperation(operation)};
    forall holder
      ensures holder in claims <==> Holds(w', holder)
      ensures Holds(w', holder) ==> claims[holder] == ClaimAt(w', holder)
    {
      ClaimsAre(w, holder);
    }
    SameClaims(w', claims);
  }

  lemma RequeuedClaims(w: World, w': World, lease: nat, size: int)
    requires lease in w.leases && !w.leases[lease].closed
    requires w'.leases == w.leases[lease := w.leases[lease].(queued := w.leases[lease].queued + size)]
    requires w'.operations == w.operations
    ensures OfLease(lease) in ClaimsOf(w) && OfLease(lease) in ClaimsOf(w')
    ensures ClaimsOf(w')[OfLease(lease)] ==
            ClaimsOf(w)[OfLease(lease)].(queued := ClaimsOf(w)[OfLease(lease)].queued + size)
    ensures ClaimsOf(w') == ClaimsOf(w)[OfLease(lease) := ClaimsOf(w')[OfLease(lease)]]
  {
    ClaimsAre(w, OfLease(lease));
    var claim := ClaimsOf(w)[OfLease(lease)];
    var claims := ClaimsOf(w)[OfLease(lease) := claim.(queued := claim.queued + size)];
    forall holder
      ensures holder in claims <==> Holds(w', holder)
      ensures Holds(w', holder) ==> claims[holder] == ClaimAt(w', holder)
    {
      ClaimsAre(w, holder);
    }
    SameClaims(w', claims);
  }

  /** A second section returns exactly what is claimed for it, and every counter it lowers is positive. */
  lemma FinishIsCovered(w: World, operation: nat)
    requires Invariant(w) && operation in w.operations
    ensures Covers(w.totals, OperationClaim(w.leases[w.operations[operation].lease], w.operations[operation]))
  {
    FinishedClaims(w, w.(operations := w.operations - {operation}), operation);
    DebitIsCovered(ClaimsOf(w), OfOperation(operation));
  }

  lemma AcquireBalances(w: World, w': World, lease: nat, acquired: Lease)
    requires lease !in w.leases && !acquired.closed && Sane(w) && w.totals == Books(ClaimsOf(w))
    requires w'.leases == w.leases[lease := acquired] && w'.operations == w.operations
    requires w'.totals == Credited(w.totals, LeaseClaim(acquired))
    ensures w'.totals == Books(ClaimsOf(w'))
  {
    AcquiredClaims(w, w', lease, acquired);
    CreditBalances(ClaimsOf(w), OfLease(lease), LeaseClaim(acquired));
  }

  lemma BeginActivateBalances(w: World, w': World, operation: nat, lease: nat)
    requires operation !in w.operations && lease in w.leases && !w.leases[lease].closed && w.leases[lease].pending
    requires w.totals == Books(ClaimsOf(w)) && w'.totals == w.totals
    requires w'.leases == w.leases[lease := w.leases[lease].(pending := false)]
    requires w'.operations == w.operations[operation := Activating(lease)]
    ensures w'.totals == Books(ClaimsOf(w'))
  {
    ActivatingClaims(w, w', operation, lease);
    SplitBalances(ClaimsOf(w), OfLease(lease), OfOperation(operation));
  }

  lemma BeginCloseBalances(w: World, w': World, operation: nat, lease: nat)
    requires operation !in w.operations && lease in w.leases && !w.leases[lease].closed
    requires w.totals == Books(ClaimsOf(w)) && w'.totals == w.totals
    requires w'.leases == w.leases[lease := w.leases[lease].(closed := true, queued := 0)]
    requires w'.operations ==
             w.operations[operation := Closing(lease, w.leases[lease].pending, w.leases[lease].queued)]
    ensures w'.totals == Books(ClaimsOf(w'))
  {
    ClosingClaims(w, w', operation, lease);
    MoveBalances(ClaimsOf(w), OfLease(lease), OfOperation(operation));
  }

  lemma QueueBalances(w: World, w': World, lease: nat, size: int, books: Totals)
    requires lease in w.leases && !w.leases[lease].closed && books == Books(ClaimsOf(w))
    requires w'.leases == w.leases[lease := w.leases[lease].(queued := w.leases[lease].queued + size)]
    requires w'.operations == w.operations
    ensures Books(ClaimsOf(w')) == books.(queuedBytes := books.queuedBytes + size)
  {
    RequeuedClaims(w, w', lease, size);
    RequeueBalances(ClaimsOf(w), ClaimsOf(w'), OfLease(lease), size, books);
  }

  lemma FinishBalances(w: World, w': World, operation: nat)
    requires operation in w.operations && w.operations[operation].lease in w.leases && w.totals == Books(ClaimsOf(w))
    requires w'.leases == w.leases && w'.operations == w.operations - {operation}
    requires w'.totals ==
             Debited(w.totals, OperationClaim(w.leases[w.operations[operation].lease], w.operations[operation]))
    ensures w'.totals == Books(ClaimsOf(w'))
  {
    FinishedClaims(w, w', operation);
    DebitBalances(ClaimsOf(w), OfOperation(operation));
  }

  lemma StepStaysSane(w: World, step: Step, config: Config, rated: bool)
    requires Sane(w) && Can(w, step)
    ensures OwnsLease(w, step) && Sane(Do(w, step, config, rated))
  {
  }

  lemma BeginBalances(w: World, step: Step, config: Config, rated: bool)
    requires Invariant(w) && Can(w, step) && (step.Acquire? || step.BeginActivate? || step.BeginClose?)
    ensures var w' := Do(w, step, config, rated); w'.totals == Books(ClaimsOf(w'))
  {
    var w' := Do(w, step, config, rated);
    if w' != w {
      match step
      case Acquire(lease, clientID, proxyKey, source) =>
        AcquireBalances(w, w', lease, Lease(clientID, proxyKey, source, true, 0, false));
      case BeginActivate(operation, lease) => BeginActivateBalances(w, w', operation, lease);
      case BeginClose(operation, lease) => BeginCloseBalances(w, w', operation, lease);
    }
  }

  lemma QueuedBalances(w: World, lease: nat, size: int)
    requires lease in w.leases && !w.leases[lease].closed && w.totals == Books(ClaimsOf(w))
    ensures var w' := Queued(w, lease, size); w'.totals == Books(ClaimsOf(w'))
  {
    QueueBalances(w, Queued(w, lease, size), lease, size, w.totals);
  }

  lemma ReserveBalances(w: World, lease: nat, size: nat, config: Config, rated: bool)
    requires Invariant(w) && lease in w.leases
    ensures var w' := Do(w, ReserveQueue(lease, size), config, rated); w'.totals == Books(ClaimsOf(w'))
  {
    if Do(w, ReserveQueue(lease, size), config, rated) != w {
      QueuedBalances(w, lease, size);
    }
  }

  lemma ReleaseBalances(w: World, lease: nat, size: nat, config: Config, rated: bool)
    requires Invariant(w) && Can(w, ReleaseQueue(lease, size))
    ensures var w' := Do(w, ReleaseQueue(lease, size), config, rated); w'.totals == Books(ClaimsOf(w'))
  {
    if Do(w, ReleaseQueue(lease, size), config, rated) != w {
      QueuedBalances(w, lease, Less(size));
    }
  }

  lemma StepKeepsInvariant(w: World, step: Step, config: Config, rated: bool)
    requires Invariant(w) && Can(w, step)
    ensures OwnsLease(w, step) && Invariant(Do(w, step, config, rated))
  {
    StepStaysSane(w, step, config, rated);
    match step
    case Acquire(_, _, _, _) => BeginBalances(w, step, config, rated);
    case BeginActivate(_, _) => BeginBalances(w, step, config, rated);
    case BeginClose(_, _) => BeginBalances(w, step, config, rated);
    case ReserveQueue(lease, size) => ReserveBalances(w, lease, size, config, rated);
    case ReleaseQueue(lease, size) => ReleaseBalances(w, lease, size, config, rated);
    case FinishActivate(operation) => FinishBalances(w, Do(w, step, config, rated), operation);
    case FinishClose(operation) => FinishBalances(w, Do(w, step, config, rated), operation);
  }

  /** One step of a run, with the configuration and the rate verdict of its moment. */
  datatype Event = Event(step: Step, config: Config, rated: bool)

  ghost predicate Follows(run: seq<World>, events: seq<Event>) {
    && |run| == |events| + 1
    && run[0] == World(NO_TOTALS, map[], map[])
    && (forall i | 0 <= i < |events| ::
          && Can(run[i], events[i].step) && OwnsLease(run[i], events[i].step)
          && run[i + 1] == Do(run[i], events[i].step, events[i].config, events[i].rated))
  }

  lemma NothingClaimed()
    ensures Invariant(World(NO_TOTALS, map[], map[]))
  {
    var w := World(NO_TOTALS, map[], map[]);
    assert ClaimsOf(w) == map[];
    assert KeysBy(ClaimsOf(w), ClientOf) == map[] && KeysBy(ClaimsOf(w), PendingClientOf) == map[];
    assert KeysBy(ClaimsOf(w), ProxyOf) == map[] && KeysBy(ClaimsOf(w), PendingProxyOf) == map[];
    assert KeysBy(ClaimsOf(w), SourceOf) == map[] && QueuedOf(ClaimsOf(w)) == map[];
  }

  /**
   In every interleaving, with operations stopped anywhere between their two
   sections and the configuration changing at will, every counter equals the
   sum over open leases plus what the operations in flight still hold.
   */
  lemma {:induction false} ConservationAlongRun(run: seq<World>, events: seq<Event>, i: nat)
    requires Follows(run, events) && i < |run|
    ensures Invariant(run[i])
  {
    if i == 0 {
      NothingClaimed();
    } else {
      ConservationAlongRun(run, events, i - 1);
      StepKeepsInvariant(run[i - 1], events[i - 1].step, events[i - 1].config, events[i - 1].rated);
    }
  }

  ghost function OpenClaims(w: World): Claims {
    map lease | lease in w.leases && !w.leases[lease].closed :: OfLease(lease) := LeaseClaim(w.leases[lease])
  }

  lemma QuiescentClaims(w: World)
    requires w.operations == map[]
    ensures ClaimsOf(w) == OpenClaims(w)
  {
    var claims := OpenClaims(w);
    forall holder
      ensures holder in claims <==> Holds(w, holder)
      ensures Holds(w, holder) ==> claims[holder] == ClaimAt(w, holder)
    {
    }
    SameClaims(w, claims);
  }

  lemma NeverNegative(w: World)
    requires Invariant(w)
    ensures w.totals.total >= 0 && w.totals.pending >= 0 && w.totals.queuedBytes >= 0
  {
    var claims := ClaimsOf(w);
    forall holder | holder in claims ensures claims[holder].queued >= 0 {
      ClaimsAre(w, holder);
    }
    SumOfNaturals(QueuedOf(claims));
  }

  /** No counter is ever negative, and with no operation in flight the books are those of the open leases alone. */
  lemma QuiescentBooks(run: seq<World>, events: seq<Event>, i: nat)
    requires Follows(run, events) && i < |run|
    ensures run[i].totals.total >= 0 && run[i].totals.pending >= 0 && run[i].totals.queuedBytes >= 0
    ensures run[i].operations == map[] ==> run[i].totals == Books(OpenClaims(run[i]))
  {
    ConservationAlongRun(run, events, i);
    NeverNegative(run[i]);
    if run[i].operations == map[] {
      QuiescentClaims(run[i]);
    }
  }

  /** Every second section in every run lowers only positive counters, so its clamp never hides a mismatch. */
  lemma ClampNeverHides(run: seq<World>, events: seq<Event>, i: nat, operation: nat)
    requires Follows(run, events) && i < |run| && operation in run[i].operations
    requires run[i].operations[operation].lease in run[i].leases
    ensures Covers(run[i].totals,
                   OperationClaim(run[i].leases[run[i].operations[operation].lease], run[i].operations[operation]))
  {
    ConservationAlongRun(run, events, i);
    FinishIsCovered(run[i], operation);
  }

  // ---------------------------------------------------------------------
  // Limits under one configuration
  // ---------------------------------------------------------------------

  ghost predicate Bounded<K(!new)>(counts: map<K, int>, limit: int) {
    forall key :: Count(counts, key) <= limit
  }

  ghost predicate WithinLimits(w: World, config: Config) {
    && w.totals.total <= config.maxAssociations && w.totals.pending <= config.maxPendingAssociations
    && w.totals.queuedBytes <= config.maxQueuedBytes
    && Bounded(w.totals.clients, config.maxAssociationsPerClient)
    && Bounded(w.totals.proxies, config.maxAssociationsPerProxy)
    && Bounded(w.totals.sources, config.maxAssociationsPerSourceIP)
    && Bounded(w.totals.pendingClients, config.maxPendingAssociationsPerClient)
    && Bounded(w.totals.pendingProxies, config.maxPendingAssociationsPerProxy)
    && (forall lease <- w.leases :: w.leases[lease].queued <= config.maxQueuedBytesPerAssociation)
  }

  ghost predicate LimitsAreNatural(config: Config) {
    && config.maxAssociations >= 0 && config.maxPendingAssociations >= 0 && config.maxQueuedBytes >= 0
    && config.maxAssociationsPerClient >= 0 && config.maxAssociationsPerProxy >= 0
    && config.maxAssociationsPerSourceIP >= 0 && config.maxPendingAssociationsPerClient >= 0
    && config.maxPendingAssociationsPerProxy >= 0 && config.maxQueuedBytesPerAssociation >= 0
  }

  lemma RaiseStaysBounded<K(!new)>(counts: map<K, int>, key: Option<K>, limit: int)
    requires Bounded(counts, limit) && (key.Some? ==> Count(counts, key.value) < limit)
    ensures Bounded(Raised(counts, key), limit)
  {
    forall other ensures Count(Raised(counts, key), other) <= limit {
      assert Count(counts, other) <= limit;
    }
  }

  lemma LowerStaysBounded<K(!new)>(counts: map<K, int>, key: Option<K>, limit: int)
    requires Bounded(counts, limit) && limit >= 0
    ensures Bounded(Lowered(counts, key), limit)
  {
    forall other ensures Count(Lowered(counts, key), other) <= limit {
      assert Count(counts, other) <= limit;
    }
  }

  lemma CreditStaysBounded(w: World, w': World, lease: nat, acquired: Lease, config: Config)
    requires WithinLimits(w, config) && acquired.queued == 0 && config.maxQueuedBytesPerAssociation >= 0
    requires !CapacityReached(w.totals, config, acquired.clientID, acquired.proxyKey, acquired.source)
    requires w'.totals == Credited(w.totals, LeaseClaim(acquired)) && w'.leases == w.leases[lease := acquired]
    ensures WithinLimits(w', config)
  {
    var t, claim := w.totals, LeaseClaim(acquired);
    RaiseStaysBounded(t.clients, ClientOf(claim), config.maxAssociationsPerClient);
    RaiseStaysBounded(t.proxies, ProxyOf(claim), config.maxAssociationsPerProxy);
    RaiseStaysBounded(t.sources, SourceOf(claim), config.maxAssociationsPerSourceIP);
    RaiseStaysBounded(t.pendingClients, PendingClientOf(claim), config.maxPendingAssociationsPerClient);
    RaiseStaysBounded(t.pendingProxies, PendingProxyOf(claim), config.maxPendingAssociationsPerProxy);
  }

  lemma DebitStaysBounded(w: World, w': World, claim: Claim, config: Config)
    requires WithinLimits(w, config) && LimitsAreNatural(config) && claim.queued >= 0
    requires w'.totals == Debited(w.totals, claim) && w'.leases == w.leases
    ensures WithinLimits(w', config)
  {
    var t := w.totals;
    LowerStaysBounded(t.clients, ClientOf(claim), config.maxAssociationsPerClient);
    LowerStaysBounded(t.proxies, ProxyOf(claim), config.maxAssociationsPerProxy);
    LowerStaysBounded(t.sources, SourceOf(claim), config.maxAssociationsPerSourceIP);
    LowerStaysBounded(t.pendingClients, PendingClientOf(claim), config.maxPendingAssociationsPerClient);
    LowerStaysBounded(t.pendingProxies, PendingProxyOf(claim), config.maxPendingAssociationsPerProxy);
  }

  lemma StepStaysWithinLimits(w: World, step: Step, config: Config, rated: bool)
    requires Sane(w) && Can(w, step) && OwnsLease(w, step) && WithinLimits(w, config) && LimitsAreNatural(config)
    ensures WithinLimits(Do(w, step, config, rated), config)
  {
    var w' := Do(w, step, config, rated);
    if w' != w {
      match step
      case Acquire(lease, clientID, proxyKey, source) =>
        CreditStaysBounded(w, w', lease, Lease(clientID, proxyKey, source, true, 0, false), config);
      case FinishActivate(operation) =>
        DebitStaysBounded(w, w', OperationClaim(w.leases[w.operations[operation].lease], w.operations[operation]), config);
      case FinishClose(operation) =>
        DebitStaysBounded(w, w', OperationClaim(w.leases[w.operations[operation].lease], w.operations[operation]), config);
      case _ =>
    }
  }

  /** While the configuration stays what it is, no interleaving exceeds a limit, in-flight amounts included. */
  lemma {:induction false} LimitsAlongRun(run: seq<World>, events: seq<Event>, config: Config, i: nat)
    requires Follows(run, events) && i < |run| && LimitsAreNatural(config)
    requires forall event <- events :: event.config == config
    ensures WithinLimits(run[i], config)
  {
    if i > 0 {
      LimitsAlongRun(run, events, config, i - 1);
      ConservationAlongRun(run, events, i - 1);
      assert events[i - 1] in events;
      StepStaysWithinLimits(run[i - 1], events[i - 1].step, config, events[i - 1].rated);
    }
  }

  // ---------------------------------------------------------------------
  // Rates per second
  // ---------------------------------------------------------------------

  const SECOND := 1_000_000_000

  /** Times are nanoseconds; a window is the second they fall into. */
  function Window(now: nat): nat { now / SECOND }

  datatype RateCounter = RateCounter(window: nat, count: int)

  const NO_COUNTER := RateCounter(0, 0)

  datatype Rates = Rates(
    global: RateCounter, clients: map<string, RateCounter>, proxies: map<string, RateCounter>, cleaned: nat)

  const NO_RATES := Rates(NO_COUNTER, map[], map[], 0)

  function CounterOf(counters: map<string, RateCounter>, key: string): RateCounter {
    if key in counters then counters[key] else NO_COUNTER
  }

  predicate RateAllowed(counter: RateCounter, window: nat, limit: int) {
    if counter.window != window then limit > 0 else counter.count < limit
  }

  function Hit(counter: RateCounter, window: nat): RateCounter {
    if counter.window != window then RateCounter(window, 1) else counter.(count := counter.count + 1)
  }

  function CurrentOnly(counters: map<string, RateCounter>, window: nat): map<string, RateCounter> {
    map key <- counters | counters[key].window == window :: counters[key]
  }

  function CleanedRates(rates: Rates, window: nat): Rates {
    if rates.cleaned == window then rates
    else Rates(rates.global, CurrentOnly(rates.clients, window), CurrentOnly(rates.proxies, window), window)
  }

  predicate RatesAllow(rates: Rates, config: Config, clientID: string, proxyKey: string, window: nat) {
    && RateAllowed(rates.global, window, config.maxNewPerSecond)
    && RateAllowed(CounterOf(rates.clients, clientID), window, config.maxNewPerSecondPerClient)
    && RateAllowed(CounterOf(rates.proxies, proxyKey), window, config.maxNewPerSecondPerProxy)
  }

  function HitRates(rates: Rates, clientID: string, proxyKey: string, window: nat): Rates {
    rates.(global := Hit(rates.global, window),
           clients := rates.clients[clientID := Hit(CounterOf(rates.clients, clientID), window)],
           proxies := rates.proxies[proxyKey := Hit(CounterOf(rates.proxies, proxyKey), window)])
  }

  /** One call of acquire as the rate counters see it; `capacity` is what the other limits say. */
  datatype Attempt = Attempt(clientID: string, proxyKey: string, now: nat, config: Config, capacity: bool)

  predicate Admitted(rates: Rates, a: Attempt) {
    a.capacity && RatesAllow(CleanedRates(rates, Window(a.now)), a.config, a.clientID, a.proxyKey, Window(a.now))
  }

  function RatesAfter(rates: Rates, a: Attempt): Rates {
    var cleaned := CleanedRates(rates, Window(a.now));
    if Admitted(rates, a) then HitRates(cleaned, a.clientID, a.proxyKey, Window(a.now)) else cleaned
  }

  function RatesFrom(attempts: seq<Attempt>): Rates {
    if attempts == [] then NO_RATES
    else RatesAfter(RatesFrom(attempts[..|attempts| - 1]), attempts[|attempts| - 1])
  }

  /** What a quota is about: everyone, one client, or one proxy. */
  datatype Subject = Everyone | OneClient(clientID: string) | OneProxy(proxyKey: string)

  predicate Concerns(subject: Subject, a: Attempt) {
    match subject
    case Everyone => true
    case OneClient(clientID) => a.clientID == clientID
    case OneProxy(proxyKey) => a.proxyKey == proxyKey
  }

  function Quota(subject: Subject, config: Config): int {
    match subject
    case Everyone => config.maxNewPerSecond
    case OneClient(_) => config.maxNewPerSecondPerClient
    case OneProxy(_) => config.maxNewPerSecondPerProxy
  }

  function CounterFor(rates: Rates, subject: Subject): RateCounter {
    match subject
    case Everyone => rates.global
    case OneClient(clientID) => CounterOf(rates.clients, clientID)
    case OneProxy(proxyKey) => CounterOf(rates.proxies, proxyKey)
  }

  /** How many attempts concerning a subject were admitted in a window: counted from the history, not from the counters. */
  function AdmittedIn(attempts: seq<Attempt>, subject: Subject, window: nat): nat {
    if attempts == [] then 0
    else
      var before, last := attempts[..|attempts| - 1], attempts[|attempts| - 1];
      AdmittedIn(before, subject, window) +
      if Window(last.now) == window && Concerns(subject, last) && Admitted(RatesFrom(before), last) then 1 else 0
  }

  ghost predicate ClockAdvances(attempts: seq<Attempt>) {
    forall i, j | 0 <= i < j < |attempts| :: attempts[i].now <= attempts[j].now
  }

  function LastWindow(attempts: seq<Attempt>): nat {
    if attempts == [] then 0 else Window(attempts[|attempts| - 1].now)
  }

  function Seen(counter: RateCounter, window: nat): int {
    if counter.window == window then counter.count else 0
  }

  lemma WindowsAdvance(attempts: seq<Attempt>)
    requires attempts != [] && ClockAdvances(attempts)
    ensures ClockAdvances(attempts[..|attempts| - 1])
    ensures LastWindow(attempts[..|attempts| - 1]) <= LastWindow(attempts)
  {
    var before, last := attempts[..|attempts| - 1], |attempts| - 1;
    assert before != [] ==> attempts[last - 1].now <= attempts[last].now;
  }

  lemma {:induction false} NothingAhead(attempts: seq<Attempt>, subject: Subject, window: nat)
    requires ClockAdvances(attempts) && window > LastWindow(attempts)
    ensures AdmittedIn(attempts, subject, window) == 0
    ensures CounterFor(RatesFrom(attempts), subject).window <= LastWindow(attempts)
  {
    if attempts != [] {
      WindowsAdvance(attempts);
      NothingAhead(attempts[..|attempts| - 1], subject, window);
    }
  }

  /** Cleaning up forgets no admission of the window it cleans up for. */
  lemma CleaningForgetsNothing(rates: Rates, subject: Subject, window: nat)
    ensures Seen(CounterFor(CleanedRates(rates, window), subject), window) == Seen(CounterFor(rates, subject), window)
  {
  }

  /** From the last window on, every counter shows exactly the admissions of the window it is asked about. */
  lemma {:induction false} CountersRemember(attempts: seq<Attempt>, subject: Subject, window: nat)
    requires ClockAdvances(attempts) && window >= LastWindow(attempts)
    ensures Seen(CounterFor(RatesFrom(attempts), subject), window) == AdmittedIn(attempts, subject, window)
  {
    if window > LastWindow(attempts) {
      NothingAhead(attempts, subject, window);
    } else if attempts != [] {
      var before, last := attempts[..|attempts| - 1], attempts[|attempts| - 1];
      WindowsAdvance(attempts);
      CountersRemember(before, subject, window);
      CleaningForgetsNothing(RatesFrom(before), subject, window);
    }
  }

  /**
   With a clock that never runs backwards, no second admits more associations
   than the quota in force, for everyone together, for any client or for any proxy.
   */
  lemma {:induction false} QuotasHold(attempts: seq<Attempt>, subject: Subject, window: nat, quota: nat)
    requires ClockAdvances(attempts)
    requires forall a <- attempts :: Quota(subject, a.config) <= quota
    ensures AdmittedIn(attempts, subject, window) <= quota
  {
    if attempts != [] {
      var before, last := attempts[..|attempts| - 1], attempts[|attempts| - 1];
      WindowsAdvance(attempts);
      QuotasHold(before, subject, window, quota);
      assert last in attempts;
      if Window(last.now) == window && Concerns(subject, last) && Admitted(RatesFrom(before), last) {
        CountersRemember(before, subject, window);
        CleaningForgetsNothing(RatesFrom(before), subject, window);
        assert RateAllowed(CounterFor(CleanedRates(RatesFrom(before), window), subject), window, Quota(subject, last.config));
      }
    }
  }

  // ---------------------------------------------------------------------
  // The objects
  // ---------------------------------------------------------------------

  function ProxyKey(clientID: string, proxyName: string): string { clientID + "\0" + proxyName }

  method CurrentCounters(counters: map<string, RateCounter>, window: nat) returns (kept: map<string, RateCounter>)
    ensures kept == CurrentOnly(counters, window)
  {
    kept := counters;
    var left := counters.Keys;
    while left != {}
      invariant left <= counters.Keys && kept.Keys <= counters.Keys
      invariant forall key <- counters :: key in kept <==> key in left || counters[key].window == window
      invariant forall key <- kept :: kept[key] == counters[key]
      decreases left
    {
      var key :| key in left;
      left := left - {key};
      if counters[key].window != window {
        kept := kept - {key};
      }
    }
  }

  class Limiter {
    var configuration: Config
    var total: int
    var pending: int
    var queuedBytes: int
    var clients: map<string, int>
    var pendingClients: map<string, int>
    var proxies: map<string, int>
    var pendingProxies: map<string, int>
    var sources: map<Address, int>
    var globalRate: RateCounter
    var clientRates: map<string, RateCounter>
    var proxyRates: map<string, RateCounter>
    var rateCleanupWindow: nat

    ghost function Accounts(): Totals reads this {
      Totals(total, pending, queuedBytes, clients, pendingClients, proxies, pendingProxies, sources)
    }

    ghost function RatesNow(): Rates reads this {
      Rates(globalRate, clientRates, proxyRates, rateCleanupWindow)
    }

    constructor (configuration: Config)
      ensures this.configuration == configuration && Accounts() == NO_TOTALS && RatesNow() == NO_RATES
    {
      this.configuration := configuration;
      total, pending, queuedBytes := 0, 0, 0;
      clients, pendingClients, proxies, pendingProxies, sources := map[], map[], map[], map[], map[];
      globalRate, clientRates, proxyRates, rateCleanupWindow := NO_COUNTER, map[], map[], 0;
    }

    method UpdateConfiguration(configuration: Config)
      modifies this
      ensures this.configuration == configuration && Accounts() == old(Accounts()) && RatesNow() == old(RatesNow())
    {
      this.configuration := configuration;
    }

    method CleanupRates(now: nat)
      modifies this
      ensures configuration == old(configuration) && Accounts() == old(Accounts())
      ensures RatesNow() == CleanedRates(old(RatesNow()), Window(now))
    {
      var window := Window(now);
      if rateCleanupWindow == window {
        return;
      }
      rateCleanupWindow := window;
      clientRates := CurrentCounters(clientRates, window);
      proxyRates := CurrentCounters(proxyRates, window);
    }

    method Acquire(clientID: string, proxyName: string, source: Option<Address>, now: nat)
      returns (lease: AssociationLease?)
      modifies this
      ensures configuration == old(configuration)
      ensures
        var proxyKey := ProxyKey(clientID, proxyName);
        var capacity := !CapacityReached(old(Accounts()), configuration, clientID, proxyKey, source);
        var a := Attempt(clientID, proxyKey, now, configuration, capacity);
        var acquired := Lease(clientID, proxyKey, source, true, 0, false);
        && (lease != null <==> Admitted(old(RatesNow()), a))
        && RatesNow() == RatesAfter(old(RatesNow()), a)
        && (lease == null ==> Accounts() == old(Accounts()))
        && (lease != null ==>
              && fresh(lease) && lease.limiter == this && lease.State() == acquired
              && Accounts() == Credited(old(Accounts()), LeaseClaim(acquired)))
    {
      var proxyKey, window := ProxyKey(clientID, proxyName), Window(now);
      CleanupRates(now);
      var refused := Refuses(clientID, proxyKey, source, window);
      if refused {
        return null;
      }
      HitRateCounters(clientID, proxyKey, window);
      TakePlace(clientID, proxyKey, source);
      TakePendingPlace(clientID, proxyKey);
      lease := new AssociationLease(this, clientID, proxyKey, source);
    }

    /** The test of acquire, after the cleanup. */
    method Refuses(clientID: string, proxyKey: string, source: Option<Address>, window: nat) returns (refused: bool)
      ensures refused <==>
        CapacityReached(Accounts(), configuration, clientID, proxyKey, source) ||
        !RatesAllow(RatesNow(), configuration, clientID, proxyKey, window)
    {
      return
        || total >= configuration.maxAssociations
        || Count(clients, clientID) >= configuration.maxAssociationsPerClient
        || Count(proxies, proxyKey) >= configuration.maxAssociationsPerProxy
        || (source.Some? && Count(sources, source.value) >= configuration.maxAssociationsPerSourceIP)
        || pending >= configuration.maxPendingAssociations
        || Count(pendingClients, clientID) >= configuration.maxPendingAssociationsPerClient
        || Count(pendingProxies, proxyKey) >= configuration.maxPendingAssociationsPerProxy
        || !RateAllowed(globalRate, window, configuration.maxNewPerSecond)
        || !RateAllowed(CounterOf(clientRates, clientID), window, configuration.maxNewPerSecondPerClient)
        || !RateAllowed(CounterOf(proxyRates, proxyKey), window, configuration.maxNewPerSecondPerProxy);
    }

    method HitRateCounters(clientID: string, proxyKey: string, window: nat)
      modifies this
      ensures configuration == old(configuration) && Accounts() == old(Accounts())
      ensures RatesNow() == HitRates(old(RatesNow()), clientID, proxyKey, window)
    {
      globalRate := Hit(globalRate, window);
      clientRates := clientRates[clientID := Hit(CounterOf(clientRates, clientID), window)];
      proxyRates := proxyRates[proxyKey := Hit(CounterOf(proxyRates, proxyKey), window)];
    }

    method TakePlace(clientID: string, proxyKey: string, source: Option<Address>)
      modifies this
      ensures configuration == old(configuration) && RatesNow() == old(RatesNow())
      ensures Accounts() == Credited(old(Accounts()), Claim(clientID, proxyKey, source, true, false, 0))
    {
      total := total + 1;
      clients := Incremented(clients, clientID);
      proxies := Incremented(proxies, proxyKey);
      if source.Some? {
        sources := Incremented(sources, source.value);
      }
    }

    method TakePendingPlace(clientID: string, proxyKey: string)
      modifies this
      ensures configuration == old(configuration) && RatesNow() == old(RatesNow())
      ensures Accounts() == Credited(old(Accounts()), Claim(clientID, proxyKey, None, false, true, 0))
    {
      pending := pending + 1;
      pendingClients := Incremented(pendingClients, clientID);
      pendingProxies := Incremented(pendingProxies, proxyKey);
    }

    method ReturnPlace(clientID: string, proxyKey: string, source: Option<Address>)
      modifies this
      ensures configuration == old(configuration) && RatesNow() == old(RatesNow())
      ensures Accounts() == Debited(old(Accounts()), Claim(clientID, proxyKey, source, true, false, 0))
    {
      total := total - 1;
      clients := Decremented(clients, clientID);
      proxies := Decremented(proxies, proxyKey);
      if source.Some? {
        sources := Decremented(sources, source.value);
      }
    }

    method ReturnPendingPlace(clientID: string, proxyKey: string)
      modifies this
      ensures configuration == old(configuration) && RatesNow() == old(RatesNow())
      ensures Accounts() == Debited(old(Accounts()), Claim(clientID, proxyKey, None, false, true, 0))
    {
      pending := pending - 1;
      pendingClients := Decremented(pendingClients, clientID);
      pendingProxies := Decremented(pendingProxies, proxyKey);
    }
  }

  /** Begin… and Finish… are the two critical sections of Activate and of Close. */
  class AssociationLease {
    const limiter: Limiter
    const clientID: string
    const proxyKey: string
    const source: Option<Address>
    var pending: bool
    var queued: int
    var closed: bool

    ghost function State(): Lease reads this {
      Lease(clientID, proxyKey, source, pending, queued, closed)
    }

    constructor (limiter: Limiter, clientID: string, proxyKey: string, source: Option<Address>)
      ensures this.limiter == limiter && State() == Lease(clientID, proxyKey, source, true, 0, false)
    {
      this.limiter, this.clientID, this.proxyKey, this.source := limiter, clientID, proxyKey, source;
      pending, queued, closed := true, 0, false;
    }

    method BeginActivate() returns (held: bool)
      modifies this
      ensures held == (!old(closed) && old(pending))
      ensures State() == if held then old(State()).(pending := false) else old(State())
    {
      if closed || !pending {
        return false;
      }
      pending := false;
      return true;
    }

    method FinishActivate()
      modifies limiter
      ensures limiter.Accounts() == Debited(old(limiter.Accounts()), OperationClaim(State(), Activating(0)))
      ensures limiter.RatesNow() == old(limiter.RatesNow()) && limiter.configuration == old(limiter.configuration)
    {
      limiter.ReturnPendingPlace(clientID, proxyKey);
    }

    method ReserveQueue(size: nat) returns (reserved: bool)
      modifies this, limiter
      ensures reserved ==
        (!old(closed) && old(queued) + size <= old(limiter.configuration).maxQueuedBytesPerAssociation &&
         old(limiter.queuedBytes) + size <= old(limiter.configuration).maxQueuedBytes)
      ensures State() == if reserved then old(State()).(queued := old(queued) + size) else old(State())
      ensures limiter.Accounts() ==
        if reserved then old(limiter.Accounts()).(queuedBytes := old(limiter.queuedBytes) + size) else old(limiter.Accounts())
      ensures limiter.RatesNow() == old(limiter.RatesNow()) && limiter.configuration == old(limiter.configuration)
    {
      if closed || queued + size > limiter.configuration.maxQueuedBytesPerAssociation {
        return false;
      }
      if limiter.queuedBytes + size > limiter.configuration.maxQueuedBytes {
        return false;
      }
      queued := queued + size;
      limiter.queuedBytes := limiter.queuedBytes + size;
      return true;
    }

    method ReleaseQueue(size: nat)
      modifies this, limiter
      ensures State() == if old(closed) then old(State()) else old(State()).(queued := old(queued) - size)
      ensures limiter.Accounts() ==
        if old(closed) then old(limiter.Accounts())
        else old(limiter.Accounts()).(queuedBytes := old(limiter.queuedBytes) - size)
      ensures limiter.RatesNow() == old(limiter.RatesNow()) && limiter.configuration == old(limiter.configuration)
    {
      if closed {
        return;
      }
      queued := queued - size;
      limiter.queuedBytes := limiter.queuedBytes - size;
    }

    method BeginClose() returns (held: bool, wasPending: bool, queuedBefore: int)
      modifies this
      ensures held == !old(closed)
      ensures held ==> wasPending == old(pending) && queuedBefore == old(queued)
      ensures State() == if held then old(State()).(closed := true, queued := 0) else old(State())
    {
      if closed {
        return false, false, 0;
      }
      closed := true;
      held, wasPending, queuedBefore := true, pending, queued;
      queued := 0;
    }

    method FinishClose(wasPending: bool, queuedBefore: int)
      modifies limiter
      ensures limiter.Accounts() ==
              Debited(old(limiter.Accounts()), OperationClaim(State(), Closing(0, wasPending, queuedBefore)))
      ensures limiter.RatesNow() == old(limiter.RatesNow()) && limiter.configuration == old(limiter.configuration)
    {
      limiter.ReturnPlace(clientID, proxyKey, source);
      if wasPending {
        limiter.ReturnPendingPlace(clientID, proxyKey);
      }
      limiter.queuedBytes := limiter.queuedBytes - queuedBefore;
    }
  }
}
