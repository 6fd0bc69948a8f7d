/**
 The link broker's tables (internal/link/broker.go, internal/link/limits.go):
 pending and active links, and six counter maps that the admission test reads.
 Each critical section under the broker's mutex is a function on the tables;
 the class performs it field by field.
 */
module LinkBroker {
  import opened Authentication
  import opened Counting

  type LinkID = string

  const MAX_PENDING := 1024
  const MAX_PENDING_PER_CLIENT := 128
  const MAX_PENDING_PER_PROXY := 64
  const MAX_ACTIVE := 4096
  const MAX_ACTIVE_PER_CLIENT := 512
  const MAX_ACTIVE_PER_PROXY := 256

  datatype Target = Target(
    clientID: string,
    sessionID: string,
    bindingName: string,
    trafficType: string,
    bindingID: string,
    authentication: Context,
    maxActiveLinks: int,
    direction: string,
    reserved: bool)

  /** How the link's stream reaches its owner: a handler, a handler prepared on bind, or a ready channel. */
  datatype Delivery = ByHandler | ByFactory | ByReady

  datatype PendingLink = PendingLink(
    target: Target, ticketDigest: Credential, expiresAt: nat, onCancel: bool, delivery: Delivery)

  datatype ActiveLink = ActiveLink(target: Target, connection: nat)

  function NormalizeLinkDirection(direction: string): string {
    if direction == "" then "proxy" else direction
  }

  /** What a counter map is keyed by. */
  datatype Dimension = ByClient | ByBinding | ByDirection

  function KeyOf(dimension: Dimension, target: Target): string {
    match dimension
    case ByClient => target.clientID
    case ByBinding => target.clientID + "\0" + target.bindingName
    case ByDirection => target.clientID + "\0" + NormalizeLinkDirection(target.direction)
  }

  type Counts = map<string, int>

  /** The three counter maps of one table. */
  datatype Counters = Counters(clients: Counts, bindings: Counts, directions: Counts) {
    function Of(dimension: Dimension): Counts {
      match dimension
      case ByClient => clients
      case ByBinding => bindings
      case ByDirection => directions
    }

    function At(dimension: Dimension, target: Target): int {
      Count(Of(dimension), KeyOf(dimension, target))
    }

    function Plus(target: Target): Counters {
      Counters(Incremented(clients, KeyOf(ByClient, target)), Incremented(bindings, KeyOf(ByBinding, target)),
               Incremented(directions, KeyOf(ByDirection, target)))
    }

    function Minus(target: Target): Counters {
      Counters(Decremented(clients, KeyOf(ByClient, target)), Decremented(bindings, KeyOf(ByBinding, target)),
               Decremented(directions, KeyOf(ByDirection, target)))
    }
  }

  datatype Tables = Tables(
    pending: map<LinkID, PendingLink>,
    active: map<LinkID, ActiveLink>,
    pendingCounts: Counters,
    activeCounts: Counters,
    closed: bool)

  const EMPTY := Tables(map[], map[], Counters(map[], map[], map[]), Counters(map[], map[], map[]), false)

  predicate LimitReached(t: Tables, target: Target) {
    || |t.pending| >= MAX_PENDING
    || |t.pending| + |t.active| >= MAX_ACTIVE
    || t.pendingCounts.At(ByClient, target) >= MAX_PENDING_PER_CLIENT
    || t.pendingCounts.At(ByBinding, target) >= MAX_PENDING_PER_PROXY
    || (target.maxActiveLinks > 0 &&
        t.pendingCounts.At(ByDirection, target) + t.activeCounts.At(ByDirection, target) >= target.maxActiveLinks)
    || t.pendingCounts.At(ByClient, target) + t.activeCounts.At(ByClient, target) >= MAX_ACTIVE_PER_CLIENT
    || t.pendingCounts.At(ByBinding, target) + t.activeCounts.At(ByBinding, target) >= MAX_ACTIVE_PER_PROXY
  }

  predicate Refuses(t: Tables, target: Target) {
    t.closed || LimitReached(t, target)
  }

  function Admitted(t: Tables, linkID: LinkID, link: PendingLink): Tables {
    t.(pending := t.pending[linkID := link], pendingCounts := t.pendingCounts.Plus(link.target))
  }

  function Taken(t: Tables, linkID: LinkID): Tables
    requires linkID in t.pending
  {
    t.(pending := t.pending - {linkID}, pendingCounts := t.pendingCounts.Minus(t.pending[linkID].target))
  }

  function Promoted(t: Tables, linkID: LinkID, connection: nat): Tables
    requires linkID in t.pending
  {
    var target := t.pending[linkID].target;
    Taken(t, linkID).(active := t.active[linkID := ActiveLink(target, connection)],
                      activeCounts := t.activeCounts.Plus(target))
  }

  function Finished(t: Tables, linkID: LinkID): Tables {
    if linkID in t.active then
      t.(active := t.active - {linkID}, activeCounts := t.activeCounts.Minus(t.active[linkID].target))
    else t
  }

  /** What a data connection presents to bind itself to a pending link. */
  datatype Binding = Binding(
    linkID: LinkID, clientID: string, sessionID: string, proxyType: string, bindingID: string,
    direction: string, ticketDigest: Credential, authentication: Context)

  predicate Matches(link: PendingLink, binding: Binding) {
    && link.target.clientID == binding.clientID
    && link.target.sessionID == binding.sessionID
    && link.target.trafficType == binding.proxyType
    && link.target.bindingID == binding.bindingID
    && link.target.authentication == binding.authentication
    && NormalizeLinkDirection(link.target.direction) == NormalizeLinkDirection(binding.direction)
    && link.ticketDigest == binding.ticketDigest
  }

  datatype BindOutcome = Expired | Rejected | Bound

  function BindDecision(t: Tables, binding: Binding, now: nat): BindOutcome {
    if binding.linkID !in t.pending then Rejected
    else if now >= t.pending[binding.linkID].expiresAt then Expired
    else if Matches(t.pending[binding.linkID], binding) then Bound
    else Rejected
  }

  function AfterBind(t: Tables, binding: Binding, connection: nat, now: nat): Tables {
    match BindDecision(t, binding, now)
    case Rejected => t
    case Expired => Taken(t, binding.linkID)
    case Bound => Promoted(t, binding.linkID, connection)
  }

  // ---------------------------------------------------------------------
  // The broker object
  // ---------------------------------------------------------------------

  datatype Taking = NotPending | Took(link: PendingLink)

  class Broker {
    var pending: map<LinkID, PendingLink>
    var active: map<LinkID, ActiveLink>
    var pendingClients: Counts
    var pendingBindings: Counts
    var pendingDirections: Counts
    var activeClients: Counts
    var activeBindings: Counts
    var activeDirections: Counts
    var closed: bool

    ghost function Model(): Tables
      reads this
    {
      Tables(pending, active, Counters(pendingClients, pendingBindings, pendingDirections),
             Counters(activeClients, activeBindings, activeDirections), closed)
    }

    constructor ()
      ensures Model() == EMPTY
    {
      pending, active, closed := map[], map[], false;
      pendingClients, pendingBindings, pendingDirections := map[], map[], map[];
      activeClients, activeBindings, activeDirections := map[], map[], map[];
    }

    function ReachedLimit(target: Target): bool
      reads this
      ensures ReachedLimit(target) == LimitReached(Model(), target)
    {
      if |pending| >= MAX_PENDING || |pending| + |active| >= MAX_ACTIVE then true else
      var pendingClient := Count(pendingClients, KeyOf(ByClient, target));
      var pendingBinding := Count(pendingBindings, KeyOf(ByBinding, target));
      var activeClient := Count(activeClients, KeyOf(ByClient, target));
      var activeBinding := Count(activeBindings, KeyOf(ByBinding, target));
      var pendingDirection := Count(pendingDirections, KeyOf(ByDirection, target));
      var activeDirection := Count(activeDirections, KeyOf(ByDirection, target));
      || pendingClient >= MAX_PENDING_PER_CLIENT
      || pendingBinding >= MAX_PENDING_PER_PROXY
      || (target.maxActiveLinks > 0 && pendingDirection + activeDirection >= target.maxActiveLinks)
      || pendingClient + activeClient >= MAX_ACTIVE_PER_CLIENT
      || pendingBinding + activeBinding >= MAX_ACTIVE_PER_PROXY
    }

    method IncrementPending(target: Target)
      modifies this`pendingClients, this`pendingBindings, this`pendingDirections
      ensures Model() == old(Model()).(pendingCounts := old(Model()).pendingCounts.Plus(target))
    {
      pendingClients := Incremented(pendingClients, KeyOf(ByClient, target));
      pendingBindings := Incremented(pendingBindings, KeyOf(ByBinding, target));
      pendingDirections := Incremented(pendingDirections, KeyOf(ByDirection, target));
    }

    method DecrementPending(target: Target)
      modifies this`pendingClients, this`pendingBindings, this`pendingDirections
      ensures Model() == old(Model()).(pendingCounts := old(Model()).pendingCounts.Minus(target))
    {
      pendingClients := Decremented(pendingClients, KeyOf(ByClient, target));
      pendingBindings := Decremented(pendingBindings, KeyOf(ByBinding, target));
      pendingDirections := Decremented(pendingDirections, KeyOf(ByDirection, target));
    }

    method IncrementActive(target: Target)
      modifies this`activeClients, this`activeBindings, this`activeDirections
      ensures Model() == old(Model()).(activeCounts := old(Model()).activeCounts.Plus(target))
    {
      activeClients := Incremented(activeClients, KeyOf(ByClient, target));
      activeBindings := Incremented(activeBindings, KeyOf(ByBinding, target));
      activeDirections := Incremented(activeDirections, KeyOf(ByDirection, target));
    }

    method DecrementActive(target: Target)
      modifies this`activeClients, this`activeBindings, this`activeDirections
      ensures Model() == old(Model()).(activeCounts := old(Model()).activeCounts.Minus(target))
    {
      activeClients := Decremented(activeClients, KeyOf(ByClient, target));
      activeBindings := Decremented(activeBindings, KeyOf(ByBinding, target));
      activeDirections := Decremented(activeDirections, KeyOf(ByDirection, target));
    }

    /** The second critical section of createPending, with credentials already drawn. */
    method CreatePending(linkID: LinkID, link: PendingLink) returns (admitted: bool)
      modifies this
      ensures admitted == !Refuses(old(Model()), link.target)
      ensures Model() == Apply(old(Model()), Create(linkID, link))
    {
      if closed || ReachedLimit(link.target) {
        return false;
      }
      pending := pending[linkID := link];
      IncrementPending(link.target);
      admitted := true;
    }

    /** The critical section of BindWithActivation. */
    method ClaimBinding(binding: Binding, connection: nat, now: nat) returns (outcome: BindOutcome)
      modifies this
      ensures outcome == BindDecision(old(Model()), binding, now)
      ensures Model() == Apply(old(Model()), Bind(binding, connection, now))
    {
      if binding.linkID in pending && now >= pending[binding.linkID].expiresAt {
        var link := pending[binding.linkID];
        pending := pending - {binding.linkID};
        DecrementPending(link.target);
        return Expired;
      }
      if binding.linkID !in pending || !Matches(pending[binding.linkID], binding) {
        return Rejected;
      }
      var link := pending[binding.linkID];
      pending := pending - {binding.linkID};
      DecrementPending(link.target);
      active := active[binding.linkID := ActiveLink(link.target, connection)];
      IncrementActive(link.target);
      outcome := Bound;
    }

    /** The critical section of cancel: whoever gets `Took` owns the link's release. */
    method TakePending(linkID: LinkID) returns (taking: Taking)
      modifies this
      ensures taking == if linkID in old(pending) then Took(old(pending)[linkID]) else NotPending
      ensures Model() == Apply(old(Model()), Cancel(linkID))
    {
      if linkID !in pending {
        return NotPending;
      }
      taking := Took(pending[linkID]);
      pending := pending - {linkID};
      DecrementPending(taking.link.target);
    }

    method FinishActive(linkID: LinkID) returns (release: bool)
      modifies this
      ensures release == (linkID in old(active) && old(active)[linkID].target.reserved)
      ensures Model() == Apply(old(Model()), Finish(linkID))
    {
      release := false;
      if linkID in active {
        var link := active[linkID];
        active := active - {linkID};
        DecrementActive(link.target);
        release := link.target.reserved;
      }
    }

    method Shut()
      modifies this`closed
      ensures Model() == Apply(old(Model()), Close)
    {
      closed := true;
    }
  }

  // ---------------------------------------------------------------------
  // The counters count
  // ---------------------------------------------------------------------

  ghost function PendingKeys(t: Tables, dimension: Dimension): map<LinkID, string> {
    map linkID <- t.pending :: KeyOf(dimension, t.pending[linkID].target)
  }

  ghost function ActiveKeys(t: Tables, dimension: Dimension): map<LinkID, string> {
    map linkID <- t.active :: KeyOf(dimension, t.active[linkID].target)
  }

  /** The tables agree with their six counter maps, and no link is in both. */
  ghost predicate Coherent(t: Tables) {
    && (forall dimension: Dimension :: t.pendingCounts.Of(dimension) == Tally(PendingKeys(t, dimension)))
    && (forall dimension: Dimension :: t.activeCounts.Of(dimension) == Tally(ActiveKeys(t, dimension)))
    && t.pending.Keys !! t.active.Keys
  }

  lemma AdmittedKeys(t: Tables, linkID: LinkID, link: PendingLink, dimension: Dimension)
    ensures PendingKeys(Admitted(t, linkID, link), dimension) ==
            PendingKeys(t, dimension)[linkID := KeyOf(dimension, link.target)]
    ensures ActiveKeys(Admitted(t, linkID, link), dimension) == ActiveKeys(t, dimension)
  {
  }

  lemma TakenKeys(t: Tables, linkID: LinkID, dimension: Dimension)
    requires linkID in t.pending
    ensures PendingKeys(Taken(t, linkID), dimension) == PendingKeys(t, dimension) - {linkID}
    ensures ActiveKeys(Taken(t, linkID), dimension) == ActiveKeys(t, dimension)
  {
  }

  lemma PromotedKeys(t: Tables, linkID: LinkID, connection: nat, dimension: Dimension)
    requires linkID in t.pending
    ensures PendingKeys(Promoted(t, linkID, connection), dimension) == PendingKeys(t, dimension) - {linkID}
    ensures ActiveKeys(Promoted(t, linkID, connection), dimension) ==
            ActiveKeys(t, dimension)[linkID := KeyOf(dimension, t.pending[linkID].target)]
  {
  }

  lemma FinishedKeys(t: Tables, linkID: LinkID, dimension: Dimension)
    requires linkID in t.active
    ensures PendingKeys(Finished(t, linkID), dimension) == PendingKeys(t, dimension)
    ensures ActiveKeys(Finished(t, linkID), dimension) == ActiveKeys(t, dimension) - {linkID}
  {
  }

  lemma AdmittedCoherent(t: Tables, linkID: LinkID, link: PendingLink)
    requires Coherent(t) && linkID !in t.pending && linkID !in t.active
    ensures Coherent(Admitted(t, linkID, link))
  {
    forall dimension: Dimension
      ensures Admitted(t, linkID, link).pendingCounts.Of(dimension) ==
              Tally(PendingKeys(Admitted(t, linkID, link), dimension))
      ensures ActiveKeys(Admitted(t, linkID, link), dimension) == ActiveKeys(t, dimension)
    {
      AdmittedKeys(t, linkID, link, dimension);
      TallyMore(PendingKeys(t, dimension), linkID, KeyOf(dimension, link.target));
    }
  }

  lemma TakenCoherent(t: Tables, linkID: LinkID)
    requires Coherent(t) && linkID in t.pending
    ensures Coherent(Taken(t, linkID))
  {
    forall dimension: Dimension
      ensures Taken(t, linkID).pendingCounts.Of(dimension) == Tally(PendingKeys(Taken(t, linkID), dimension))
      ensures ActiveKeys(Taken(t, linkID), dimension) == ActiveKeys(t, dimension)
    {
      TakenKeys(t, linkID, dimension);
      TallyLess(PendingKeys(t, dimension), linkID);
    }
  }

  lemma PromotedCoherent(t: Tables, linkID: LinkID, connection: nat)
    requires Coherent(t) && linkID in t.pending
    ensures Coherent(Promoted(t, linkID, connection))
  {
    TakenCoherent(t, linkID);
    var t' := Promoted(t, linkID, connection);
    forall dimension: Dimension
      ensures t'.activeCounts.Of(dimension) == Tally(ActiveKeys(t', dimension))
      ensures PendingKeys(t', dimension) == PendingKeys(Taken(t, linkID), dimension)
    {
      PromotedKeys(t, linkID, connection, dimension);
      TakenKeys(t, linkID, dimension);
      TallyMore(ActiveKeys(t, dimension), linkID, KeyOf(dimension, t.pending[linkID].target));
    }
  }

  lemma FinishedCoherent(t: Tables, linkID: LinkID)
    requires Coherent(t) && linkID in t.active
    ensures Coherent(Finished(t, linkID))
  {
    forall dimension: Dimension
      ensures Finished(t, linkID).activeCounts.Of(dimension) == Tally(ActiveKeys(Finished(t, linkID), dimension))
      ensures PendingKeys(Finished(t, linkID), dimension) == PendingKeys(t, dimension)
    {
      FinishedKeys(t, linkID, dimension);
      TallyLess(ActiveKeys(t, dimension), linkID);
    }
  }

  // ---------------------------------------------------------------------
  // Every run respects the limits
  // ---------------------------------------------------------------------

  datatype Step =
    | Create(linkID: LinkID, link: PendingLink)
    | Bind(binding: Binding, connection: nat, now: nat)
    | Cancel(linkID: LinkID)
    | Finish(linkID: LinkID)
    | Close

  /** Link IDs are random: a new one is in neither table. */
  predicate Fresh(t: Tables, step: Step) {
    step.Create? ==> step.linkID !in t.pending && step.linkID !in t.active
  }

  function Apply(t: Tables, step: Step): Tables {
    match step
    case Create(linkID, link) => if Refuses(t, link.target) then t else Admitted(t, linkID, link)
    case Bind(binding, connection, now) => AfterBind(t, binding, connection, now)
    case Cancel(linkID) => if linkID in t.pending then Taken(t, linkID) else t
    case Finish(linkID) => Finished(t, linkID)
    case Close => t.(closed := true)
  }

  ghost function PendingOf(t: Tables, dimension: Dimension, key: string): nat {
    |Having(PendingKeys(t, dimension), key)|
  }

  ghost function LinksOf(t: Tables, dimension: Dimension, key: string): nat {
    PendingOf(t, dimension, key) + |Having(ActiveKeys(t, dimension), key)|
  }

  /**
   `limits` gives the MaxActiveLinks of each client and direction, zero for
   none; it is fixed when every link admitted under a key carries that value.
   */
  type Limits = string -> int

  predicate Fixed(limits: Limits, step: Step) {
    step.Create? ==> step.link.target.maxActiveLinks == limits(KeyOf(ByDirection, step.link.target))
  }

  ghost predicate WithinLimits(t: Tables, limits: Limits) {
    && |t.pending| <= MAX_PENDING
    && |t.pending| + |t.active| <= MAX_ACTIVE
    && (forall key :: PendingOf(t, ByClient, key) <= MAX_PENDING_PER_CLIENT)
    && (forall key :: PendingOf(t, ByBinding, key) <= MAX_PENDING_PER_PROXY)
    && (forall key :: LinksOf(t, ByClient, key) <= MAX_ACTIVE_PER_CLIENT)
    && (forall key :: LinksOf(t, ByBinding, key) <= MAX_ACTIVE_PER_PROXY)
    && (forall key | limits(key) > 0 :: LinksOf(t, ByDirection, key) <= limits(key))
  }

  lemma CountersAreExact(t: Tables, dimension: Dimension, target: Target)
    requires Coherent(t)
    ensures t.pendingCounts.At(dimension, target) == PendingOf(t, dimension, KeyOf(dimension, target))
    ensures t.pendingCounts.At(dimension, target) + t.activeCounts.At(dimension, target) ==
            LinksOf(t, dimension, KeyOf(dimension, target))
  {
    TallyCounts(PendingKeys(t, dimension), KeyOf(dimension, target));
    TallyCounts(ActiveKeys(t, dimension), KeyOf(dimension, target));
  }

  lemma AdmittedGrows(t: Tables, linkID: LinkID, link: PendingLink, dimension: Dimension, key: string)
    requires linkID !in t.pending
    ensures PendingOf(Admitted(t, linkID, link), dimension, key) ==
            PendingOf(t, dimension, key) + (if key == KeyOf(dimension, link.target) then 1 else 0)
    ensures LinksOf(Admitted(t, linkID, link), dimension, key) ==
            LinksOf(t, dimension, key) + (if key == KeyOf(dimension, link.target) then 1 else 0)
  {
    AdmittedKeys(t, linkID, link, dimension);
    HavingMore(PendingKeys(t, dimension), linkID, KeyOf(dimension, link.target), key);
  }

  /** What the admission test leaves room for, said of the links themselves. */
  lemma RoomForOneMore(t: Tables, target: Target)
    requires Coherent(t) && !LimitReached(t, target)
    ensures |t.pending| < MAX_PENDING && |t.pending| + |t.active| < MAX_ACTIVE
    ensures PendingOf(t, ByClient, KeyOf(ByClient, target)) < MAX_PENDING_PER_CLIENT
    ensures PendingOf(t, ByBinding, KeyOf(ByBinding, target)) < MAX_PENDING_PER_PROXY
    ensures LinksOf(t, ByClient, KeyOf(ByClient, target)) < MAX_ACTIVE_PER_CLIENT
    ensures LinksOf(t, ByBinding, KeyOf(ByBinding, target)) < MAX_ACTIVE_PER_PROXY
    ensures target.maxActiveLinks > 0 ==>
      LinksOf(t, ByDirection, KeyOf(ByDirection, target)) < target.maxActiveLinks
  {
    CountersAreExact(t, ByClient, target);
    CountersAreExact(t, ByBinding, target);
    CountersAreExact(t, ByDirection, target);
  }

  lemma CreateWithinLimits(t: Tables, limits: Limits, linkID: LinkID, link: PendingLink)
    requires Coherent(t) && WithinLimits(t, limits) && linkID !in t.pending && linkID !in t.active
    requires !Refuses(t, link.target) && link.target.maxActiveLinks == limits(KeyOf(ByDirection, link.target))
    ensures WithinLimits(Admitted(t, linkID, link), limits)
  {
    var t' := Admitted(t, linkID, link);
    RoomForOneMore(t, link.target);
    CardinalityMore(t.pending, linkID, link);
    forall key: string
      ensures PendingOf(t', ByClient, key) <= MAX_PENDING_PER_CLIENT
      ensures LinksOf(t', ByClient, key) <= MAX_ACTIVE_PER_CLIENT
    {
      AdmittedGrows(t, linkID, link, ByClient, key);
    }
    forall key: string
      ensures PendingOf(t', ByBinding, key) <= MAX_PENDING_PER_PROXY
      ensures LinksOf(t', ByBinding, key) <= MAX_ACTIVE_PER_PROXY
    {
      AdmittedGrows(t, linkID, link, ByBinding, key);
    }
    forall key: string | limits(key) > 0
      ensures LinksOf(t', ByDirection, key) <= limits(key)
    {
      AdmittedGrows(t, linkID, link, ByDirection, key);
    }
  }

  /** Fewer or equally many links under every key, and in the tables: the limits still hold. */
  lemma NoMoreLinks(t: Tables, t': Tables, limits: Limits)
    requires WithinLimits(t, limits)
    requires |t'.pending| <= |t.pending| && |t'.pending| + |t'.active| <= |t.pending| + |t.active|
    requires forall dimension: Dimension, key :: PendingOf(t', dimension, key) <= PendingOf(t, dimension, key)
    requires forall dimension: Dimension, key :: LinksOf(t', dimension, key) <= LinksOf(t, dimension, key)
    ensures WithinLimits(t', limits)
  {
  }

  lemma TakenWithinLimits(t: Tables, limits: Limits, linkID: LinkID)
    requires WithinLimits(t, limits) && linkID in t.pending
    ensures WithinLimits(Taken(t, linkID), limits)
  {
    var t' := Taken(t, linkID);
    CardinalityLess(t.pending, linkID);
    forall dimension: Dimension, key: string
      ensures PendingOf(t', dimension, key) <= PendingOf(t, dimension, key)
      ensures LinksOf(t', dimension, key) <= LinksOf(t, dimension, key)
    {
      TakenKeys(t, linkID, dimension);
      HavingLess(PendingKeys(t, dimension), linkID, key);
    }
    NoMoreLinks(t, t', limits);
  }

  lemma PromotedWithinLimits(t: Tables, limits: Limits, linkID: LinkID, connection: nat)
    requires WithinLimits(t, limits) && linkID in t.pending && linkID !in t.active
    ensures WithinLimits(Promoted(t, linkID, connection), limits)
  {
    var t' := Promoted(t, linkID, connection);
    CardinalityLess(t.pending, linkID);
    CardinalityMore(t.active, linkID, t'.active[linkID]);
    forall dimension: Dimension, key: string
      ensures PendingOf(t', dimension, key) <= PendingOf(t, dimension, key)
      ensures LinksOf(t', dimension, key) <= LinksOf(t, dimension, key)
    {
      PromotedKeys(t, linkID, connection, dimension);
      HavingLess(PendingKeys(t, dimension), linkID, key);
      HavingMore(ActiveKeys(t, dimension), linkID, KeyOf(dimension, t.pending[linkID].target), key);
    }
    NoMoreLinks(t, t', limits);
  }

  lemma FinishedWithinLimits(t: Tables, limits: Limits, linkID: LinkID)
    requires WithinLimits(t, limits) && linkID in t.active
    ensures WithinLimits(Finished(t, linkID), limits)
  {
    var t' := Finished(t, linkID);
    CardinalityLess(t.active, linkID);
    forall dimension: Dimension, key: string
      ensures PendingOf(t', dimension, key) <= PendingOf(t, dimension, key)
      ensures LinksOf(t', dimension, key) <= LinksOf(t, dimension, key)
    {
      FinishedKeys(t, linkID, dimension);
      HavingLess(ActiveKeys(t, dimension), linkID, key);
    }
    NoMoreLinks(t, t', limits);
  }

  lemma ClosingChangesNoKey(t: Tables, limits: Limits)
    requires Coherent(t) && WithinLimits(t, limits)
    ensures Coherent(t.(closed := true)) && WithinLimits(t.(closed := true), limits)
  {
    var t' := t.(closed := true);
    forall dimension: Dimension
      ensures PendingKeys(t', dimension) == PendingKeys(t, dimension)
      ensures ActiveKeys(t', dimension) == ActiveKeys(t, dimension)
    {
    }
    NoMoreLinks(t, t', limits);
  }

  lemma StepKeepsInvariant(t: Tables, limits: Limits, step: Step)
    requires Coherent(t) && WithinLimits(t, limits) && Fresh(t, step) && Fixed(limits, step)
    ensures Coherent(Apply(t, step)) && WithinLimits(Apply(t, step), limits)
  {
    match step
    case Create(linkID, link) =>
      if !Refuses(t, link.target) {
        AdmittedCoherent(t, linkID, link);
        CreateWithinLimits(t, limits, linkID, link);
      }
    case Bind(binding, connection, now) =>
      if BindDecision(t, binding, now).Expired? {
        TakenCoherent(t, binding.linkID);
        TakenWithinLimits(t, limits, binding.linkID);
      } else if BindDecision(t, binding, now).Bound? {
        PromotedCoherent(t, binding.linkID, connection);
        PromotedWithinLimits(t, limits, binding.linkID, connection);
      }
    case Cancel(linkID) =>
      if linkID in t.pending {
        TakenCoherent(t, linkID);
        TakenWithinLimits(t, limits, linkID);
      }
    case Finish(linkID) =>
      if linkID in t.active {
        FinishedCoherent(t, linkID);
        FinishedWithinLimits(t, limits, linkID);
      }
    case Close => ClosingChangesNoKey(t, limits);
  }

  ghost predicate Follows(run: seq<Tables>, steps: seq<Step>, limits: Limits) {
    && |run| == |steps| + 1
    && run[0] == EMPTY
    && (forall i | 0 <= i < |steps| ::
          Fresh(run[i], steps[i]) && Fixed(limits, steps[i]) && run[i + 1] == Apply(run[i], steps[i]))
  }

  lemma EmptyIsCoherent(limits: Limits)
    ensures Coherent(EMPTY) && WithinLimits(EMPTY, limits)
  {
    forall dimension: Dimension
      ensures EMPTY.pendingCounts.Of(dimension) == Tally(PendingKeys(EMPTY, dimension))
      ensures EMPTY.activeCounts.Of(dimension) == Tally(ActiveKeys(EMPTY, dimension))
    {
      assert PendingKeys(EMPTY, dimension) == map[] && ActiveKeys(EMPTY, dimension) == map[];
      assert Tally(PendingKeys(EMPTY, dimension)) == map[] && Tally(ActiveKeys(EMPTY, dimension)) == map[];
    }
    forall dimension: Dimension, key: string
      ensures PendingOf(EMPTY, dimension, key) == 0 && LinksOf(EMPTY, dimension, key) == 0
    {
      assert Having(PendingKeys(EMPTY, dimension), key) == {};
      assert Having(ActiveKeys(EMPTY, dimension), key) == {};
    }
  }

  /**
   In every reachable state the six counter maps equal the counts over the two
   tables, with a key present exactly when its count is positive, and every
   limit holds through each promotion, expiry, cancellation and finish.
   */
  lemma {:induction false} CountersAndLimitsAlongRun(run: seq<Tables>, steps: seq<Step>, limits: Limits, i: nat)
    requires Follows(run, steps, limits) && i < |run|
    ensures Coherent(run[i]) && WithinLimits(run[i], limits)
  {
    if i == 0 {
      EmptyIsCoherent(limits);
    } else {
      CountersAndLimitsAlongRun(run, steps, limits, i - 1);
      StepKeepsInvariant(run[i - 1], limits, steps[i - 1]);
    }
  }

  /** After Close nothing is admitted any more. */
  lemma {:induction false} ClosedAdmitsNothing(run: seq<Tables>, steps: seq<Step>, limits: Limits, i: nat, j: nat)
    requires Follows(run, steps, limits) && i <= j < |run| && run[i].closed
    ensures run[j].closed && run[j].pending.Keys <= run[i].pending.Keys
    ensures run[j].pending.Keys + run[j].active.Keys <= run[i].pending.Keys + run[i].active.Keys
    decreases j - i
  {
    if i < j {
      ClosedAdmitsNothing(run, steps, limits, i, j - 1);
    }
  }
}
