/**
 What a link has to do with the bind that made it active and with the limits
 that let it in (internal/link/broker.go), said of the links, the tickets and
 the connections themselves.
 */
module LinkLaws {
  import opened Counting
  import opened Text
  import opened LinkBroker
  import opened LinkLifecycle

  // ---------------------------------------------------------------------
  // Who gets a link
  // ---------------------------------------------------------------------

  /** No direction means the proxy direction. */
  predicate SameDirection(left: string, right: string) {
    left == right || (left in {"", "proxy"} && right in {"", "proxy"})
  }

  /** The connection presents the link's own ticket and everything the link was offered with. */
  predicate Presents(binding: Binding, link: PendingLink) {
    && binding.ticketDigest == link.ticketDigest
    && binding.clientID == link.target.clientID && binding.sessionID == link.target.sessionID
    && binding.proxyType == link.target.trafficType && binding.bindingID == link.target.bindingID
    && binding.authentication == link.target.authentication
    && SameDirection(binding.direction, link.target.direction)
  }

  /** A bind succeeds if and only if its link is pending, has not expired, and everything is presented; an expired link is taken out. */
  lemma BoundIff(t: Tables, binding: Binding, connection: nat, now: nat)
    ensures BindDecision(t, binding, now).Bound? <==>
      && binding.linkID in t.pending && now < t.pending[binding.linkID].expiresAt
      && Presents(binding, t.pending[binding.linkID])
    ensures BindDecision(t, binding, now).Expired? <==>
      binding.linkID in t.pending && t.pending[binding.linkID].expiresAt <= now
    ensures BindDecision(t, binding, now).Bound? ==>
      var t' := AfterBind(t, binding, connection, now);
      && binding.linkID !in t'.pending
      && t'.active == t.active[binding.linkID := ActiveLink(t.pending[binding.linkID].target, connection)]
  {
  }

  ghost predicate WasCreated(actions: seq<Action>, i: nat, linkID: LinkID, link: PendingLink)
    requires i <= |actions|
  {
    exists k: nat | k < i :: actions[k] == Action.Create(linkID, link)
  }

  /** The action is a bind of the link, in time, by this connection, that presents everything. */
  ghost predicate Binds(action: Action, linkID: LinkID, link: PendingLink, connection: nat) {
    && action.Bind? && action.binding.linkID == linkID && action.connection == connection
    && action.now < link.expiresAt && Presents(action.binding, link)
  }

  ghost predicate WasBound(actions: seq<Action>, i: nat, linkID: LinkID, link: PendingLink, connection: nat)
    requires i <= |actions|
  {
    exists j: nat | j < i :: Binds(actions[j], linkID, link, connection) && WasCreated(actions, j, linkID, link)
  }

  lemma PendingOrigin(w: World, action: Action, w': World, linkID: LinkID)
    requires Can(w, action) && w' == Do(w, action) && linkID in w'.tables.pending
    ensures
      || (linkID in w.tables.pending && w.tables.pending[linkID] == w'.tables.pending[linkID])
      || action == Action.Create(linkID, w'.tables.pending[linkID])
  {
  }

  lemma ActiveOrigin(w: World, action: Action, w': World, linkID: LinkID)
    requires Can(w, action) && w' == Do(w, action) && linkID in w'.tables.active
    ensures
      || (linkID in w.tables.active && w.tables.active[linkID] == w'.tables.active[linkID])
      || (&& linkID in w.tables.pending && w'.tables.active[linkID].target == w.tables.pending[linkID].target
          && Binds(action, linkID, w.tables.pending[linkID], w'.tables.active[linkID].connection))
  {
    if action.Bind? {
      BoundIff(w.tables, action.binding, action.connection, action.now);
    }
  }

  lemma {:induction false} PendingWasCreated(run: seq<World>, actions: seq<Action>, i: nat, linkID: LinkID)
    requires LinkLifecycle.Follows(run, actions) && i < |run| && linkID in run[i].tables.pending
    ensures WasCreated(actions, i, linkID, run[i].tables.pending[linkID])
  {
    if i > 0 {
      assert Moves(run, actions, i - 1);
      PendingOrigin(run[i - 1], actions[i - 1], run[i], linkID);
      if linkID in run[i - 1].tables.pending && run[i - 1].tables.pending[linkID] == run[i].tables.pending[linkID] {
        PendingWasCreated(run, actions, i - 1, linkID);
      }
    }
  }

  /** Somebody bound it: the link as it was created, and the connection that has it now. */
  ghost predicate Owed(actions: seq<Action>, i: nat, linkID: LinkID, active: ActiveLink)
    requires i <= |actions|
  {
    exists link: PendingLink :: link.target == active.target && WasBound(actions, i, linkID, link, active.connection)
  }

  lemma OwedLonger(actions: seq<Action>, i: nat, linkID: LinkID, active: ActiveLink)
    requires i < |actions| && Owed(actions, i, linkID, active)
    ensures Owed(actions, i + 1, linkID, active)
  {
    var link: PendingLink :| link.target == active.target && WasBound(actions, i, linkID, link, active.connection);
    var j: nat :| j < i && Binds(actions[j], linkID, link, active.connection) && WasCreated(actions, j, linkID, link);
    assert WasBound(actions, i + 1, linkID, link, active.connection);
  }

  lemma NewlyOwed(actions: seq<Action>, i: nat, linkID: LinkID, link: PendingLink, active: ActiveLink)
    requires i < |actions| && link.target == active.target && Binds(actions[i], linkID, link, active.connection)
    requires WasCreated(actions, i, linkID, link)
    ensures Owed(actions, i + 1, linkID, active)
  {
    assert WasBound(actions, i + 1, linkID, link, active.connection);
  }

  /**
   In every run each active link is held by a connection that bound it before
   its expiry, after it was created, with the link's own ticket, client,
   session, type, binding, authentication and direction.
   */
  lemma {:induction false} ActiveWasBound(run: seq<World>, actions: seq<Action>, i: nat, linkID: LinkID)
    requires LinkLifecycle.Follows(run, actions) && i < |run| && linkID in run[i].tables.active
    ensures Owed(actions, i, linkID, run[i].tables.active[linkID])
  {
    if i > 0 {
      var active := run[i].tables.active[linkID];
      assert Moves(run, actions, i - 1);
      ActiveOrigin(run[i - 1], actions[i - 1], run[i], linkID);
      if linkID in run[i - 1].tables.active && run[i - 1].tables.active[linkID] == active {
        ActiveWasBound(run, actions, i - 1, linkID);
        OwedLonger(actions, i - 1, linkID, active);
      } else {
        PendingWasCreated(run, actions, i - 1, linkID);
        NewlyOwed(actions, i - 1, linkID, run[i - 1].tables.pending[linkID], active);
      }
    }
  }

  // ---------------------------------------------------------------------
  // Who is served
  // ---------------------------------------------------------------------

  /** Step j finishes what the link's owner does at this stage, with this outcome. */
  ghost predicate Passes(run: seq<World>, actions: seq<Action>, j: nat, linkID: LinkID, stage: Stage, ok: bool)
    requires |run| == |actions| + 1 && j < |actions|
  {
    actions[j] == Advance(linkID, ok) && linkID in run[j].lives && run[j].lives[linkID].stage == stage
  }

  ghost predicate HasPassed(run: seq<World>, actions: seq<Action>, i: nat, linkID: LinkID, stage: Stage, ok: bool)
    requires |run| == |actions| + 1 && i <= |actions|
  {
    exists j: nat | j < i :: Passes(run, actions, j, linkID, stage, ok)
  }

  /** The link has been acknowledged to its client and is on its way to be, or has been, served. */
  predicate GoesWell(stage: Stage) {
    || stage.Activating? || stage.Delivering? || stage.Serving? || stage == Finishing(true) || stage == FinalClose(true)
    || stage == Gone(Served)
  }

  predicate GoesWrong(stage: Stage) {
    || stage.FailNotify? || stage.FailSend? || stage == Finishing(false) || stage == FinalClose(false)
    || stage == Gone(Failed)
  }

  /** How a life goes on in one action: not at all, by leaving the pending table, or by a step of its owner. */
  ghost predicate GoesOn(before: Life, action: Action, linkID: LinkID, after: Life) {
    && after.link == before.link
    && (|| after.stage == before.stage
        || (before.stage.Waiting? && (after.stage.CancelClose? || after.stage.Preparing?))
        || (&& action.Advance? && action.linkID == linkID && !before.stage.Waiting? && !before.stage.Gone?
            && if before.stage.Finishing? then after.stage == FinalClose(before.stage.served)
               else after == Advanced(before, action.ok)))
  }

  lemma AdvanceStep(w: World, action: Action, linkID: LinkID)
    requires LinkLifecycle.Can(w, action) && action.Advance? && linkID in w.lives && Placed(w.tables, linkID, w.lives[linkID])
    ensures var lives := LinkLifecycle.Do(w, action).lives;
      linkID in lives && GoesOn(w.lives[linkID], action, linkID, lives[linkID])
  {
  }

  lemma BindStep(w: World, action: Action, linkID: LinkID)
    requires action.Bind? && linkID in w.lives && Placed(w.tables, linkID, w.lives[linkID])
    ensures var lives := LinkLifecycle.Do(w, action).lives;
      linkID in lives && GoesOn(w.lives[linkID], action, linkID, lives[linkID])
  {
  }

  lemma TableStepLeaves(w: World, action: Action, linkID: LinkID)
    requires LinkLifecycle.Can(w, action) && (action.Create? || action.Cancel?)
    requires linkID in w.lives && Placed(w.tables, linkID, w.lives[linkID])
    ensures var lives := LinkLifecycle.Do(w, action).lives;
      linkID in lives && GoesOn(w.lives[linkID], action, linkID, lives[linkID])
  {
  }

  lemma LifeStep(w: World, action: Action, w': World, linkID: LinkID)
    requires LinkLifecycle.Invariant(w) && LinkLifecycle.Can(w, action) && w' == LinkLifecycle.Do(w, action)
    requires linkID in w.lives
    ensures linkID in w'.lives && GoesOn(w.lives[linkID], action, linkID, w'.lives[linkID])
  {
    assert Placed(w.tables, linkID, w.lives[linkID]);
    match action
    case Advance(_, _) => AdvanceStep(w, action, linkID);
    case Bind(_, _, _) => BindStep(w, action, linkID);
    case _ => TableStepLeaves(w, action, linkID);
  }

  lemma LifeTurns(before: Life, action: Action, linkID: LinkID, after: Life)
    requires GoesOn(before, action, linkID, after)
    ensures GoesWell(after.stage) ==> GoesWell(before.stage) || (before.stage == Announcing && action == Advance(linkID, true))
    ensures GoesWrong(after.stage) ==>
      || GoesWrong(before.stage) || (before.stage == Announcing && action == Advance(linkID, false))
      || (before.stage == Preparing && action == Advance(linkID, false) && before.link.delivery.ByFactory?)
  {
  }

  lemma LifeInRun(run: seq<World>, actions: seq<Action>, i: nat, linkID: LinkID)
    requires LinkLifecycle.Follows(run, actions) && i < |actions| && linkID in run[i + 1].lives
    ensures linkID !in run[i].lives ==> run[i + 1].lives[linkID].stage.Waiting?
    ensures linkID in run[i].lives && GoesWell(run[i + 1].lives[linkID].stage) ==>
      GoesWell(run[i].lives[linkID].stage) || Passes(run, actions, i, linkID, Announcing, true)
    ensures linkID in run[i].lives && GoesWrong(run[i + 1].lives[linkID].stage) ==>
      || GoesWrong(run[i].lives[linkID].stage) || Passes(run, actions, i, linkID, Announcing, false)
      || Passes(run, actions, i, linkID, Preparing, false)
  {
    LinkLifecycle.InvariantAlongRun(run, actions, i);
    assert Moves(run, actions, i);
    if linkID in run[i].lives {
      LifeStep(run[i], actions[i], run[i + 1], linkID);
      LifeTurns(run[i].lives[linkID], actions[i], linkID, run[i + 1].lives[linkID]);
    }
  }

  /**
   In every run a link is served only if its acknowledgement reached the client,
   and fails only because preparing its handler or acknowledging it failed.
   */
  lemma {:induction false} ServedOnlyIfAcknowledged(run: seq<World>, actions: seq<Action>, i: nat, linkID: LinkID)
    requires LinkLifecycle.Follows(run, actions) && i < |run| && linkID in run[i].lives
    ensures GoesWell(run[i].lives[linkID].stage) ==> HasPassed(run, actions, i, linkID, Announcing, true)
    ensures GoesWrong(run[i].lives[linkID].stage) ==>
      HasPassed(run, actions, i, linkID, Announcing, false) || HasPassed(run, actions, i, linkID, Preparing, false)
  {
    if i > 0 {
      LifeInRun(run, actions, i - 1, linkID);
      if linkID in run[i - 1].lives {
        ServedOnlyIfAcknowledged(run, actions, i - 1, linkID);
      }
    }
  }

  // ---------------------------------------------------------------------
  // Who gets in
  // ---------------------------------------------------------------------

  /** Links of one client, of one binding of it, or of one direction of it. */
  predicate Alike(dimension: Dimension, left: Target, right: Target) {
    && left.clientID == right.clientID
    && match dimension
       case ByClient => true
       case ByBinding => left.bindingName == right.bindingName
       case ByDirection => SameDirection(left.direction, right.direction)
  }

  /** Client IDs are validated texts without NUL, so a key names exactly what it was made of. */
  predicate Plain(target: Target) { '\0' !in target.clientID }

  /** Two links are counted under one key exactly if they are alike. */
  lemma KeysSeparate(dimension: Dimension, left: Target, right: Target)
    requires Plain(left) && Plain(right)
    ensures KeyOf(dimension, left) == KeyOf(dimension, right) <==> Alike(dimension, left, right)
  {
    match dimension
    case ByClient =>
    case ByBinding => JoinedTexts(left.clientID, left.bindingName, right.clientID, right.bindingName);
    case ByDirection =>
      JoinedTexts(left.clientID, NormalizeLinkDirection(left.direction), right.clientID, NormalizeLinkDirection(right.direction));
  }

  ghost predicate AllPlain(t: Tables) {
    (forall linkID <- t.pending :: Plain(t.pending[linkID].target)) && forall linkID <- t.active :: Plain(t.active[linkID].target)
  }

  /** The pending links like this one, and all links like it. */
  ghost function PendingLike(t: Tables, dimension: Dimension, target: Target): set<LinkID> {
    set linkID <- t.pending | Alike(dimension, t.pending[linkID].target, target)
  }

  ghost function LinksLike(t: Tables, dimension: Dimension, target: Target): set<LinkID> {
    PendingLike(t, dimension, target) + ActiveLike(t, dimension, target)
  }

  lemma PendingAreCounted(t: Tables, dimension: Dimension, target: Target)
    requires AllPlain(t) && Plain(target)
    ensures Having(PendingKeys(t, dimension), KeyOf(dimension, target)) == PendingLike(t, dimension, target)
  {
    forall linkID <- t.pending
      ensures KeyOf(dimension, t.pending[linkID].target) == KeyOf(dimension, target) <==>
              Alike(dimension, t.pending[linkID].target, target)
    {
      KeysSeparate(dimension, t.pending[linkID].target, target);
    }
  }

  ghost function ActiveLike(t: Tables, dimension: Dimension, target: Target): set<LinkID> {
    set linkID <- t.active | Alike(dimension, t.active[linkID].target, target)
  }

  lemma ActiveAreCounted(t: Tables, dimension: Dimension, target: Target)
    requires AllPlain(t) && Plain(target)
    ensures Having(ActiveKeys(t, dimension), KeyOf(dimension, target)) == ActiveLike(t, dimension, target)
  {
    forall linkID <- t.active
      ensures KeyOf(dimension, t.active[linkID].target) == KeyOf(dimension, target) <==>
              Alike(dimension, t.active[linkID].target, target)
    {
      KeysSeparate(dimension, t.active[linkID].target, target);
    }
  }

  /** The counters the test reads are the numbers of links like the new one. */
  ghost predicate Counted(t: Tables, dimension: Dimension, target: Target) {
    && |PendingLike(t, dimension, target)| == t.pendingCounts.At(dimension, target)
    && |LinksLike(t, dimension, target)| == t.pendingCounts.At(dimension, target) + t.activeCounts.At(dimension, target)
  }

  lemma LikeAreCounted(t: Tables, dimension: Dimension, target: Target)
    requires Coherent(t) && AllPlain(t) && Plain(target)
    ensures Counted(t, dimension, target)
  {
    PendingAreCounted(t, dimension, target);
    ActiveAreCounted(t, dimension, target);
    CountersAreExact(t, dimension, target);
    assert PendingLike(t, dimension, target) !! ActiveLike(t, dimension, target);
    assert LinksLike(t, dimension, target) == PendingLike(t, dimension, target) + ActiveLike(t, dimension, target);
  }

  /** No room: the broker is closed, or one of the limits has been reached by the links there are. */
  ghost predicate NoRoom(t: Tables, target: Target) {
    || t.closed
    || |t.pending| >= 1024 || |t.pending.Keys + t.active.Keys| >= 4096
    || |PendingLike(t, ByClient, target)| >= 128
    || |PendingLike(t, ByBinding, target)| >= 64
    || |LinksLike(t, ByClient, target)| >= 512
    || |LinksLike(t, ByBinding, target)| >= 256
    || (target.maxActiveLinks > 0 && |LinksLike(t, ByDirection, target)| >= target.maxActiveLinks)
  }

  /** How many pending links and how many links there are of the client, the binding and the direction, and in all. */
  datatype Numbers = Numbers(pc: int, lc: int, pb: int, lb: int, ld: int, pending: int, all: int)

  predicate TooMany(n: Numbers, maxActiveLinks: int) {
    || n.pending >= MAX_PENDING || n.all >= MAX_ACTIVE
    || n.pc >= MAX_PENDING_PER_CLIENT || n.pb >= MAX_PENDING_PER_PROXY
    || n.lc >= MAX_ACTIVE_PER_CLIENT || n.lb >= MAX_ACTIVE_PER_PROXY
    || (maxActiveLinks > 0 && n.ld >= maxActiveLinks)
  }

  lemma TestedNumbers(t: Tables, target: Target, n: Numbers)
    requires n.pc == t.pendingCounts.At(ByClient, target) && n.lc == n.pc + t.activeCounts.At(ByClient, target)
    requires n.pb == t.pendingCounts.At(ByBinding, target) && n.lb == n.pb + t.activeCounts.At(ByBinding, target)
    requires n.ld == t.pendingCounts.At(ByDirection, target) + t.activeCounts.At(ByDirection, target)
    requires n.pending == |t.pending| && n.all == |t.pending| + |t.active|
    ensures Refuses(t, target) <==> t.closed || TooMany(n, target.maxActiveLinks)
  {
  }

  lemma LinkNumbers(t: Tables, target: Target, n: Numbers)
    requires n.pc == |PendingLike(t, ByClient, target)| && n.lc == |LinksLike(t, ByClient, target)|
    requires n.pb == |PendingLike(t, ByBinding, target)| && n.lb == |LinksLike(t, ByBinding, target)|
    requires n.ld == |LinksLike(t, ByDirection, target)|
    requires n.pending == |t.pending| && n.all == |t.pending.Keys + t.active.Keys|
    ensures NoRoom(t, target) <==> t.closed || TooMany(n, target.maxActiveLinks)
  {
  }

  lemma CountedNumbers(t: Tables, dimension: Dimension, target: Target) returns (pending: int, links: int)
    requires Coherent(t) && AllPlain(t) && Plain(target)
    ensures pending == t.pendingCounts.At(dimension, target) == |PendingLike(t, dimension, target)|
    ensures links == pending + t.activeCounts.At(dimension, target) == |LinksLike(t, dimension, target)|
  {
    LikeAreCounted(t, dimension, target);
    pending := t.pendingCounts.At(dimension, target);
    links := pending + t.activeCounts.At(dimension, target);
  }

  lemma RefusesIff(t: Tables, target: Target)
    requires Coherent(t) && AllPlain(t) && Plain(target)
    ensures Refuses(t, target) <==> NoRoom(t, target)
  {
    var pc, lc := CountedNumbers(t, ByClient, target);
    var pb, lb := CountedNumbers(t, ByBinding, target);
    var _, ld := CountedNumbers(t, ByDirection, target);
    AllLinks(t);
    var n := Numbers(pc, lc, pb, lb, ld, |t.pending|, |t.pending| + |t.active|);
    TestedNumbers(t, target, n);
    LinkNumbers(t, target, n);
  }

  lemma AllLinks(t: Tables)
    requires Coherent(t)
    ensures |t.pending.Keys + t.active.Keys| == |t.pending| + |t.active|
  {
    assert t.pending.Keys !! t.active.Keys;
  }

  lemma StepKeepsPlain(t: Tables, step: LinkBroker.Step)
    requires AllPlain(t) && (step.Create? ==> Plain(step.link.target))
    ensures AllPlain(Apply(t, step))
  {
  }

  lemma {:induction false} PlainAlongRun(run: seq<Tables>, steps: seq<LinkBroker.Step>, limits: Limits, i: nat)
    requires LinkBroker.Follows(run, steps, limits) && i < |run|
    requires forall k | 0 <= k < |steps| && steps[k].Create? :: Plain(steps[k].link.target)
    ensures AllPlain(run[i])
  {
    if i > 0 {
      PlainAlongRun(run, steps, limits, i - 1);
      StepKeepsPlain(run[i - 1], steps[i - 1]);
    }
  }

  /** In every run a new link is refused if and only if the broker is closed or the links there are have reached a limit. */
  lemma RefusedIffNoRoom(run: seq<Tables>, steps: seq<LinkBroker.Step>, limits: Limits, i: nat, target: Target)
    requires LinkBroker.Follows(run, steps, limits) && i < |run| && Plain(target)
    requires forall k | 0 <= k < |steps| && steps[k].Create? :: Plain(steps[k].link.target)
    ensures Refuses(run[i], target) <==> NoRoom(run[i], target)
  {
    CountersAndLimitsAlongRun(run, steps, limits, i);
    PlainAlongRun(run, steps, limits, i);
    RefusesIff(run[i], target);
  }
}
