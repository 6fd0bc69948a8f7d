/**
 The life of every link the broker admits, in every interleaving of creators,
 timers, cancellers and bind goroutines (internal/link/broker.go). The tables
 change only inside critical sections; the effects that follow a critical
 section (releasing the reservation, notifying the owner, sending on the ready
 channel, running the handler) are separate steps of whoever owns the link.
 */
module LinkLifecycle {
  import opened LinkBroker

  /** An effect on the link's owner. */
  datatype Effect =
    | ReservationActivated
    | ReservationClosed
    | CancelCalled
    | ReadySent
    | HandlerRan

  /** How often each effect has happened, and how often an activation came after a close. */
  datatype Ledger = Ledger(
    activations: nat, closes: nat, lateActivations: nat, cancels: nat, sends: nat, handlings: nat)

  const NOTHING := Ledger(0, 0, 0, 0, 0, 0)

  function Noted(ledger: Ledger, effect: Effect): Ledger {
    match effect
    case ReservationActivated =>
      ledger.(activations := ledger.activations + 1,
              lateActivations := ledger.lateActivations + if ledger.closes > 0 then 1 else 0)
    case ReservationClosed => ledger.(closes := ledger.closes + 1)
    case CancelCalled => ledger.(cancels := ledger.cancels + 1)
    case ReadySent => ledger.(sends := ledger.sends + 1)
    case HandlerRan => ledger.(handlings := ledger.handlings + 1)
  }

  datatype Exit = Cancelled | Failed | Served

  /** What the link's owner does next. */
  datatype Stage =
    | Waiting
    // taken from the pending table by cancel, cancelMatching or an expired bind
    | CancelClose
    | CancelNotify
    | CancelSend
    // promoted by a bind goroutine
    | Preparing
    | Announcing
    | Activating
    | Delivering
    | Serving
    | FailNotify
    | FailSend
    | Finishing(served: bool)
    | FinalClose(served: bool)
    | Gone(exit: Exit)

  datatype Life = Life(link: PendingLink, stage: Stage, ledger: Ledger)

  datatype World = World(tables: Tables, lives: map<LinkID, Life>)

  /** The effect happens when its condition holds; the owner then stands at `stage`. */
  function Then(life: Life, condition: bool, effect: Effect, stage: Stage): Life {
    life.(ledger := if condition then Noted(life.ledger, effect) else life.ledger, stage := stage)
  }

  /** One step of the owner; `ok` is the outcome of the I/O the step performs. Finishing is a critical section. */
  function Advanced(life: Life, ok: bool): Life
    requires !life.stage.Waiting? && !life.stage.Gone? && !life.stage.Finishing?
  {
    var link := life.link;
    match life.stage
    case CancelClose => Then(life, link.target.reserved, ReservationClosed, CancelNotify)
    case CancelNotify => Then(life, link.onCancel, CancelCalled, CancelSend)
    case CancelSend => Then(life, link.delivery.ByReady?, ReadySent, Gone(Cancelled))
    case Preparing => life.(stage := if link.delivery.ByFactory? && !ok then FailNotify else Announcing)
    case Announcing => life.(stage := if ok then Activating else FailNotify)
    case Activating => Then(life, link.target.reserved, ReservationActivated, Delivering)
    case Delivering => Then(life, true, if link.delivery.ByReady? then ReadySent else HandlerRan, Serving)
    case Serving => life.(stage := Finishing(true))
    case FailNotify => Then(life, link.onCancel, CancelCalled, FailSend)
    case FailSend => Then(life, link.delivery.ByReady?, ReadySent, Finishing(false))
    case FinalClose(served) =>
      Then(life, link.target.reserved, ReservationClosed, Gone(if served then Served else Failed))
  }

  datatype Action =
    | Create(linkID: LinkID, link: PendingLink)
    | Cancel(linkID: LinkID)
    | Bind(binding: Binding, connection: nat, now: nat)
    | Advance(linkID: LinkID, ok: bool)

  predicate Can(w: World, action: Action) {
    match action
    case Create(linkID, _) => linkID !in w.lives
    case Cancel(_) => true
    case Bind(_, _, _) => true
    case Advance(linkID, _) =>
      linkID in w.lives && !w.lives[linkID].stage.Waiting? && !w.lives[linkID].stage.Gone?
  }

  function TableStep(w: World, action: Action): LinkBroker.Step
    requires !action.Advance?
  {
    match action
    case Create(linkID, link) => LinkBroker.Create(linkID, link)
    case Cancel(linkID) => LinkBroker.Cancel(linkID)
    case Bind(binding, connection, now) => LinkBroker.Bind(binding, connection, now)
  }

  /** The link's new owner, if the critical section handed it over. */
  function Handed(lives: map<LinkID, Life>, linkID: LinkID, stage: Stage): map<LinkID, Life> {
    if linkID in lives then lives[linkID := lives[linkID].(stage := stage)] else lives
  }

  function Do(w: World, action: Action): World
    requires Can(w, action)
  {
    match action
    case Create(linkID, link) =>
      if Refuses(w.tables, link.target) then w
      else World(Apply(w.tables, TableStep(w, action)), w.lives[linkID := Life(link, Waiting, NOTHING)])
    case Cancel(linkID) =>
      if linkID in w.tables.pending then
        World(Apply(w.tables, TableStep(w, action)), Handed(w.lives, linkID, CancelClose))
      else w
    case Bind(binding, connection, now) =>
      var lives := match BindDecision(w.tables, binding, now)
        case Rejected => w.lives
        case Expired => Handed(w.lives, binding.linkID, CancelClose)
        case Bound => Handed(w.lives, binding.linkID, Preparing);
      World(Apply(w.tables, TableStep(w, action)), lives)
    case Advance(linkID, ok) =>
      var life := w.lives[linkID];
      if life.stage.Finishing? then
        // finish closes the reservation only if it found the link in the active table
        var stage := if linkID in w.tables.active then FinalClose(life.stage.served)
                     else Gone(if life.stage.served then Served else Failed);
        World(Apply(w.tables, LinkBroker.Finish(linkID)), w.lives[linkID := life.(stage := stage)])
      else w.(lives := w.lives[linkID := Advanced(life, ok)])
  }

  // ---------------------------------------------------------------------
  // One owner at a time, and the log each owner leaves
  // ---------------------------------------------------------------------

  predicate Promoted(stage: Stage) {
    stage.Preparing? || stage.Announcing? || stage.Activating? || stage.Delivering? || stage.Serving? ||
    stage.FailNotify? || stage.FailSend? || stage.Finishing?
  }

  function Once(condition: bool): nat { if condition then 1 else 0 }

  predicate Closed(stage: Stage) {
    stage.CancelNotify? || stage.CancelSend? || stage.Gone?
  }

  predicate Notified(stage: Stage) {
    || stage.CancelSend? || stage == Gone(Cancelled)
    || stage.FailSend? || stage == Finishing(false) || stage == FinalClose(false) || stage == Gone(Failed)
  }

  predicate Answered(stage: Stage) {
    || stage == Gone(Cancelled)
    || stage == Finishing(false) || stage == FinalClose(false) || stage == Gone(Failed)
    || Delivered(stage)
  }

  predicate Delivered(stage: Stage) {
    stage.Serving? || stage == Finishing(true) || stage == FinalClose(true) || stage == Gone(Served)
  }

  /** The ledger of a link that stands at `stage`. */
  function Expected(link: PendingLink, stage: Stage): Ledger {
    Ledger(Once(link.target.reserved && (stage.Delivering? || Delivered(stage))),
           Once(link.target.reserved && Closed(stage)),
           0,
           Once(link.onCancel && Notified(stage)),
           Once(link.delivery.ByReady? && Answered(stage)),
           Once(!link.delivery.ByReady? && Delivered(stage)))
  }

  /** The link is where its stage says, and its ledger is what its stage says. */
  ghost predicate Placed(t: Tables, linkID: LinkID, life: Life) {
    && (linkID in t.pending <==> life.stage.Waiting?)
    && (linkID in t.active <==> Promoted(life.stage))
    && (linkID in t.pending ==> t.pending[linkID] == life.link)
    && (linkID in t.active ==> t.active[linkID].target == life.link.target)
    && life.ledger == Expected(life.link, life.stage)
  }

  ghost predicate Invariant(w: World) {
    && w.tables.pending.Keys + w.tables.active.Keys <= w.lives.Keys
    && (forall linkID <- w.lives :: Placed(w.tables, linkID, w.lives[linkID]))
  }

  lemma AdvancedPlaced(t: Tables, linkID: LinkID, life: Life, ok: bool)
    requires !life.stage.Waiting? && !life.stage.Gone? && !life.stage.Finishing? && Placed(t, linkID, life)
    ensures Placed(t, linkID, Advanced(life, ok))
  {
  }

  ghost predicate SameElsewhere(t: Tables, t': Tables, linkID: LinkID) {
    forall other | other != linkID ::
      && (other in t'.pending <==> other in t.pending) && (other in t'.active <==> other in t.active)
      && (other in t'.pending ==> t'.pending[other] == t.pending[other])
      && (other in t'.active ==> t'.active[other] == t.active[other])
  }

  /** A step that changes the tables about one link only keeps the invariant if that link is placed again. */
  lemma OneLinkSteps(w: World, t': Tables, linkID: LinkID, life: Life)
    requires Invariant(w) && Placed(t', linkID, life) && SameElsewhere(w.tables, t', linkID)
    ensures Invariant(World(t', w.lives[linkID := life]))
  {
    var w' := World(t', w.lives[linkID := life]);
    forall other <- w'.lives
      ensures Placed(t', other, w'.lives[other])
    {
      assert other != linkID ==> Placed(w.tables, other, w.lives[other]);
    }
  }

  lemma CreatedIsPlaced(w: World, t': Tables, linkID: LinkID, link: PendingLink)
    requires Invariant(w) && linkID !in w.lives
    requires t'.pending == w.tables.pending[linkID := link] && t'.active == w.tables.active
    ensures Invariant(World(t', w.lives[linkID := Life(link, Waiting, NOTHING)]))
  {
    assert Placed(t', linkID, Life(link, Waiting, NOTHING));
    OneLinkSteps(w, t', linkID, Life(link, Waiting, NOTHING));
  }

  lemma CreateKeepsInvariant(w: World, linkID: LinkID, link: PendingLink)
    requires Invariant(w) && linkID !in w.lives && !Refuses(w.tables, link.target)
    ensures Invariant(Do(w, Action.Create(linkID, link)))
  {
    CreatedIsPlaced(w, Admitted(w.tables, linkID, link), linkID, link);
  }

  /** A waiting link has an empty ledger, whoever takes it over. */
  lemma LeavingIsPlaced(t: Tables, t': Tables, linkID: LinkID, life: Life, stage: Stage)
    requires Placed(t, linkID, life) && life.stage.Waiting? && (stage.CancelClose? || stage.Preparing?)
    requires linkID !in t'.pending && (linkID in t'.active <==> stage.Preparing?)
    requires linkID in t'.active ==> t'.active[linkID].target == life.link.target
    ensures Placed(t', linkID, life.(stage := stage))
  {
  }

  lemma TakenIsPlaced(w: World, t': Tables, linkID: LinkID)
    requires Invariant(w) && linkID in w.tables.pending
    requires t'.pending == w.tables.pending - {linkID} && t'.active == w.tables.active
    ensures Invariant(World(t', Handed(w.lives, linkID, CancelClose)))
  {
    assert Placed(w.tables, linkID, w.lives[linkID]);
    LeavingIsPlaced(w.tables, t', linkID, w.lives[linkID], CancelClose);
    OneLinkSteps(w, t', linkID, w.lives[linkID].(stage := CancelClose));
  }

  lemma CancelKeepsInvariant(w: World, linkID: LinkID)
    requires Invariant(w) && linkID in w.tables.pending
    ensures Invariant(Do(w, Action.Cancel(linkID)))
  {
    TakenIsPlaced(w, Taken(w.tables, linkID), linkID);
  }

  lemma ExpiryKeepsInvariant(w: World, binding: Binding, connection: nat, now: nat)
    requires Invariant(w) && BindDecision(w.tables, binding, now).Expired?
    ensures Invariant(Do(w, Action.Bind(binding, connection, now)))
  {
    CancelKeepsInvariant(w, binding.linkID);
    assert Do(w, Action.Bind(binding, connection, now)) == Do(w, Action.Cancel(binding.linkID));
  }

  lemma PromotedIsPlaced(w: World, t': Tables, linkID: LinkID, connection: nat)
    requires Invariant(w) && linkID in w.tables.pending
    requires t'.pending == w.tables.pending - {linkID}
    requires t'.active == w.tables.active[linkID := ActiveLink(w.tables.pending[linkID].target, connection)]
    ensures Invariant(World(t', Handed(w.lives, linkID, Preparing)))
  {
    assert Placed(w.tables, linkID, w.lives[linkID]);
    LeavingIsPlaced(w.tables, t', linkID, w.lives[linkID], Preparing);
    OneLinkSteps(w, t', linkID, w.lives[linkID].(stage := Preparing));
  }

  lemma PromotionKeepsInvariant(w: World, binding: Binding, connection: nat, now: nat)
    requires Invariant(w) && BindDecision(w.tables, binding, now).Bound?
    ensures Invariant(Do(w, Action.Bind(binding, connection, now)))
  {
    PromotedIsPlaced(w, LinkBroker.Promoted(w.tables, binding.linkID, connection), binding.linkID, connection);
  }

  lemma FinishedIsPlaced(w: World, t': Tables, linkID: LinkID, life: Life)
    requires Invariant(w) && linkID in w.lives && w.lives[linkID] == life && life.stage.Finishing?
    requires t'.pending == w.tables.pending && t'.active == w.tables.active - {linkID}
    ensures Invariant(World(t', w.lives[linkID := life.(stage := FinalClose(life.stage.served))]))
  {
    assert Placed(w.tables, linkID, life);
    OneLinkSteps(w, t', linkID, life.(stage := FinalClose(life.stage.served)));
  }

  lemma FinishKeepsInvariant(w: World, linkID: LinkID, ok: bool)
    requires Invariant(w) && linkID in w.lives && w.lives[linkID].stage.Finishing?
    ensures linkID in w.tables.active && Invariant(Do(w, Advance(linkID, ok)))
  {
    assert Placed(w.tables, linkID, w.lives[linkID]);
    FinishedIsPlaced(w, Finished(w.tables, linkID), linkID, w.lives[linkID]);
  }

  lemma AdvanceKeepsInvariant(w: World, linkID: LinkID, ok: bool)
    requires Invariant(w) && Can(w, Advance(linkID, ok)) && !w.lives[linkID].stage.Finishing?
    ensures Invariant(Do(w, Advance(linkID, ok)))
  {
    AdvancedPlaced(w.tables, linkID, w.lives[linkID], ok);
    OneLinkSteps(w, w.tables, linkID, Advanced(w.lives[linkID], ok));
  }

  lemma StepKeepsInvariant(w: World, action: Action)
    requires Invariant(w) && Can(w, action)
    ensures Invariant(Do(w, action))
  {
    match action
    case Create(linkID, link) =>
      if Refuses(w.tables, link.target) {
        assert Do(w, action) == w;
      } else {
        CreateKeepsInvariant(w, linkID, link);
      }
    case Cancel(linkID) =>
      if linkID in w.tables.pending {
        CancelKeepsInvariant(w, linkID);
      } else {
        assert Do(w, action) == w;
      }
    case Bind(binding, connection, now) =>
      match BindDecision(w.tables, binding, now) {
        case Rejected => assert Do(w, action) == w;
        case Expired => ExpiryKeepsInvariant(w, binding, connection, now);
        case Bound => PromotionKeepsInvariant(w, binding, connection, now);
      }
    case Advance(linkID, ok) =>
      if w.lives[linkID].stage.Finishing? {
        FinishKeepsInvariant(w, linkID, ok);
      } else {
        AdvanceKeepsInvariant(w, linkID, ok);
      }
  }

  ghost predicate Moves(run: seq<World>, actions: seq<Action>, i: nat)
    requires |run| == |actions| + 1 && i < |actions|
  {
    Can(run[i], actions[i]) && run[i + 1] == Do(run[i], actions[i])
  }

  ghost predicate Follows(run: seq<World>, actions: seq<Action>) {
    && |run| == |actions| + 1
    && run[0] == World(EMPTY, map[])
    && (forall i: nat | i < |actions| :: Moves(run, actions, i))
  }

  lemma {:induction false} InvariantAlongRun(run: seq<World>, actions: seq<Action>, i: nat)
    requires Follows(run, actions) && i < |run|
    ensures Invariant(run[i])
  {
    if i > 0 {
      InvariantAlongRun(run, actions, i - 1);
      assert Moves(run, actions, i - 1);
      StepKeepsInvariant(run[i - 1], actions[i - 1]);
    }
  }

  // ---------------------------------------------------------------------
  // What that means for the owner of a link
  // ---------------------------------------------------------------------

  /**
   For every link in every reachable state: its reservation is closed at most
   once and is never activated after it was closed; its ready channel, of
   capacity one, is sent at most one result, so no send blocks; and if its
   onCancel was called its handler never runs, nor the other way round.
   */
  lemma OwnersAreExclusive(run: seq<World>, actions: seq<Action>, i: nat, linkID: LinkID)
    requires Follows(run, actions) && i < |run| && linkID in run[i].lives
    ensures var ledger := run[i].lives[linkID].ledger;
      && ledger.closes <= 1 && ledger.activations <= 1 && ledger.lateActivations == 0
      && ledger.sends <= 1
      && ledger.cancels + ledger.handlings <= 1
  {
    InvariantAlongRun(run, actions, i);
    assert Placed(run[i].tables, linkID, run[i].lives[linkID]);
  }

  /** A send is only ever made on a ready channel that has not been sent to. */
  lemma SendsNeverBlock(run: seq<World>, actions: seq<Action>, i: nat)
    requires Follows(run, actions) && i < |actions| && actions[i].Advance? && actions[i].linkID in run[i].lives
    requires var linkID := actions[i].linkID;
      linkID in run[i + 1].lives && run[i + 1].lives[linkID].ledger.sends > run[i].lives[linkID].ledger.sends
    ensures run[i].lives[actions[i].linkID].ledger.sends == 0
  {
    InvariantAlongRun(run, actions, i + 1);
    assert Moves(run, actions, i);
    assert Placed(run[i + 1].tables, actions[i].linkID, run[i + 1].lives[actions[i].linkID]);
  }

  /** The ledger of a link that has left by its one exit: everything released or answered exactly once. */
  lemma GoneLinksAreSettled(run: seq<World>, actions: seq<Action>, i: nat, linkID: LinkID)
    requires Follows(run, actions) && i < |run| && linkID in run[i].lives && run[i].lives[linkID].stage.Gone?
    ensures var life := run[i].lives[linkID];
      && life.ledger.closes == Once(life.link.target.reserved)
      && life.ledger.sends == Once(life.link.delivery.ByReady?)
      && life.ledger.cancels == Once(life.link.onCancel && life.stage.exit != Served)
      && life.ledger.handlings == Once(!life.link.delivery.ByReady? && life.stage.exit == Served)
    ensures linkID !in run[i].tables.pending && linkID !in run[i].tables.active
  {
    InvariantAlongRun(run, actions, i);
    assert Placed(run[i].tables, linkID, run[i].lives[linkID]);
    var exit := run[i].lives[linkID].stage.exit;
    assert exit.Cancelled? || exit.Failed? || exit.Served?;
  }

  lemma GoneStays(w: World, action: Action, linkID: LinkID)
    requires Invariant(w) && Can(w, action) && linkID in w.lives && w.lives[linkID].stage.Gone?
    ensures linkID in Do(w, action).lives && Do(w, action).lives[linkID] == w.lives[linkID]
  {
    assert Placed(w.tables, linkID, w.lives[linkID]);
  }

  lemma GoneStaysInRun(run: seq<World>, actions: seq<Action>, i: nat, linkID: LinkID)
    requires Follows(run, actions) && i < |actions| && linkID in run[i].lives && run[i].lives[linkID].stage.Gone?
    ensures linkID in run[i + 1].lives && run[i + 1].lives[linkID] == run[i].lives[linkID]
  {
    InvariantAlongRun(run, actions, i);
    assert Moves(run, actions, i);
    GoneStays(run[i], actions[i], linkID);
  }

  /** A link that has left never changes again: it took exactly one of the exits. */
  lemma {:induction false} ExitIsFinal(run: seq<World>, actions: seq<Action>, i: nat, j: nat, linkID: LinkID)
    requires Follows(run, actions) && i <= j < |run| && linkID in run[i].lives && run[i].lives[linkID].stage.Gone?
    ensures linkID in run[j].lives && run[j].lives[linkID] == run[i].lives[linkID]
    decreases j
  {
    if i < j {
      ExitIsFinal(run, actions, i, j - 1, linkID);
      GoneStaysInRun(run, actions, j - 1, linkID);
    }
  }

  /** How many steps of its owner separate a link from its exit. */
  function StepsLeft(stage: Stage): nat {
    match stage
    case Waiting => 9
    case Preparing => 8
    case Announcing => 7
    case Activating => 6
    case Delivering => 5
    case Serving => 4
    case FailNotify => 5
    case FailSend => 4
    case Finishing(_) => 3
    case FinalClose(_) => 2
    case CancelClose => 3
    case CancelNotify => 2
    case CancelSend => 1
    case Gone(_) => 0
  }

  lemma AdvancingIsCloser(life: Life, ok: bool)
    requires !life.stage.Waiting? && !life.stage.Gone? && !life.stage.Finishing?
    ensures StepsLeft(Advanced(life, ok).stage) < StepsLeft(life.stage)
  {
  }

  /** What moves a link on: its timer while it waits, and afterwards its owner. */
  function Driver(life: Life, linkID: LinkID, ok: bool): Action {
    if life.stage.Waiting? then Action.Cancel(linkID) else Advance(linkID, ok)
  }

  /** Every link can leave: while it waits its timer can always take it, and afterwards its owner is never stuck. */
  lemma AlwaysOnTheWayOut(w: World, linkID: LinkID, ok: bool)
    requires Invariant(w) && linkID in w.lives && !w.lives[linkID].stage.Gone?
    ensures Can(w, Driver(w.lives[linkID], linkID, ok))
    ensures var w' := Do(w, Driver(w.lives[linkID], linkID, ok));
      linkID in w'.lives && StepsLeft(w'.lives[linkID].stage) < StepsLeft(w.lives[linkID].stage)
  {
    var life := w.lives[linkID];
    assert Placed(w.tables, linkID, life);
    if life.stage.Waiting? {
      CancelIsCloser(w, linkID);
    } else if life.stage.Finishing? {
      FinishIsCloser(w, linkID, ok);
    } else {
      AdvancingIsCloser(life, ok);
    }
  }

  lemma CancelIsCloser(w: World, linkID: LinkID)
    requires linkID in w.lives && linkID in w.tables.pending && w.lives[linkID].stage.Waiting?
    ensures var w' := Do(w, Action.Cancel(linkID)); linkID in w'.lives && StepsLeft(w'.lives[linkID].stage) < 9
  {
  }

  lemma FinishIsCloser(w: World, linkID: LinkID, ok: bool)
    requires linkID in w.lives && linkID in w.tables.active && w.lives[linkID].stage.Finishing?
    ensures var w' := Do(w, Advance(linkID, ok)); linkID in w'.lives && StepsLeft(w'.lives[linkID].stage) < 3
  {
  }
}
