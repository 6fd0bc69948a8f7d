/**
 The server's Forward registry and its optimistic transactions
 (internal/forward/registry/registry.go, sync_transaction.go). The identity of
 a session's binding set is its generation: a transaction publishes only over
 the very set it observed.
 */
module ForwardRegistry {
  import opened Authentication

  const MAX_BINDINGS := 128

  datatype SessionKey = SessionKey(clientID: string, sessionID: string)

  datatype Kind = Tcp | Udp | Unsupported

  /** `wellFormed` says whether the name and the target address parse and are canonical. */
  datatype Declaration = Declaration(name: string, kind: Kind, wellFormed: bool, targetIP: string, targetPort: nat)

  datatype Verdict = Verdict(configured: bool, active: bool)

  /** The policy in force at one moment. */
  type Policy = (Context, Declaration) -> Verdict

  datatype Binding = Binding(bindingID: nat, declaration: Declaration, authentication: Context, active: bool)

  type Bindings = map<string, Binding>

  datatype ForwardError = LimitExceeded | InvalidForward(name: string) | TargetNotAllowed(name: string) | SessionInactive

  datatype Validation = Valid | Invalid(error: ForwardError)

  ghost predicate Declares(declaration: Declaration) {
    declaration.wellFormed && declaration.targetPort != 0 && !declaration.kind.Unsupported?
  }

  /** What a complete declaration must meet. */
  ghost predicate Acceptable(declarations: seq<Declaration>, context: Context, policy: Policy) {
    && |declarations| <= MAX_BINDINGS
    && (forall d <- declarations :: Declares(d) && policy(context, d).configured)
    && (forall i, j | 0 <= i < j < |declarations| :: declarations[i].name != declarations[j].name)
  }

  /** The declarations up to i are fine and declaration i is not, for this reason. */
  ghost predicate FirstFault(declarations: seq<Declaration>, context: Context, policy: Policy, i: nat, error: ForwardError)
    requires i < |declarations|
  {
    var d := declarations[i];
    && Acceptable(declarations[..i], context, policy) && !Acceptable(declarations[..i + 1], context, policy)
    && error == if Declares(d) && (forall k | 0 <= k < i :: declarations[k].name != d.name) then TargetNotAllowed(d.name)
                else InvalidForward(d.name)
  }

  lemma FaultIsFirst(declarations: seq<Declaration>, context: Context, policy: Policy, i: nat)
    requires i < |declarations| <= MAX_BINDINGS && Acceptable(declarations[..i], context, policy)
    requires var d := declarations[i];
      !Declares(d) || !policy(context, d).configured || exists k | 0 <= k < i :: declarations[k].name == d.name
    ensures !Acceptable(declarations[..i + 1], context, policy) && !Acceptable(declarations, context, policy)
  {
    assert declarations[..i + 1][i] == declarations[i];
    assert declarations[i] in declarations[..i + 1] && declarations[i] in declarations;
    if k :| 0 <= k < i && declarations[k].name == declarations[i].name {
      assert declarations[..i + 1][k] == declarations[k];
    }
  }

  lemma OneMoreAcceptable(declarations: seq<Declaration>, context: Context, policy: Policy, i: nat)
    requires i < |declarations| <= MAX_BINDINGS && Acceptable(declarations[..i], context, policy)
    requires var d := declarations[i]; Declares(d) && policy(context, d).configured
    requires forall k | 0 <= k < i :: declarations[k].name != declarations[i].name
    ensures Acceptable(declarations[..i + 1], context, policy)
  {
    assert declarations[..i + 1] == declarations[..i] + [declarations[i]];
  }

  /** Accepts exactly the acceptable declarations, and otherwise blames the first one that is at fault. */
  method Validate(context: Context, declarations: seq<Declaration>, policy: Policy) returns (verdict: Validation)
    ensures verdict.Valid? <==> Acceptable(declarations, context, policy)
    ensures verdict.Invalid? ==>
      if |declarations| > MAX_BINDINGS then verdict.error == LimitExceeded
      else exists i: nat | i < |declarations| :: FirstFault(declarations, context, policy, i, verdict.error)
  {
    if |declarations| > MAX_BINDINGS {
      return Invalid(LimitExceeded);
    }
    var names: set<string> := {};
    for i := 0 to |declarations|
      invariant names == set k | 0 <= k < i :: declarations[k].name
      invariant Acceptable(declarations[..i], context, policy)
    {
      var d := declarations[i];
      if !d.wellFormed || d.targetPort == 0 || d.kind.Unsupported? {
        FaultIsFirst(declarations, context, policy, i);
        assert FirstFault(declarations, context, policy, i, InvalidForward(d.name));
        return Invalid(InvalidForward(d.name));
      }
      if d.name in names {
        FaultIsFirst(declarations, context, policy, i);
        assert FirstFault(declarations, context, policy, i, InvalidForward(d.name));
        return Invalid(InvalidForward(d.name));
      }
      if !policy(context, d).configured {
        FaultIsFirst(declarations, context, policy, i);
        assert FirstFault(declarations, context, policy, i, TargetNotAllowed(d.name));
        return Invalid(TargetNotAllowed(d.name));
      }
      OneMoreAcceptable(declarations, context, policy, i);
      names := names + {d.name};
    }
    assert declarations[..|declarations|] == declarations;
    return Valid;
  }

  /** The set a transaction prepares: one binding a declaration, active as the policy says. */
  ghost predicate Prepares(bindings: Bindings, declarations: seq<Declaration>, context: Context, policy: Policy) {
    && bindings.Keys == (set i | 0 <= i < |declarations| :: declarations[i].name)
    && (forall d <- declarations ::
          && d.name in bindings
          && bindings[d.name] == Binding(bindings[d.name].bindingID, d, context, policy(context, d).active))
  }

  method PrepareBindings(context: Context, declarations: seq<Declaration>, ids: seq<nat>, policy: Policy)
    returns (bindings: Bindings)
    requires Acceptable(declarations, context, policy) && |ids| == |declarations|
    ensures Prepares(bindings, declarations, context, policy) && Named(bindings)
  {
    bindings := map[];
    for i := 0 to |declarations|
      invariant Prepares(bindings, declarations[..i], context, policy)
    {
      var d := declarations[i];
      PreparesOneMore(bindings, declarations, i, context, policy, ids[i]);
      bindings := bindings[d.name := Binding(ids[i], d, context, policy(context, d).active)];
    }
    assert declarations[..|declarations|] == declarations;
  }

  lemma PreparesOneMore(bindings: Bindings, declarations: seq<Declaration>, i: nat, context: Context,
                        policy: Policy, id: nat)
    requires i < |declarations| && Acceptable(declarations, context, policy)
    requires Prepares(bindings, declarations[..i], context, policy)
    ensures var d := declarations[i];
      Prepares(bindings[d.name := Binding(id, d, context, policy(context, d).active)], declarations[..i + 1],
               context, policy)
  {
    var d := declarations[i];
    assert declarations[..i + 1] == declarations[..i] + [d];
    forall e <- declarations[..i] ensures e.name != d.name {
    }
  }

  /** The test CommitWith repeats under the lock. */
  ghost predicate StillAllowed(bindings: Bindings, policy: Policy) {
    forall name <- bindings ::
      policy(bindings[name].authentication, bindings[name].declaration) == Verdict(true, bindings[name].active)
  }

  function Repoliced(bindings: Bindings, policy: Policy): Bindings {
    map name <- bindings ::
      bindings[name].(active := policy(bindings[name].authentication, bindings[name].declaration).active)
  }

  function BindingIDs(bindings: Bindings): set<nat> {
    set name <- bindings :: bindings[name].bindingID
  }

  // ---------------------------------------------------------------------
  // What a new policy does to a published set
  // ---------------------------------------------------------------------

  /** Whether the part of the policy that concerns a declaration has changed. */
  type Changes = (Context, Declaration) -> bool

  datatype Notice = Revoked(name: string, bindingID: nat) | Activated(name: string, bindingID: nat)

  function Granted(b: Binding, policy: Policy): bool { policy(b.authentication, b.declaration).active }

  function Changed(b: Binding, changes: Changes): bool { changes(b.authentication, b.declaration) }

  function Revocation(b: Binding, active: bool, changed: bool): seq<Notice> {
    if b.active && (!active || changed) then [Revoked(b.declaration.name, b.bindingID)] else []
  }

  function Activation(b: Binding, active: bool, changed: bool): seq<Notice> {
    if active && (!b.active || changed) then [Activated(b.declaration.name, b.bindingID)] else []
  }

  /** The client hears of a binding that stops and of one that starts; a changed one stops first and starts again. */
  function NoticesFor(b: Binding, active: bool, changed: bool): seq<Notice> {
    Revocation(b, active, changed) + Activation(b, active, changed)
  }

  function NoticesOf(b: Binding, policy: Policy, changes: Changes): seq<Notice> {
    NoticesFor(b, Granted(b, policy), Changed(b, changes))
  }

  /** The notices about one binding, in the order they are sent. */
  function Concerning(notices: seq<Notice>, name: string): seq<Notice> {
    if notices == [] then []
    else
      var last := |notices| - 1;
      Concerning(notices[..last], name) + if notices[last].name == name then [notices[last]] else []
  }

  lemma OneMoreNotice(notices: seq<Notice>, notice: Notice, name: string)
    ensures Concerning(notices + [notice], name) == Concerning(notices, name) + if notice.name == name then [notice] else []
  {
    assert (notices + [notice])[..|notices|] == notices;
  }

  lemma AtMostOneMore(notices: seq<Notice>, more: seq<Notice>, own: string, name: string)
    requires |more| == 0 || (|more| == 1 && more[0].name == own)
    ensures Concerning(notices + more, name) == Concerning(notices, name) + if name == own then more else []
  {
    if more == [] {
      assert notices + more == notices;
    } else {
      assert more == [more[0]];
      OneMoreNotice(notices, more[0], name);
    }
  }

  lemma MoreNotices(notices: seq<Notice>, b: Binding, active: bool, changed: bool, name: string)
    ensures Concerning(notices + NoticesFor(b, active, changed), name) ==
      Concerning(notices, name) + if name == b.declaration.name then NoticesFor(b, active, changed) else []
  {
    var revoked := Revocation(b, active, changed);
    var activated := Activation(b, active, changed);
    AtMostOneMore(notices, revoked, b.declaration.name, name);
    AtMostOneMore(notices + revoked, activated, b.declaration.name, name);
    assert notices + (revoked + activated) == notices + revoked + activated;
  }

  /** Whether the client's side of a binding runs once it has handled the notices in order. */
  function RunsAfter(running: bool, notices: seq<Notice>): bool {
    if notices == [] then running else notices[|notices| - 1].Activated?
  }

  /** The bindings in a set are filed under their own names. */
  ghost predicate Named(bindings: Bindings) { forall name <- bindings :: bindings[name].declaration.name == name }

  ghost predicate Announces(notices: seq<Notice>, bindings: Bindings, left: set<string>, policy: Policy, changes: Changes) {
    forall name :: Concerning(notices, name) ==
      if name in bindings && name !in left then NoticesOf(bindings[name], policy, changes) else []
  }

  function Affected(bindings: Bindings, policy: Policy, changes: Changes): set<nat> {
    set name <- bindings | Changed(bindings[name], changes) || !Granted(bindings[name], policy) :: bindings[name].bindingID
  }

  lemma NoticesAreExact(b: Binding, active: bool, changed: bool)
    ensures var notices := NoticesFor(b, active, changed);
      && RunsAfter(b.active, notices) == active
      && (b.active && active && changed <==> notices == [Revoked(b.declaration.name, b.bindingID),
                                                        Activated(b.declaration.name, b.bindingID)])
      && (b.active == active && !(active && changed) <==> notices == [])
  {
  }

  /**
   A client that was in step with its bindings is in step with them again once
   it has handled the notices, and no link of a binding that stopped survives.
   A running binding whose part of the policy changed is stopped and started
   again; one that neither starts, stops nor changes is not mentioned.
   */
  lemma NoticesSynchronize(bindings: Bindings, notices: seq<Notice>, policy: Policy, changes: Changes, name: string)
    requires name in bindings && Announces(notices, bindings, {}, policy, changes)
    ensures RunsAfter(bindings[name].active, Concerning(notices, name)) == Repoliced(bindings, policy)[name].active
    ensures var b := bindings[name];
      var active, changed := policy(b.authentication, b.declaration).active, changes(b.authentication, b.declaration);
      && (b.active && (!active || changed) ==> b.bindingID in Affected(bindings, policy, changes))
      && (b.active && active && changed <==> Concerning(notices, name) == [Revoked(b.declaration.name, b.bindingID),
                                                                          Activated(b.declaration.name, b.bindingID)])
      && (b.active == active && !(active && changed) <==> Concerning(notices, name) == [])
  {
    var b := bindings[name];
    assert Concerning(notices, name) == NoticesOf(b, policy, changes);
    NoticesAreExact(b, policy(b.authentication, b.declaration).active, changes(b.authentication, b.declaration));
  }

  ghost predicate RepolicedSoFar(before: Bindings, left: set<string>, bindings: Bindings, policy: Policy) {
    && bindings.Keys == before.Keys
    && (forall name <- before ::
          bindings[name] == before[name].(active := if name in left then before[name].active else Granted(before[name], policy)))
  }

  lemma RepolicedOneMore(before: Bindings, left: set<string>, bindings: Bindings, policy: Policy, name: string)
    requires RepolicedSoFar(before, left, bindings, policy) && name in left && name in before
    ensures RepolicedSoFar(before, left - {name}, bindings[name := bindings[name].(active := Granted(before[name], policy))], policy)
  {
  }

  function AffectedSoFar(before: Bindings, left: set<string>, policy: Policy, changes: Changes): set<nat> {
    set name <- before | name !in left && (Changed(before[name], changes) || !Granted(before[name], policy)) :: before[name].bindingID
  }

  lemma AffectedOneMore(before: Bindings, left: set<string>, policy: Policy, changes: Changes, name: string)
    requires name in left && name in before
    ensures AffectedSoFar(before, left - {name}, policy, changes) ==
      AffectedSoFar(before, left, policy, changes) +
      if Changed(before[name], changes) || !Granted(before[name], policy) then {before[name].bindingID} else {}
  {
  }

  lemma AnnouncesOneMore(notices: seq<Notice>, bindings: Bindings, left: set<string>, policy: Policy, changes: Changes,
                         name: string)
    requires Named(bindings) && name in bindings && name in left && Announces(notices, bindings, left, policy, changes)
    ensures Announces(notices + NoticesOf(bindings[name], policy, changes), bindings, left - {name}, policy, changes)
  {
    var more := NoticesOf(bindings[name], policy, changes);
    forall other
      ensures Concerning(notices + more, other) ==
        if other in bindings && other !in left - {name} then NoticesOf(bindings[other], policy, changes) else []
    {
      MoreNotices(notices, bindings[name], Granted(bindings[name], policy), Changed(bindings[name], changes), other);
      assert Concerning(notices, other) ==
        if other in bindings && other !in left then NoticesOf(bindings[other], policy, changes) else [];
    }
  }

  // ---------------------------------------------------------------------
  // The objects
  // ---------------------------------------------------------------------

  /** Only its identity and its contents matter; two empty sets are two generations. */
  class BindingSet {
    var bindings: Bindings

    constructor (bindings: Bindings)
      ensures this.bindings == bindings
    {
      this.bindings := bindings;
    }

    /** Gives every binding the activity the policy grants, and collects the links to cancel and the notices to send. */
    method Repolice(policy: Policy, changes: Changes) returns (affected: set<nat>, notices: seq<Notice>)
      requires Named(bindings)
      modifies this
      ensures bindings == Repoliced(old(bindings), policy) && affected == Affected(old(bindings), policy, changes)
      ensures Announces(notices, old(bindings), {}, policy, changes)
    {
      var left := bindings.Keys;
      affected, notices := {}, [];
      while left != {}
        invariant left <= old(bindings).Keys && RepolicedSoFar(old(bindings), left, bindings, policy)
        invariant affected == AffectedSoFar(old(bindings), left, policy, changes)
        invariant Announces(notices, old(bindings), left, policy, changes)
        decreases left
      {
        var name :| name in left;
        var current := bindings[name];
        AnnouncesOneMore(notices, old(bindings), left, policy, changes, name);
        AffectedOneMore(old(bindings), left, policy, changes, name);
        RepolicedOneMore(old(bindings), left, bindings, policy, name);
        left := left - {name};
        var active := policy(current.authentication, current.declaration).active;
        var changed := changes(current.authentication, current.declaration);
        bindings := bindings[name := current.(active := active)];
        affected := affected + if changed || !active then {current.bindingID} else {};
        notices := notices + NoticesFor(current, active, changed);
      }
    }
  }

  class Registry {
    var sessions: map<SessionKey, BindingSet>
    var closed: bool

    /** Two sessions never share a set. */
    ghost predicate Valid() reads this {
      forall key <- sessions, other <- sessions | key != other :: sessions[key] != sessions[other]
    }

    constructor ()
      ensures Valid() && sessions == map[] && !closed
    {
      sessions, closed := map[], false;
    }

    /** bindingLocked */
    function Lookup(key: SessionKey, name: string): (found: set<Binding>)
      reads this, if key in sessions then {sessions[key]} else {}
      ensures |found| <= 1
    {
      if key in sessions && name in sessions[key].bindings then {sessions[key].bindings[name]} else {}
    }

    /** Prepares a generation. A first preparation reserves an empty set, which no lookup can see. */
    method BeginSync(key: SessionKey, context: Context, declarations: seq<Declaration>, ids: seq<nat>, policy: Policy)
      returns (transaction: SyncTransaction?, verdict: Validation)
      requires Valid() && |ids| == |declarations|
      modifies this
      ensures Valid() && closed == old(closed)
      ensures transaction != null <==> Acceptable(declarations, context, policy) && !closed
      ensures transaction == null ==> sessions == old(sessions) && verdict.Invalid?
      ensures transaction != null ==>
        && key in sessions && sessions == old(sessions)[key := sessions[key]]
        && (key in old(sessions) ==> sessions[key] == old(sessions)[key])
        && (key !in old(sessions) ==> fresh(sessions[key]) && sessions[key].bindings == map[])
        && fresh(transaction) && transaction.registry == this && transaction.session == key
        && transaction.previous == sessions[key] && !transaction.retiring
        && fresh(transaction.next) && transaction.next != sessions[key]
        && Prepares(transaction.next.bindings, declarations, context, policy)
    {
      verdict := Validate(context, declarations, policy);
      if verdict.Invalid? {
        return null, verdict;
      }
      if closed {
        return null, Invalid(SessionInactive);
      }
      if key !in sessions {
        var reserved := new BindingSet(map[]);
        sessions := sessions[key := reserved];
      }
      var bindings := PrepareBindings(context, declarations, ids, policy);
      var next := new BindingSet(bindings);
      transaction := new SyncTransaction(this, key, next, sessions[key]);
    }

    method Remove(key: SessionKey) returns (cancelled: set<nat>)
      requires Valid()
      modifies this
      ensures Valid() && sessions == old(sessions) - {key} && closed == old(closed)
      ensures cancelled == if key in old(sessions) then BindingIDs(old(sessions)[key].bindings) else {}
    {
      cancelled := if key in sessions then BindingIDs(sessions[key].bindings) else {};
      sessions := sessions - {key};
    }

    /**
     Every published binding gets the activity the policy grants; membership
     stays. Cancels the links of the affected bindings, and gives each session
     its notices.
     */
    method ApplyPolicy(policy: Policy, changes: Changes)
      returns (cancelled: map<SessionKey, set<nat>>, notices: map<SessionKey, seq<Notice>>)
      requires Valid() && forall key <- sessions :: Named(sessions[key].bindings)
      modifies sessions.Values
      ensures Valid() && sessions == old(sessions) && cancelled.Keys == notices.Keys == sessions.Keys
      ensures forall key <- sessions ::
        && sessions[key].bindings == Repoliced(old(sessions[key].bindings), policy)
        && cancelled[key] == Affected(old(sessions[key].bindings), policy, changes)
        && Announces(notices[key], old(sessions[key].bindings), {}, policy, changes)
    {
      var left := sessions.Keys;
      cancelled, notices := map[], map[];
      while left != {}
        invariant left <= sessions.Keys && cancelled.Keys == notices.Keys == sessions.Keys - left
        invariant forall key <- left :: sessions[key].bindings == old(sessions[key].bindings)
        invariant forall key <- sessions.Keys - left ::
          && sessions[key].bindings == Repoliced(old(sessions[key].bindings), policy)
          && cancelled[key] == Affected(old(sessions[key].bindings), policy, changes)
          && Announces(notices[key], old(sessions[key].bindings), {}, policy, changes)
        decreases left
      {
        var key :| key in left;
        left := left - {key};
        var affected, announced := sessions[key].Repolice(policy, changes);
        cancelled, notices := cancelled[key := affected], notices[key := announced];
      }
    }

    /** Empties the registry for good and hands every binding's links over for cancellation. */
    method Close() returns (cancelled: set<nat>)
      requires Valid()
      modifies this
      ensures Valid() && sessions == map[] && closed
      ensures cancelled == old(set key <- sessions, name <- sessions[key].bindings :: sessions[key].bindings[name].bindingID)
    {
      cancelled := set key <- sessions, name <- sessions[key].bindings :: sessions[key].bindings[name].bindingID;
      closed, sessions := true, map[];
    }
  }

  class SyncTransaction {
    var registry: Registry?
    const session: SessionKey
    const next: BindingSet
    const previous: BindingSet
    var retiring: bool

    constructor (registry: Registry, session: SessionKey, next: BindingSet, previous: BindingSet)
      ensures this.registry == registry && this.session == session
      ensures this.next == next && this.previous == previous && !retiring
    {
      this.registry, this.session, this.next, this.previous := registry, session, next, previous;
      retiring := false;
    }

    /** Everything that must hold before the companion runs. */
    ghost predicate Ready(policy: Policy)
      reads this, registry, next
    {
      && registry != null && !registry.closed
      && session in registry.sessions && registry.sessions[session] == previous
      && StillAllowed(next.bindings, policy)
    }

    /** The part of CommitWith before its companion; a failed test discards the transaction. */
    method Revalidate(policy: Policy) returns (ready: bool)
      modifies this
      ensures ready == old(Ready(policy))
      ensures registry == if ready then old(registry) else null
      ensures retiring == old(retiring)
    {
      if registry == null {
        return false;
      }
      if registry.closed || session !in registry.sessions || registry.sessions[session] != previous {
        registry := null;
        return false;
      }
      var left := next.bindings.Keys;
      while left != {}
        invariant left <= next.bindings.Keys
        invariant forall name <- next.bindings | name !in left ::
          policy(next.bindings[name].authentication, next.bindings[name].declaration) ==
          Verdict(true, next.bindings[name].active)
        decreases left
      {
        var name :| name in left;
        left := left - {name};
        var current := next.bindings[name];
        var verdict := policy(current.authentication, current.declaration);
        if !verdict.configured || verdict.active != current.active {
          registry := null;
          return false;
        }
      }
      return true;
    }

    /** The part of CommitWith after its companion accepted. */
    method Install()
      requires registry != null && registry.Valid() && session in registry.sessions
      requires forall key <- registry.sessions :: registry.sessions[key] != next
      modifies this, registry
      ensures old(registry).Valid() && old(registry).closed == old(registry.closed)
      ensures old(registry).sessions == old(registry.sessions)[session := next]
      ensures registry == null && retiring
    {
      registry.sessions := registry.sessions[session := next];
      registry := null;
      retiring := true;
    }

    /** Publishes if the observed generation and the policy still match and the companion accepts. */
    method CommitWith(policy: Policy, companion: bool) returns (committed: bool)
      requires registry != null ==>
        registry.Valid() && forall key <- registry.sessions :: registry.sessions[key] != next
      modifies this, registry
      ensures committed == (old(Ready(policy)) && companion)
      ensures old(registry) != null ==>
        && old(registry).Valid() && old(registry).closed == old(if registry == null then false else registry.closed)
        && old(registry).sessions ==
           old(if registry == null then map[]
               else if Ready(policy) && companion then registry.sessions[session := next] else registry.sessions)
      ensures registry == if old(Ready(policy)) && !companion then old(registry) else null
      ensures retiring == (old(retiring) || committed)
    {
      var ready := Revalidate(policy);
      if !ready || !companion {
        return false;
      }
      Install();
      return true;
    }

    /** Hands the replaced generation's bindings over for cancellation, once. */
    method Retire() returns (cancelled: set<nat>)
      modifies this
      ensures !retiring && registry == old(registry)
      ensures cancelled == if old(retiring) then BindingIDs(previous.bindings) else {}
    {
      cancelled := if retiring then BindingIDs(previous.bindings) else {};
      retiring := false;
    }

    method Rollback()
      modifies this
      ensures registry == null && retiring == old(retiring)
    {
      registry := null;
    }
  }
}
