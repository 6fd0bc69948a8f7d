/**
 The client's reconnect loop and the server's session registry as one
 two-party protocol over a network that may lose or delay messages
 (internal/client/reconnect.go, internal/client/handshake.go,
 internal/session/registry.go, internal/server/control_messages.go).
 */
module Reconnect {
  import opened Options
  import opened Sessions
  import opened Authentication
  import SessionRuns

  /** One control attempt as the client sees it. */
  datatype Attempt =
    | Idle
    | Waiting
    | Welcomed(sessionID: string, resumed: bool)
    | Stopped

  datatype Reply = Accepted(sessionID: string, resumed: bool) | Rejected(error: SessionError)

  /**
   `held` is the session ID the client would resume with, `unpaused` says that
   the attempt in progress followed the previous one without a delay,
   `inbox` holds the ClientHellos the server has not processed yet, by attempt,
   and `synced` the sessions whose client has answered its ServerHello.
   */
  datatype Protocol = Protocol(
    held: string,
    attempt: Attempt,
    number: nat,
    unpaused: bool,
    inbox: map<nat, string>,
    reply: Option<Reply>,
    clients: Clients,
    synced: set<string>,
    used: set<string>)

  datatype Step =
    | Start
    | GiveUp
    | Deliver(number: nat, sessionID: string, connection: nat, authentication: Context, now: nat, maxClients: int)
    | ReadReply
    | SendSync
    | FailSetup
    | Establish
    | Forget
    | Serve(event: SessionRuns.Event)

  function HelloOf(me: string, s: Protocol, step: Step): Hello
    requires step.Deliver? && step.number in s.inbox
  {
    Hello(me, s.inbox[step.number], step.sessionID, step.connection, step.authentication)
  }

  /** Activations and heartbeats of this client's sessions need the client to have answered the ServerHello. */
  predicate Serves(me: string, s: Protocol, event: SessionRuns.Event) {
    match event.action
    case Register(hello) => hello.clientID != me
    case Activate(clientID, sessionID) => clientID == me ==> sessionID in s.synced
    case Beat(clientID, sessionID, _) => clientID == me ==> sessionID in s.synced
    case _ => true
  }

  predicate Can(me: string, s: Protocol, step: Step) {
    match step
    case Start => s.attempt.Idle?
    case GiveUp => s.attempt.Waiting?
    case Deliver(number, sessionID, _, _, _, _) => number in s.inbox && sessionID !in s.used && sessionID != ""
    case ReadReply => s.attempt.Waiting? && s.reply.Some?
    case SendSync => s.attempt.Welcomed?
    case FailSetup => s.attempt.Welcomed?
    case Establish => s.attempt.Welcomed? && s.attempt.sessionID in s.synced
    case Forget => s.attempt.Idle?
    case Serve(event) => Serves(me, s, event)
  }

  function AfterReply(s: Protocol, reply: Reply): Protocol {
    match reply
    case Accepted(sessionID, resumed) => s.(attempt := Welcomed(sessionID, resumed), reply := None)
    case Rejected(SessionExpired) => s.(attempt := Idle, held := "", unpaused := true, reply := None)
    case Rejected(error) => s.(attempt := if Retryable(error) then Idle else Stopped, unpaused := false, reply := None)
  }

  function Do(me: string, s: Protocol, step: Step): Protocol
    requires Can(me, s, step)
  {
    match step
    case Start =>
      s.(attempt := Waiting, number := s.number + 1, inbox := s.inbox[s.number + 1 := s.held], reply := None)
    case GiveUp => s.(attempt := Idle, unpaused := false, reply := None)
    case Deliver(number, sessionID, _, _, now, maxClients) =>
      var hello := HelloOf(me, s, step);
      var reply := match Decide(s.clients, maxClients, hello, now)
        case Created => Accepted(sessionID, false)
        case Resumed(_) => Accepted(sessionID, true)
        case Refused(error) => Rejected(error);
      s.(inbox := s.inbox - {number}, used := s.used + {sessionID},
         clients := Registered(s.clients, maxClients, hello, now),
         reply := if number == s.number && s.attempt.Waiting? then Some(reply) else s.reply)
    case ReadReply => AfterReply(s, s.reply.value)
    case SendSync => s.(synced := s.synced + {s.attempt.sessionID})
    case FailSetup =>
      s.(attempt := Idle, unpaused := false, held := if s.attempt.resumed then s.attempt.sessionID else s.held)
    case Establish => s.(attempt := Idle, unpaused := false, held := s.attempt.sessionID)
    case Forget => s.(held := "")
    case Serve(event) => s.(clients := SessionRuns.Apply(s.clients, 0, event))
  }

  // ---------------------------------------------------------------------
  // Agreement
  // ---------------------------------------------------------------------

  /** The identity the client will resume with when the current attempt fails. */
  function Identity(s: Protocol): string {
    if s.attempt.Welcomed? && s.attempt.resumed then s.attempt.sessionID else s.held
  }

  /** The session IDs the client holds or may come to hold without another hello being processed. */
  function Candidates(s: Protocol): set<string> {
    (if Identity(s) != "" then {Identity(s)} else {}) +
    (if s.attempt.Welcomed? then {s.attempt.sessionID} else {}) +
    (if s.attempt.Waiting? && s.reply.Some? && s.reply.value.Accepted? then {s.reply.value.sessionID} else {})
  }

  /** Whatever the client may resume with, the server's record knows it. */
  ghost predicate Agrees(me: string, s: Protocol) {
    me in s.clients ==>
      forall id <- Candidates(s) :: id == s.clients[me].sessionID || id == s.clients[me].previousSessionID
  }

  /** The hello is that of the attempt the client is waiting on. */
  predicate Awaited(s: Protocol, step: Step)
    requires step.Deliver?
  {
    s.attempt.Waiting? && step.number == s.number
  }

  predicate Refuses(me: string, s: Protocol, step: Step)
    requires step.Deliver? && step.number in s.inbox
  {
    Decide(s.clients, step.maxClients, HelloOf(me, s, step), step.now).Refused?
  }

  /**
   A hello does no harm if it is refused, if the client is waiting for its
   answer, or if it resumes with everything the client may still hold.
   */
  predicate Harmless(me: string, s: Protocol, step: Step) {
    step.Deliver? && step.number in s.inbox ==>
      || Refuses(me, s, step)
      || Awaited(s, step)
      || forall id <- Candidates(s) :: id == s.inbox[step.number]
  }

  ghost predicate Known(s: Protocol, sessionID: string) {
    sessionID == "" || sessionID in s.used
  }

  ghost predicate ServerSide(me: string, s: Protocol) {
    me in s.clients ==>
      var record := s.clients[me];
      && record.sessionID in s.used && record.sessionID != "" && Known(s, record.previousSessionID)
      && (record.phase == Active ==> record.sessionID in s.synced)
      && (record.sessionID in s.synced ==> forall id <- Candidates(s) :: id == record.sessionID)
  }

  ghost predicate ClientSide(s: Protocol) {
    && Known(s, s.held) && s.synced <= s.used
    && (forall n <- s.inbox :: n <= s.number)
    && (s.attempt.Waiting? && s.number in s.inbox ==> s.inbox[s.number] == s.held && s.reply.None?)
    && (s.attempt.Waiting? && s.reply.Some? && s.reply.value.Accepted? ==>
          s.reply.value.sessionID in s.used && s.reply.value.sessionID != "" &&
          (!s.reply.value.resumed ==> s.held == ""))
    && (s.attempt.Welcomed? ==> s.attempt.sessionID in s.used && s.attempt.sessionID != "" &&
                                (!s.attempt.resumed ==> s.held == ""))
    && (s.unpaused && (s.attempt.Idle? || s.attempt.Waiting?) ==> s.held == "")
    && (s.unpaused && s.attempt.Waiting? && s.reply.Some? ==> s.reply.value != Rejected(SessionExpired))
  }

  ghost predicate Invariant(me: string, s: Protocol) {
    Agrees(me, s) && ServerSide(me, s) && ClientSide(s)
  }

  /** Registry calls other than this client's own registrations leave its identities alone. */
  lemma ServeKeepsIdentities(me: string, s: Protocol, event: SessionRuns.Event)
    requires Serves(me, s, event) && me in SessionRuns.Apply(s.clients, 0, event)
    ensures me in s.clients
    ensures var before, after := s.clients[me], SessionRuns.Apply(s.clients, 0, event)[me];
      && after.sessionID == before.sessionID
      && (after.previousSessionID == before.previousSessionID ||
          (after.previousSessionID == "" && before.sessionID in s.synced))
      && (after.phase == Active ==> before.phase == Active || before.sessionID in s.synced)
  {
  }

  /** The client's own bookkeeping does not depend on which hellos the server processes when. */
  lemma StepKeepsClientSide(me: string, s: Protocol, step: Step)
    requires ClientSide(s) && Can(me, s, step)
    ensures ClientSide(Do(me, s, step))
  {
  }

  /** Only a processed hello adds to what the client may come to hold. */
  lemma CandidatesShrink(me: string, s: Protocol, step: Step)
    requires ClientSide(s) && Can(me, s, step) && !step.Deliver?
    ensures Candidates(Do(me, s, step)) <= Candidates(s)
  {
  }

  /** An accepted hello leaves a record that knows the new session and the one the hello resumed, and no other. */
  lemma DeliveredRecord(me: string, s: Protocol, step: Step)
    requires Can(me, s, step) && step.Deliver?
    ensures var s' := Do(me, s, step);
      if Refuses(me, s, step) then s'.clients == s.clients
      else
        && me in s'.clients && s'.clients[me].sessionID == step.sessionID
        && s'.clients[me].previousSessionID == s.inbox[step.number] && s'.clients[me].phase == Initializing
        && (|| s.inbox[step.number] == ""
            || (me in s.clients &&
                s.inbox[step.number] in {s.clients[me].sessionID, s.clients[me].previousSessionID}))
  {
  }

  lemma DeliveredCandidates(me: string, s: Protocol, step: Step)
    requires ClientSide(s) && Can(me, s, step) && step.Deliver?
    ensures var s' := Do(me, s, step);
      && (!Awaited(s, step) || Refuses(me, s, step) ==> Candidates(s') == Candidates(s))
      && Candidates(s') <= Candidates(s) + {step.sessionID}
      && (Awaited(s, step) ==> forall id <- Candidates(s) :: id == s.inbox[step.number])
  {
  }

  lemma DeliverKeepsServerSide(me: string, s: Protocol, step: Step)
    requires ServerSide(me, s) && ClientSide(s) && Can(me, s, step) && step.Deliver?
    ensures ServerSide(me, Do(me, s, step))
  {
    DeliveredRecord(me, s, step);
    if Refuses(me, s, step) {
      DeliveredCandidates(me, s, step);
    }
  }

  lemma DeliverKeepsAgreement(me: string, s: Protocol, step: Step)
    requires Agrees(me, s) && ClientSide(s) && Can(me, s, step) && step.Deliver? && Harmless(me, s, step)
    ensures Agrees(me, Do(me, s, step))
  {
    DeliveredRecord(me, s, step);
    DeliveredCandidates(me, s, step);
  }

  lemma ServeKeepsInvariant(me: string, s: Protocol, event: SessionRuns.Event)
    requires Invariant(me, s) && Serves(me, s, event)
    ensures Agrees(me, Do(me, s, Serve(event))) && ServerSide(me, Do(me, s, Serve(event)))
  {
    assert Candidates(Do(me, s, Serve(event))) == Candidates(s);
    if me in SessionRuns.Apply(s.clients, 0, event) {
      ServeKeepsIdentities(me, s, event);
    }
  }

  lemma StepKeepsInvariant(me: string, s: Protocol, step: Step)
    requires Invariant(me, s) && Can(me, s, step) && Harmless(me, s, step)
    ensures Invariant(me, Do(me, s, step))
  {
    StepKeepsClientSide(me, s, step);
    match step
    case Serve(event) => ServeKeepsInvariant(me, s, event);
    case Deliver(_, _, _, _, _, _) =>
      DeliverKeepsAgreement(me, s, step);
      DeliverKeepsServerSide(me, s, step);
    case _ => CandidatesShrink(me, s, step);
  }

  /** Exactly the harmless hellos leave the two sides in agreement. */
  lemma DeliverAgreesIff(me: string, s: Protocol, step: Step)
    requires Invariant(me, s) && Can(me, s, step) && step.Deliver?
    ensures Agrees(me, Do(me, s, step)) <==> Harmless(me, s, step)
  {
    if Harmless(me, s, step) {
      DeliverKeepsAgreement(me, s, step);
    } else {
      var id :| id in Candidates(s) && id != s.inbox[step.number];
      assert Candidates(Do(me, s, step)) == Candidates(s) && id in s.used && id != "";
    }
  }

  /** An agreeing client that resumes is never told that someone else is online or that it is the wrong session. */
  lemma AgreeingResumeIsNotRefused(me: string, s: Protocol, step: Step)
    requires Invariant(me, s) && Can(me, s, step) && step.Deliver? && Awaited(s, step) && s.held != ""
    ensures Decide(s.clients, step.maxClients, HelloOf(me, s, step), step.now)
              !in {Refused(ResumeSessionMismatch), Refused(ClientIDAlreadyOnline)}
  {
    assert s.held in Candidates(s);
  }

  /** And without agreement the resume is refused that way, unless the record is another's or its window is over. */
  lemma DisagreeingResumeIsRefused(me: string, s: Protocol, step: Step)
    requires ClientSide(s) && Can(me, s, step) && step.Deliver? && Awaited(s, step) && s.held != ""
    requires !Agrees(me, s) && s.clients[me].authentication == step.authentication && !WindowElapsed(s.clients[me], step.now)
    ensures Decide(s.clients, step.maxClients, HelloOf(me, s, step), step.now)
              in {Refused(ResumeSessionMismatch), Refused(ClientIDAlreadyOnline)}
  {
    assert Candidates(s) == {s.held};
  }

  // ---------------------------------------------------------------------
  // Runs
  // ---------------------------------------------------------------------

  ghost predicate Initial(s: Protocol) {
    s == Protocol("", Idle, 0, false, map[], None, map[], {}, {})
  }

  ghost predicate Follows(me: string, run: seq<Protocol>, steps: seq<Step>) {
    && |run| == |steps| + 1
    && Initial(run[0])
    && (forall i | 0 <= i < |steps| :: Can(me, run[i], steps[i]) && run[i + 1] == Do(me, run[i], steps[i]))
  }

  ghost predicate HarmlessBefore(me: string, run: seq<Protocol>, steps: seq<Step>, i: nat)
    requires i <= |steps| && |run| == |steps| + 1
  {
    forall j | 0 <= j < i :: Harmless(me, run[j], steps[j])
  }

  lemma {:induction false} InvariantAlongRun(me: string, run: seq<Protocol>, steps: seq<Step>, i: nat)
    requires Follows(me, run, steps) && i < |run| && HarmlessBefore(me, run, steps, i)
    ensures Invariant(me, run[i])
  {
    if i > 0 {
      InvariantAlongRun(me, run, steps, i - 1);
      StepKeepsInvariant(me, run[i - 1], steps[i - 1]);
    }
  }

  /**
   However many ServerHellos are lost and hellos delayed: as long as every
   hello the server processed did no harm, a client that holds a session ID
   holds one the server's record knows, and the attempt it waits on is never
   refused as a mismatch or as already online.
   */
  lemma ResumeSurvivesLostHellos(me: string, run: seq<Protocol>, steps: seq<Step>, i: nat)
    requires Follows(me, run, steps) && i < |steps| && HarmlessBefore(me, run, steps, i)
    ensures Agrees(me, run[i])
    ensures steps[i].Deliver? && Awaited(run[i], steps[i]) && run[i].held != "" ==>
      Decide(run[i].clients, steps[i].maxClients, HelloOf(me, run[i], steps[i]), steps[i].now)
        !in {Refused(ResumeSessionMismatch), Refused(ClientIDAlreadyOnline)}
  {
    InvariantAlongRun(me, run, steps, i);
    if steps[i].Deliver? && Awaited(run[i], steps[i]) && run[i].held != "" {
      AgreeingResumeIsNotRefused(me, run[i], steps[i]);
    }
  }

  /** With one attempt in flight no hello does harm: the client is waiting for the answer to every hello. */
  lemma OneInFlightIsHarmless(me: string, run: seq<Protocol>, steps: seq<Step>, i: nat)
    requires Follows(me, run, steps) && i <= |steps|
    requires forall j | 0 <= j < i && steps[j].Deliver? :: Awaited(run[j], steps[j])
    ensures HarmlessBefore(me, run, steps, i)
  {
  }

  /** Over whole runs the condition is exact: the two sides always agreed if and only if no hello did harm. */
  lemma {:induction false} RunAgreesIff(me: string, run: seq<Protocol>, steps: seq<Step>, i: nat)
    requires Follows(me, run, steps) && i < |run|
    ensures (forall j | 0 <= j <= i :: Agrees(me, run[j])) <==> HarmlessBefore(me, run, steps, i)
  {
    if i == 0 {
      assert run[0].clients == map[];
    } else {
      RunAgreesIff(me, run, steps, i - 1);
      if HarmlessBefore(me, run, steps, i - 1) {
        InvariantAlongRun(me, run, steps, i - 1);
        StepAgreesIff(me, run[i - 1], steps[i - 1]);
        assert Agrees(me, run[i]) <==> Harmless(me, run[i - 1], steps[i - 1]);
      }
    }
  }

  lemma StepAgreesIff(me: string, s: Protocol, step: Step)
    requires Invariant(me, s) && Can(me, s, step)
    ensures Agrees(me, Do(me, s, step)) <==> Harmless(me, s, step)
  {
    if step.Deliver? {
      DeliverAgreesIff(me, s, step);
    } else {
      StepKeepsInvariant(me, s, step);
    }
  }

  lemma {:induction false} ClientSideAlongRun(me: string, run: seq<Protocol>, steps: seq<Step>, i: nat)
    requires Follows(me, run, steps) && i < |run|
    ensures ClientSide(run[i])
  {
    if i > 0 {
      ClientSideAlongRun(me, run, steps, i - 1);
      StepKeepsClientSide(me, run[i - 1], steps[i - 1]);
    }
  }

  /** Two retries without a delay never follow each other, in any run: the second reply is not another session_expired. */
  lemma NoTwoImmediateRetries(me: string, run: seq<Protocol>, steps: seq<Step>, i: nat)
    requires Follows(me, run, steps) && i < |steps|
    requires steps[i].ReadReply? && run[i].unpaused
    ensures !run[i + 1].attempt.Idle? || !run[i + 1].unpaused
  {
    ClientSideAlongRun(me, run, steps, i);
  }

  /**
   How an attempt ends, in any run: a session the server has forgotten is given
   up and asked for anew at once; a full server and a pending recovery are tried
   again after a pause; any other refusal is final.
   */
  lemma RefusalIsExact(me: string, s: Protocol)
    requires Can(me, s, ReadReply) && s.reply.value.Rejected?
    ensures var s', error := Do(me, s, ReadReply), s.reply.value.error;
      && (s'.attempt.Stopped? <==> error in {AuthenticationFailed, ClientIDAlreadyOnline, ResumeSessionMismatch})
      && (!s'.attempt.Stopped? ==> s'.attempt.Idle?)
      && (s'.unpaused <==> error == SessionExpired) && s'.held == if error == SessionExpired then "" else s.held
  {
  }

  /**
   What a welcomed client holds afterwards: an established session is its own;
   if the setup fails it holds on to a resumed session, and to what it held
   before if the session was new.
   */
  lemma WelcomeIsExact(me: string, s: Protocol, step: Step)
    requires Can(me, s, step) && s.attempt.Welcomed? && (step.Establish? || step.FailSetup?)
    ensures var s' := Do(me, s, step);
      && s'.attempt.Idle? && !s'.unpaused
      && s'.held == if step.Establish? || s.attempt.resumed then s.attempt.sessionID else s.held
  {
  }

  // ---------------------------------------------------------------------
  // Runs in which a hello does harm
  // ---------------------------------------------------------------------

  const ANYONE := Context(Shared, "", Selector("token"), 1)

  function Delivery(number: nat, sessionID: string): Step {
    Deliver(number, sessionID, 0, ANYONE, 0, 0)
  }

  function Happens(action: SessionRuns.Action): Step {
    Serve(SessionRuns.Event(0, action))
  }

  datatype Script = End | Then(step: Step, rest: Script)

  /** The state a script leads to, if each of its steps can be taken. */
  function Play(me: string, s: Protocol, script: Script): Option<Protocol>
    decreases script
  {
    match script
    case End => Some(s)
    case Then(step, rest) => if Can(me, s, step) then Play(me, Do(me, s, step), rest) else None
  }

  function Next(me: string, s: Protocol, script: Script): Protocol
    requires script.Then? && Can(me, s, script.step)
    ensures Play(me, s, script) == Play(me, Next(me, s, script), script.rest)
  {
    Do(me, s, script.step)
  }

  /** The first part: a session is established, is lost, and one resume is abandoned before the server saw it. */
  function Abandoned(me: string, rest: Script): Script {
    Then(Start, Then(Delivery(1, "S1"), Then(ReadReply, Then(SendSync,
    Then(Happens(SessionRuns.Activate(me, "S1")), Then(Establish,
    Then(Happens(SessionRuns.Disconnect(me, "S1")), Then(Start, Then(GiveUp, rest)))))))))
  }

  /** The second part: the next resume is welcomed and fails, and only then the abandoned hello is processed. */
  function LateHello(me: string, rest: Script): Script {
    Then(Start, Then(Delivery(3, "S2"), Then(ReadReply, Then(FailSetup,
    Then(Happens(SessionRuns.Disconnect(me, "S2")), Then(Delivery(2, "S3"), rest))))))
  }

  const START := Protocol("", Idle, 0, false, map[], None, map[], {}, {})
  const RECORD := ClientRecord("S1", "", Suspended, 0, 0, 0, Some(0), ANYONE)

  function AfterAbandoned(me: string): Protocol {
    Protocol("S1", Idle, 2, false, map[2 := "S1"], None, map[me := RECORD], {"S1"}, {"S1"})
  }

  function AfterWelcome(me: string): Protocol {
    Protocol("", Welcomed("S1", false), 1, false, map[], None,
             map[me := RECORD.(phase := Initializing, suspendedAt := None)], {"S1"}, {"S1"})
  }

  lemma WelcomeLeads(me: string, rest: Script)
    ensures Play(me, START, Abandoned(me, rest)) == Play(me, AfterWelcome(me), Abandoned(me, rest).rest.rest.rest.rest)
  {
    var first := RECORD.(phase := Initializing, suspendedAt := None);
    var t := Abandoned(me, rest);
    var s1 := Next(me, START, t);
    assert s1.inbox == map[1 := ""];
    var s2 := Next(me, s1, t.rest);
    assert s2 == Protocol("", Waiting, 1, false, map[], Some(Accepted("S1", false)), map[me := first], {}, {"S1"});
    t := t.rest.rest;
    var s3 := Next(me, s2, t);
    var s4 := Next(me, s3, t.rest);
    assert s4 == AfterWelcome(me);
  }

  lemma AbandonedLeads(me: string, rest: Script)
    ensures Play(me, START, Abandoned(me, rest)) == Play(me, AfterAbandoned(me), rest)
  {
    WelcomeLeads(me, rest);
    var first := RECORD.(phase := Initializing, suspendedAt := None);
    var t := Abandoned(me, rest).rest.rest.rest.rest;
    var s5 := Next(me, AfterWelcome(me), t);
    var s6 := Next(me, s5, t.rest);
    assert s6 == Protocol("S1", Idle, 1, false, map[], None, map[me := first.(phase := Active)], {"S1"}, {"S1"});
    t := t.rest.rest;
    var s7 := Next(me, s6, t);
    var s8 := Next(me, s7, t.rest);
    var s9 := Next(me, s8, t.rest.rest);
    assert s9 == AfterAbandoned(me);
  }

  function AfterFailedResume(me: string): Protocol {
    Protocol("S2", Idle, 3, false, map[2 := "S1"], None,
             map[me := RECORD.(sessionID := "S2", previousSessionID := "S1", phase := Initializing)], {"S1"}, {"S1", "S2"})
  }

  lemma FailedResumeLeads(me: string, rest: Script)
    ensures Play(me, AfterAbandoned(me), LateHello(me, rest)) ==
            Play(me, AfterFailedResume(me), LateHello(me, rest).rest.rest.rest.rest)
  {
    var again := RECORD.(sessionID := "S2", previousSessionID := "S1", phase := Initializing);
    var t := LateHello(me, rest);
    var s1 := Next(me, AfterAbandoned(me), t);
    assert s1.inbox == map[2 := "S1", 3 := "S1"];
    var s2 := Next(me, s1, t.rest);
    assert s2 == Protocol("S1", Waiting, 3, false, map[2 := "S1"], Some(Accepted("S2", true)), map[me := again],
                          {"S1"}, {"S1", "S2"});
    t := t.rest.rest;
    var s3 := Next(me, s2, t);
    var s4 := Next(me, s3, t.rest);
    assert s4 == AfterFailedResume(me);
  }

  /** The record is the late hello's, and the client holds another session ID. */
  function AfterTakeover(me: string): Protocol {
    Protocol("S2", Idle, 3, false, map[], None,
             map[me := RECORD.(sessionID := "S3", previousSessionID := "S1", phase := Initializing)],
             {"S1"}, {"S1", "S2", "S3"})
  }

  /** The last part, of both runs below: the late hello's session ends, and the client resumes. */
  function Mismatch(me: string): Script {
    Then(Happens(SessionRuns.Disconnect(me, "S3")), Then(Start, Then(Delivery(4, "S4"), End)))
  }

  ghost predicate EndsInMismatch(end: Option<Protocol>) {
    end.Some? && end.value.held == "S2" && end.value.reply == Some(Rejected(ResumeSessionMismatch))
  }

  lemma MismatchFollows(me: string)
    ensures EndsInMismatch(Play(me, AfterTakeover(me), Mismatch(me)))
  {
    var t := Mismatch(me);
    var s1 := Next(me, AfterTakeover(me), t);
    assert s1.clients == map[me := RECORD.(sessionID := "S3", previousSessionID := "S1")];
    var s2 := Next(me, s1, t.rest);
    assert s2.inbox == map[4 := "S2"];
    assert Play(me, s2, t.rest.rest) == Some(Do(me, s2, Delivery(4, "S4")));
  }

  lemma LateHelloLeads(me: string, rest: Script)
    ensures Play(me, AfterAbandoned(me), LateHello(me, rest)) == Play(me, AfterTakeover(me), rest)
  {
    FailedResumeLeads(me, rest);
    var again := RECORD.(sessionID := "S2", previousSessionID := "S1", phase := Initializing);
    var t := LateHello(me, rest).rest.rest.rest.rest;
    var s5 := Next(me, AfterFailedResume(me), t);
    assert s5 == AfterFailedResume(me).(clients := map[me := again.(phase := Suspended)]);
    var s6 := Next(me, s5, t.rest);
    assert s6 == AfterTakeover(me);
  }

  /**
   The claim is false when a hello of an abandoned attempt is processed late:
   here it takes the record over, and the client, which resumes with the only
   session ID it was given since, is refused as a mismatch.
   */
  lemma LateHelloBreaksResume(me: string)
    ensures EndsInMismatch(Play(me, START, Abandoned(me, LateHello(me, Mismatch(me)))))
  {
    AbandonedLeads(me, LateHello(me, Mismatch(me)));
    LateHelloLeads(me, Mismatch(me));
    MismatchFollows(me);
  }

  /** Another second part: the late hello is processed while the client has the welcome to the next one still unread. */
  function Overtaken(me: string, rest: Script): Script {
    Then(Start, Then(Delivery(3, "S2"), Then(Happens(SessionRuns.Disconnect(me, "S2")), Then(Delivery(2, "S3"),
    Then(ReadReply, Then(FailSetup, rest))))))
  }

  /** The state in which the late hello is processed. */
  function BeforeOvertaking(me: string): Protocol {
    Protocol("S1", Waiting, 3, false, map[2 := "S1"], Some(Accepted("S2", true)),
             map[me := RECORD.(sessionID := "S2", previousSessionID := "S1")], {"S1"}, {"S1", "S2"})
  }

  lemma OvertakingLeads(me: string, rest: Script)
    ensures Play(me, AfterAbandoned(me), Overtaken(me, rest)) ==
            Play(me, BeforeOvertaking(me), Overtaken(me, rest).rest.rest.rest)
  {
    var again := RECORD.(sessionID := "S2", previousSessionID := "S1", phase := Initializing);
    var t := Overtaken(me, rest);
    var s1 := Next(me, AfterAbandoned(me), t);
    assert s1.inbox == map[2 := "S1", 3 := "S1"];
    var s2 := Next(me, s1, t.rest);
    assert s2 == Protocol("S1", Waiting, 3, false, map[2 := "S1"], Some(Accepted("S2", true)), map[me := again],
                          {"S1"}, {"S1", "S2"});
    var s3 := Next(me, s2, t.rest.rest);
    assert s3 == BeforeOvertaking(me);
  }

  lemma OvertakenLeads(me: string, rest: Script)
    ensures Play(me, AfterAbandoned(me), Overtaken(me, rest)) == Play(me, AfterTakeover(me), rest)
  {
    OvertakingLeads(me, rest);
    var t := Overtaken(me, rest).rest.rest.rest;
    var late := RECORD.(sessionID := "S3", previousSessionID := "S1", phase := Initializing);
    var s4 := Next(me, BeforeOvertaking(me), t);
    assert s4 == Protocol("S1", Waiting, 3, false, map[], Some(Accepted("S2", true)), map[me := late],
                          {"S1"}, {"S1", "S2", "S3"});
    var s5 := Next(me, s4, t.rest);
    var s6 := Next(me, s5, t.rest.rest);
    assert s6 == AfterTakeover(me);
  }

  lemma OvertakingIsHarmful(me: string)
    ensures BeforeOvertaking(me).inbox[2] == Identity(BeforeOvertaking(me))
    ensures !Harmless(me, BeforeOvertaking(me), Delivery(2, "S3"))
  {
    assert "S2" in Candidates(BeforeOvertaking(me));
  }

  /**
   Carrying the identity the client holds is not enough: in this run the late
   hello carries it, but the client has another one waiting in an unread welcome.
   */
  lemma UnreadWelcomeBreaksResume(me: string)
    ensures BeforeOvertaking(me).inbox[2] == Identity(BeforeOvertaking(me))
    ensures !Harmless(me, BeforeOvertaking(me), Delivery(2, "S3"))
    ensures EndsInMismatch(Play(me, START, Abandoned(me, Overtaken(me, Mismatch(me)))))
  {
    OvertakingIsHarmful(me);
    AbandonedLeads(me, Overtaken(me, Mismatch(me)));
    OvertakenLeads(me, Mismatch(me));
    MismatchFollows(me);
  }
}
