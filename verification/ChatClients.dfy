/**
 The HTTP handler as a program: any number of requests, each a client that walks from authorization
 through the idempotency lease and the preflight to finalization, interleaved with each other, the
 clock and the cleanup. It discharges the discipline that the protocol's theorems assume.
*/
module ChatClients {
  import opened Common
  import opened ChatModel
  import opened ChatProtocol
  import ChatTheorems

  /** What a request brings; `identity` names its execution, given its record. */
  datatype Profile = Profile(tenant: Tenant, key: Option<string>, digest: string, scope: Scope, prompt: string,
                             estimatedTokens: int, maxAttempts: nat, identity: Option<RecordId> -> ExecutionId)
  {
    predicate Valid() {
      maxAttempts >= 1
    }
  }

  /** Where the handler stands; a decision appears while the handler may still give it a result itself. */
  datatype Phase =
    | Arriving
    | Cleared(decision: DecisionId)
    | Recovering(decision: DecisionId, lease: Token, id: RecordId)
    | Cached(decision: DecisionId, id: RecordId)
    | Replaying(decision: DecisionId, id: RecordId)
    | Ready(decision: DecisionId, token: Option<Token>, record: Option<RecordId>, recover: bool)
    | Failing(decision: DecisionId, token: Option<Token>, responseStatus: int)
    | Releasing(token: Option<Token>, responseStatus: int)
    | Persisted(execution: ExecutionId, token: Option<Token>)
    | Over

  datatype Client = Client(profile: Profile, phase: Phase)

  /** How the handler finalizes: with the reply, or with a failure. */
  datatype Ending = Answered(content: string, payload: string)
                  | Broken(code: FailureCode, cancelled: bool, content: string, responseStatus: int)

  /** What happens to a handler next, as far as it is not its own decision. */
  datatype Move =
    | Authorize(allowed: bool)
    | Reserve
    | ReadCache(hit: bool)
    | AnswerCached
    | Recover
    | Fail(responseStatus: int)
    | CloseOwnDecision
    | Release
    | Persist
    | Heartbeat
    | BeginStreaming
    | Finish(ending: Ending, accounting: seq<ExecutionCost>)

  function RequestOf(c: Client): PrepareRequest
    requires c.phase.Ready?
  {
    PrepareRequest(c.profile.identity(c.phase.record), c.profile.scope, c.profile.prompt, c.phase.record,
                   c.profile.estimatedTokens, c.phase.recover, c.phase.token, c.profile.maxAttempts,
                   Some(c.phase.decision))
  }

  function FinalizationOf(execution: ExecutionId, token: Option<Token>, ending: Ending, accounting: seq<ExecutionCost>)
    : FinalizeRequest
  {
    match ending
    case Answered(content, payload) =>
      FinalizeRequest(execution, ToCompleted, content, 200, "{" + payload + "}", token, None, accounting)
    case Broken(code, cancelled, content, responseStatus) =>
      FinalizeRequest(execution, if cancelled then ToCancelled else ToFailed, content, responseStatus, "failed", token,
                      Some(code), accounting)
  }

  /** The transaction a move commits, if the handler is where it can make the move, and where it leaves the handler. */
  ghost function Next(db: Db, c: Client, m: Move): (Option<Event>, Phase) {
    var p := c.profile;
    match (c.phase, m)
    case (Arriving, Authorize(allowed)) =>
      (Some(DecideEvent(p.tenant, allowed)), if allowed then Cleared(Decide(db, p.tenant, allowed).1) else Over)
    case (Cleared(d), Reserve) =>
      if p.key.None? then (None, Ready(d, None, None, false))
      else
        var slot := Slot(p.tenant, p.key.value);
        (Some(BeginEvent(slot, p.digest)), AfterBegin(d, Begin(db, slot, p.digest).1))
    case (Cached(d, id), ReadCache(hit)) => (None, if hit then Replaying(d, id) else Ready(d, None, Some(id), false))
    case (Replaying(d, _), AnswerCached) => (Some(ResultEvent(d, DecisionResult("replayed", 200, None))), Over)
    case (Recovering(d, t, id), Recover) =>
      var e := p.identity(Some(id));
      (Some(RecoverEvent(e, id, Some(t))),
       if AssertRecoveryAllowed(db, e, id, Some(t)).1.MayRecover? then Ready(d, Some(t), Some(id), true)
       else Failing(d, Some(t), 409))
    case (Ready(d, token, _, _), Persist) =>
      var request := RequestOf(c);
      (Some(PrepareEvent(request)),
       if Prepare(db, request).1.Persisted? then Phase.Persisted(request.execution, token)
       else Failing(d, token, if Prepare(db, request).1.Unavailable? then 503 else 409))
    case (Failing(d, token, status), CloseOwnDecision) =>
      (Some(ResultEvent(d, DecisionResult("preflight_failed", status, None))), Releasing(token, status))
    case (Releasing(token, status), Release) =>
      (if p.key.Some? && token.Some?
       then Some(CompleteEvent(Slot(p.tenant, p.key.value), status, "failed", token.value))
       else None, Over)
    case (Persisted(_, token), Heartbeat) =>
      (if p.key.Some? && token.Some? then Some(RenewEvent(Slot(p.tenant, p.key.value), token.value)) else None, c.phase)
    case (Persisted(e, _), BeginStreaming) => (Some(MarkEvent(e)), c.phase)
    case (Persisted(e, token), Finish(ending, accounting)) =>
      (Some(FinalizeEvent(FinalizationOf(e, token, ending, accounting))), c.phase)
    case (_, Fail(status)) => (None, AfterFailure(c.phase, status))
    case _ => (None, c.phase)
  }

  function AfterBegin(d: DecisionId, outcome: BeginOutcome): Phase {
    match outcome
    case Granted(t, id, recovery) => if recovery then Recovering(d, t, id) else Ready(d, Some(t), Some(id), false)
    case Replay(id) => Cached(d, id)
    case Retry => Cleared(d)
    case _ => Failing(d, None, 409)
  }

  /** An exception before the request is persisted; only error statuses are raised. */
  function AfterFailure(phase: Phase, status: int): Phase {
    if Succeeds(status) then phase
    else
      match phase
      case Arriving => Over
      case Cleared(d) => Failing(d, None, status)
      case Recovering(d, t, _) => Failing(d, Some(t), status)
      case Cached(d, _) => Failing(d, None, status)
      case Ready(d, token, _, _) => Failing(d, token, status)
      case _ => phase
  }

  // ---------------------------------------------------------------- many clients

  datatype System = System(world: World, clients: map<nat, Client>)

  datatype Action = Act(id: nat, move: Move) | Tick(seconds: nat) | Cleanup

  ghost function EventOf(s: System, a: Action): Option<Event> {
    match a
    case Act(id, move) => if id in s.clients then Next(s.world.db, s.clients[id], move).0 else None
    case Tick(seconds) => Some(TickEvent(seconds))
    case Cleanup => Some(CleanupEvent)
  }

  ghost function After(s: System, a: Action): System {
    System(if EventOf(s, a).Some? then Step(s.world, EventOf(s, a).value) else s.world,
           if a.Act? && a.id in s.clients
           then s.clients[a.id := s.clients[a.id].(phase := Next(s.world.db, s.clients[a.id], a.move).1)]
           else s.clients)
  }

  ghost function AfterAll(s: System, actions: seq<Action>): System
    decreases |actions|
  {
    if actions == [] then s else AfterAll(After(s, actions[0]), actions[1..])
  }

  ghost function EventsOf(s: System, actions: seq<Action>): seq<Event>
    decreases |actions|
  {
    if actions == [] then []
    else (if EventOf(s, actions[0]).Some? then [EventOf(s, actions[0]).value] else [])
         + EventsOf(After(s, actions[0]), actions[1..])
  }

  // ---------------------------------------------------------------- what a client relies on

  function TokenOf(phase: Phase): Option<Token> {
    match phase
    case Recovering(_, t, _) => Some(t)
    case Ready(_, token, _, _) => token
    case Failing(_, token, _) => token
    case Releasing(token, _) => token
    case Persisted(_, token) => token
    case _ => None
  }

  function DecisionOf(phase: Phase): Option<DecisionId> {
    match phase
    case Cleared(d) => Some(d)
    case Recovering(d, _, _) => Some(d)
    case Cached(d, _) => Some(d)
    case Replaying(d, _) => Some(d)
    case Ready(d, _, _, _) => Some(d)
    case Failing(d, _, _) => Some(d)
    case _ => None
  }

  /** The record has been answered, or is gone for good. */
  predicate Settled(db: Db, id: RecordId) {
    id < db.nextRecord && (id in db.records ==> db.records[id].status.Completed?)
  }

  /** The client's token has been issued; it has prepared its execution if and only if the client has. */
  predicate TokenOk(w: World, phase: Phase) {
    TokenOf(phase).Some? ==>
      var t := TokenOf(phase).value;
      t < w.db.nextToken
      && if phase.Persisted? then t in w.prepared && w.prepared[t] == phase.execution else t !in w.prepared
  }

  predicate DecisionOk(db: Db, phase: Phase) {
    DecisionOf(phase).Some? ==>
      var d := DecisionOf(phase).value;
      d < db.nextDecision && d in db.decisions && db.decisions[d].execution.None?
  }

  /** Without a token nothing with a record can have been persisted. */
  predicate LeaselessOk(db: Db, phase: Phase) {
    && (phase.Cached? ==> Settled(db, phase.id))
    && (phase.Ready? && phase.token.None? ==>
          !phase.recover && (phase.record.Some? ==> Settled(db, phase.record.value)))
    && (phase.Persisted? && phase.token.None? ==>
          phase.execution in db.executions && db.executions[phase.execution].record.None?)
  }

  predicate FailsProperly(phase: Phase) {
    phase.Failing? || phase.Releasing? ==> !Succeeds(phase.responseStatus)
  }

  predicate ClientOk(w: World, phase: Phase) {
    TokenOk(w, phase) && DecisionOk(w.db, phase) && LeaselessOk(w.db, phase) && FailsProperly(phase)
  }

  /** Two clients share neither a token nor a decision. */
  predicate Apart(a: Phase, b: Phase) {
    && (TokenOf(a).Some? ==> TokenOf(a) != TokenOf(b))
    && (DecisionOf(a).Some? ==> DecisionOf(a) != DecisionOf(b))
  }

  ghost predicate PreparedIssued(w: World) {
    forall t | t in w.prepared :: t < w.db.nextToken
  }

  ghost predicate SystemInv(s: System) {
    && Inv(s.world) && PreparedIssued(s.world)
    && (forall i {:trigger s.clients[i]} | i in s.clients ::
          s.clients[i].profile.Valid() && ClientOk(s.world, s.clients[i].phase))
    && (forall i, j {:trigger Apart(s.clients[i].phase, s.clients[j].phase)} |
          i in s.clients && j in s.clients && i != j :: Apart(s.clients[i].phase, s.clients[j].phase))
  }

  // ---------------------------------------------------------------- a client's own step

  /** Whatever a client does is within the discipline. */
  lemma MoveIsAllowed(w: World, c: Client, m: Move)
    requires Inv(w) && c.profile.Valid() && ClientOk(w, c.phase)
    ensures var (ev, _) := Next(w.db, c, m); ev.Some? ==> Allowed(w, ev.value)
  {
  }

  /** A record that has been answered is never claimed by a request without a lease. */
  lemma SettledIsNotPrepared(w: World, c: Client)
    requires Inv(w) && ClientOk(w, c.phase) && c.phase.Ready? && c.phase.token.None? && c.phase.record.Some?
    ensures !Prepare(w.db, RequestOf(c)).1.Persisted?
  {
    var id := c.phase.record.value;
    if id in w.db.records {
      assert w.db.records[id].status.Completed?;
      var e :| CompletedFor(w.db.executions, e, id);
    }
  }

  lemma PersistKeepsClient(w: World, c: Client)
    requires Inv(w) && ClientOk(w, c.phase) && c.phase.Ready?
    ensures var (ev, phase) := Next(w.db, c, Persist); ClientOk(Step(w, ev.value), phase)
  {
    if c.phase.token.None? && c.phase.record.Some? {
      SettledIsNotPrepared(w, c);
    }
    var request := RequestOf(c);
    var (db', outcome) := Prepare(w.db, request);
    if !outcome.Persisted? {
      assert db'.decisions == w.db.decisions && db'.nextDecision == w.db.nextDecision;
    }
  }

  lemma ReserveKeepsClient(w: World, c: Client)
    requires Inv(w) && PreparedIssued(w) && ClientOk(w, c.phase) && c.phase.Cleared? && c.profile.key.Some?
    ensures var (ev, phase) := Next(w.db, c, Reserve); ClientOk(Step(w, ev.value), phase)
  {
    var slot := Slot(c.profile.tenant, c.profile.key.value);
    var (db', outcome) := Begin(w.db, slot, c.profile.digest);
    assert db'.decisions == w.db.decisions;
    if outcome.Replay? {
      assert RecordOk(w.db, outcome.record);
    }
  }

  lemma RecoverKeepsClient(w: World, c: Client)
    requires ClientOk(w, c.phase) && c.phase.Recovering?
    ensures var (ev, phase) := Next(w.db, c, Recover); ClientOk(Step(w, ev.value), phase)
  {
    var id := c.phase.id;
    assert AssertRecoveryAllowed(w.db, c.profile.identity(Some(id)), id, Some(c.phase.lease)).0.decisions
           == w.db.decisions;
  }

  /** Everything before the lease and after a failure. */
  lemma PlainMoveKeepsClient(w: World, c: Client, m: Move)
    requires Inv(w) && ClientOk(w, c.phase) && !c.phase.Persisted?
    requires !m.Persist? && !m.Recover? && !(m.Reserve? && c.profile.key.Some?)
    ensures var (ev, phase) := Next(w.db, c, m);
      ClientOk(if ev.Some? then Step(w, ev.value) else w, phase)
  {
    match m
    case Fail(status) => AfterFailureIsOk(w, c.phase, status);
    case _ =>
  }

  lemma AfterFailureIsOk(w: World, phase: Phase, status: int)
    requires ClientOk(w, phase)
    ensures ClientOk(w, AfterFailure(phase, status))
  {
  }

  lemma MoveKeepsClient(w: World, c: Client, m: Move)
    requires Inv(w) && PreparedIssued(w) && c.profile.Valid() && ClientOk(w, c.phase)
    ensures var (ev, phase) := Next(w.db, c, m);
      ClientOk(if ev.Some? then Step(w, ev.value) else w, phase)
  {
    if c.phase.Persisted? {
      PersistedStays(w, c, m);
    } else if m.Persist? && c.phase.Ready? {
      PersistKeepsClient(w, c);
    } else if m.Recover? && c.phase.Recovering? {
      RecoverKeepsClient(w, c);
    } else if m.Reserve? && c.phase.Cleared? && c.profile.key.Some? {
      ReserveKeepsClient(w, c);
    } else if m.Persist? || m.Recover? || (m.Reserve? && c.profile.key.Some?) {
      assert Next(w.db, c, m) == (None, c.phase);
    } else {
      PlainMoveKeepsClient(w, c, m);
    }
  }

  lemma PersistedStays(w: World, c: Client, m: Move)
    requires Inv(w) && ClientOk(w, c.phase) && c.phase.Persisted?
    ensures var (ev, phase) := Next(w.db, c, m);
      ClientOk(if ev.Some? then Step(w, ev.value) else w, phase)
  {
    var (ev, phase) := Next(w.db, c, m);
    if ev.Some? {
      ChatTheorems.StepAdvancesTokens(w, ev.value);
      if c.phase.token.None? {
        ChatTheorems.StepAdvances(w, ev.value, c.phase.execution);
      }
    }
  }

  /** New tokens and decisions are the database's next ones; others are kept. */
  lemma MoveTakesFresh(w: World, c: Client, m: Move)
    ensures var phase := Next(w.db, c, m).1;
      && (TokenOf(phase).Some? ==> TokenOf(phase) == TokenOf(c.phase) || TokenOf(phase).value == w.db.nextToken)
      && (DecisionOf(phase).Some? ==>
            DecisionOf(phase) == DecisionOf(c.phase) || DecisionOf(phase).value == w.db.nextDecision)
  {
  }

  // ---------------------------------------------------------------- the other clients

  /** The event neither prepares with the phase's token nor binds or closes its decision. */
  predicate Foreign(ev: Event, phase: Phase) {
    && (ev.PrepareEvent? ==>
          && (ev.prepare.token.Some? ==> ev.prepare.token != TokenOf(phase))
          && (ev.prepare.decision.Some? ==> ev.prepare.decision != DecisionOf(phase)))
  }

  lemma DecisionStaysUnbound(w: World, ev: Event, phase: Phase)
    requires DecisionOk(w.db, phase) && Foreign(ev, phase)
    ensures DecisionOk(Step(w, ev).db, phase)
  {
    match ev
    case PrepareEvent(p) =>
    case FinalizeEvent(f) =>
    case _ =>
  }

  lemma SettledStays(w: World, ev: Event, id: RecordId)
    requires Inv(w) && Allowed(w, ev) && Settled(w.db, id)
    ensures Settled(Step(w, ev).db, id)
  {
    ChatTheorems.StepAdvancesTokens(w, ev);
    if id in w.db.records {
      AnsweredStays(w, ev, id);
    }
  }

  /** An answered record stays answered until it is deleted. */
  lemma AnsweredStays(w: World, ev: Event, id: RecordId)
    requires Inv(w) && Allowed(w, ev) && id in w.db.records && w.db.records[id].status.Completed?
    ensures id in Step(w, ev).db.records ==> Step(w, ev).db.records[id].status.Completed?
  {
    match ev
    case BeginEvent(slot, digest) => BeginKeepsAnswered(w, slot, digest, id);
    case CompleteEvent(slot, status, reference, token) => CompleteKeepsAnswered(w, slot, status, reference, token, id);
    case FinalizeEvent(f) => FinalizeKeepsAnswered(w.db, f, id);
    case RecoverEvent(e, record, token) => RecoverKeepsAnswered(w.db, e, record, token, id);
    case PrepareEvent(p) => PrepareKeepsAnswered(w.db, p);
    case _ => OtherEventsKeepAnswered(w, ev, id);
  }

  lemma PrepareKeepsAnswered(db: Db, p: PrepareRequest)
    ensures Prepare(db, p).0.records == db.records
  {
  }

  lemma OtherEventsKeepAnswered(w: World, ev: Event, id: RecordId)
    requires id in w.db.records && w.db.records[id].status.Completed?
    requires ev.RenewEvent? || ev.CleanupEvent? || ev.TickEvent? || ev.DecideEvent? || ev.ResultEvent? || ev.MarkEvent?
    ensures id in Step(w, ev).db.records ==> Step(w, ev).db.records[id].status.Completed?
  {
  }

  lemma BeginKeepsAnswered(w: World, slot: Slot, digest: string, id: RecordId)
    requires Inv(w) && id in w.db.records && w.db.records[id].status.Completed?
    ensures var db' := Begin(w.db, slot, digest).0; id in db'.records ==> db'.records[id].status.Completed?
  {
    assert RecordOk(w.db, id);
  }

  lemma CompleteKeepsAnswered(w: World, slot: Slot, status: int, reference: string, token: Token, id: RecordId)
    requires Inv(w) && token !in w.prepared && id in w.db.records && w.db.records[id].status.Completed?
    ensures Complete(w.db, slot, status, reference, token).0.records[id] == w.db.records[id]
  {
    var e :| CompletedFor(w.db.executions, e, id);
    assert BindingOk(w.db.records, w.prepared, w.db.executions[e]);
  }

  lemma FinalizeKeepsAnswered(db: Db, f: FinalizeRequest, id: RecordId)
    requires id in db.records && db.records[id].status.Completed?
    ensures id in Finalize(db, f).0.records && Finalize(db, f).0.records[id] == db.records[id]
  {
  }

  lemma RecoverKeepsAnswered(db: Db, e: ExecutionId, record: RecordId, token: Option<Token>, id: RecordId)
    requires id in db.records && db.records[id].status.Completed?
    ensures var db' := AssertRecoveryAllowed(db, e, record, token).0;
      id in db'.records && db'.records[id] == db.records[id]
  {
  }

  lemma OthersAreUndisturbed(w: World, ev: Event, phase: Phase)
    requires Inv(w) && Allowed(w, ev) && ClientOk(w, phase) && Foreign(ev, phase)
    ensures ClientOk(Step(w, ev), phase)
  {
    ChatTheorems.StepAdvancesTokens(w, ev);
    DecisionStaysUnbound(w, ev, phase);
    match phase
    case Cached(_, id) => SettledStays(w, ev, id);
    case Ready(_, None, Some(id), _) => SettledStays(w, ev, id);
    case Persisted(e, None) => ChatTheorems.StepAdvances(w, ev, e);
    case _ =>
  }

  lemma PreparedStayIssued(w: World, c: Client, m: Move)
    requires PreparedIssued(w) && ClientOk(w, c.phase)
    ensures var (ev, _) := Next(w.db, c, m); ev.Some? ==> PreparedIssued(Step(w, ev.value))
  {
    var (ev, _) := Next(w.db, c, m);
    if ev.Some? {
      ChatTheorems.StepAdvancesTokens(w, ev.value);
    }
  }

  // ---------------------------------------------------------------- the system

  lemma ActKeepsInv(s: System, id: nat, move: Move)
    requires SystemInv(s) && id in s.clients
    ensures SystemInv(After(s, Act(id, move)))
    ensures EventOf(s, Act(id, move)).Some? ==> Allowed(s.world, EventOf(s, Act(id, move)).value)
  {
    var c, w := s.clients[id], s.world;
    var (ev, phase) := Next(w.db, c, move);
    var t := After(s, Act(id, move));
    MoveIsAllowed(w, c, move);
    MoveKeepsClient(w, c, move);
    MoveTakesFresh(w, c, move);
    PreparedStayIssued(w, c, move);
    if ev.Some? {
      StepKeepsInv(w, ev.value);
    }
    forall j | j in s.clients && j != id
      ensures ClientOk(t.world, s.clients[j].phase)
      ensures Apart(phase, s.clients[j].phase) && Apart(s.clients[j].phase, phase)
    {
      assert Apart(c.phase, s.clients[j].phase) && Apart(s.clients[j].phase, c.phase);
      if ev.Some? {
        ForeignToOthers(w, c, move, s.clients[j].phase);
        OthersAreUndisturbed(w, ev.value, s.clients[j].phase);
      }
    }
    forall i, j | i in t.clients && j in t.clients && i != j
      ensures Apart(t.clients[i].phase, t.clients[j].phase)
    {
      assert i != id && j != id ==> Apart(s.clients[i].phase, s.clients[j].phase);
    }
  }

  lemma ForeignToOthers(w: World, c: Client, m: Move, other: Phase)
    requires Apart(c.phase, other)
    ensures var (ev, _) := Next(w.db, c, m); ev.Some? ==> Foreign(ev.value, other)
  {
  }

  lemma EnvironmentKeepsInv(s: System, a: Action)
    requires SystemInv(s) && !a.Act?
    ensures SystemInv(After(s, a)) && Allowed(s.world, EventOf(s, a).value)
  {
    var ev := EventOf(s, a).value;
    StepKeepsInv(s.world, ev);
    forall i | i in s.clients ensures ClientOk(Step(s.world, ev), s.clients[i].phase) {
      OthersAreUndisturbed(s.world, ev, s.clients[i].phase);
    }
    forall i, j | i in s.clients && j in s.clients && i != j ensures Apart(s.clients[i].phase, s.clients[j].phase) {
      assert Apart(s.clients[i].phase, s.clients[j].phase);
    }
  }

  /** Every run of the system is a run of the protocol within its discipline. */
  lemma {:induction false} SystemRunsAreAllowed(s: System, actions: seq<Action>)
    requires SystemInv(s)
    ensures SystemInv(AfterAll(s, actions))
    ensures AllowedRun(s.world, EventsOf(s, actions))
    ensures Run(s.world, EventsOf(s, actions)) == AfterAll(s, actions).world
    decreases |actions|
  {
    if actions != [] {
      var a, rest := actions[0], actions[1..];
      if a.Act? && a.id in s.clients {
        ActKeepsInv(s, a.id, a.move);
      } else if !a.Act? {
        EnvironmentKeepsInv(s, a);
      }
      SystemRunsAreAllowed(After(s, a), rest);
      var events := EventsOf(After(s, a), rest);
      if EventOf(s, a).Some? {
        assert ([EventOf(s, a).value] + events)[1..] == events;
      } else {
        assert [] + events == events;
      }
    }
  }

  /**
   Whatever any number of requests do, however they interleave and wherever they crash, the database
   is one that the protocol reaches within its discipline: every theorem about reachable worlds holds.
  */
  lemma HandlersKeepTheDiscipline(now: int, clients: map<nat, Client>, actions: seq<Action>)
    requires forall i | i in clients :: clients[i].profile.Valid() && clients[i].phase.Arriving?
    ensures Reachable(AfterAll(System(Init(now), clients), actions).world)
  {
    var s := System(Init(now), clients);
    assert SystemInv(s) by {
      forall i, j | i in clients && j in clients && i != j ensures Apart(clients[i].phase, clients[j].phase) {
      }
    }
    SystemRunsAreAllowed(s, actions);
  }
}
