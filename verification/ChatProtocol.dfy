/**
 Interleavings of chat clients over one database. An event is one transaction of one client, a
 clock tick or a cleanup; a crashed client is one that sends no further events. `Allowed` is the
 whole discipline the HTTP handler keeps: everything else about the clients is arbitrary.
*/
module ChatProtocol {
  import opened Common
  import opened ChatModel

  /** `prepared` remembers which lease tokens have committed a prepare_exchange, and of what. */
  datatype World = World(db: Db, prepared: map<Token, ExecutionId>)

  datatype Event =
    | BeginEvent(slot: Slot, digest: string)
    | RenewEvent(slot: Slot, token: Token)
    | CompleteEvent(slot: Slot, responseStatus: int, reference: string, token: Token)
    | CleanupEvent
    | TickEvent(seconds: nat)
    | DecideEvent(tenant: Tenant, allowed: bool)
    | ResultEvent(decision: DecisionId, result: DecisionResult)
    | PrepareEvent(prepare: PrepareRequest)
    | MarkEvent(execution: ExecutionId)
    | RecoverEvent(execution: ExecutionId, record: RecordId, presented: Option<Token>)
    | FinalizeEvent(finalize: FinalizeRequest)

  /**
   What the handler guarantees: it releases a lease it never prepared with, and only with an error
   status; it prepares with a governance decision and a positive attempt limit; it gives a decision
   a result of its own only while the decision is unbound; it finalizes only what its token
   prepared; and it completes only with status 200 and the reply.
  */
  predicate Allowed(w: World, ev: Event) {
    match ev
    case CompleteEvent(_, responseStatus, _, token) =>
      token !in w.prepared && !Succeeds(responseStatus)
    case ResultEvent(d, _) =>
      d in w.db.decisions ==> w.db.decisions[d].execution.None?
    case PrepareEvent(p) =>
      p.decision.Some? && p.maxAttempts >= 1
    case FinalizeEvent(f) =>
      && (f.terminal.ToCompleted? ==> f.responseStatus == 200 && f.code.None? && |f.reference| > 0)
      && (f.execution in w.db.executions && w.db.executions[f.execution].record.Some? ==>
            Holds(w, f.token, f.execution))
    case _ => true
  }

  predicate Holds(w: World, token: Option<Token>, e: ExecutionId) {
    token.Some? && token.value in w.prepared && w.prepared[token.value] == e
  }

  /** The event is a prepare_exchange of `e` that commits an attempt. */
  predicate Commits(w: World, ev: Event, e: ExecutionId) {
    ev.PrepareEvent? && ev.prepare.execution == e && Prepare(w.db, ev.prepare).1.Persisted?
  }

  ghost function Next(db: Db, ev: Event): Db {
    match ev
    case BeginEvent(slot, digest) => Begin(db, slot, digest).0
    case RenewEvent(slot, token) => Renew(db, slot, token).0
    case CompleteEvent(slot, status, reference, token) =>
      Complete(db, slot, status, reference, token).0
    case CleanupEvent => Cleanup(db)
    case TickEvent(seconds) => db.(now := db.now + seconds)
    case DecideEvent(tenant, allowed) => Decide(db, tenant, allowed).0
    case ResultEvent(d, result) => RecordResult(db, d, result).0
    case PrepareEvent(p) => Prepare(db, p).0
    case MarkEvent(e) => MarkStreaming(db, e).0
    case RecoverEvent(e, record, token) => AssertRecoveryAllowed(db, e, record, token).0
    case FinalizeEvent(f) => Finalize(db, f).0
  }

  ghost function Step(w: World, ev: Event): World {
    World(Next(w.db, ev),
          if ev.PrepareEvent? && ev.prepare.token.Some? && Prepare(w.db, ev.prepare).1.Persisted?
          then w.prepared[ev.prepare.token.value := ev.prepare.execution]
          else w.prepared)
  }

  ghost function Run(w: World, events: seq<Event>): World
    decreases |events|
  {
    if events == [] then w else Run(Step(w, events[0]), events[1..])
  }

  ghost predicate AllowedRun(w: World, events: seq<Event>)
    decreases |events|
  {
    events == [] || (Allowed(w, events[0]) && AllowedRun(Step(w, events[0]), events[1..]))
  }

  function Init(now: int): World {
    World(Db(now, map[], map[], map[], [], map[], 0, 0, 0, 0), map[])
  }

  // ---------------------------------------------------------------- the joint invariant

  predicate RecordOk(db: Db, id: RecordId)
    requires id in db.records
  {
    && id < db.nextRecord
    && db.records[id].token < db.nextToken
    && (db.records[id].status.Processing? <==> db.records[id].leaseUntil.Some?)
  }

  ghost predicate RecordsOk(db: Db) {
    && (forall id <- db.records :: RecordOk(db, id))
    && (forall a, b | a in db.records && b in db.records && a != b ::
          db.records[a].slot != db.records[b].slot)
  }

  predicate IsAnswered(r: IdemRecord) {
    r.status.Completed? && r.reference.Some? && |r.reference.value| > 0 && r.responseStatus == Some(200)
  }

  predicate MessagesOk(messages: map<MessageId, Message>, e: ExecutionId, x: Execution) {
    && HasAssistant(messages, e, x)
    && x.userMessage in messages
    && messages[x.userMessage].execution == e
    && messages[x.userMessage].role.User?
    && messages[x.assistantMessage].status == Mirror(x.status)
  }

  ghost predicate AllMessages(executions: map<ExecutionId, Execution>, messages: map<MessageId, Message>) {
    forall e {:trigger MessagesOk(messages, e, executions[e])} | e in executions ::
      MessagesOk(messages, e, executions[e])
  }

  predicate BindingOk(records: map<RecordId, IdemRecord>, prepared: map<Token, ExecutionId>, x: Execution) {
    x.record.Some? ==>
      && x.record.value in records
      && records[x.record.value].slot.tenant == x.scope.tenant
      && (x.status.Completed? ==>
            IsAnswered(records[x.record.value]) && records[x.record.value].token in prepared)
  }

  ghost predicate AllBindings(executions: map<ExecutionId, Execution>, records: map<RecordId, IdemRecord>,
                              prepared: map<Token, ExecutionId>) {
    forall e {:trigger BindingOk(records, prepared, executions[e])} | e in executions ::
      BindingOk(records, prepared, executions[e])
  }

  ghost predicate AllAttempts(executions: map<ExecutionId, Execution>) {
    forall e <- executions :: 1 <= executions[e].attempts <= executions[e].maxAttempts
  }

  predicate AuditOk(decisions: map<DecisionId, Decision>, e: ExecutionId, x: Execution) {
    IsTerminal(x.status) || HasOpenDecision(decisions, e, x)
  }

  ghost predicate AllAudits(executions: map<ExecutionId, Execution>, decisions: map<DecisionId, Decision>) {
    forall e {:trigger AuditOk(decisions, e, executions[e])} | e in executions ::
      AuditOk(decisions, e, executions[e])
  }

  ghost predicate FreshIds(db: Db) {
    && (forall m <- db.messages :: m < db.nextMessage)
    && (forall d <- db.decisions :: d < db.nextDecision)
  }

  ghost predicate AttachedOnce(executions: map<ExecutionId, Execution>) {
    forall a, b | a in executions && b in executions && a != b ::
      executions[a].record.Some? ==> executions[a].record != executions[b].record
  }

  predicate CompletedFor(executions: map<ExecutionId, Execution>, e: ExecutionId, id: RecordId) {
    e in executions && executions[e].record == Some(id) && executions[e].status.Completed?
  }

  ghost predicate AllAnswered(executions: map<ExecutionId, Execution>, records: map<RecordId, IdemRecord>) {
    forall id | id in records && records[id].status.Completed? ::
      exists e :: CompletedFor(executions, e, id)
  }

  predicate RowOk(executions: map<ExecutionId, Execution>, row: UsageRow) {
    && row.execution in executions
    && (if row.source.Reserved? then row.operation.Reservation? && row.attempt == 1
        else
          && row.attempt <= executions[row.execution].attempts
          && (row.attempt == executions[row.execution].attempts ==>
                IsTerminal(executions[row.execution].status)))
  }

  ghost predicate AllRows(executions: map<ExecutionId, Execution>, ledger: seq<UsageRow>) {
    forall k {:trigger RowOk(executions, ledger[k])} | 0 <= k < |ledger| :: RowOk(executions, ledger[k])
  }

  ghost predicate UniqueRows(ledger: seq<UsageRow>) {
    forall j, k {:trigger SameLedgerKey(ledger[j], ledger[k])} | 0 <= j < k < |ledger| ::
      !SameLedgerKey(ledger[j], ledger[k])
  }

  ghost predicate AllReserved(executions: map<ExecutionId, Execution>, ledger: seq<UsageRow>) {
    forall e {:trigger FindReservation(ledger, e)} | e in executions :: FindReservation(ledger, e).Some?
  }

  ghost predicate Inv(w: World) {
    && RecordsOk(w.db)
    && AllMessages(w.db.executions, w.db.messages)
    && AllBindings(w.db.executions, w.db.records, w.prepared)
    && AllAttempts(w.db.executions)
    && AllAudits(w.db.executions, w.db.decisions)
    && FreshIds(w.db)
    && AttachedOnce(w.db.executions)
    && AllAnswered(w.db.executions, w.db.records)
    && AllRows(w.db.executions, w.db.ledger)
    && UniqueRows(w.db.ledger)
    && AllReserved(w.db.executions, w.db.ledger)
  }

  // ---------------------------------------------------------------- every step keeps it

  lemma DeleteKeepsAnswers(db: Db, gone: set<RecordId>)
    requires AllAnswered(db.executions, db.records)
    ensures AllAnswered(Delete(db, gone).executions, Delete(db, gone).records)
  {
    var db' := Delete(db, gone);
    forall id | id in db'.records && db'.records[id].status.Completed?
      ensures exists e :: CompletedFor(db'.executions, e, id)
    {
      var e :| CompletedFor(db.executions, e, id);
      assert CompletedFor(db'.executions, e, id);
    }
  }

  lemma DeleteKeepsAudits(db: Db, gone: set<RecordId>)
    requires AllAudits(db.executions, db.decisions)
    ensures AllAudits(Delete(db, gone).executions, Delete(db, gone).decisions)
  {
    forall e <- db.executions
      ensures AuditOk(db.decisions, e, Detached(db.executions[e], gone))
    {
      assert AuditOk(db.decisions, e, db.executions[e]);
    }
  }

  lemma DeleteKeepsRest(db: Db, prepared: map<Token, ExecutionId>, gone: set<RecordId>)
    requires AllMessages(db.executions, db.messages) && AllBindings(db.executions, db.records, prepared)
    requires AllRows(db.executions, db.ledger) && AllReserved(db.executions, db.ledger)
    ensures AllMessages(Delete(db, gone).executions, db.messages)
    ensures AllBindings(Delete(db, gone).executions, Delete(db, gone).records, prepared)
    ensures AllRows(Delete(db, gone).executions, db.ledger)
    ensures AllReserved(Delete(db, gone).executions, db.ledger)
  {
    forall k | 0 <= k < |db.ledger| ensures RowOk(Delete(db, gone).executions, db.ledger[k]) {
      assert RowOk(db.executions, db.ledger[k]);
    }
    forall e | e in db.executions
      ensures MessagesOk(db.messages, e, Detached(db.executions[e], gone))
      ensures BindingOk(Delete(db, gone).records, prepared, Detached(db.executions[e], gone))
    {
      assert MessagesOk(db.messages, e, db.executions[e]);
      assert BindingOk(db.records, prepared, db.executions[e]);
    }
  }

  lemma DeleteKeepsInv(w: World, gone: set<RecordId>)
    requires Inv(w)
    ensures Inv(w.(db := Delete(w.db, gone)))
  {
    DeleteKeepsAnswers(w.db, gone);
    DeleteKeepsAudits(w.db, gone);
    DeleteKeepsRest(w.db, w.prepared, gone);
  }

  /** Records may change as long as the answered ones stay put and nothing else becomes completed. */
  ghost predicate RecordsEvolve(a: Db, b: Db, prepared: map<Token, ExecutionId>) {
    && b.executions == a.executions && b.messages == a.messages && b.ledger == a.ledger
    && b.decisions == a.decisions && b.nextMessage == a.nextMessage && b.nextDecision == a.nextDecision
    && RecordsOk(b)
    && (forall id <- a.records :: id in b.records && b.records[id].slot == a.records[id].slot)
    && (forall id <- a.records :: IsAnswered(a.records[id]) && a.records[id].token in prepared ==>
          b.records[id] == a.records[id])
    && (forall id <- b.records :: b.records[id].status.Completed? ==>
          id in a.records && a.records[id].status.Completed?)
  }

  lemma RecordsEvolveKeepsInv(w: World, db': Db)
    requires Inv(w) && RecordsEvolve(w.db, db', w.prepared)
    ensures Inv(w.(db := db'))
  {
    var db := w.db;
    assert AllBindings(db'.executions, db'.records, w.prepared) by {
      forall e <- db.executions ensures BindingOk(db'.records, w.prepared, db.executions[e]) {
        assert BindingOk(db.records, w.prepared, db.executions[e]);
      }
    }
    forall id | id in db'.records && db'.records[id].status.Completed?
      ensures exists e :: CompletedFor(db'.executions, e, id)
    {
      var e :| CompletedFor(db.executions, e, id);
      assert CompletedFor(db'.executions, e, id);
    }
  }

  /** A grant writes one unanswered or new record and spends one token. */
  lemma GrantKeepsInv(w: World, id: RecordId, r: IdemRecord, nextRecord: RecordId)
    requires Inv(w) && r.status.Processing? && r.leaseUntil.Some? && r.token == w.db.nextToken
    requires w.db.nextRecord <= nextRecord && id < nextRecord
    requires if id in w.db.records then w.db.records[id].slot == r.slot && !w.db.records[id].status.Completed?
             else forall k <- w.db.records :: w.db.records[k].slot != r.slot
    ensures Inv(w.(db := w.db.(records := w.db.records[id := r], nextRecord := nextRecord,
                               nextToken := w.db.nextToken + 1)))
  {
    var db' := w.db.(records := w.db.records[id := r], nextRecord := nextRecord, nextToken := w.db.nextToken + 1);
    assert RecordsOk(db') by {
      forall k <- db'.records ensures RecordOk(db', k) {
        assert k != id ==> RecordOk(w.db, k);
      }
    }
    RecordsEvolveKeepsInv(w, db');
  }

  lemma BeginKeepsInv(w: World, slot: Slot, digest: string)
    requires Inv(w)
    ensures Inv(w.(db := Begin(w.db, slot, digest).0))
  {
    var (db', outcome) := Begin(w.db, slot, digest);
    match outcome
    case Retry => DeleteKeepsInv(w, {FindRecord(w.db.records, slot).value});
    case Granted(_, id, _) =>
      assert id in w.db.records ==> RecordOk(w.db, id);
      GrantKeepsInv(w, id, db'.records[id], db'.nextRecord);
    case _ =>
  }

  lemma RenewKeepsInv(w: World, slot: Slot, token: Token)
    requires Inv(w)
    ensures Inv(w.(db := Renew(w.db, slot, token).0))
  {
    RecordsEvolveKeepsInv(w, Renew(w.db, slot, token).0);
  }

  lemma CompleteKeepsInv(w: World, slot: Slot, responseStatus: int, reference: string,
                         token: Token)
    requires Inv(w) && token !in w.prepared && !Succeeds(responseStatus)
    ensures Inv(w.(db := Complete(w.db, slot, responseStatus, reference, token).0))
  {
    RecordsEvolveKeepsInv(w, Complete(w.db, slot, responseStatus, reference, token).0);
  }

  // Decisions.

  lemma DecisionsKeepAudits(executions: map<ExecutionId, Execution>, a: map<DecisionId, Decision>,
                            b: map<DecisionId, Decision>)
    requires AllAudits(executions, a)
    requires forall d <- a :: d in b && (a[d].execution.Some? ==> b[d] == a[d])
    ensures AllAudits(executions, b)
  {
    forall e | e in executions ensures AuditOk(b, e, executions[e]) {
      assert AuditOk(a, e, executions[e]);
    }
  }

  lemma DecideKeepsInv(w: World, tenant: Tenant, allowed: bool)
    requires Inv(w)
    ensures Inv(w.(db := Decide(w.db, tenant, allowed).0))
  {
    DecisionsKeepAudits(w.db.executions, w.db.decisions, Decide(w.db, tenant, allowed).0.decisions);
  }

  lemma ResultKeepsInv(w: World, d: DecisionId, result: DecisionResult)
    requires Inv(w) && Allowed(w, ResultEvent(d, result))
    ensures Inv(w.(db := RecordResult(w.db, d, result).0))
  {
    DecisionsKeepAudits(w.db.executions, w.db.decisions, RecordResult(w.db, d, result).0.decisions);
  }

  // One execution changes: what the change must satisfy for the others to be unaffected.

  lemma FrameMessages(executions: map<ExecutionId, Execution>, a: map<MessageId, Message>,
                      e: ExecutionId, x: Execution, b: map<MessageId, Message>)
    requires AllMessages(executions, a) && MessagesOk(b, e, x)
    requires forall m <- a :: a[m].execution != e ==> m in b && b[m] == a[m]
    ensures AllMessages(executions[e := x], b)
  {
    forall f | f in executions && f != e ensures MessagesOk(b, f, executions[f]) {
      assert MessagesOk(a, f, executions[f]);
    }
  }

  lemma FrameBindings(executions: map<ExecutionId, Execution>, a: map<RecordId, IdemRecord>,
                      p: map<Token, ExecutionId>, e: ExecutionId, x: Execution,
                      b: map<RecordId, IdemRecord>, q: map<Token, ExecutionId>)
    requires AllBindings(executions, a, p) && BindingOk(b, q, x)
    requires p.Keys <= q.Keys
    requires forall id <- a :: id in b && (Some(id) != x.record ==> b[id] == a[id])
    requires forall f <- executions :: f != e && executions[f].record.Some? ==> executions[f].record != x.record
    ensures AllBindings(executions[e := x], b, q)
  {
    forall f | f in executions && f != e ensures BindingOk(b, q, executions[f]) {
      assert BindingOk(a, p, executions[f]);
    }
  }

  lemma FrameAudits(executions: map<ExecutionId, Execution>, a: map<DecisionId, Decision>,
                    e: ExecutionId, x: Execution, b: map<DecisionId, Decision>)
    requires AllAudits(executions, a) && AuditOk(b, e, x)
    requires forall d <- a :: d in b && (a[d].execution.Some? && a[d].execution.value != e ==> b[d] == a[d])
    ensures AllAudits(executions[e := x], b)
  {
    forall f | f in executions && f != e ensures AuditOk(b, f, executions[f]) {
      assert AuditOk(a, f, executions[f]);
    }
  }

  lemma FrameAnswered(executions: map<ExecutionId, Execution>, a: map<RecordId, IdemRecord>,
                      e: ExecutionId, x: Execution, b: map<RecordId, IdemRecord>)
    requires AllAnswered(executions, a)
    requires e in executions && executions[e].status.Completed? ==> x == executions[e]
    requires forall id <- b :: b[id].status.Completed? ==>
               (id in a && a[id].status.Completed?) || (x.record == Some(id) && x.status.Completed?)
    ensures AllAnswered(executions[e := x], b)
  {
    var after := executions[e := x];
    forall id | id in b && b[id].status.Completed?
      ensures exists f :: CompletedFor(after, f, id)
    {
      if x.record == Some(id) && x.status.Completed? {
        assert CompletedFor(after, e, id);
      } else {
        var f :| CompletedFor(executions, f, id);
        assert CompletedFor(after, f, id);
      }
    }
  }

  /** The attempt number never falls, and an attempt that is over stays over. */
  predicate AttemptsAdvance(x: Execution, y: Execution) {
    x.attempts <= y.attempts && (x.attempts == y.attempts && IsTerminal(x.status) ==> IsTerminal(y.status))
  }

  lemma FrameRows(executions: map<ExecutionId, Execution>, ledger: seq<UsageRow>, e: ExecutionId, x: Execution)
    requires AllRows(executions, ledger)
    requires e in executions ==> AttemptsAdvance(executions[e], x)
    ensures AllRows(executions[e := x], ledger)
  {
    forall k | 0 <= k < |ledger| ensures RowOk(executions[e := x], ledger[k]) {
      assert RowOk(executions, ledger[k]);
    }
  }

  lemma FrameReserved(executions: map<ExecutionId, Execution>, ledger: seq<UsageRow>, e: ExecutionId, x: Execution)
    requires AllReserved(executions, ledger) && FindReservation(ledger, e).Some?
    ensures AllReserved(executions[e := x], ledger)
  {
  }

  // Chat executions.

  /** Whoever owns an execution's lease finds it unfinished or failed, never completed. */
  lemma OwnedIsNotCompleted(w: World, e: ExecutionId, token: Option<Token>)
    requires Inv(w) && e in w.db.executions && Owns(w.db, w.db.executions[e], token)
    ensures !w.db.executions[e].status.Completed?
  {
    assert BindingOk(w.db.records, w.prepared, w.db.executions[e]);
  }

  lemma ExhaustKeepsInv(w: World, e: ExecutionId, token: Option<Token>)
    requires Inv(w) && e in w.db.executions && Owns(w.db, w.db.executions[e], token)
    ensures MessagesOk(w.db.messages, e, w.db.executions[e])
    ensures Inv(w.(db := Exhaust(w.db, e)))
  {
    var db, x := w.db, w.db.executions[e];
    OwnedIsNotCompleted(w, e, token);
    assert MessagesOk(db.messages, e, x);
    assert BindingOk(db.records, w.prepared, x);
    var db' := Exhaust(db, e);
    var y := db'.executions[e];
    FrameMessages(db.executions, db.messages, e, y, db'.messages);
    FrameBindings(db.executions, db.records, w.prepared, e, y, db.records, w.prepared);
    FrameAudits(db.executions, db.decisions, e, y, db.decisions);
    FrameAnswered(db.executions, db.records, e, y, db.records);
    FrameRows(db.executions, db.ledger, e, y);
  }

  lemma RecoverKeepsInv(w: World, e: ExecutionId, record: RecordId, token: Option<Token>)
    requires Inv(w)
    ensures Inv(w.(db := AssertRecoveryAllowed(w.db, e, record, token).0))
  {
    var (db', outcome) := AssertRecoveryAllowed(w.db, e, record, token);
    if outcome.Exhausted? {
      ExhaustKeepsInv(w, e, token);
      var failed := w.(db := Exhaust(w.db, e));
      assert RecordOk(w.db, record);
      RecordsEvolveKeepsInv(failed, db');
    }
  }

  lemma MarkKeepsInv(w: World, e: ExecutionId)
    requires Inv(w)
    ensures Inv(w.(db := MarkStreaming(w.db, e).0))
  {
    var (db', outcome) := MarkStreaming(w.db, e);
    if outcome == Marked(true) {
      var db, x, y := w.db, w.db.executions[e], db'.executions[e];
      assert MessagesOk(db.messages, e, x);
      assert BindingOk(db.records, w.prepared, x);
      assert AuditOk(db.decisions, e, x);
      FrameMessages(db.executions, db.messages, e, y, db'.messages);
      FrameBindings(db.executions, db.records, w.prepared, e, y, db.records, w.prepared);
      FrameAudits(db.executions, db.decisions, e, y, db.decisions);
      FrameAnswered(db.executions, db.records, e, y, db.records);
      FrameRows(db.executions, db.ledger, e, y);
    }
  }

  /** One execution becomes `y`; the rows it does not own stay, the ledger facts are given. */
  lemma ExecutionEvolvesKeepsInv(w: World, e: ExecutionId, y: Execution, db': Db)
    requires Inv(w) && db'.executions == w.db.executions[e := y] && db'.records == w.db.records
    requires db'.nextRecord == w.db.nextRecord && db'.nextToken == w.db.nextToken && FreshIds(db')
    requires MessagesOk(db'.messages, e, y)
    requires forall m <- w.db.messages :: w.db.messages[m].execution != e ==>
               m in db'.messages && db'.messages[m] == w.db.messages[m]
    requires BindingOk(w.db.records, w.prepared, y) && 1 <= y.attempts <= y.maxAttempts
    requires forall f <- w.db.executions :: f != e && w.db.executions[f].record.Some? ==>
               w.db.executions[f].record != y.record
    requires AuditOk(db'.decisions, e, y)
    requires forall d <- w.db.decisions :: d in db'.decisions &&
               (w.db.decisions[d].execution.Some? && w.db.decisions[d].execution.value != e ==>
                  db'.decisions[d] == w.db.decisions[d])
    requires e in w.db.executions && w.db.executions[e].status.Completed? ==> y == w.db.executions[e]
    requires AllRows(db'.executions, db'.ledger) && UniqueRows(db'.ledger) && AllReserved(db'.executions, db'.ledger)
    ensures Inv(w.(db := db'))
  {
    FrameMessages(w.db.executions, w.db.messages, e, y, db'.messages);
    FrameBindings(w.db.executions, w.db.records, w.prepared, e, y, w.db.records, w.prepared);
    FrameAudits(w.db.executions, w.db.decisions, e, y, db'.decisions);
    FrameAnswered(w.db.executions, w.db.records, e, y, w.db.records);
    assert RecordsOk(db') by {
      forall id <- db'.records ensures RecordOk(db', id) {
        assert RecordOk(w.db, id);
      }
    }
  }

  /** A bound decision is open for the execution it was bound to. */
  lemma BindOpens(db: Db, d: DecisionId, e: ExecutionId, tenant: Tenant)
    requires Bindable(db, d, e, tenant)
    ensures d in Bind(db, Some(d), e, tenant).decisions
    ensures OpenFor(Bind(db, Some(d), e, tenant).decisions[d], e, tenant.organization)
  {
  }

  lemma ReopenKeepsInv(w: World, p: PrepareRequest)
    requires Inv(w) && Allowed(w, PrepareEvent(p)) && p.execution in w.db.executions
    requires Reprepare(w.db, p).1.Persisted?
    ensures Inv(w.(db := Reprepare(w.db, p).0))
  {
    var db, x, db' := w.db, w.db.executions[p.execution], Reprepare(w.db, p).0;
    var e, y := p.execution, db'.executions[p.execution];
    OwnedIsNotCompleted(w, e, p.token);
    assert MessagesOk(db.messages, e, x);
    assert BindingOk(db.records, w.prepared, x);
    BindOpens(db, p.decision.value, e, p.scope.tenant);
    assert HasOpenDecision(db'.decisions, e, y);
    FrameRows(db.executions, db.ledger, e, y);
    FrameReserved(db.executions, db.ledger, e, y);
    RevaluedRows(db'.executions, db.ledger, db'.ledger);
    ExecutionEvolvesKeepsInv(w, e, y, db');
  }

  /** Rows that keep their keys keep every ledger fact. */
  lemma RevaluedRows(executions: map<ExecutionId, Execution>, a: seq<UsageRow>, b: seq<UsageRow>)
    requires AllRows(executions, a) && UniqueRows(a) && AllReserved(executions, a)
    requires |a| == |b| && forall k | 0 <= k < |a| :: SameLedgerKey(a[k], b[k])
    ensures AllRows(executions, b) && UniqueRows(b) && AllReserved(executions, b)
  {
    forall k | 0 <= k < |b| ensures RowOk(executions, b[k]) {
      assert RowOk(executions, a[k]);
    }
    forall j, k | 0 <= j < k < |b| ensures !SameLedgerKey(b[j], b[k]) {
      assert !SameLedgerKey(a[j], a[k]);
    }
    forall e | e in executions ensures FindReservation(b, e).Some? {
      assert FindReservation(a, e).Some?;
      var k := FindReservation(a, e).value;
      assert IsReservation(b[k], e);
    }
  }

  lemma PrepareNewKeepsInv(w: World, p: PrepareRequest)
    requires Inv(w) && Allowed(w, PrepareEvent(p)) && p.execution !in w.db.executions
    requires PrepareNew(w.db, p).1.Persisted?
    ensures Inv(w.(db := PrepareNew(w.db, p).0))
  {
    var db, db' := w.db, PrepareNew(w.db, p).0;
    var e, y := p.execution, db'.executions[p.execution];
    BindOpens(db, p.decision.value, e, p.scope.tenant);
    assert HasOpenDecision(db'.decisions, e, y);
    FirstReservation(db, p, y);
    ExecutionEvolvesKeepsInv(w, e, y, db');
  }

  lemma FirstReservation(db: Db, p: PrepareRequest, y: Execution)
    requires p.execution !in db.executions
    requires AllRows(db.executions, db.ledger) && UniqueRows(db.ledger) && AllReserved(db.executions, db.ledger)
    ensures AllRows(db.executions[p.execution := y], db.ledger + [ReservationRow(p)])
    ensures UniqueRows(db.ledger + [ReservationRow(p)])
    ensures AllReserved(db.executions[p.execution := y], db.ledger + [ReservationRow(p)])
  {
    var after, ledger := db.executions[p.execution := y], db.ledger + [ReservationRow(p)];
    forall k | 0 <= k < |ledger| ensures RowOk(after, ledger[k]) {
      assert k < |db.ledger| ==> RowOk(db.executions, db.ledger[k]);
    }
    forall j, k | 0 <= j < k < |ledger| ensures !SameLedgerKey(ledger[j], ledger[k]) {
      assert RowOk(db.executions, db.ledger[j]);
      assert k < |db.ledger| ==> !SameLedgerKey(db.ledger[j], db.ledger[k]);
    }
    KeptReservations(db.executions, db.ledger, [ReservationRow(p)]);
    assert IsReservation(ledger[|db.ledger|], p.execution);
    assert FindReservation(ledger, p.execution).Some?;
  }

  lemma KeptReservations(executions: map<ExecutionId, Execution>, ledger: seq<UsageRow>, rows: seq<UsageRow>)
    requires AllReserved(executions, ledger)
    ensures AllReserved(executions, ledger + rows)
  {
    forall e | e in executions ensures FindReservation(ledger + rows, e).Some? {
      assert FindReservation(ledger, e).Some?;
      var k := FindReservation(ledger, e).value;
      assert IsReservation((ledger + rows)[k], e);
    }
  }

  lemma PrepareKeepsInv(w: World, p: PrepareRequest)
    requires Inv(w) && Allowed(w, PrepareEvent(p))
    ensures Inv(Step(w, PrepareEvent(p)))
  {
    var (db', outcome) := Prepare(w.db, p);
    match outcome
    case Persisted(_, _) =>
      if p.execution in w.db.executions {
        ReopenKeepsInv(w, p);
      } else {
        PrepareNewKeepsInv(w, p);
      }
      PreparedGrows(w.(db := db'), Step(w, PrepareEvent(p)).prepared);
    case RetryLimit => ExhaustKeepsInv(w, p.execution, p.token);
    case _ =>
  }

  lemma PreparedGrows(w: World, prepared: map<Token, ExecutionId>)
    requires Inv(w) && w.prepared.Keys <= prepared.Keys
    ensures Inv(w.(prepared := prepared))
  {
    forall e | e in w.db.executions ensures BindingOk(w.db.records, prepared, w.db.executions[e]) {
      assert BindingOk(w.db.records, w.prepared, w.db.executions[e]);
    }
  }

  // Finalization.

  /** No attempt that is still open has cost rows, so the "already recorded" branch cannot be taken. */
  lemma OpenAttemptIsUnrecorded(w: World, e: ExecutionId, entries: seq<ExecutionCost>)
    requires Inv(w) && e in w.db.executions && !IsTerminal(w.db.executions[e].status)
    ensures NotRecorded(w.db.ledger, e, w.db.executions[e].attempts, entries)
  {
    forall i, k | 0 <= i < |entries| && 0 <= k < |w.db.ledger|
      ensures !SameLedgerKey(w.db.ledger[k], CostRow(e, w.db.executions[e].attempts, entries[i]))
    {
      assert RowOk(w.db.executions, w.db.ledger[k]);
    }
  }

  lemma CostRowsKeepLedger(db: Db, x: Execution, y: Execution, f: FinalizeRequest)
    requires f.execution in db.executions && x == db.executions[f.execution]
    requires !IsTerminal(x.status) && IsTerminal(y.status) && y.attempts == x.attempts
    requires AllRows(db.executions, db.ledger) && UniqueRows(db.ledger) && AllReserved(db.executions, db.ledger)
    requires WellFormed(x, f.accounting) && NotRecorded(db.ledger, f.execution, x.attempts, f.accounting)
    ensures AllRows(db.executions[f.execution := y], db.ledger + CostRows(f.execution, x.attempts, f.accounting))
    ensures UniqueRows(db.ledger + CostRows(f.execution, x.attempts, f.accounting))
    ensures AllReserved(db.executions[f.execution := y],
                        db.ledger + CostRows(f.execution, x.attempts, f.accounting))
  {
    var after := db.executions[f.execution := y];
    var rows := CostRows(f.execution, x.attempts, f.accounting);
    var ledger, n := db.ledger + rows, |db.ledger|;
    FrameRows(db.executions, db.ledger, f.execution, y);
    forall k | 0 <= k < |ledger| ensures RowOk(after, ledger[k]) {
      assert k < n ==> RowOk(after, db.ledger[k]);
      assert k >= n ==> ledger[k] == CostRow(f.execution, x.attempts, f.accounting[k - n]);
    }
    forall j, k | 0 <= j < k < |ledger| ensures !SameLedgerKey(ledger[j], ledger[k]) {
      if k < n {
        assert !SameLedgerKey(db.ledger[j], db.ledger[k]);
      } else {
        assert ledger[k] == CostRow(f.execution, x.attempts, f.accounting[k - n]);
        if j >= n {
          assert ledger[j] == CostRow(f.execution, x.attempts, f.accounting[j - n]);
        }
      }
    }
    KeptReservations(after, db.ledger, rows);
  }

  ghost predicate Closes(w: World, f: FinalizeRequest) {
    Inv(w) && Allowed(w, FinalizeEvent(f)) && Finalize(w.db, f).1 == Finalized(true)
  }

  lemma CloseKeepsRows(w: World, f: FinalizeRequest)
    requires Closes(w, f)
    ensures var db' := Finalize(w.db, f).0;
      && AllMessages(db'.executions, db'.messages) && AllAudits(db'.executions, db'.decisions)
      && FreshIds(db') && AllAttempts(db'.executions) && AttachedOnce(db'.executions)
  {
    var db, db', e := w.db, Finalize(w.db, f).0, f.execution;
    assert MessagesOk(db.messages, e, db.executions[e]);
    FrameMessages(db.executions, db.messages, e, db'.executions[e], db'.messages);
    FrameAudits(db.executions, db.decisions, e, db'.executions[e], db'.decisions);
  }

  lemma CloseKeepsRecords(w: World, f: FinalizeRequest)
    requires Closes(w, f)
    ensures RecordsOk(Finalize(w.db, f).0)
  {
    var db, db' := w.db, Finalize(w.db, f).0;
    forall id <- db'.records ensures RecordOk(db', id) && db'.records[id].slot == db.records[id].slot {
      assert RecordOk(db, id);
    }
  }

  lemma CloseKeepsBindings(w: World, f: FinalizeRequest)
    requires Closes(w, f)
    ensures var db' := Finalize(w.db, f).0;
      AllBindings(db'.executions, db'.records, w.prepared) && AllAnswered(db'.executions, db'.records)
  {
    var db, db', e := w.db, Finalize(w.db, f).0, f.execution;
    var x, y := db.executions[e], db'.executions[e];
    assert BindingOk(db.records, w.prepared, x);
    FrameBindings(db.executions, db.records, w.prepared, e, y, db'.records, w.prepared);
    FrameAnswered(db.executions, db.records, e, y, db'.records);
  }

  lemma FinalizeKeepsInv(w: World, f: FinalizeRequest)
    requires Inv(w) && Allowed(w, FinalizeEvent(f))
    ensures Inv(w.(db := Finalize(w.db, f).0))
  {
    var (db', outcome) := Finalize(w.db, f);
    if outcome == Finalized(true) {
      CloseKeepsRows(w, f);
      CloseKeepsRecords(w, f);
      CloseKeepsBindings(w, f);
      CostRowsKeepLedger(w.db, w.db.executions[f.execution], db'.executions[f.execution], f);
    }
  }

  lemma StepKeepsInv(w: World, ev: Event)
    requires Inv(w) && Allowed(w, ev)
    ensures Inv(Step(w, ev))
  {
    match ev
    case BeginEvent(slot, digest) => BeginKeepsInv(w, slot, digest);
    case RenewEvent(slot, token) => RenewKeepsInv(w, slot, token);
    case CompleteEvent(slot, status, reference, token) => CompleteKeepsInv(w, slot, status, reference, token);
    case CleanupEvent => DeleteKeepsInv(w, Expired(w.db));
    case TickEvent(_) =>
    case DecideEvent(tenant, allowed) => DecideKeepsInv(w, tenant, allowed);
    case ResultEvent(d, result) => ResultKeepsInv(w, d, result);
    case PrepareEvent(p) => PrepareKeepsInv(w, p);
    case MarkEvent(e) => MarkKeepsInv(w, e);
    case RecoverEvent(e, record, token) => RecoverKeepsInv(w, e, record, token);
    case FinalizeEvent(f) => FinalizeKeepsInv(w, f);
  }

  lemma {:induction false} RunKeepsInv(w: World, events: seq<Event>)
    requires Inv(w) && AllowedRun(w, events)
    ensures Inv(Run(w, events))
    decreases |events|
  {
    if events != [] {
      StepKeepsInv(w, events[0]);
      RunKeepsInv(Step(w, events[0]), events[1..]);
    }
  }

  ghost predicate Reachable(w: World) {
    exists now, events :: AllowedRun(Init(now), events) && w == Run(Init(now), events)
  }

  lemma ReachableInv(w: World)
    requires Reachable(w)
    ensures Inv(w)
  {
    var now, events :| AllowedRun(Init(now), events) && w == Run(Init(now), events);
    RunKeepsInv(Init(now), events);
  }
}
