/**
 The durable rows of one chat gateway database, and every transaction on them as a
 function from the database before it to the database after it and the caller's outcome.
 A transaction that raises leaves the database as it was, except where it has committed before raising.
*/
module ChatModel {
  import opened Common

  const LEASE_SECONDS := 120
  const DEFAULT_TTL_SECONDS := 24 * 60 * 60

  /** Lease tokens are fresh uuids: the database hands them out in issue order. */
  type Token = nat
  type RecordId = nat
  type MessageId = nat
  type DecisionId = nat

  /** A digest is represented by the text it was computed from; without a key it is a random id. */
  datatype ExecutionId = Keyed(material: string) | Random(nonce: nat)

  datatype Tenant = Tenant(organization: int, user: int)

  /** Everything a recovery must match before it may reopen an execution. */
  datatype Scope = Scope(tenant: Tenant, conversation: int, bot: int, botOrganization: int,
                         provider: string, model: string)

  datatype RecordStatus = Processing | Completed | Failed

  /** The unique key of an idempotency record. */
  datatype Slot = Slot(tenant: Tenant, key: string)

  datatype IdemRecord = IdemRecord(
    slot: Slot, digest: string, status: RecordStatus,
    responseStatus: Option<int>, reference: Option<string>,
    expiresAt: int, leaseUntil: Option<int>, token: Token)

  datatype ExecStatus = Prepared | Streaming | Completed | Failed | Cancelled
  datatype Terminal = ToCompleted | ToFailed | ToCancelled
  datatype MessageStatus = Pending | Streaming | Completed | Failed | Cancelled
  datatype Role = User | Assistant

  datatype FailureCode =
    | ProviderTimeout | ProviderFailure | DatabaseFailure | IdempotencyLost | BudgetRejected
    | IdempotencyConflict | ClientCancelled | ProcessCrash | RetryExhausted | ContextRejected

  datatype FailurePolicy = FailurePolicy(responseStatus: int, retryable: bool)

  function PolicyOf(code: FailureCode): (p: FailurePolicy)
    ensures !Succeeds(p.responseStatus)
  {
    match code
    case ProviderTimeout => FailurePolicy(504, true)
    case ProviderFailure => FailurePolicy(502, true)
    case DatabaseFailure => FailurePolicy(503, true)
    case IdempotencyLost => FailurePolicy(409, true)
    case BudgetRejected => FailurePolicy(429, false)
    case IdempotencyConflict => FailurePolicy(409, false)
    case ClientCancelled => FailurePolicy(499, true)
    case ProcessCrash => FailurePolicy(500, true)
    case RetryExhausted => FailurePolicy(409, false)
    case ContextRejected => FailurePolicy(422, false)
  }

  predicate Succeeds(responseStatus: int) {
    200 <= responseStatus < 300
  }

  datatype Execution = Execution(
    scope: Scope, record: Option<RecordId>, userMessage: MessageId, assistantMessage: MessageId,
    status: ExecStatus, attempts: nat, maxAttempts: nat, lastFailure: Option<FailureCode>,
    retryable: bool, partial: bool, auditRequired: bool)

  datatype Message = Message(execution: ExecutionId, role: Role, content: string, status: MessageStatus)

  datatype Operation = Reservation | Primary | Verification
  datatype UsageSource = Reserved | Estimated | ProviderReported

  datatype UsageRow = UsageRow(
    execution: ExecutionId, attempt: nat, operation: Operation, source: UsageSource,
    provider: string, model: string, inputTokens: int, outputTokens: int, totalTokens: int)

  /** One accounting entry of a finalization; the accountant never produces a reservation. */
  datatype Cost = Cost(provider: string, model: string, operation: Operation, source: UsageSource,
                       inputTokens: int, outputTokens: int)
  type ExecutionCost = c: Cost | c.operation != Reservation && c.source != Reserved
    witness Cost("", "", Primary, Estimated, 0, 0)

  datatype DecisionResult = DecisionResult(status: string, responseStatus: int, failure: Option<FailureCode>)

  /** A governance decision; it is open until it carries a result. */
  datatype Decision = Decision(tenant: Tenant, allowed: bool, execution: Option<ExecutionId>,
                               result: Option<DecisionResult>)

  datatype Db = Db(
    now: int,
    records: map<RecordId, IdemRecord>,
    executions: map<ExecutionId, Execution>,
    messages: map<MessageId, Message>,
    ledger: seq<UsageRow>,
    decisions: map<DecisionId, Decision>,
    nextRecord: RecordId, nextToken: Token, nextMessage: MessageId, nextDecision: DecisionId)

  predicate IsTerminal(s: ExecStatus) {
    s.Completed? || s.Failed? || s.Cancelled?
  }

  function StatusAfter(t: Terminal): (s: ExecStatus)
    ensures IsTerminal(s)
  {
    match t
    case ToCompleted => ExecStatus.Completed
    case ToFailed => ExecStatus.Failed
    case ToCancelled => ExecStatus.Cancelled
  }

  function TerminalName(t: Terminal): string {
    match t
    case ToCompleted => "completed"
    case ToFailed => "failed"
    case ToCancelled => "cancelled"
  }

  /** The assistant message status that goes with an execution status. */
  function Mirror(s: ExecStatus): MessageStatus {
    match s
    case Prepared => MessageStatus.Pending
    case Streaming => MessageStatus.Streaming
    case Completed => MessageStatus.Completed
    case Failed => MessageStatus.Failed
    case Cancelled => MessageStatus.Cancelled
  }

  // ---------------------------------------------------------------- idempotency ledger

  ghost function FindRecord(records: map<RecordId, IdemRecord>, slot: Slot): (found: Option<RecordId>)
    ensures found.Some? ==> found.value in records && records[found.value].slot == slot
    ensures found.None? ==> forall id <- records :: records[id].slot != slot
  {
    if id :| id in records && records[id].slot == slot then Some(id) else None
  }

  predicate LeaseExpired(r: IdemRecord, now: int) {
    r.leaseUntil.Some? && r.leaseUntil.value < now
  }

  function Detached(x: Execution, gone: set<RecordId>): Execution {
    if x.record.Some? && x.record.value in gone then x.(record := None) else x
  }

  /** Deleting records sets the reference of every execution that pointed at them to null. */
  function Delete(db: Db, gone: set<RecordId>): Db {
    db.(records := db.records - gone,
        executions := map e | e in db.executions :: Detached(db.executions[e], gone))
  }

  datatype BeginOutcome =
    | Granted(token: Token, record: RecordId, recovery: bool)
    | Replay(record: RecordId)
    | Retry
    | KeyReused
    | InProgress

  /** One attempt of begin_idempotency, up to its commit. */
  ghost function Begin(db: Db, slot: Slot, digest: string): (Db, BeginOutcome) {
    var token, lease, expires := db.nextToken, Some(db.now + LEASE_SECONDS), db.now + DEFAULT_TTL_SECONDS;
    match FindRecord(db.records, slot)
    case None =>
      var id := db.nextRecord;
      var row := IdemRecord(slot, digest, Processing, None, None, expires, lease, token);
      (db.(records := db.records[id := row], nextRecord := id + 1, nextToken := token + 1),
       Granted(token, id, false))
    case Some(id) =>
      var r := db.records[id];
      if r.status.Completed? && r.expiresAt < db.now then
        (Delete(db, {id}), Retry)
      else if r.digest != digest then
        (db, KeyReused)
      else if r.status.Completed? && r.reference.Some? && |r.reference.value| > 0 then
        (db, Replay(id))
      else if r.status.Failed? then
        var reopened := r.(status := Processing, responseStatus := None, reference := None,
                           leaseUntil := lease, expiresAt := expires, token := token);
        (db.(records := db.records[id := reopened], nextToken := token + 1), Granted(token, id, true))
      else if LeaseExpired(r, db.now) then
        var reclaimed := r.(leaseUntil := lease, token := token, status := Processing);
        (db.(records := db.records[id := reclaimed], nextToken := token + 1), Granted(token, id, true))
      else
        (db, InProgress)
  }

  ghost function Renew(db: Db, slot: Slot, token: Token): (Db, bool) {
    match FindRecord(db.records, slot)
    case None => (db, false)
    case Some(id) =>
      var r := db.records[id];
      if r.status.Processing? && r.token == token then
        (db.(records := db.records[id := r.(leaseUntil := Some(db.now + LEASE_SECONDS))]), true)
      else
        (db, false)
  }

  ghost function Complete(db: Db, slot: Slot, responseStatus: int, reference: string,
                          token: Token): (Db, bool)
  {
    match FindRecord(db.records, slot)
    case None => (db, false)
    case Some(id) =>
      var r := db.records[id];
      if r.token != token || LeaseExpired(r, db.now) then
        (db, false)
      else
        (db.(records := db.records[id := Answer(r, responseStatus, reference)]), true)
  }

  /** The record once a response has been stored in it: it gives up its lease. */
  function Answer(r: IdemRecord, responseStatus: int, reference: string): IdemRecord {
    r.(status := if Succeeds(responseStatus) then RecordStatus.Completed else RecordStatus.Failed,
       responseStatus := Some(responseStatus), reference := Some(reference), leaseUntil := None)
  }

  function Expired(db: Db): set<RecordId> {
    set id | id in db.records && db.records[id].expiresAt < db.now && !db.records[id].status.Processing?
  }

  function Cleanup(db: Db): Db {
    Delete(db, Expired(db))
  }

  // ---------------------------------------------------------------- governance decisions

  function Decide(db: Db, tenant: Tenant, allowed: bool): (Db, DecisionId) {
    var d := Decision(tenant, allowed, None,
                      if allowed then None else Some(DecisionResult("denied", 403, None)));
    (db.(decisions := db.decisions[db.nextDecision := d], nextDecision := db.nextDecision + 1),
     db.nextDecision)
  }

  /** False stands for GovernanceAuditUnavailable. */
  function RecordResult(db: Db, id: DecisionId, result: DecisionResult): (Db, bool) {
    if id !in db.decisions || !db.decisions[id].allowed then (db, false)
    else if db.decisions[id].result.Some? then (db, true)
    else (db.(decisions := db.decisions[id := db.decisions[id].(result := Some(result))]), true)
  }

  predicate Bindable(db: Db, id: DecisionId, e: ExecutionId, tenant: Tenant) {
    && id in db.decisions
    && db.decisions[id].allowed
    && db.decisions[id].result.None?
    && db.decisions[id].tenant == tenant
    && (db.decisions[id].execution.None? || db.decisions[id].execution.value == e)
  }

  /** A null decision id binds nothing. */
  predicate BindOk(db: Db, id: Option<DecisionId>, e: ExecutionId, tenant: Tenant) {
    id.Some? ==> Bindable(db, id.value, e, tenant)
  }

  function Bind(db: Db, id: Option<DecisionId>, e: ExecutionId, tenant: Tenant): Db
    requires BindOk(db, id, e, tenant)
  {
    match id
    case None => db
    case Some(d) => db.(decisions := db.decisions[d := db.decisions[d].(execution := Some(e))])
  }

  predicate OpenFor(d: Decision, e: ExecutionId, organization: int) {
    d.execution == Some(e) && d.tenant.organization == organization && d.allowed && d.result.None?
  }

  // ---------------------------------------------------------------- chat executions

  /** Only the current holder of an unexpired lease on the execution's record passes. */
  predicate Owns(db: Db, x: Execution, token: Option<Token>) {
    && x.record.Some?
    && token.Some?
    && x.record.value in db.records
    && var r := db.records[x.record.value];
    && r.status.Processing?
    && r.token == token.value
    && !LeaseExpired(r, db.now)
  }

  predicate HasAssistant(messages: map<MessageId, Message>, e: ExecutionId, x: Execution) {
    && x.assistantMessage in messages
    && messages[x.assistantMessage].execution == e
    && messages[x.assistantMessage].role.Assistant?
  }

  predicate IsReservation(row: UsageRow, e: ExecutionId) {
    row.execution == e && row.source.Reserved?
  }

  /** Index of the reservation row of an execution. */
  function FindReservation(ledger: seq<UsageRow>, e: ExecutionId): (i: Option<nat>)
    ensures i.Some? ==> i.value < |ledger| && IsReservation(ledger[i.value], e)
    ensures i.None? ==> forall k | 0 <= k < |ledger| :: !IsReservation(ledger[k], e)
  {
    if ledger == [] then None
    else
      var last := |ledger| - 1;
      if IsReservation(ledger[last], e) then Some(last) else FindReservation(ledger[..last], e)
  }

  datatype PrepareRequest = PrepareRequest(
    execution: ExecutionId, scope: Scope, prompt: string, record: Option<RecordId>,
    estimatedTokens: int, recover: bool, token: Option<Token>, maxAttempts: nat,
    decision: Option<DecisionId>)

  datatype PrepareOutcome =
    | Persisted(userMessage: MessageId, assistantMessage: MessageId)
    | Conflict
    | RetryLimit
    | Unavailable

  /** The retry budget is spent: the execution fails for good. */
  function Exhaust(db: Db, e: ExecutionId): Db
    requires e in db.executions && db.executions[e].assistantMessage in db.messages
  {
    var x := db.executions[e];
    var reply := db.messages[x.assistantMessage];
    db.(executions := db.executions[e := x.(status := ExecStatus.Failed, lastFailure := Some(RetryExhausted),
                                            retryable := false, partial := reply.content != "")],
        messages := db.messages[x.assistantMessage := reply.(status := MessageStatus.Failed)])
  }

  function Prepare(db: Db, p: PrepareRequest): (Db, PrepareOutcome) {
    if p.execution in db.executions then Reprepare(db, p) else PrepareNew(db, p)
  }

  predicate InProgressStatus(s: ExecStatus) {
    s.Prepared? || s.Streaming?
  }

  function Reprepare(db: Db, p: PrepareRequest): (Db, PrepareOutcome)
    requires p.execution in db.executions
  {
    var x := db.executions[p.execution];
    if x.scope != p.scope || x.record != p.record then (db, Conflict)
    else if !p.recover then (db, Conflict)
    else if !Owns(db, x, p.token) then (db, Conflict)
    else if !HasAssistant(db.messages, p.execution, x) then (db, Conflict)
    else if x.attempts >= x.maxAttempts then (Exhaust(db, p.execution), RetryLimit)
    else if !InProgressStatus(x.status) && (x.status.Completed? || !x.retryable) then (db, Conflict)
    else if FindReservation(db.ledger, p.execution).None? then (db, Conflict)
    else if !BindOk(db, p.decision, p.execution, p.scope.tenant) then (db, Conflict)
    else (Reopen(db, p), Persisted(x.userMessage, x.assistantMessage))
  }

  /** The next attempt: same rows, one more attempt, a larger reservation. */
  function Reopen(db: Db, p: PrepareRequest): Db
    requires p.execution in db.executions && db.executions[p.execution].assistantMessage in db.messages
    requires FindReservation(db.ledger, p.execution).Some?
    requires BindOk(db, p.decision, p.execution, p.scope.tenant)
  {
    var x := db.executions[p.execution];
    var crashed := InProgressStatus(x.status);
    var reply := db.messages[x.assistantMessage];
    var i := FindReservation(db.ledger, p.execution).value;
    var row := db.ledger[i];
    Bind(db, p.decision, p.execution, p.scope.tenant).(
      executions := db.executions[p.execution := x.(
        status := Prepared, attempts := x.attempts + 1, partial := false,
        lastFailure := if crashed then Some(ProcessCrash) else x.lastFailure,
        retryable := crashed || x.retryable,
        auditRequired := x.auditRequired || p.decision.Some?)],
      messages := db.messages[x.assistantMessage := reply.(content := "", status := Pending)],
      ledger := db.ledger[i := row.(totalTokens := row.totalTokens + p.estimatedTokens)])
  }

  /** Foreign key and unique constraints of the new execution row. */
  predicate RecordAttachable(db: Db, p: PrepareRequest) {
    p.record.Some? ==>
      && p.record.value in db.records
      && db.records[p.record.value].slot.tenant == p.scope.tenant
      && forall e <- db.executions :: db.executions[e].record != p.record
  }

  function PrepareNew(db: Db, p: PrepareRequest): (Db, PrepareOutcome)
    requires p.execution !in db.executions
  {
    if !RecordAttachable(db, p) then (db, Unavailable)
    else if !BindOk(db, p.decision, p.execution, p.scope.tenant) then (db, Conflict)
    else
      var user, assistant := db.nextMessage, db.nextMessage + 1;
      var x := Execution(p.scope, p.record, user, assistant, Prepared, 1, p.maxAttempts, None,
                         false, false, p.decision.Some?);
      (Bind(db, p.decision, p.execution, p.scope.tenant).(
         executions := db.executions[p.execution := x],
         messages := db.messages[user := Message(p.execution, User, p.prompt, MessageStatus.Completed)]
                                [assistant := Message(p.execution, Assistant, "", Pending)],
         nextMessage := db.nextMessage + 2,
         ledger := db.ledger + [ReservationRow(p)]),
       Persisted(user, assistant))
  }

  function ReservationRow(p: PrepareRequest): UsageRow {
    UsageRow(p.execution, 1, Reservation, Reserved, p.scope.provider, p.scope.model, 0, 0, p.estimatedTokens)
  }

  datatype MarkOutcome = Marked(streaming: bool) | Missing

  function MarkStreaming(db: Db, e: ExecutionId): (Db, MarkOutcome) {
    if e !in db.executions then (db, Missing)
    else
      var x := db.executions[e];
      if IsTerminal(x.status) then (db, Marked(false))
      else if !HasAssistant(db.messages, e, x) then (db, Missing)
      else
        var reply := db.messages[x.assistantMessage];
        (db.(executions := db.executions[e := x.(status := ExecStatus.Streaming)],
             messages := db.messages[x.assistantMessage := reply.(status := MessageStatus.Streaming)]),
         Marked(true))
  }

  datatype RecoveryOutcome = MayRecover | MayNotRecover | Exhausted

  function AssertRecoveryAllowed(db: Db, e: ExecutionId, record: RecordId, token: Option<Token>)
    : (Db, RecoveryOutcome)
  {
    if e !in db.executions then (db, MayRecover)
    else
      var x := db.executions[e];
      if x.record != Some(record) then (db, MayNotRecover)
      else if !Owns(db, x, token) then (db, MayNotRecover)
      else if !HasAssistant(db.messages, e, x) then (db, MayNotRecover)
      else if x.attempts >= x.maxAttempts then
        var r := db.records[record];
        (Exhaust(db, e).(records := db.records[record :=
           Answer(r, PolicyOf(RetryExhausted).responseStatus, "failed")]), Exhausted)
      else if x.status.Completed? then (db, MayNotRecover)
      else if (x.status.Failed? || x.status.Cancelled?) && !x.retryable then (db, MayNotRecover)
      else (db, MayRecover)
  }

  datatype FinalizeRequest = FinalizeRequest(
    execution: ExecutionId, terminal: Terminal, content: string, responseStatus: int, reference: string,
    token: Option<Token>, code: Option<FailureCode>, accounting: seq<ExecutionCost>)

  datatype FinalizeOutcome = Finalized(applied: bool) | Lost | BadArgument

  /** The row one accounting entry adds to the ledger. */
  function CostRow(e: ExecutionId, attempt: nat, c: ExecutionCost): UsageRow {
    UsageRow(e, attempt, c.operation, c.source, c.provider, c.model,
             c.inputTokens, c.outputTokens, c.inputTokens + c.outputTokens)
  }

  predicate SameLedgerKey(a: UsageRow, b: UsageRow) {
    a.execution == b.execution && a.attempt == b.attempt && a.operation == b.operation && a.source == b.source
  }

  /** Distinct operations, and primary usage priced for the execution's own model. */
  predicate WellFormed(x: Execution, entries: seq<ExecutionCost>) {
    && (forall i, j | 0 <= i < j < |entries| :: entries[i].operation != entries[j].operation)
    && (forall i | 0 <= i < |entries| && entries[i].operation.Primary? ::
          entries[i].provider == x.scope.provider && entries[i].model == x.scope.model)
  }

  /** No row for the same execution, attempt, operation and source exists yet. */
  predicate NotRecorded(ledger: seq<UsageRow>, e: ExecutionId, attempt: nat, entries: seq<ExecutionCost>) {
    forall i, k | 0 <= i < |entries| && 0 <= k < |ledger| ::
      !SameLedgerKey(ledger[k], CostRow(e, attempt, entries[i]))
  }

  function CostRows(e: ExecutionId, attempt: nat, entries: seq<ExecutionCost>): seq<UsageRow> {
    seq(|entries|, i requires 0 <= i < |entries| => CostRow(e, attempt, entries[i]))
  }

  /** A keyless or detached execution is not fenced; an attached one needs its record's current lease. */
  predicate MayFinalize(db: Db, x: Execution, token: Option<Token>) {
    x.record.Some? ==> Owns(db, x, token)
  }

  function Finalize(db: Db, f: FinalizeRequest): (Db, FinalizeOutcome) {
    if f.execution !in db.executions then (db, Lost)
    else
      var x := db.executions[f.execution];
      if IsTerminal(x.status) then (db, Finalized(false))
      else if !f.terminal.ToCompleted? && f.code.None? then (db, BadArgument)
      else if !MayFinalize(db, x, f.token) then (db, Lost)
      else if !HasAssistant(db.messages, f.execution, x) then (db, Lost)
      else if x.auditRequired && !HasOpenDecision(db.decisions, f.execution, x) then (db, Lost)
      else if !WellFormed(x, f.accounting) then (db, Lost)
      else if !NotRecorded(db.ledger, f.execution, x.attempts, f.accounting) then (db, Lost)
      else (Close(db, f), Finalized(true))
  }

  predicate HasOpenDecision(decisions: map<DecisionId, Decision>, e: ExecutionId, x: Execution) {
    exists d <- decisions :: OpenFor(decisions[d], e, x.scope.tenant.organization)
  }

  function ResponseOf(f: FinalizeRequest): int {
    if f.code.Some? then PolicyOf(f.code.value).responseStatus else f.responseStatus
  }

  function CloseDecision(d: Decision, f: FinalizeRequest, organization: int): Decision {
    if OpenFor(d, f.execution, organization) then
      d.(result := Some(DecisionResult(TerminalName(f.terminal), ResponseOf(f), f.code)))
    else d
  }

  /** The one terminal transaction: execution, reply, record, decisions and cost rows together. */
  function Close(db: Db, f: FinalizeRequest): Db
    requires f.execution in db.executions
    requires db.executions[f.execution].assistantMessage in db.messages
    requires db.executions[f.execution].record.Some? ==> db.executions[f.execution].record.value in db.records
  {
    var x := db.executions[f.execution];
    var reply := db.messages[x.assistantMessage];
    db.(
      executions := db.executions[f.execution := x.(
        status := StatusAfter(f.terminal),
        partial := !f.terminal.ToCompleted? && f.content != "",
        lastFailure := if f.code.Some? then f.code else x.lastFailure,
        retryable := if f.code.Some? then PolicyOf(f.code.value).retryable else false)],
      messages := db.messages[x.assistantMessage :=
        reply.(status := Mirror(StatusAfter(f.terminal)), content := f.content)],
      records := if x.record.None? then db.records
                 else db.records[x.record.value := Answer(db.records[x.record.value], ResponseOf(f), f.reference)],
      decisions := map d | d in db.decisions ::
        CloseDecision(db.decisions[d], f, x.scope.tenant.organization),
      ledger := db.ledger + CostRows(f.execution, x.attempts, f.accounting))
  }
}
