/**
 The persistence contract and the idempotency service as they run: rows are selected, updated in
 place and rolled back. Every method is proved to be its transaction in ChatModel.
*/
module ChatStore {
  import opened Common
  import opened ChatModel
  import ChatProtocol

  /**
   begin_idempotency with its retries: after each attempt that deleted an expired record other clients
   act before the next one. Retry at the end stands for the 503 of the last attempt.
  */
  ghost function BeginAttempts(db: Db, slot: Slot, digest: string, others: seq<Db -> Db>): (Db, BeginOutcome)
    decreases |others|
  {
    var (next, outcome) := Begin(db, slot, digest);
    if outcome.Retry? && others != [] then BeginAttempts(others[0](next), slot, digest, others[1..])
    else (next, outcome)
  }

  ghost predicate KeepRecordsOk(others: seq<Db -> Db>) {
    forall k, db | 0 <= k < |others| && ChatProtocol.RecordsOk(db) :: ChatProtocol.RecordsOk(others[k](db))
  }

  /** Without interference one retry is always enough. */
  lemma RetryIsGranted(db: Db, slot: Slot, digest: string)
    requires ChatProtocol.RecordsOk(db)
    ensures Begin(db, slot, digest).1.Retry? ==>
              ChatProtocol.RecordsOk(Begin(db, slot, digest).0)
              && Begin(Begin(db, slot, digest).0, slot, digest).1 == Granted(db.nextToken, db.nextRecord, false)
  {
  }

  /** Begin gives up only if the other clients have changed the database between all of its attempts. */
  lemma BeginGivesUpOnlyUnderInterference(db: Db, slot: Slot, digest: string, others: seq<Db -> Db>)
    requires ChatProtocol.RecordsOk(db) && KeepRecordsOk(others) && others != []
    requires BeginAttempts(db, slot, digest, others).1.Retry?
    ensures var next := Begin(db, slot, digest).0;
      && Begin(db, slot, digest).1.Retry?
      && others[0](next) != next
      && BeginAttempts(others[0](next), slot, digest, others[1..]).1.Retry?
  {
    RetryIsGranted(db, slot, digest);
  }

  class Database {
    var now: int
    var records: map<RecordId, IdemRecord>
    var executions: map<ExecutionId, Execution>
    var messages: map<MessageId, Message>
    var ledger: seq<UsageRow>
    var decisions: map<DecisionId, Decision>
    var nextRecord: RecordId
    var nextToken: Token
    var nextMessage: MessageId
    var nextDecision: DecisionId

    function State(): Db
      reads this
    {
      Db(now, records, executions, messages, ledger, decisions, nextRecord, nextToken, nextMessage, nextDecision)
    }

    ghost predicate Valid()
      reads this
    {
      ChatProtocol.RecordsOk(State())
    }

    constructor (now: int)
      ensures State() == ChatProtocol.Init(now).db && Valid()
    {
      this.now := now;
      records, executions, messages, ledger, decisions := map[], map[], map[], [], map[];
      nextRecord, nextToken, nextMessage, nextDecision := 0, 0, 0, 0;
    }

    method Rollback(snapshot: Db)
      modifies this
      ensures State() == snapshot
    {
      now, records, executions, messages := snapshot.now, snapshot.records, snapshot.executions, snapshot.messages;
      ledger, decisions := snapshot.ledger, snapshot.decisions;
      nextRecord, nextToken := snapshot.nextRecord, snapshot.nextToken;
      nextMessage, nextDecision := snapshot.nextMessage, snapshot.nextDecision;
    }

    // -------------------------------------------------------------- idempotency service

    method SelectRecord(slot: Slot) returns (found: Option<RecordId>)
      requires Valid()
      ensures found == FindRecord(records, slot)
    {
      var ids := records.Keys;
      while ids != {}
        invariant ids <= records.Keys
        invariant forall id <- records :: id !in ids ==> records[id].slot != slot
      {
        var id :| id in ids;
        if records[id].slot == slot {
          return Some(id);
        }
        ids := ids - {id};
      }
      return None;
    }

    /** ON DELETE SET NULL for one deleted record. */
    method DeleteRecord(id: RecordId)
      modifies this`records, this`executions
      ensures State() == Delete(old(State()), {id})
    {
      records := records - {id};
      var pending := executions.Keys;
      while pending != {}
        invariant records == old(records) - {id}
        invariant pending <= executions.Keys == old(executions.Keys)
        invariant forall e <- executions ::
          executions[e] == if e in pending then old(executions)[e] else Detached(old(executions)[e], {id})
      {
        var e :| e in pending;
        if executions[e].record == Some(id) {
          executions := executions[e := executions[e].(record := None)];
        }
        pending := pending - {e};
      }
      assert executions == Delete(old(State()), {id}).executions;
    }

    /** One attempt, up to its commit; Retry means an expired record was deleted. */
    method BeginOnce(slot: Slot, digest: string) returns (outcome: BeginOutcome)
      requires Valid()
      modifies this
      ensures (State(), outcome) == Begin(old(State()), slot, digest)
      ensures Valid()
    {
      var token, lease, expires := nextToken, Some(now + LEASE_SECONDS), now + DEFAULT_TTL_SECONDS;
      var existing := SelectRecord(slot);
      if existing.None? {
        var id := nextRecord;
        assert forall k <- records :: ChatProtocol.RecordOk(State(), k);
        records := records[id := IdemRecord(slot, digest, Processing, None, None, expires, lease, token)];
        nextRecord, nextToken := id + 1, token + 1;
        return Granted(token, id, false);
      }
      var id := existing.value;
      var record := records[id];
      assert ChatProtocol.RecordOk(State(), id);
      if record.status.Completed? && record.expiresAt < now {
        DeleteRecord(id);
        return Retry;
      }
      if record.digest != digest {
        return KeyReused;
      }
      if record.status.Completed? && record.reference.Some? && |record.reference.value| > 0 {
        return Replay(id);
      }
      if record.status.Failed? {
        Regrant(id, record.(status := Processing, responseStatus := None, reference := None,
                            leaseUntil := lease, expiresAt := expires, token := token));
        return Granted(token, id, true);
      }
      if LeaseExpired(record, now) {
        Regrant(id, record.(leaseUntil := lease, token := token, status := Processing));
        return Granted(token, id, true);
      }
      return InProgress;
    }

    /** Writes a record back under a fresh token. */
    method Regrant(id: RecordId, record: IdemRecord)
      requires Valid() && id in records && record.slot == records[id].slot
      requires record.status.Processing? && record.leaseUntil.Some? && record.token == nextToken
      modifies this`records, this`nextToken
      ensures State() == old(State()).(records := old(records)[id := record], nextToken := old(nextToken) + 1)
      ensures Valid()
    {
      records := records[id := record];
      nextToken := nextToken + 1;
    }

    /** What other clients do in between. */
    method Interfere(other: Db -> Db)
      modifies this
      ensures State() == other(old(State()))
    {
      Rollback(other(State()));
    }

    /** Up to three attempts; `others` acts after the first and after the second. */
    method BeginIdempotency(slot: Slot, digest: string, others: seq<Db -> Db>) returns (outcome: BeginOutcome)
      requires Valid() && |others| == 2 && KeepRecordsOk(others)
      modifies this
      ensures (State(), outcome) == BeginAttempts(old(State()), slot, digest, others)
      ensures Valid()
    {
      outcome := BeginOnce(slot, digest);
      var attempts := 0;
      while outcome.Retry? && attempts < 2
        invariant Valid() && 0 <= attempts <= 2
        invariant BeginAttempts(old(State()), slot, digest, others) ==
                    if outcome.Retry? && attempts < 2
                    then BeginAttempts(others[attempts](State()), slot, digest, others[attempts + 1..])
                    else (State(), outcome)
      {
        assert attempts < 1 ==> others[attempts + 1..][0] == others[attempts + 1]
                                && others[attempts + 1..][1..] == others[attempts + 2..];
        Interfere(others[attempts]);
        attempts := attempts + 1;
        outcome := BeginOnce(slot, digest);
      }
    }

    method RenewLease(slot: Slot, token: Token) returns (renewed: bool)
      requires Valid()
      modifies this`records
      ensures (State(), renewed) == Renew(old(State()), slot, token)
      ensures Valid()
    {
      var found := SelectRecord(slot);
      if found.None? || !records[found.value].status.Processing? || records[found.value].token != token {
        return false;
      }
      records := records[found.value := records[found.value].(leaseUntil := Some(now + LEASE_SECONDS))];
      return true;
    }

    method CompleteIdempotency(slot: Slot, responseStatus: int, reference: string, token: Token)
      returns (completed: bool)
      requires Valid()
      modifies this`records
      ensures (State(), completed) == Complete(old(State()), slot, responseStatus, reference, token)
      ensures Valid()
    {
      var found := SelectRecord(slot);
      if found.None? {
        return false;
      }
      var record := records[found.value];
      if record.token != token || LeaseExpired(record, now) {
        return false;
      }
      records := records[found.value := Answer(record, responseStatus, reference)];
      return true;
    }

    // -------------------------------------------------------------- chat persistence

    method BindGovernanceDecision(id: Option<DecisionId>, e: ExecutionId, tenant: Tenant) returns (bound: bool)
      modifies this`decisions
      ensures bound == BindOk(old(State()), id, e, tenant)
      ensures State() == if bound then Bind(old(State()), id, e, tenant) else old(State())
    {
      if id.None? {
        return true;
      }
      if id.value !in decisions {
        return false;
      }
      var decision := decisions[id.value];
      if !decision.allowed || decision.result.Some? || decision.tenant != tenant
         || (decision.execution.Some? && decision.execution.value != e) {
        return false;
      }
      decisions := decisions[id.value := decision.(execution := Some(e))];
      return true;
    }

    method PrepareExchange(p: PrepareRequest) returns (outcome: PrepareOutcome)
      modifies this
      ensures (State(), outcome) == Prepare(old(State()), p)
    {
      if p.execution !in executions {
        outcome := InsertExchange(p);
        return;
      }
      var snapshot := State();
      var existing := executions[p.execution];
      if existing.scope != p.scope || existing.record != p.record || !p.recover {
        return Conflict;
      }
      if !Owns(State(), existing, p.token) || !HasAssistant(messages, p.execution, existing) {
        return Conflict;
      }
      var assistant := messages[existing.assistantMessage];
      if existing.attempts >= existing.maxAttempts {
        MarkExhausted(p.execution);
        return RetryLimit;
      }
      if InProgressStatus(existing.status) {
        existing := existing.(lastFailure := Some(ProcessCrash), retryable := true);
      } else if !existing.status.Failed? && !existing.status.Cancelled? {
        return Conflict;
      } else if !existing.retryable {
        return Conflict;
      }
      messages := messages[existing.assistantMessage := assistant.(content := "", status := Pending)];
      existing := existing.(status := Prepared, attempts := existing.attempts + 1, partial := false);
      var usage := FindReservation(ledger, p.execution);
      if usage.None? {
        Rollback(snapshot);
        return Conflict;
      }
      var row := ledger[usage.value];
      ledger := ledger[usage.value := row.(totalTokens := row.totalTokens + p.estimatedTokens)];
      var bound := BindGovernanceDecision(p.decision, p.execution, p.scope.tenant);
      if !bound {
        Rollback(snapshot);
        return Conflict;
      }
      if p.decision.Some? {
        existing := existing.(auditRequired := true);
      }
      executions := executions[p.execution := existing];
      return Persisted(existing.userMessage, existing.assistantMessage);
    }

    method MarkExhausted(e: ExecutionId)
      requires e in executions && executions[e].assistantMessage in messages
      modifies this`executions, this`messages
      ensures State() == Exhaust(old(State()), e)
    {
      var execution := executions[e];
      var assistant := messages[execution.assistantMessage];
      execution := execution.(status := ExecStatus.Failed, lastFailure := Some(RetryExhausted));
      execution := execution.(retryable := false, partial := assistant.content != "");
      messages := messages[execution.assistantMessage := assistant.(status := MessageStatus.Failed)];
      executions := executions[e := execution];
    }

    method InsertExchange(p: PrepareRequest) returns (outcome: PrepareOutcome)
      requires p.execution !in executions
      modifies this
      ensures (State(), outcome) == PrepareNew(old(State()), p)
    {
      if !RecordAttachable(State(), p) {
        return Unavailable;
      }
      var snapshot := State();
      var user, assistant := nextMessage, nextMessage + 1;
      executions := executions[p.execution :=
        Execution(p.scope, p.record, user, assistant, Prepared, 1, p.maxAttempts, None, false, false,
                  p.decision.Some?)];
      messages := messages[user := Message(p.execution, User, p.prompt, MessageStatus.Completed)];
      messages := messages[assistant := Message(p.execution, Assistant, "", Pending)];
      nextMessage := nextMessage + 2;
      var bound := BindGovernanceDecision(p.decision, p.execution, p.scope.tenant);
      if !bound {
        Rollback(snapshot);
        return Conflict;
      }
      ledger := ledger + [ReservationRow(p)];
      return Persisted(user, assistant);
    }

    method MarkAsStreaming(e: ExecutionId) returns (outcome: MarkOutcome)
      modifies this`executions, this`messages
      ensures (State(), outcome) == MarkStreaming(old(State()), e)
    {
      if e !in executions {
        return Missing;
      }
      var execution := executions[e];
      if IsTerminal(execution.status) {
        return Marked(false);
      }
      if !HasAssistant(messages, e, execution) {
        return Missing;
      }
      executions := executions[e := execution.(status := ExecStatus.Streaming)];
      messages := messages[execution.assistantMessage :=
        messages[execution.assistantMessage].(status := MessageStatus.Streaming)];
      return Marked(true);
    }

    method AssertRecovery(e: ExecutionId, record: RecordId, token: Option<Token>) returns (outcome: RecoveryOutcome)
      modifies this`executions, this`messages, this`records
      ensures (State(), outcome) == AssertRecoveryAllowed(old(State()), e, record, token)
    {
      if e !in executions {
        return MayRecover;
      }
      var execution := executions[e];
      if execution.record != Some(record) || !Owns(State(), execution, token)
         || !HasAssistant(messages, e, execution) {
        return MayNotRecover;
      }
      if execution.attempts >= execution.maxAttempts {
        MarkExhausted(e);
        records := records[record := Answer(records[record], PolicyOf(RetryExhausted).responseStatus, "failed")];
        return Exhausted;
      }
      if execution.status.Completed? {
        return MayNotRecover;
      }
      if (execution.status.Failed? || execution.status.Cancelled?) && !execution.retryable {
        return MayNotRecover;
      }
      return MayRecover;
    }

    /** Gives every open decision of the execution its result; says whether there was one. */
    method CloseDecisions(f: FinalizeRequest, organization: int) returns (found: bool)
      modifies this`decisions
      ensures found <==> exists d <- old(decisions) :: OpenFor(old(decisions)[d], f.execution, organization)
      ensures decisions == map d | d in old(decisions) :: CloseDecision(old(decisions)[d], f, organization)
    {
      found := false;
      var pending := decisions.Keys;
      while pending != {}
        invariant pending <= decisions.Keys == old(decisions.Keys)
        invariant forall d <- decisions ::
          (d in pending ==> decisions[d] == old(decisions)[d])
          && (d !in pending ==> decisions[d] == CloseDecision(old(decisions)[d], f, organization))
        invariant found <==> exists d <- old(decisions) ::
          d !in pending && OpenFor(old(decisions)[d], f.execution, organization)
      {
        var d :| d in pending;
        if OpenFor(decisions[d], f.execution, organization) {
          found := true;
          decisions := decisions[d := decisions[d].(
            result := Some(DecisionResult(TerminalName(f.terminal), ResponseOf(f), f.code)))];
        }
        pending := pending - {d};
      }
    }

    /** Adds the row of one entry unless its operation repeats, is mispriced or is already recorded. */
    method RecordEntry(e: ExecutionId, x: Execution, entry: ExecutionCost, operations: set<Operation>)
      returns (recorded: bool)
      modifies this`ledger
      ensures recorded <==>
                && entry.operation !in operations
                && WellFormed(x, [entry]) && NotRecorded(old(ledger), e, x.attempts, [entry])
      ensures recorded ==> ledger == old(ledger) + [CostRow(e, x.attempts, entry)]
    {
      assert [entry][0] == entry;
      if entry.operation in operations {
        return false;
      }
      if entry.operation.Primary? && (entry.provider != x.scope.provider || entry.model != x.scope.model) {
        return false;
      }
      var row := CostRow(e, x.attempts, entry);
      if exists k | 0 <= k < |ledger| :: SameLedgerKey(ledger[k], row) {
        return false;
      }
      ledger := ledger + [row];
      return true;
    }

    /** Adds one row per entry; false leaves an unfinished ledger for the caller to roll back. */
    method RecordAccounting(e: ExecutionId, x: Execution, entries: seq<ExecutionCost>) returns (recorded: bool)
      modifies this`ledger
      ensures recorded <==> WellFormed(x, entries) && NotRecorded(old(ledger), e, x.attempts, entries)
      ensures recorded ==> ledger == old(ledger) + CostRows(e, x.attempts, entries)
    {
      var operations := {};
      var i := 0;
      while i < |entries|
        invariant 0 <= i <= |entries|
        invariant operations == set j | 0 <= j < i :: entries[j].operation
        invariant WellFormed(x, entries[..i]) && NotRecorded(old(ledger), e, x.attempts, entries[..i])
        invariant ledger == old(ledger) + CostRows(e, x.attempts, entries[..i])
      {
        NextEntry(x, old(ledger), e, entries, i, operations);
        recorded := RecordEntry(e, x, entries[i], operations);
        if !recorded {
          NoWorse(x, old(ledger), e, entries, i + 1);
          return;
        }
        operations := operations + {entries[i].operation};
        i := i + 1;
      }
      assert entries[..|entries|] == entries;
      return true;
    }

    /** Execution, reply and record in their terminal form. */
    method WriteTerminal(f: FinalizeRequest)
      requires f.execution in executions && executions[f.execution].assistantMessage in messages
      requires executions[f.execution].record.Some? ==> executions[f.execution].record.value in records
      modifies this`executions, this`messages, this`records
      ensures var done := Close(old(State()), f);
        executions == done.executions && messages == done.messages && records == done.records
    {
      var execution := executions[f.execution];
      var responseStatus := f.responseStatus;
      execution := execution.(status := StatusAfter(f.terminal),
                              partial := !f.terminal.ToCompleted? && f.content != "",
                              retryable := false);
      if f.code.Some? {
        var policy := PolicyOf(f.code.value);
        execution := execution.(lastFailure := f.code, retryable := policy.retryable);
        responseStatus := policy.responseStatus;
      }
      executions := executions[f.execution := execution];
      messages := messages[execution.assistantMessage :=
        messages[execution.assistantMessage].(status := Mirror(execution.status), content := f.content)];
      if execution.record.Some? {
        var id := execution.record.value;
        records := records[id := Answer(records[id], responseStatus, f.reference)];
      }
    }

    method FinalizeExecution(f: FinalizeRequest) returns (outcome: FinalizeOutcome)
      modifies this
      ensures (State(), outcome) == Finalize(old(State()), f)
    {
      if f.execution !in executions {
        return Lost;
      }
      var snapshot := State();
      var execution := executions[f.execution];
      if IsTerminal(execution.status) {
        return Finalized(false);
      }
      if !f.terminal.ToCompleted? && f.code.None? {
        return BadArgument;
      }
      if execution.record.Some? {
        var id := execution.record.value;
        if id !in records || !records[id].status.Processing? || Some(records[id].token) != f.token {
          return Lost;
        }
        if LeaseExpired(records[id], now) {
          return Lost;
        }
      }
      if !HasAssistant(messages, f.execution, execution) {
        return Lost;
      }
      WriteTerminal(f);
      var found := CloseDecisions(f, execution.scope.tenant.organization);
      if execution.auditRequired && !found {
        Rollback(snapshot);
        return Lost;
      }
      var recorded := RecordAccounting(f.execution, execution, f.accounting);
      if !recorded {
        Rollback(snapshot);
        return Lost;
      }
      assert State() == Close(snapshot, f);
      assert HasOpenDecision(snapshot.decisions, f.execution, execution) <==> found;
      return Finalized(true);
    }
  }

  /** The first i + 1 entries are acceptable if the first i are and the next one is, after them. */
  lemma NextEntry(x: Execution, ledger: seq<UsageRow>, e: ExecutionId, entries: seq<ExecutionCost>, i: nat,
                  operations: set<Operation>)
    requires i < |entries| && operations == set j | 0 <= j < i :: entries[j].operation
    requires WellFormed(x, entries[..i]) && NotRecorded(ledger, e, x.attempts, entries[..i])
    ensures
      var written := ledger + CostRows(e, x.attempts, entries[..i]);
      (entries[i].operation !in operations && WellFormed(x, [entries[i]])
       && NotRecorded(written, e, x.attempts, [entries[i]]))
      <==> (WellFormed(x, entries[..i + 1]) && NotRecorded(ledger, e, x.attempts, entries[..i + 1]))
    ensures CostRows(e, x.attempts, entries[..i + 1]) ==
              CostRows(e, x.attempts, entries[..i]) + [CostRow(e, x.attempts, entries[i])]
  {
    var before, after, entry := entries[..i], entries[..i + 1], entries[i];
    var written := ledger + CostRows(e, x.attempts, before);
    assert [entry][0] == entry && after[i] == entry;
    assert forall j | 0 <= j < i :: after[j] == before[j] == entries[j];
    if entry.operation !in operations && WellFormed(x, [entry]) && NotRecorded(written, e, x.attempts, [entry]) {
      forall a, k | 0 <= a < |after| && 0 <= k < |ledger|
        ensures !SameLedgerKey(ledger[k], CostRow(e, x.attempts, after[a]))
      {
        assert written[k] == ledger[k];
        assert a < i ==> !SameLedgerKey(ledger[k], CostRow(e, x.attempts, before[a]));
        assert a == i ==> !SameLedgerKey(written[k], CostRow(e, x.attempts, [entry][0]));
      }
    }
    if WellFormed(x, after) && NotRecorded(ledger, e, x.attempts, after) {
      forall k | 0 <= k < |written| ensures !SameLedgerKey(written[k], CostRow(e, x.attempts, entry)) {
        if k < |ledger| {
          assert !SameLedgerKey(ledger[k], CostRow(e, x.attempts, after[i]));
        } else {
          assert written[k] == CostRow(e, x.attempts, before[k - |ledger|]);
          assert after[k - |ledger|].operation != after[i].operation;
        }
      }
    }
  }

  /** A rejected prefix rejects the whole. */
  lemma NoWorse(x: Execution, ledger: seq<UsageRow>, e: ExecutionId, entries: seq<ExecutionCost>, i: nat)
    requires i <= |entries|
    ensures WellFormed(x, entries) && NotRecorded(ledger, e, x.attempts, entries) ==>
              WellFormed(x, entries[..i]) && NotRecorded(ledger, e, x.attempts, entries[..i])
  {
    assert forall j | 0 <= j < i :: entries[..i][j] == entries[j];
  }
}
