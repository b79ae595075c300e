/** What preparing, recovering, finalizing and deciding answer and write, field by field. */
module ChatWrites {
  import opened Common
  import opened ChatModel
  import opened ChatProtocol
  import opened ChatTheorems
  import ChatAnswers
  import ChatLimits

  // ---------------------------------------------------------------- preparing

  /** The decision is an open, allowed one of the tenant that no other execution is bound to. */
  predicate Usable(db: Db, d: DecisionId, e: ExecutionId, tenant: Tenant) {
    d in db.decisions && db.decisions[d].allowed && db.decisions[d].result == None && db.decisions[d].tenant == tenant
    && (db.decisions[d].execution == None || db.decisions[d].execution == Some(e))
  }

  /** A first prepare commits exactly when its record, if any, is free and its tenant's, and its decision is usable. */
  lemma FirstPrepareCommits(db: Db, p: PrepareRequest)
    requires p.execution !in db.executions
    ensures Prepare(db, p).1.Persisted? <==>
              && (p.record.Some? ==>
                    && p.record.value in db.records && db.records[p.record.value].slot.tenant == p.scope.tenant
                    && forall e <- db.executions :: db.executions[e].record != p.record)
              && (p.decision.Some? ==> Usable(db, p.decision.value, p.execution, p.scope.tenant))
    ensures !Prepare(db, p).1.Persisted? ==> Prepare(db, p).0 == db
  {
  }

  /** What a first prepare writes: the prompt and an empty reply, a first attempt, its reservation, its decision. */
  lemma FirstPrepareWrites(w: World, p: PrepareRequest)
    requires Reachable(w) && p.execution !in w.db.executions && Prepare(w.db, p).1.Persisted?
    ensures var (after, outcome) := Prepare(w.db, p);
      var user, reply := outcome.userMessage, outcome.assistantMessage;
      && user != reply && user !in w.db.messages && reply !in w.db.messages
      && after.messages == w.db.messages[user := Message(p.execution, User, p.prompt, MessageStatus.Completed)]
                                        [reply := Message(p.execution, Assistant, "", Pending)]
      && p.execution in after.executions
      && var x := after.executions[p.execution];
      && x.scope == p.scope && x.record == p.record && x.userMessage == user && x.assistantMessage == reply
      && x.status == Prepared && x.attempts == 1 && x.maxAttempts == p.maxAttempts && x.lastFailure == None
      && !x.retryable && !x.partial && (x.auditRequired <==> p.decision.Some?)
      && after.executions == w.db.executions[p.execution := x]
      && |after.ledger| == |w.db.ledger| + 1 && after.ledger[..|w.db.ledger|] == w.db.ledger
      && var row := after.ledger[|w.db.ledger|];
      && row.execution == p.execution && row.totalTokens == p.estimatedTokens && row.operation == Reservation
      && row.provider == p.scope.provider && row.model == p.scope.model
      && after.decisions.Keys == w.db.decisions.Keys
      && (forall d <- w.db.decisions ::
            after.decisions[d] == if p.decision == Some(d) then w.db.decisions[d].(execution := Some(p.execution))
                                  else w.db.decisions[d])
      && after.records == w.db.records
  {
    ReachableInv(w);
  }

  /** What a repeated prepare writes: the same rows, one more attempt, an empty pending reply. */
  lemma RepeatedPrepareWrites(db: Db, p: PrepareRequest)
    requires p.execution in db.executions && Prepare(db, p).1.Persisted?
    ensures var (after, outcome) := Prepare(db, p);
      var x := db.executions[p.execution];
      && outcome == Persisted(x.userMessage, x.assistantMessage)
      && after.executions.Keys == db.executions.Keys
      && var y := after.executions[p.execution];
      && y.status == Prepared && y.attempts == x.attempts + 1 && !y.partial
      && y.lastFailure == (if x.status == Prepared || x.status == ExecStatus.Streaming then Some(ProcessCrash)
                           else x.lastFailure)
      && y.record == x.record && y.scope == x.scope && y.maxAttempts == x.maxAttempts
      && (y.retryable <==> x.status == Prepared || x.status == ExecStatus.Streaming || x.retryable)
      && (y.auditRequired <==> x.auditRequired || p.decision.Some?)
      && after.messages.Keys == db.messages.Keys
      && after.messages[x.assistantMessage].content == "" && after.messages[x.assistantMessage].status == Pending
      && (forall m <- db.messages :: m != x.assistantMessage ==> after.messages[m] == db.messages[m])
      && after.records == db.records
  {
  }

  /** A repeated prepare is told that attempts are exhausted exactly when the owner asks and none is left. */
  lemma ExhaustionIsTold(w: World, p: PrepareRequest)
    requires Reachable(w) && p.execution in w.db.executions
    ensures var x := w.db.executions[p.execution];
      Prepare(w.db, p).1.RetryLimit? <==>
        p.recover && x.scope == p.scope && x.record == p.record && Owns(w.db, x, p.token) && x.attempts == x.maxAttempts
    ensures Prepare(w.db, p).1 == Conflict ==> Prepare(w.db, p).0 == w.db
  {
    ReachableInv(w);
    assert MessagesOk(w.db.messages, p.execution, w.db.executions[p.execution]);
  }

  // ---------------------------------------------------------------- recovering

  /** The recovery check lets exactly new executions and owners with attempts and a retryable state through. */
  lemma RecoveryIsDecided(w: World, e: ExecutionId, record: RecordId, token: Option<Token>)
    requires Reachable(w)
    ensures var (after, outcome) := AssertRecoveryAllowed(w.db, e, record, token);
      if e !in w.db.executions then outcome == MayRecover && after == w.db
      else
        var x := w.db.executions[e];
        var owner := x.record == Some(record) && Owns(w.db, x, token);
        && (outcome == MayRecover <==>
              owner && x.attempts < x.maxAttempts && (InProgressStatus(x.status) || x.retryable))
        && (outcome == Exhausted <==> owner && x.attempts == x.maxAttempts)
        && (outcome != Exhausted ==> after == w.db)
  {
    ReachableInv(w);
    if e in w.db.executions {
      var x := w.db.executions[e];
      assert MessagesOk(w.db.messages, e, x);
      if Owns(w.db, x, token) {
        OwnedIsNotCompleted(w, e, token);
      }
    }
  }

  /** The exhausted branch fails execution, reply and record for good. */
  lemma ExhaustedRecoveryWrites(w: World, e: ExecutionId, record: RecordId, token: Option<Token>)
    requires Reachable(w) && AssertRecoveryAllowed(w.db, e, record, token).1 == Exhausted
    ensures var after := AssertRecoveryAllowed(w.db, e, record, token).0;
      && e in after.executions && after.executions[e].status == ExecStatus.Failed
      && after.executions[e].lastFailure == Some(RetryExhausted) && !after.executions[e].retryable
      && record in after.records && after.records[record].status == RecordStatus.Failed
      && after.records[record].responseStatus == Some(409) && after.records[record].reference == Some("failed")
      && after.records[record].leaseUntil == None
      && after.ledger == w.db.ledger && after.decisions == w.db.decisions
  {
  }

  // ---------------------------------------------------------------- finalizing

  /** False exactly for a terminal execution, and refused for want of a code only on an unfinished failure. */
  lemma FinalizeRefuses(db: Db, f: FinalizeRequest)
    ensures Finalize(db, f).1 == Finalized(false) <==>
              f.execution in db.executions && db.executions[f.execution].status in
                {ExecStatus.Completed, ExecStatus.Failed, ExecStatus.Cancelled}
    ensures Finalize(db, f).1 == BadArgument <==>
              f.execution in db.executions && InProgressStatus(db.executions[f.execution].status)
              && f.terminal != ToCompleted && f.code == None
    ensures Finalize(db, f).1 != Finalized(true) ==> Finalize(db, f).0 == db
  {
  }

  /** The token holds an unexpired lease on the record of the execution. */
  predicate HoldsRecord(db: Db, x: Execution, token: Option<Token>) {
    && x.record.Some? && token.Some? && x.record.value in db.records
    && var r := db.records[x.record.value];
    && r.status == RecordStatus.Processing && r.token == token.value
    && (r.leaseUntil.Some? ==> db.now <= r.leaseUntil.value)
  }

  /**
   A finalization is applied exactly when the execution is unfinished and its reply there, a failure names its
   code, the lease on the record is held, a required audit has its open decision, and the accounting is in order:
   one entry per operation, primary usage at the execution's own provider and model, and none of it booked.
  */
  lemma FinalizeIsDecided(db: Db, f: FinalizeRequest)
    ensures Finalize(db, f).1 == Finalized(true) <==>
              && f.execution in db.executions
              && var x := db.executions[f.execution];
              && (x.status == Prepared || x.status == ExecStatus.Streaming)
              && (f.terminal == ToCompleted || f.code.Some?)
              && (x.record.Some? ==> HoldsRecord(db, x, f.token))
              && x.assistantMessage in db.messages && db.messages[x.assistantMessage].execution == f.execution
              && db.messages[x.assistantMessage].role == Assistant
              && (x.auditRequired ==>
                    exists d <- db.decisions ::
                      && db.decisions[d].execution == Some(f.execution) && db.decisions[d].allowed
                      && db.decisions[d].tenant.organization == x.scope.tenant.organization
                      && db.decisions[d].result == None)
              && (forall i, j | 0 <= i < j < |f.accounting| :: f.accounting[i].operation != f.accounting[j].operation)
              && (forall i | 0 <= i < |f.accounting| && f.accounting[i].operation == Primary ::
                    f.accounting[i].provider == x.scope.provider && f.accounting[i].model == x.scope.model)
              && (forall i, k | 0 <= i < |f.accounting| && 0 <= k < |db.ledger| ::
                    db.ledger[k].execution != f.execution || db.ledger[k].attempt != x.attempts ||
                    db.ledger[k].operation != f.accounting[i].operation ||
                    db.ledger[k].source != f.accounting[i].source)
  {
    if f.execution in db.executions {
      var x := db.executions[f.execution];
      assert NotRecorded(db.ledger, f.execution, x.attempts, f.accounting) <==>
               forall i, k | 0 <= i < |f.accounting| && 0 <= k < |db.ledger| ::
                 !SameLedgerKey(db.ledger[k], CostRow(f.execution, x.attempts, f.accounting[i]));
      assert HasOpenDecision(db.decisions, f.execution, x) <==>
               exists d <- db.decisions :: OpenFor(db.decisions[d], f.execution, x.scope.tenant.organization);
    }
  }

  /** The answer the record stores: the failure code's status if there is a code, else the caller's. */
  function StoredStatus(f: FinalizeRequest): int {
    match f.code
    case Some(code) => PolicyOf(code).responseStatus
    case None => f.responseStatus
  }

  /** What a finalization writes to execution, reply and record; everything else of other executions stays. */
  lemma FinalizeWrites(w: World, f: FinalizeRequest)
    requires Reachable(w) && Finalize(w.db, f).1 == Finalized(true)
    ensures var after := Finalize(w.db, f).0;
      var x := w.db.executions[f.execution];
      && after.executions.Keys == w.db.executions.Keys && after.messages.Keys == w.db.messages.Keys
      && var y := after.executions[f.execution];
      && (y.status == ExecStatus.Completed <==> f.terminal == ToCompleted)
      && (y.status == ExecStatus.Failed <==> f.terminal == ToFailed)
      && (y.status == ExecStatus.Cancelled <==> f.terminal == ToCancelled)
      && (f.code.Some? ==> y.lastFailure == f.code && y.retryable == PolicyOf(f.code.value).retryable)
      && (f.code.None? ==> y.lastFailure == x.lastFailure && !y.retryable)
      && (y.partial <==> f.terminal != ToCompleted && f.content != "")
      && y.attempts == x.attempts && y.auditRequired == x.auditRequired && y.record == x.record
      && x.assistantMessage in after.messages && after.messages[x.assistantMessage].content == f.content
      && (forall e <- w.db.executions :: e != f.execution ==> after.executions[e] == w.db.executions[e])
      && (forall m <- w.db.messages :: m != x.assistantMessage ==> after.messages[m] == w.db.messages[m])
  {
    ReachableInv(w);
    assert MessagesOk(w.db.messages, f.execution, w.db.executions[f.execution]);
  }

  /** The result a finalization gives to every open, allowed decision bound to its execution; no other changes. */
  lemma FinalizeResultsDecisions(w: World, f: FinalizeRequest, d: DecisionId)
    requires Reachable(w) && Finalize(w.db, f).1 == Finalized(true) && d in w.db.decisions
    ensures var after := Finalize(w.db, f).0;
      var before := w.db.decisions[d];
      && after.decisions.Keys == w.db.decisions.Keys
      && if before.execution == Some(f.execution) && before.result == None then
           var name := if f.terminal == ToCompleted then "completed" else if f.terminal == ToFailed then "failed"
                       else "cancelled";
           after.decisions[d] == before.(result := Some(DecisionResult(name, StoredStatus(f), f.code)))
         else after.decisions[d] == before
  {
    EveryExecutionIsAudited(w);
  }

  lemma FinalizeAnswersRecord(w: World, f: FinalizeRequest)
    requires Reachable(w) && Finalize(w.db, f).1 == Finalized(true)
    requires w.db.executions[f.execution].record.Some?
    ensures var id := w.db.executions[f.execution].record.value;
      var after := Finalize(w.db, f).0;
      && id in w.db.records && after.records.Keys == w.db.records.Keys
      && var r := after.records[id];
      && r.responseStatus == Some(StoredStatus(f)) && r.reference == Some(f.reference) && r.leaseUntil == None
      && (r.status == RecordStatus.Completed <==> 200 <= StoredStatus(f) < 300)
      && (r.status == RecordStatus.Failed <==> !(200 <= StoredStatus(f) < 300))
      && r.slot == w.db.records[id].slot && r.digest == w.db.records[id].digest
      && (forall k <- w.db.records :: k != id ==> after.records[k] == w.db.records[k])
  {
  }

  /**
   A failed attempt can be tried again: the next begin of the same request is granted as a recovery of
   the same record, and the recovery check then passes exactly when the failure is retryable and an
   attempt is left.
  */
  lemma FailedAttemptIsRetried(w: World, f: FinalizeRequest, slot: Slot, digest: string)
    requires Reachable(w) && Allowed(w, FinalizeEvent(f)) && Finalize(w.db, f).1 == Finalized(true) && f.code.Some?
    requires w.db.executions[f.execution].record.Some?
    requires var id := w.db.executions[f.execution].record.value;
      id in w.db.records ==> w.db.records[id].slot == slot && w.db.records[id].digest == digest
    ensures var w1 := Step(w, FinalizeEvent(f));
      var w2 := Step(w1, BeginEvent(slot, digest));
      var x := w.db.executions[f.execution];
      && Begin(w1.db, slot, digest).1 == Granted(w.db.nextToken, x.record.value, true)
      && (AssertRecoveryAllowed(w2.db, f.execution, x.record.value, Some(w.db.nextToken)).1 == MayRecover <==>
            PolicyOf(f.code.value).retryable && x.attempts < x.maxAttempts)
  {
    var id := w.db.executions[f.execution].record.value;
    var w1 := Step(w, FinalizeEvent(f));
    var w2 := Step(w1, BeginEvent(slot, digest));
    ChatLimits.ReachableStep(w, FinalizeEvent(f));
    FinalizeAnswersRecord(w, f);
    FinalizeWrites(w, f);
    ChatAnswers.UsedKeyIsAnswered(w1, slot, digest, id);
    ChatLimits.ReachableStep(w1, BeginEvent(slot, digest));
    ChatAnswers.GrantIsALease(w1, slot, digest);
    RecoveryIsDecided(w2, f.execution, id, Some(w.db.nextToken));
  }

  // ---------------------------------------------------------------- decisions

  /** A new decision is open exactly when it allows; a denial is closed with its own answer. */
  lemma DecisionIsRecorded(w: World, tenant: Tenant, allowed: bool)
    requires Reachable(w)
    ensures var (after, d) := Decide(w.db, tenant, allowed);
      && d !in w.db.decisions && after.decisions == w.db.decisions[d := after.decisions[d]]
      && var decision := after.decisions[d];
      && decision.tenant == tenant && decision.allowed == allowed && decision.execution == None
      && (decision.result == None <==> allowed)
      && (!allowed ==> decision.result == Some(DecisionResult("denied", 403, None)))
  {
    ReachableInv(w);
  }

  /** A result is recorded once: on an allowed decision that has none; any later one is accepted and ignored. */
  lemma ResultIsRecordedOnce(db: Db, id: DecisionId, result: DecisionResult)
    ensures var (after, done) := RecordResult(db, id, result);
      && (done <==> id in db.decisions && db.decisions[id].allowed)
      && (after != db ==> done && db.decisions[id].result == None)
      && (done && db.decisions[id].result == None ==>
            after.decisions == db.decisions[id := db.decisions[id].(result := Some(result))])
      && (done && db.decisions[id].result != None ==> after == db)
  {
  }

  /** Tenant and verdict of a decision never change, and neither do its execution and its result once there. */
  predicate DecisionAdvances(a: Decision, b: Decision) {
    && b.tenant == a.tenant && b.allowed == a.allowed
    && (a.execution.Some? ==> b.execution == a.execution)
    && (a.result.Some? ==> b.result == a.result)
  }

  lemma StepAdvancesDecision(w: World, ev: Event, d: DecisionId)
    requires Inv(w) && d in w.db.decisions
    ensures d in Step(w, ev).db.decisions && DecisionAdvances(w.db.decisions[d], Step(w, ev).db.decisions[d])
  {
    match ev
    case PrepareEvent(p) => PrepareAdvancesDecision(w.db, p, d);
    case FinalizeEvent(f) => FinalizeAdvancesDecision(w.db, f, d);
    case RecoverEvent(e, record, token) =>
      assert AssertRecoveryAllowed(w.db, e, record, token).0.decisions == w.db.decisions;
    case _ =>
  }

  lemma PrepareAdvancesDecision(db: Db, p: PrepareRequest, d: DecisionId)
    requires d in db.decisions
    ensures d in Prepare(db, p).0.decisions && DecisionAdvances(db.decisions[d], Prepare(db, p).0.decisions[d])
  {
  }

  lemma FinalizeAdvancesDecision(db: Db, f: FinalizeRequest, d: DecisionId)
    requires d in db.decisions
    ensures d in Finalize(db, f).0.decisions && DecisionAdvances(db.decisions[d], Finalize(db, f).0.decisions[d])
  {
  }

  /** Over any run: a decision once bound or answered stays so, with the same tenant and verdict. */
  lemma {:induction false} DecisionsOnlyAdvance(w: World, events: seq<Event>, d: DecisionId)
    requires Inv(w) && AllowedRun(w, events) && d in w.db.decisions
    ensures d in Run(w, events).db.decisions && DecisionAdvances(w.db.decisions[d], Run(w, events).db.decisions[d])
    decreases |events|
  {
    if events != [] {
      StepKeepsInv(w, events[0]);
      StepAdvancesDecision(w, events[0], d);
      DecisionsOnlyAdvance(Step(w, events[0]), events[1..], d);
    }
  }

  /** A bound decision allows an existing execution of its own tenant. */
  predicate BoundOk(executions: map<ExecutionId, Execution>, d: Decision) {
    d.execution.Some? ==>
      d.allowed && d.execution.value in executions && executions[d.execution.value].scope.tenant == d.tenant
  }

  ghost predicate Audited(db: Db) {
    && (forall d {:trigger BoundOk(db.executions, db.decisions[d])} | d in db.decisions ::
          BoundOk(db.executions, db.decisions[d]))
    && (forall e <- db.executions :: db.executions[e].auditRequired)
  }

  lemma PrepareKeepsAudited(db: Db, p: PrepareRequest)
    requires Audited(db) && p.decision.Some?
    ensures Audited(Prepare(db, p).0)
  {
    var after := Prepare(db, p).0;
    forall d | d in after.decisions ensures BoundOk(after.executions, after.decisions[d]) {
      assert d in db.decisions && BoundOk(db.executions, db.decisions[d]);
    }
  }

  lemma OthersKeepAudited(w: World, ev: Event)
    requires Inv(w) && Audited(w.db) && !ev.PrepareEvent?
    ensures Audited(Step(w, ev).db)
  {
    var after := Step(w, ev).db;
    forall e | e in after.executions ensures after.executions[e].auditRequired {
      if e in w.db.executions {
        KeepsAuditRequired(w, ev, e);
      }
    }
    forall d | d in after.decisions ensures BoundOk(after.executions, after.decisions[d]) {
      if d in w.db.decisions {
        assert BoundOk(w.db.executions, w.db.decisions[d]);
        BindingStays(w, ev, d);
        if w.db.decisions[d].execution.Some? {
          StepAdvances(w, ev, w.db.decisions[d].execution.value);
        }
      }
    }
  }

  lemma KeepsAuditRequired(w: World, ev: Event, e: ExecutionId)
    requires e in w.db.executions && e in Step(w, ev).db.executions && !ev.PrepareEvent?
    ensures Step(w, ev).db.executions[e].auditRequired == w.db.executions[e].auditRequired
  {
  }

  lemma BindingStays(w: World, ev: Event, d: DecisionId)
    requires Inv(w) && d in w.db.decisions && !ev.PrepareEvent?
    ensures d in Step(w, ev).db.decisions
    ensures Step(w, ev).db.decisions[d].execution == w.db.decisions[d].execution
    ensures Step(w, ev).db.decisions[d].allowed == w.db.decisions[d].allowed
    ensures Step(w, ev).db.decisions[d].tenant == w.db.decisions[d].tenant
  {
  }

  lemma {:induction false} RunKeepsAudited(w: World, events: seq<Event>)
    requires Inv(w) && Audited(w.db) && AllowedRun(w, events)
    ensures Audited(Run(w, events).db)
    decreases |events|
  {
    if events != [] {
      if events[0].PrepareEvent? {
        PrepareKeepsAudited(w.db, events[0].prepare);
      } else {
        OthersKeepAudited(w, events[0]);
      }
      StepKeepsInv(w, events[0]);
      RunKeepsAudited(Step(w, events[0]), events[1..]);
    }
  }

  /** In every reachable state every execution needs its audit and every bound decision is one of its tenant's. */
  lemma EveryExecutionIsAudited(w: World)
    requires Reachable(w)
    ensures forall e <- w.db.executions :: w.db.executions[e].auditRequired
    ensures forall d <- w.db.decisions :: w.db.decisions[d].execution.Some? ==>
              var e := w.db.decisions[d].execution.value;
              && w.db.decisions[d].allowed && e in w.db.executions
              && w.db.executions[e].scope.tenant == w.db.decisions[d].tenant
  {
    var now, events :| AllowedRun(Init(now), events) && w == Run(Init(now), events);
    RunKeepsAudited(Init(now), events);
    forall d <- w.db.decisions ensures BoundOk(w.db.executions, w.db.decisions[d]) {
    }
  }

  /** Which failures may be tried again, which are the server's own and which are conflicts. */
  lemma FailuresAreClassed(code: FailureCode)
    ensures var p := PolicyOf(code);
      && (!p.retryable <==>
            code == BudgetRejected || code == IdempotencyConflict || code == RetryExhausted || code == ContextRejected)
      && (p.responseStatus >= 500 <==>
            code == ProviderTimeout || code == ProviderFailure || code == DatabaseFailure || code == ProcessCrash)
      && (p.responseStatus == 409 <==>
            code == IdempotencyLost || code == IdempotencyConflict || code == RetryExhausted)
      && 400 <= p.responseStatus < 600
  {
  }
}
