/** What the chat protocol guarantees over whole runs of interleaved clients. */
module ChatTheorems {
  import opened Common
  import opened ChatModel
  import opened ChatProtocol

  // ---------------------------------------------------------------- how one execution moves

  /** Rows, scope and attempt limit never change; the attempt number and its end only advance. */
  predicate Advances(x: Execution, y: Execution) {
    && AttemptsAdvance(x, y)
    && y.scope == x.scope && y.maxAttempts == x.maxAttempts
    && y.userMessage == x.userMessage && y.assistantMessage == x.assistantMessage
    && (y.record == x.record || y.record.None?)
  }

  lemma StepAdvances(w: World, ev: Event, e: ExecutionId)
    requires e in w.db.executions
    ensures e in Step(w, ev).db.executions
    ensures Advances(w.db.executions[e], Step(w, ev).db.executions[e])
    ensures Step(w, ev).db.executions[e].attempts ==
              w.db.executions[e].attempts + (if Commits(w, ev, e) then 1 else 0)
  {
    match ev
    case PrepareEvent(p) => PrepareAdvances(w.db, p, e);
    case FinalizeEvent(f) => FinalizeAdvances(w.db, f, e);
    case RecoverEvent(f, record, token) => RecoverAdvances(w.db, f, record, token, e);
    case _ =>
  }

  lemma PrepareAdvances(db: Db, p: PrepareRequest, e: ExecutionId)
    requires e in db.executions
    ensures e in Prepare(db, p).0.executions
    ensures Advances(db.executions[e], Prepare(db, p).0.executions[e])
    ensures Prepare(db, p).0.executions[e].attempts ==
              db.executions[e].attempts + (if p.execution == e && Prepare(db, p).1.Persisted? then 1 else 0)
  {
  }

  lemma FinalizeAdvances(db: Db, f: FinalizeRequest, e: ExecutionId)
    requires e in db.executions
    ensures e in Finalize(db, f).0.executions
    ensures Advances(db.executions[e], Finalize(db, f).0.executions[e])
    ensures Finalize(db, f).0.executions[e].attempts == db.executions[e].attempts
  {
  }

  lemma RecoverAdvances(db: Db, f: ExecutionId, record: RecordId, token: Option<Token>, e: ExecutionId)
    requires e in db.executions
    ensures e in AssertRecoveryAllowed(db, f, record, token).0.executions
    ensures Advances(db.executions[e], AssertRecoveryAllowed(db, f, record, token).0.executions[e])
    ensures AssertRecoveryAllowed(db, f, record, token).0.executions[e].attempts == db.executions[e].attempts
  {
  }

  lemma {:induction false} RunAdvances(w: World, events: seq<Event>, e: ExecutionId)
    requires e in w.db.executions
    ensures e in Run(w, events).db.executions
    ensures Advances(w.db.executions[e], Run(w, events).db.executions[e])
    decreases |events|
  {
    if events != [] {
      StepAdvances(w, events[0], e);
      RunAdvances(Step(w, events[0]), events[1..], e);
    }
  }

  // ---------------------------------------------------------------- completed is final

  /** A completed execution, its reply and its record, apart from detaching when the record is deleted. */
  ghost predicate Frozen(a: Db, b: Db, e: ExecutionId)
    requires e in a.executions && a.executions[e].assistantMessage in a.messages
  {
    var x := a.executions[e];
    && e in b.executions
    && (b.executions[e] == x || b.executions[e] == x.(record := None))
    && x.assistantMessage in b.messages
    && b.messages[x.assistantMessage] == a.messages[x.assistantMessage]
    && (b.executions[e].record.Some? ==>
          x.record.value in a.records && x.record.value in b.records
          && b.records[x.record.value] == a.records[x.record.value])
  }

  lemma StepFreezes(w: World, ev: Event, e: ExecutionId)
    requires Inv(w) && Allowed(w, ev) && e in w.db.executions && w.db.executions[e].status.Completed?
    ensures w.db.executions[e].assistantMessage in w.db.messages
    ensures Frozen(w.db, Step(w, ev).db, e)
  {
    var x := w.db.executions[e];
    assert MessagesOk(w.db.messages, e, x);
    assert BindingOk(w.db.records, w.prepared, x);
    match ev
    case PrepareEvent(p) => PrepareFreezes(w, p, e);
    case MarkEvent(f) => TouchesOnly(w, f, e);
    case RecoverEvent(f, record, token) => RecoverFreezes(w, f, record, token, e);
    case FinalizeEvent(f) => FinalizeFreezes(w, f, e);
    case _ => IdempotencyFreezes(w, ev, e);
  }

  lemma IdempotencyFreezes(w: World, ev: Event, e: ExecutionId)
    requires Inv(w) && Allowed(w, ev) && e in w.db.executions && w.db.executions[e].status.Completed?
    requires ev.BeginEvent? || ev.RenewEvent? || ev.CompleteEvent? || ev.CleanupEvent? || ev.TickEvent?
             || ev.DecideEvent? || ev.ResultEvent?
    ensures w.db.executions[e].assistantMessage in w.db.messages
    ensures Frozen(w.db, Step(w, ev).db, e)
  {
    assert MessagesOk(w.db.messages, e, w.db.executions[e]);
    assert BindingOk(w.db.records, w.prepared, w.db.executions[e]);
    match ev
    case BeginEvent(slot, digest) => BeginFreezes(w, slot, digest, e);
    case CompleteEvent(slot, status, reference, token) => CompleteFreezes(w, slot, status, reference, token, e);
    case CleanupEvent => DeleteFreezes(w, Expired(w.db), e);
    case RenewEvent(slot, token) =>
      if w.db.executions[e].record.Some? {
        assert RecordOk(w.db, w.db.executions[e].record.value);
      }
    case _ =>
  }

  lemma DeleteFreezes(w: World, gone: set<RecordId>, e: ExecutionId)
    requires Inv(w) && e in w.db.executions
    ensures w.db.executions[e].assistantMessage in w.db.messages
    ensures Frozen(w.db, Delete(w.db, gone), e)
  {
    assert MessagesOk(w.db.messages, e, w.db.executions[e]);
    assert BindingOk(w.db.records, w.prepared, w.db.executions[e]);
  }

  lemma BeginFreezes(w: World, slot: Slot, digest: string, e: ExecutionId)
    requires Inv(w) && e in w.db.executions && w.db.executions[e].status.Completed?
    ensures w.db.executions[e].assistantMessage in w.db.messages
    ensures Frozen(w.db, Begin(w.db, slot, digest).0, e)
  {
    assert MessagesOk(w.db.messages, e, w.db.executions[e]);
    assert BindingOk(w.db.records, w.prepared, w.db.executions[e]);
    if w.db.executions[e].record.Some? {
      assert RecordOk(w.db, w.db.executions[e].record.value);
    }
    if Begin(w.db, slot, digest).1.Retry? {
      DeleteFreezes(w, {FindRecord(w.db.records, slot).value}, e);
    }
  }

  lemma CompleteFreezes(w: World, slot: Slot, status: int, reference: string, token: Token, e: ExecutionId)
    requires Inv(w) && e in w.db.executions && w.db.executions[e].status.Completed? && token !in w.prepared
    ensures w.db.executions[e].assistantMessage in w.db.messages
    ensures Frozen(w.db, Complete(w.db, slot, status, reference, token).0, e)
  {
    assert MessagesOk(w.db.messages, e, w.db.executions[e]);
    assert BindingOk(w.db.records, w.prepared, w.db.executions[e]);
  }

  lemma PrepareFreezes(w: World, p: PrepareRequest, e: ExecutionId)
    requires Inv(w) && e in w.db.executions && w.db.executions[e].status.Completed?
    ensures w.db.executions[e].assistantMessage in w.db.messages
    ensures Frozen(w.db, Prepare(w.db, p).0, e)
  {
    TouchesOnly(w, p.execution, e);
    if p.execution == e && Owns(w.db, w.db.executions[e], p.token) {
      OwnedIsNotCompleted(w, e, p.token);
    }
  }

  lemma RecoverFreezes(w: World, f: ExecutionId, record: RecordId, token: Option<Token>, e: ExecutionId)
    requires Inv(w) && e in w.db.executions && w.db.executions[e].status.Completed?
    ensures w.db.executions[e].assistantMessage in w.db.messages
    ensures Frozen(w.db, AssertRecoveryAllowed(w.db, f, record, token).0, e)
  {
    TouchesOnly(w, f, e);
    if f == e && Owns(w.db, w.db.executions[e], token) {
      OwnedIsNotCompleted(w, e, token);
    }
  }

  lemma FinalizeFreezes(w: World, f: FinalizeRequest, e: ExecutionId)
    requires Inv(w) && e in w.db.executions && w.db.executions[e].status.Completed?
    ensures w.db.executions[e].assistantMessage in w.db.messages
    ensures Frozen(w.db, Finalize(w.db, f).0, e)
  {
    TouchesOnly(w, f.execution, e);
  }

  /** Two executions share neither their reply nor their record. */
  lemma TouchesOnly(w: World, f: ExecutionId, e: ExecutionId)
    requires Inv(w) && e in w.db.executions
    ensures MessagesOk(w.db.messages, e, w.db.executions[e])
    ensures BindingOk(w.db.records, w.prepared, w.db.executions[e])
    ensures f in w.db.executions && f != e ==>
              w.db.executions[f].assistantMessage != w.db.executions[e].assistantMessage
    ensures f in w.db.executions && f != e && w.db.executions[f].record.Some? ==>
              w.db.executions[f].record != w.db.executions[e].record
  {
    assert MessagesOk(w.db.messages, e, w.db.executions[e]);
    if f in w.db.executions {
      assert MessagesOk(w.db.messages, f, w.db.executions[f]);
    }
  }

  lemma {:induction false} CompletedIsFinal(w: World, events: seq<Event>, e: ExecutionId)
    requires Inv(w) && AllowedRun(w, events)
    requires e in w.db.executions && w.db.executions[e].status.Completed?
    ensures w.db.executions[e].assistantMessage in w.db.messages
    ensures Frozen(w.db, Run(w, events).db, e)
    decreases |events|
  {
    assert MessagesOk(w.db.messages, e, w.db.executions[e]);
    assert BindingOk(w.db.records, w.prepared, w.db.executions[e]);
    if events != [] {
      StepKeepsInv(w, events[0]);
      StepFreezes(w, events[0], e);
      CompletedIsFinal(Step(w, events[0]), events[1..], e);
    }
  }

  /**
   The reply a client finalizes is the one every later request with the same key and payload gets:
   begin_idempotency replays exactly it, until the record has expired and is replaced.
  */
  lemma FinalizedReplyIsReplayed(w: World, f: FinalizeRequest, events: seq<Event>, slot: Slot, digest: string)
    requires Inv(w) && Allowed(w, FinalizeEvent(f)) && f.terminal.ToCompleted?
    requires Finalize(w.db, f).1 == Finalized(true)
    requires w.db.executions[f.execution].record.Some?
    requires var id := w.db.executions[f.execution].record.value;
      id in w.db.records ==> w.db.records[id].slot == slot && w.db.records[id].digest == digest
    requires AllowedRun(Step(w, FinalizeEvent(f)), events)
    ensures var db := Run(Step(w, FinalizeEvent(f)), events).db;
      && f.execution in db.executions && db.executions[f.execution].status.Completed?
      && db.executions[f.execution].assistantMessage in db.messages
      && db.messages[db.executions[f.execution].assistantMessage].content == f.content
      && (db.executions[f.execution].record.Some? ==>
            var id := db.executions[f.execution].record.value;
            && id in db.records && db.records[id].reference == Some(f.reference)
            && Begin(db, slot, digest).1 == if db.records[id].expiresAt < db.now then Retry else Replay(id))
  {
    var v := Step(w, FinalizeEvent(f));
    StepKeepsInv(w, FinalizeEvent(f));
    assert MessagesOk(w.db.messages, f.execution, w.db.executions[f.execution]);
    CompletedIsFinal(v, events, f.execution);
    RunKeepsInv(v, events);
    var db := Run(v, events).db;
    if db.executions[f.execution].record.Some? {
      var id := db.executions[f.execution].record.value;
      assert FindRecord(db.records, slot) == Some(id);
    }
  }

  // ---------------------------------------------------------------- fencing

  /** A newer token than `t` has been issued for the record, or the record is gone for good. */
  predicate Superseded(db: Db, id: RecordId, t: Token) {
    id < db.nextRecord && t < db.nextToken && (id in db.records ==> t < db.records[id].token)
  }

  /** Tokens are only replaced by fresh ones and record ids are never reused. */
  predicate TokensAdvance(a: Db, b: Db) {
    && a.nextRecord <= b.nextRecord && a.nextToken <= b.nextToken
    && forall id | id in b.records ::
         if id in a.records then b.records[id].token == a.records[id].token || b.records[id].token >= a.nextToken
         else id >= a.nextRecord
  }

  lemma BeginAdvancesTokens(db: Db, slot: Slot, digest: string)
    ensures TokensAdvance(db, Begin(db, slot, digest).0)
  {
  }

  lemma PrepareKeepsRecords(db: Db, p: PrepareRequest)
    ensures TokensAdvance(db, Prepare(db, p).0)
  {
    assert Prepare(db, p).0.records == db.records;
  }

  lemma FinalizeKeepsTokens(db: Db, f: FinalizeRequest)
    ensures TokensAdvance(db, Finalize(db, f).0)
  {
  }

  lemma RecoverKeepsTokens(db: Db, e: ExecutionId, record: RecordId, token: Option<Token>)
    ensures TokensAdvance(db, AssertRecoveryAllowed(db, e, record, token).0)
  {
  }

  lemma StepAdvancesTokens(w: World, ev: Event)
    ensures TokensAdvance(w.db, Step(w, ev).db)
  {
    match ev
    case BeginEvent(slot, digest) => BeginAdvancesTokens(w.db, slot, digest);
    case PrepareEvent(p) => PrepareKeepsRecords(w.db, p);
    case FinalizeEvent(f) => FinalizeKeepsTokens(w.db, f);
    case RecoverEvent(e, record, token) => RecoverKeepsTokens(w.db, e, record, token);
    case _ =>
  }

  lemma StepSupersedes(w: World, ev: Event, id: RecordId, t: Token)
    requires Superseded(w.db, id, t)
    ensures Superseded(Step(w, ev).db, id, t)
  {
    StepAdvancesTokens(w, ev);
  }

  lemma {:induction false} RunSupersedes(w: World, events: seq<Event>, id: RecordId, t: Token)
    requires Superseded(w.db, id, t)
    ensures Superseded(Run(w, events).db, id, t)
    decreases |events|
  {
    if events != [] {
      StepSupersedes(w, events[0], id, t);
      RunSupersedes(Step(w, events[0]), events[1..], id, t);
    }
  }

  /** A renew, complete, recovery, finalization or repeated prepare that presents `t` for the record. */
  ghost predicate Presents(db: Db, ev: Event, id: RecordId, t: Token) {
    match ev
    case RenewEvent(slot, token) => token == t && FindRecord(db.records, slot) == Some(id)
    case CompleteEvent(slot, _, _, token) => token == t && FindRecord(db.records, slot) == Some(id)
    case RecoverEvent(_, record, presented) => presented == Some(t) && record == id
    case PrepareEvent(p) => p.token == Some(t) && p.record == Some(id) && p.execution in db.executions
    case FinalizeEvent(f) =>
      f.token == Some(t) && f.execution in db.executions && db.executions[f.execution].record == Some(id)
    case _ => false
  }

  /** Once a newer token has been issued, nothing presented with the older one changes anything, ever. */
  lemma StaleTokenIsInert(w: World, events: seq<Event>, ev: Event, id: RecordId, t: Token)
    requires Superseded(w.db, id, t) && Presents(Run(w, events).db, ev, id, t)
    ensures Next(Run(w, events).db, ev) == Run(w, events).db
  {
    RunSupersedes(w, events, id, t);
  }

  /**
   The one gap in the fence: a first prepare_exchange does not look at the lease. Presented with a
   superseded token it writes exactly when no execution exists yet and its constraints hold.
  */
  lemma StalePrepareWritesOnlyFirst(db: Db, p: PrepareRequest, id: RecordId, t: Token)
    requires Superseded(db, id, t) && p.record == Some(id) && p.token == Some(t)
    ensures Prepare(db, p).0 != db <==>
              && p.execution !in db.executions && RecordAttachable(db, p)
              && BindOk(db, p.decision, p.execution, p.scope.tenant)
  {
    if p.execution !in db.executions && Prepare(db, p).1.Persisted? {
      assert Prepare(db, p).0.nextMessage == db.nextMessage + 2;
    }
  }

  // ---------------------------------------------------------------- finalization

  predicate Finalizes(db: Db, ev: Event, e: ExecutionId, attempt: nat) {
    && ev.FinalizeEvent? && ev.finalize.execution == e
    && e in db.executions && db.executions[e].attempts == attempt
    && Finalize(db, ev.finalize).1 == Finalized(true)
  }

  /** How many finalizations of this attempt of the execution return True along the run. */
  ghost function FinalizeCount(w: World, events: seq<Event>, e: ExecutionId, attempt: nat): nat
    decreases |events|
  {
    if events == [] then 0
    else (if Finalizes(w.db, events[0], e, attempt) then 1 else 0)
         + FinalizeCount(Step(w, events[0]), events[1..], e, attempt)
  }

  predicate AttemptOver(db: Db, e: ExecutionId, attempt: nat) {
    e in db.executions
    && (db.executions[e].attempts > attempt
        || (db.executions[e].attempts == attempt && IsTerminal(db.executions[e].status)))
  }

  lemma {:induction false} OneFinalizePerAttempt(w: World, events: seq<Event>, e: ExecutionId, attempt: nat)
    ensures FinalizeCount(w, events, e, attempt) <= if AttemptOver(w.db, e, attempt) then 0 else 1
    decreases |events|
  {
    if events != [] {
      var v := Step(w, events[0]);
      if e in w.db.executions {
        StepAdvances(w, events[0], e);
      }
      if Finalizes(w.db, events[0], e, attempt) {
        assert AttemptOver(v.db, e, attempt);
      }
      OneFinalizePerAttempt(v, events[1..], e, attempt);
    }
  }

  /** The arguments a caller is responsible for. */
  predicate ProperRequest(x: Execution, f: FinalizeRequest) {
    (f.terminal.ToCompleted? || f.code.Some?) && WellFormed(x, f.accounting)
  }

  /**
   No stuck owner: in every reachable state finalizing an unfinished execution succeeds exactly when
   the request is proper and, while a record is attached, its current lease is held.
  */
  lemma OwnerIsNeverStuck(w: World, f: FinalizeRequest)
    requires Reachable(w)
    requires f.execution in w.db.executions && !IsTerminal(w.db.executions[f.execution].status)
    ensures Finalize(w.db, f).1 == Finalized(true) <==>
              && MayFinalize(w.db, w.db.executions[f.execution], f.token)
              && ProperRequest(w.db.executions[f.execution], f)
  {
    ReachableInv(w);
    var x := w.db.executions[f.execution];
    assert MessagesOk(w.db.messages, f.execution, x);
    assert AuditOk(w.db.decisions, f.execution, x);
    OpenAttemptIsUnrecorded(w, f.execution, f.accounting);
  }

  /**
   A prepared recovery is never refused for want of rows: the current owner of an execution that is
   unfinished or failed retryably, below its limit, always gets the next attempt.
  */
  lemma OwnerAlwaysRecovers(w: World, p: PrepareRequest)
    requires Reachable(w) && Allowed(w, PrepareEvent(p)) && p.execution in w.db.executions
    requires Bindable(w.db, p.decision.value, p.execution, p.scope.tenant)
    ensures var x := w.db.executions[p.execution];
      Prepare(w.db, p).1.Persisted? <==>
        && p.recover && x.scope == p.scope && x.record == p.record && Owns(w.db, x, p.token)
        && x.attempts < x.maxAttempts && (InProgressStatus(x.status) || x.retryable)
  {
    ReachableInv(w);
    var x := w.db.executions[p.execution];
    assert MessagesOk(w.db.messages, p.execution, x);
    assert FindReservation(w.db.ledger, p.execution).Some?;
    if Owns(w.db, x, p.token) {
      OwnedIsNotCompleted(w, p.execution, p.token);
    }
  }

  /** Every cost row has a key of its own, and an open attempt has no cost row yet. */
  lemma LedgerKeysAreUnique(w: World)
    requires Reachable(w)
    ensures forall j, k | 0 <= j < k < |w.db.ledger| :: !SameLedgerKey(w.db.ledger[j], w.db.ledger[k])
    ensures forall k | 0 <= k < |w.db.ledger| && !w.db.ledger[k].source.Reserved? ::
              var row := w.db.ledger[k];
              && row.execution in w.db.executions
              && var x := w.db.executions[row.execution];
              row.attempt < x.attempts || (row.attempt == x.attempts && IsTerminal(x.status))
  {
    ReachableInv(w);
    forall j, k | 0 <= j < k < |w.db.ledger| ensures !SameLedgerKey(w.db.ledger[j], w.db.ledger[k]) {
      assert !SameLedgerKey(w.db.ledger[j], w.db.ledger[k]);
    }
    forall k | 0 <= k < |w.db.ledger|
      ensures RowOk(w.db.executions, w.db.ledger[k])
    {
    }
  }

  /** A finalization closes every open decision of its execution and leaves the others as they are. */
  lemma FinalizeClosesDecisions(db: Db, f: FinalizeRequest)
    requires Finalize(db, f).1 == Finalized(true)
    ensures var after := Finalize(db, f).0;
      && !HasOpenDecision(after.decisions, f.execution, after.executions[f.execution])
      && after.decisions.Keys == db.decisions.Keys
      && forall d <- db.decisions ::
           if OpenFor(db.decisions[d], f.execution, db.executions[f.execution].scope.tenant.organization)
           then after.decisions[d].result == Some(DecisionResult(TerminalName(f.terminal), ResponseOf(f), f.code))
           else after.decisions[d] == db.decisions[d]
  {
    var after := Finalize(db, f).0;
    forall d <- after.decisions
      ensures !OpenFor(after.decisions[d], f.execution, db.executions[f.execution].scope.tenant.organization)
    {
      assert after.decisions[d] ==
             CloseDecision(db.decisions[d], f, db.executions[f.execution].scope.tenant.organization);
    }
  }

  // ---------------------------------------------------------------- leases in time

  /**
   At every instant exactly one side may act on a processing record: its owner can finalize the
   unfinished execution, or a rival with the same payload is granted the lease, never both.
  */
  lemma OwnerOrRivalNeverBoth(w: World, f: FinalizeRequest, id: RecordId)
    requires Reachable(w) && id in w.db.records && w.db.records[id].status.Processing?
    requires f.execution in w.db.executions && w.db.executions[f.execution].record == Some(id)
    requires !IsTerminal(w.db.executions[f.execution].status)
    requires ProperRequest(w.db.executions[f.execution], f) && f.token == Some(w.db.records[id].token)
    ensures var rival := Begin(w.db, w.db.records[id].slot, w.db.records[id].digest).1;
      (Finalize(w.db, f).1 == Finalized(true) <==> rival.InProgress?)
      && (Finalize(w.db, f).1 != Finalized(true) <==> rival.Granted?)
  {
    ReachableInv(w);
    OwnerIsNeverStuck(w, f);
    assert FindRecord(w.db.records, w.db.records[id].slot) == Some(id);
    assert RecordOk(w.db, id);
  }

  /** When the lease of `t` was last granted or renewed, given that it was at `last` before the run. */
  ghost function Refreshed(w: World, ev: Event, id: RecordId, t: Token, last: int): int {
    if ev.RenewEvent? && ev.token == t && FindRecord(w.db.records, ev.slot) == Some(id) then w.db.now else last
  }

  /** Renewals of `t` never leave a gap longer than the lease. */
  ghost predicate Punctual(w: World, events: seq<Event>, id: RecordId, t: Token, last: int)
    decreases |events|
  {
    w.db.now <= last + LEASE_SECONDS
    && (events != [] ==>
          Punctual(Step(w, events[0]), events[1..], id, t, Refreshed(w, events[0], id, t, last)))
  }

  /** The owner itself does not give the lease up. */
  predicate GivesUp(ev: Event, t: Token) {
    || (ev.CompleteEvent? && ev.token == t)
    || (ev.RecoverEvent? && ev.presented == Some(t))
    || (ev.FinalizeEvent? && ev.finalize.token == Some(t))
  }

  predicate HoldsLease(db: Db, id: RecordId, t: Token, last: int) {
    && id in db.records && db.records[id].status.Processing? && db.records[id].token == t
    && db.records[id].leaseUntil == Some(last + LEASE_SECONDS)
  }

  lemma BeginKeepsLease(db: Db, slot: Slot, digest: string, id: RecordId, t: Token, last: int)
    requires RecordsOk(db) && HoldsLease(db, id, t, last) && db.now <= last + LEASE_SECONDS
    ensures HoldsLease(Begin(db, slot, digest).0, id, t, last)
  {
    assert RecordOk(db, id);
  }

  lemma FinalizeKeepsLease(db: Db, f: FinalizeRequest, id: RecordId, t: Token, last: int)
    requires HoldsLease(db, id, t, last) && f.token != Some(t)
    ensures HoldsLease(Finalize(db, f).0, id, t, last)
  {
  }

  lemma RecoverKeepsLease(db: Db, e: ExecutionId, record: RecordId, token: Option<Token>, id: RecordId, t: Token,
                          last: int)
    requires HoldsLease(db, id, t, last) && token != Some(t)
    ensures HoldsLease(AssertRecoveryAllowed(db, e, record, token).0, id, t, last)
  {
  }

  lemma PrepareKeepsLease(db: Db, p: PrepareRequest, id: RecordId, t: Token, last: int)
    requires HoldsLease(db, id, t, last)
    ensures HoldsLease(Prepare(db, p).0, id, t, last)
  {
    assert Prepare(db, p).0.records == db.records;
  }

  lemma StepKeepsLease(w: World, ev: Event, id: RecordId, t: Token, last: int)
    requires RecordsOk(w.db) && HoldsLease(w.db, id, t, last)
    requires w.db.now <= last + LEASE_SECONDS && !GivesUp(ev, t)
    ensures HoldsLease(Step(w, ev).db, id, t, Refreshed(w, ev, id, t, last))
  {
    match ev
    case BeginEvent(slot, digest) => BeginKeepsLease(w.db, slot, digest, id, t, last);
    case FinalizeEvent(f) => FinalizeKeepsLease(w.db, f, id, t, last);
    case RecoverEvent(e, record, token) => RecoverKeepsLease(w.db, e, record, token, id, t, last);
    case PrepareEvent(p) => PrepareKeepsLease(w.db, p, id, t, last);
    case _ =>
  }

  /** An owner that renews in time is never displaced, whatever the other clients do. */
  lemma {:induction false} PunctualOwnerIsNeverDisplaced(w: World, events: seq<Event>, id: RecordId, t: Token,
                                                         last: int)
    requires Inv(w) && AllowedRun(w, events) && HoldsLease(w.db, id, t, last)
    requires Punctual(w, events, id, t, last) && forall ev <- events :: !GivesUp(ev, t)
    ensures var db := Run(w, events).db;
      && id in db.records && db.records[id].token == t && db.records[id].status.Processing?
      && !LeaseExpired(db.records[id], db.now)
      && forall digest :: !Begin(db, db.records[id].slot, digest).1.Granted?
    decreases |events|
  {
    if events == [] {
      assert FindRecord(w.db.records, w.db.records[id].slot) == Some(id);
    } else {
      StepKeepsInv(w, events[0]);
      StepKeepsLease(w, events[0], id, t, last);
      PunctualOwnerIsNeverDisplaced(Step(w, events[0]), events[1..], id, t, Refreshed(w, events[0], id, t, last));
    }
  }

  // ---------------------------------------------------------------- attempts and reservations

  function Attempts(db: Db, e: ExecutionId): nat {
    if e in db.executions then db.executions[e].attempts else 0
  }

  function ReservedTokens(ledger: seq<UsageRow>, e: ExecutionId): int {
    var i := FindReservation(ledger, e);
    if i.Some? then ledger[i.value].totalTokens else 0
  }

  /** Committed prepare_exchange calls of an execution along a run, and what they estimated. */
  ghost function CommitCount(w: World, events: seq<Event>, e: ExecutionId): nat
    decreases |events|
  {
    if events == [] then 0
    else (if Commits(w, events[0], e) then 1 else 0) + CommitCount(Step(w, events[0]), events[1..], e)
  }

  ghost function EstimateSum(w: World, events: seq<Event>, e: ExecutionId): int
    decreases |events|
  {
    if events == [] then 0
    else (if Commits(w, events[0], e) then events[0].prepare.estimatedTokens else 0)
         + EstimateSum(Step(w, events[0]), events[1..], e)
  }

  /** The reservation row is wherever a reservation row of the execution is. */
  lemma ReservationIsAt(ledger: seq<UsageRow>, executions: map<ExecutionId, Execution>, e: ExecutionId, i: nat)
    requires AllRows(executions, ledger) && UniqueRows(ledger)
    requires i < |ledger| && IsReservation(ledger[i], e)
    ensures FindReservation(ledger, e) == Some(i)
  {
    var k := FindReservation(ledger, e).value;
    assert RowOk(executions, ledger[i]) && RowOk(executions, ledger[k]);
    assert i != k ==> SameLedgerKey(ledger[i], ledger[k]) && SameLedgerKey(ledger[k], ledger[i]);
  }

  /** A ledger whose reservations of `e` sit where they were, with the same totals, reserves the same. */
  lemma SameReservation(a: seq<UsageRow>, b: seq<UsageRow>, executions: map<ExecutionId, Execution>, e: ExecutionId)
    requires AllRows(executions, b) && UniqueRows(b) && |a| <= |b|
    requires forall k | 0 <= k < |a| :: IsReservation(a[k], e) ==> a[k] == b[k]
    requires forall k | 0 <= k < |b| :: IsReservation(b[k], e) ==> k < |a| && IsReservation(a[k], e)
    ensures ReservedTokens(b, e) == ReservedTokens(a, e)
  {
    var i := FindReservation(a, e);
    if i.Some? {
      ReservationIsAt(b, executions, e, i.value);
    }
  }

  lemma PrepareReserves(w: World, p: PrepareRequest, e: ExecutionId)
    requires Inv(w) && Allowed(w, PrepareEvent(p))
    ensures ReservedTokens(Prepare(w.db, p).0.ledger, e) == ReservedTokens(w.db.ledger, e) +
              if Commits(w, PrepareEvent(p), e) then p.estimatedTokens else 0
  {
    StepKeepsInv(w, PrepareEvent(p));
    var (db', outcome) := Prepare(w.db, p);
    if outcome.Persisted? {
      if p.execution in w.db.executions {
        var i := FindReservation(w.db.ledger, p.execution).value;
        if e == p.execution {
          ReservationIsAt(db'.ledger, db'.executions, e, i);
        } else {
          SameReservation(w.db.ledger, db'.ledger, db'.executions, e);
        }
      } else if e == p.execution {
        NoRowsOfUnknown(w, e);
        assert IsReservation(db'.ledger[|w.db.ledger|], e);
        ReservationIsAt(db'.ledger, db'.executions, e, |w.db.ledger|);
      } else {
        SameReservation(w.db.ledger, db'.ledger, db'.executions, e);
      }
    }
  }

  lemma NoRowsOfUnknown(w: World, e: ExecutionId)
    requires Inv(w) && e !in w.db.executions
    ensures FindReservation(w.db.ledger, e).None?
  {
    forall k | 0 <= k < |w.db.ledger| ensures !IsReservation(w.db.ledger[k], e) {
      assert RowOk(w.db.executions, w.db.ledger[k]);
    }
  }

  lemma FinalizeReserves(w: World, f: FinalizeRequest, e: ExecutionId)
    requires Inv(w) && Allowed(w, FinalizeEvent(f))
    ensures ReservedTokens(Finalize(w.db, f).0.ledger, e) == ReservedTokens(w.db.ledger, e)
  {
    FinalizeKeepsInv(w, f);
    var (db', outcome) := Finalize(w.db, f);
    if outcome == Finalized(true) {
      SameReservation(w.db.ledger, db'.ledger, db'.executions, e);
    }
  }

  lemma StepReserves(w: World, ev: Event, e: ExecutionId)
    requires Inv(w) && Allowed(w, ev)
    ensures ReservedTokens(Step(w, ev).db.ledger, e) == ReservedTokens(w.db.ledger, e) +
              if Commits(w, ev, e) then ev.prepare.estimatedTokens else 0
  {
    match ev
    case PrepareEvent(p) => PrepareReserves(w, p, e);
    case FinalizeEvent(f) => FinalizeReserves(w, f, e);
    case _ => assert Step(w, ev).db.ledger == w.db.ledger;
  }

  lemma StepAttempts(w: World, ev: Event, e: ExecutionId)
    ensures Attempts(Step(w, ev).db, e) == Attempts(w.db, e) + if Commits(w, ev, e) then 1 else 0
  {
    if e in w.db.executions {
      StepAdvances(w, ev, e);
    }
  }

  /**
   Bounded attempts with conservation: the attempt number is the number of committed prepares, and
   the one reservation row carries the estimates of exactly those.
  */
  lemma {:induction false} AttemptsAreConserved(w: World, events: seq<Event>, e: ExecutionId)
    requires Inv(w) && AllowedRun(w, events)
    ensures Attempts(Run(w, events).db, e) == Attempts(w.db, e) + CommitCount(w, events, e)
    ensures ReservedTokens(Run(w, events).db.ledger, e) ==
              ReservedTokens(w.db.ledger, e) + EstimateSum(w, events, e)
    decreases |events|
  {
    if events != [] {
      StepKeepsInv(w, events[0]);
      StepAttempts(w, events[0], e);
      StepReserves(w, events[0], e);
      AttemptsAreConserved(Step(w, events[0]), events[1..], e);
    }
  }

  /** From an empty database: attempts never exceed the limit, and the reply mirrors the execution. */
  lemma AttemptsAreBounded(now: int, events: seq<Event>, e: ExecutionId)
    requires AllowedRun(Init(now), events) && e in Run(Init(now), events).db.executions
    ensures var db := Run(Init(now), events).db;
      var x := db.executions[e];
      && x.attempts == CommitCount(Init(now), events, e)
      && 1 <= x.attempts <= x.maxAttempts
      && FindReservation(db.ledger, e).Some?
      && db.ledger[FindReservation(db.ledger, e).value].totalTokens == EstimateSum(Init(now), events, e)
      && x.assistantMessage in db.messages
      && db.messages[x.assistantMessage].status == Mirror(x.status)
  {
    var w := Run(Init(now), events);
    RunKeepsInv(Init(now), events);
    AttemptsAreConserved(Init(now), events, e);
    assert FindReservation(w.db.ledger, e).Some?;
    assert MessagesOk(w.db.messages, e, w.db.executions[e]);
  }
}
