/** Where the chat protocol's guarantees stop: runs that show it, and exactly when they hold. */
module ChatLimits {
  import opened Common
  import opened ChatModel
  import opened ChatProtocol
  import opened ChatTheorems

  // ---------------------------------------------------------------- building runs

  lemma {:induction false} RunAppendsEvent(w: World, events: seq<Event>, ev: Event)
    requires AllowedRun(w, events) && Allowed(Run(w, events), ev)
    ensures AllowedRun(w, events + [ev]) && Run(w, events + [ev]) == Step(Run(w, events), ev)
    decreases |events|
  {
    if events == [] {
      assert [ev][1..] == [];
      assert events + [ev] == [ev];
    } else {
      assert (events + [ev])[1..] == events[1..] + [ev];
      RunAppendsEvent(Step(w, events[0]), events[1..], ev);
    }
  }

  lemma ReachableStep(w: World, ev: Event)
    requires Reachable(w) && Allowed(w, ev)
    ensures Reachable(Step(w, ev))
  {
    var now, events :| AllowedRun(Init(now), events) && w == Run(Init(now), events);
    RunAppendsEvent(Init(now), events, ev);
  }

  lemma InitIsReachable(now: int)
    ensures Reachable(Init(now))
  {
    assert Run(Init(now), []) == Init(now);
  }

  const SLOT := Slot(Tenant(1, 2), "key")
  const SCOPE := Scope(Tenant(1, 2), 3, 4, 1, "openai", "model")

  /** A request that prepares with the first lease. */
  function FirstPrepare(maxAttempts: nat): PrepareRequest {
    PrepareRequest(Random(0), SCOPE, "hello", Some(0), 10, false, Some(0), maxAttempts, Some(0))
  }

  /** The first client has prepared and fallen silent; the second one has just reclaimed the lease. */
  predicate Displaced(w: World, maxAttempts: nat) {
    && w.db.now == LEASE_SECONDS + 1
    && w.db.records == map[0 := IdemRecord(SLOT, "digest", Processing, None, None, DEFAULT_TTL_SECONDS,
                                           Some(w.db.now + LEASE_SECONDS), 1)]
    && w.db.nextRecord == 1 && w.db.nextToken == 2
    && w.db.executions == map[Random(0) := Execution(SCOPE, Some(0), 0, 1, Prepared, 1, maxAttempts, None,
                                                     false, false, true)]
    && 1 in w.db.messages && w.db.messages[1] == Message(Random(0), Assistant, "", Pending)
    && 0 in w.db.decisions && w.db.decisions[0] == Decision(Tenant(1, 2), true, Some(Random(0)), None)
    && w.db.ledger == [ReservationRow(FirstPrepare(maxAttempts))]
    && w.prepared == map[0 := Random(0)]
  }

  /** The first client holds the lease and a decision. */
  lemma GrantedToFirst() returns (w: World)
    ensures Reachable(w)
    ensures w == World(Db(0, map[0 := IdemRecord(SLOT, "digest", Processing, None, None, DEFAULT_TTL_SECONDS,
                                                 Some(LEASE_SECONDS), 0)],
                          map[], map[], [], map[0 := Decision(Tenant(1, 2), true, None, None)], 1, 1, 0, 1), map[])
  {
    InitIsReachable(0);
    var w1 := Step(Init(0), BeginEvent(SLOT, "digest"));
    ReachableStep(Init(0), BeginEvent(SLOT, "digest"));
    w := Step(w1, DecideEvent(Tenant(1, 2), true));
    ReachableStep(w1, DecideEvent(Tenant(1, 2), true));
  }

  lemma PreparedByFirst(maxAttempts: nat) returns (w: World)
    requires maxAttempts >= 1
    ensures Reachable(w) && w.db.now == 0
    ensures w.db.records == map[0 := IdemRecord(SLOT, "digest", Processing, None, None, DEFAULT_TTL_SECONDS,
                                                Some(LEASE_SECONDS), 0)]
    ensures w.db.nextRecord == 1 && w.db.nextToken == 1
    ensures w.db.executions == map[Random(0) := Execution(SCOPE, Some(0), 0, 1, Prepared, 1, maxAttempts, None,
                                                          false, false, true)]
    ensures 1 in w.db.messages && w.db.messages[1] == Message(Random(0), Assistant, "", Pending)
    ensures 0 in w.db.decisions && w.db.decisions[0] == Decision(Tenant(1, 2), true, Some(Random(0)), None)
    ensures w.db.ledger == [ReservationRow(FirstPrepare(maxAttempts))] && w.prepared == map[0 := Random(0)]
  {
    var w2 := GrantedToFirst();
    w := Step(w2, PrepareEvent(FirstPrepare(maxAttempts)));
    ReachableStep(w2, PrepareEvent(FirstPrepare(maxAttempts)));
  }

  lemma DisplacedIsReachable(maxAttempts: nat) returns (w: World)
    requires maxAttempts >= 1
    ensures Reachable(w) && Displaced(w, maxAttempts) && Superseded(w.db, 0, 0)
  {
    var w3 := PreparedByFirst(maxAttempts);
    var w4 := Step(w3, TickEvent(LEASE_SECONDS + 1));
    ReachableStep(w3, TickEvent(LEASE_SECONDS + 1));
    assert 0 in w4.db.records && w4.db.records[0].slot == SLOT;
    assert FindRecord(w4.db.records, SLOT) == Some(0);
    w := Step(w4, BeginEvent(SLOT, "digest"));
    ReachableStep(w4, BeginEvent(SLOT, "digest"));
  }

  // ---------------------------------------------------------------- preparing with a superseded lease

  /** A reachable world in which a client whose lease was taken over still creates the execution. */
  lemma StaleFirstPrepareCommits() returns (w: World, p: PrepareRequest)
    ensures Reachable(w) && Allowed(w, PrepareEvent(p))
    ensures p.record.Some? && p.token.Some? && Superseded(w.db, p.record.value, p.token.value)
    ensures Prepare(w.db, p).1.Persisted?
  {
    p := FirstPrepare(3);
    var w2 := GrantedToFirst();
    var w3 := Step(w2, TickEvent(LEASE_SECONDS + 1));
    ReachableStep(w2, TickEvent(LEASE_SECONDS + 1));
    assert 0 in w3.db.records && w3.db.records[0].slot == SLOT;
    assert FindRecord(w3.db.records, SLOT) == Some(0);
    w := Step(w3, BeginEvent(SLOT, "digest"));
    ReachableStep(w3, BeginEvent(SLOT, "digest"));
  }

  // ---------------------------------------------------------------- finalizing with a superseded lease

  /** The execution was attached to the record, and still is exactly while the record exists. */
  predicate AttachedWhilePresent(db: Db, e: ExecutionId, id: RecordId) {
    && e in db.executions && id < db.nextRecord
    && (db.executions[e].record == Some(id) || db.executions[e].record.None?)
    && (db.executions[e].record.Some? <==> id in db.records)
  }

  /** A step that detaches an execution deletes its record. */
  lemma DetachingDeletes(w: World, ev: Event, e: ExecutionId, id: RecordId)
    requires e in w.db.executions && w.db.executions[e].record == Some(id)
    requires e in Step(w, ev).db.executions && Step(w, ev).db.executions[e].record.None?
    ensures id !in Step(w, ev).db.records
  {
    match ev
    case PrepareEvent(p) => PrepareAdvances(w.db, p, e);
    case _ =>
  }

  lemma StepKeepsAttachment(w: World, ev: Event, e: ExecutionId, id: RecordId)
    requires Inv(w) && Allowed(w, ev) && AttachedWhilePresent(w.db, e, id)
    ensures AttachedWhilePresent(Step(w, ev).db, e, id)
  {
    StepAdvances(w, ev, e);
    StepAdvancesTokens(w, ev);
    StepKeepsInv(w, ev);
    var after := Step(w, ev);
    if after.db.executions[e].record.Some? {
      assert BindingOk(after.db.records, after.prepared, after.db.executions[e]);
    } else if w.db.executions[e].record.Some? {
      DetachingDeletes(w, ev, e, id);
    }
  }

  lemma {:induction false} RunKeepsAttachment(w: World, events: seq<Event>, e: ExecutionId, id: RecordId)
    requires Inv(w) && AllowedRun(w, events) && AttachedWhilePresent(w.db, e, id)
    ensures AttachedWhilePresent(Run(w, events).db, e, id) && Inv(Run(w, events))
    decreases |events|
  {
    if events != [] {
      StepKeepsInv(w, events[0]);
      StepKeepsAttachment(w, events[0], e, id);
      RunKeepsAttachment(Step(w, events[0]), events[1..], e, id);
    }
  }

  /**
   A superseded token and an unfinished execution that had the record: a proper finalization writes
   exactly when the record has been deleted meanwhile, and then it is not fenced at all.
  */
  lemma StaleFinalizeWritesOnlyDetached(w: World, events: seq<Event>, f: FinalizeRequest, id: RecordId, t: Token)
    requires Inv(w) && AllowedRun(w, events)
    requires f.execution in w.db.executions && w.db.executions[f.execution].record == Some(id)
    requires Superseded(Run(w, events).db, id, t) && f.token == Some(t)
    requires f.execution in Run(w, events).db.executions
    requires var x := Run(w, events).db.executions[f.execution]; !IsTerminal(x.status) && ProperRequest(x, f)
    ensures var db := Run(w, events).db;
      && (Finalize(db, f).1 == Finalized(true) <==> id !in db.records)
      && (Finalize(db, f).0 != db <==> id !in db.records)
  {
    var v := Run(w, events);
    assert BindingOk(w.db.records, w.prepared, w.db.executions[f.execution]);
    assert RecordOk(w.db, id);
    RunKeepsAttachment(w, events, f.execution, id);
    var x := v.db.executions[f.execution];
    assert MessagesOk(v.db.messages, f.execution, x);
    assert AuditOk(v.db.decisions, f.execution, x);
    OpenAttemptIsUnrecorded(v, f.execution, f.accounting);
    if id !in v.db.records {
      assert Finalize(v.db, f).0.executions[f.execution].status != x.status;
    }
  }

  /** The rival has given its lease up without preparing. */
  lemma RivalGivesUp() returns (w: World)
    ensures Reachable(w) && Superseded(w.db, 0, 0)
    ensures w.db.records.Keys == {0} && w.db.records[0].status.Failed?
    ensures w.db.records[0].expiresAt == DEFAULT_TTL_SECONDS && w.db.now == LEASE_SECONDS + 1
    ensures w.db.executions == map[Random(0) := Execution(SCOPE, Some(0), 0, 1, Prepared, 1, 3, None,
                                                          false, false, true)]
    ensures 1 in w.db.messages && w.db.messages[1] == Message(Random(0), Assistant, "", Pending)
    ensures 0 in w.db.decisions && w.db.decisions[0] == Decision(Tenant(1, 2), true, Some(Random(0)), None)
    ensures w.db.ledger == [ReservationRow(FirstPrepare(3))]
  {
    var w5 := DisplacedIsReachable(3);
    assert FindRecord(w5.db.records, SLOT) == Some(0);
    var giveUp := CompleteEvent(SLOT, 503, "failed", 1);
    w := Step(w5, giveUp);
    ReachableStep(w5, giveUp);
  }

  /** The record has expired and been cleaned up. */
  lemma RecordIsCleanedUp() returns (w: World)
    ensures Reachable(w) && Superseded(w.db, 0, 0) && w.db.records == map[]
    ensures w.db.executions == map[Random(0) := Execution(SCOPE, None, 0, 1, Prepared, 1, 3, None, false, false, true)]
    ensures 1 in w.db.messages && w.db.messages[1] == Message(Random(0), Assistant, "", Pending)
    ensures 0 in w.db.decisions && w.db.decisions[0] == Decision(Tenant(1, 2), true, Some(Random(0)), None)
    ensures w.db.ledger == [ReservationRow(FirstPrepare(3))]
  {
    var w6 := RivalGivesUp();
    var w7 := Step(w6, TickEvent(DEFAULT_TTL_SECONDS));
    ReachableStep(w6, TickEvent(DEFAULT_TTL_SECONDS));
    w := Step(w7, CleanupEvent);
    ReachableStep(w7, CleanupEvent);
    assert Expired(w7.db) == {0};
  }

  /** A reachable world in which the displaced client finalizes an execution it lost the lease of. */
  lemma StaleFinalizeCommits() returns (w: World, f: FinalizeRequest)
    ensures Reachable(w) && Superseded(w.db, 0, 0) && f.token == Some(0) && Allowed(w, FinalizeEvent(f))
    ensures Finalize(w.db, f).1 == Finalized(true) && Finalize(w.db, f).0 != w.db
  {
    w := RecordIsCleanedUp();
    f := FinalizeRequest(Random(0), ToCompleted, "late reply", 200, "{}", Some(0), None, []);
    assert OpenFor(w.db.decisions[0], Random(0), 1);
    assert HasOpenDecision(w.db.decisions, Random(0), w.db.executions[Random(0)]);
    assert Finalize(w.db, f).0.executions[Random(0)].status.Completed?;
  }

  // ---------------------------------------------------------------- marking as streaming

  /** Marking looks at no lease: it succeeds on every unfinished execution and writes on every prepared one. */
  lemma MarkNeedsNoLease(w: World, e: ExecutionId)
    requires Reachable(w)
    ensures MarkStreaming(w.db, e).1 == Marked(true) <==>
              e in w.db.executions && !IsTerminal(w.db.executions[e].status)
    ensures MarkStreaming(w.db, e).0 != w.db <==> e in w.db.executions && w.db.executions[e].status.Prepared?
  {
    ReachableInv(w);
    if e in w.db.executions {
      var x := w.db.executions[e];
      assert MessagesOk(w.db.messages, e, x);
      var after := MarkStreaming(w.db, e).0;
      if x.status.Prepared? {
        assert after.executions[e].status != x.status;
      } else if x.status.Streaming? {
        assert w.db.executions[e := x] == w.db.executions;
        assert after == w.db;
      }
    }
  }

  /** A reachable world in which the displaced client still marks the execution as streaming. */
  lemma StaleMarkCommits() returns (w: World)
    ensures Reachable(w) && Superseded(w.db, 0, 0) && w.prepared == map[0 := Random(0)]
    ensures Random(0) in w.db.executions && w.db.executions[Random(0)].record == Some(0)
    ensures MarkStreaming(w.db, Random(0)).1 == Marked(true) && MarkStreaming(w.db, Random(0)).0 != w.db
  {
    w := DisplacedIsReachable(3);
    MarkNeedsNoLease(w, Random(0));
  }

  // ---------------------------------------------------------------- decisions of terminal executions

  /** Only running out of attempts leaves a decision open. */
  predicate OpenOnlyIfExhausted(decisions: map<DecisionId, Decision>, e: ExecutionId, x: Execution) {
    IsTerminal(x.status) && HasOpenDecision(decisions, e, x) ==> x.lastFailure == Some(RetryExhausted)
  }

  ghost predicate AllClosed(db: Db) {
    forall e {:trigger OpenOnlyIfExhausted(db.decisions, e, db.executions[e])} | e in db.executions ::
      OpenOnlyIfExhausted(db.decisions, e, db.executions[e])
  }

  /** Executions that keep status, scope and failure, and decisions that open nothing new, keep the rest closed. */
  lemma OthersStayClosed(db: Db, after: Db, e: ExecutionId)
    requires AllClosed(db)
    requires forall f <- after.executions :: f != e ==>
               && f in db.executions && after.executions[f].status == db.executions[f].status
               && after.executions[f].scope == db.executions[f].scope
               && after.executions[f].lastFailure == db.executions[f].lastFailure
    requires forall d <- after.decisions ::
               || (d in db.decisions && after.decisions[d] == db.decisions[d])
               || after.decisions[d].result.Some?
               || after.decisions[d].execution == Some(e)
    requires e in after.executions ==> OpenOnlyIfExhausted(after.decisions, e, after.executions[e])
    ensures AllClosed(after)
  {
    forall f | f in after.executions ensures OpenOnlyIfExhausted(after.decisions, f, after.executions[f]) {
      if f != e {
        assert OpenOnlyIfExhausted(db.decisions, f, db.executions[f]);
      }
    }
  }

  lemma PrepareKeepsClosed(db: Db, p: PrepareRequest)
    requires AllClosed(db)
    ensures AllClosed(Prepare(db, p).0)
  {
    if Prepare(db, p).1.Persisted? || Prepare(db, p).1.RetryLimit? {
      OthersStayClosed(db, Prepare(db, p).0, p.execution);
    }
  }

  lemma FinalizeKeepsClosed(db: Db, f: FinalizeRequest)
    requires AllClosed(db)
    ensures AllClosed(Finalize(db, f).0)
  {
    if Finalize(db, f).1 == Finalized(true) {
      FinalizeClosesDecisions(db, f);
      OthersStayClosed(db, Finalize(db, f).0, f.execution);
    }
  }

  lemma RecoverKeepsClosed(db: Db, e: ExecutionId, record: RecordId, token: Option<Token>)
    requires AllClosed(db)
    ensures AllClosed(AssertRecoveryAllowed(db, e, record, token).0)
  {
    if AssertRecoveryAllowed(db, e, record, token).1.Exhausted? {
      OthersStayClosed(db, AssertRecoveryAllowed(db, e, record, token).0, e);
    }
  }

  lemma MarkKeepsClosed(db: Db, e: ExecutionId)
    requires AllClosed(db)
    ensures AllClosed(MarkStreaming(db, e).0)
  {
    if MarkStreaming(db, e).1 == Marked(true) {
      OthersStayClosed(db, MarkStreaming(db, e).0, e);
    }
  }

  /** Every other event changes at most the records and unbound decisions. */
  lemma OtherEventsKeepClosed(w: World, ev: Event)
    requires AllClosed(w.db)
    requires !ev.PrepareEvent? && !ev.FinalizeEvent? && !ev.RecoverEvent? && !ev.MarkEvent?
    requires Allowed(w, ev)
    ensures AllClosed(Step(w, ev).db)
  {
    var after := Step(w, ev).db;
    forall f | f in after.executions ensures OpenOnlyIfExhausted(after.decisions, f, after.executions[f]) {
      assert OpenOnlyIfExhausted(w.db.decisions, f, w.db.executions[f]);
    }
  }

  lemma StepKeepsClosed(w: World, ev: Event)
    requires AllClosed(w.db) && Allowed(w, ev)
    ensures AllClosed(Step(w, ev).db)
  {
    match ev
    case PrepareEvent(p) => PrepareKeepsClosed(w.db, p);
    case FinalizeEvent(f) => FinalizeKeepsClosed(w.db, f);
    case RecoverEvent(e, record, token) => RecoverKeepsClosed(w.db, e, record, token);
    case MarkEvent(e) => MarkKeepsClosed(w.db, e);
    case _ => OtherEventsKeepClosed(w, ev);
  }

  lemma {:induction false} RunKeepsClosed(w: World, events: seq<Event>)
    requires AllClosed(w.db) && AllowedRun(w, events)
    ensures AllClosed(Run(w, events).db)
    decreases |events|
  {
    if events != [] {
      StepKeepsClosed(w, events[0]);
      RunKeepsClosed(Step(w, events[0]), events[1..]);
    }
  }

  /** In every reachable state a terminal execution with an open decision has run out of attempts. */
  lemma OpenDecisionMeansExhausted(w: World, e: ExecutionId)
    requires Reachable(w) && e in w.db.executions
    requires IsTerminal(w.db.executions[e].status) && HasOpenDecision(w.db.decisions, e, w.db.executions[e])
    ensures w.db.executions[e].lastFailure == Some(RetryExhausted)
  {
    var now, events :| AllowedRun(Init(now), events) && w == Run(Init(now), events);
    RunKeepsClosed(Init(now), events);
    assert OpenOnlyIfExhausted(w.db.decisions, e, w.db.executions[e]);
  }

  /**
   Exhausting an execution that was not exhausted before leaves it terminal with an open decision
   exactly when it was in progress. `after` is what either exhausted branch commits.
  */
  predicate LeavesOpenIffInProgress(db: Db, after: Db, e: ExecutionId)
    requires e in db.executions
  {
    && e in after.executions && IsTerminal(after.executions[e].status)
    && after.executions[e].lastFailure == Some(RetryExhausted)
    && (HasOpenDecision(after.decisions, e, after.executions[e]) <==>
          HasOpenDecision(db.decisions, e, db.executions[e]))
    && (db.executions[e].lastFailure != Some(RetryExhausted) ==>
          (HasOpenDecision(after.decisions, e, after.executions[e]) <==> InProgressStatus(db.executions[e].status)))
  }

  /** Running out of attempts inside prepare_exchange. */
  lemma ExhaustionLeavesDecisionsOpen(w: World, p: PrepareRequest)
    requires Reachable(w) && p.execution in w.db.executions && Prepare(w.db, p).1.RetryLimit?
    ensures LeavesOpenIffInProgress(w.db, Prepare(w.db, p).0, p.execution)
  {
    ReachableInv(w);
    var x := w.db.executions[p.execution];
    assert AuditOk(w.db.decisions, p.execution, x);
    if !InProgressStatus(x.status) && HasOpenDecision(w.db.decisions, p.execution, x) {
      OpenDecisionMeansExhausted(w, p.execution);
    }
  }

  /** Running out of attempts in the recovery check, which a recovering request makes first. */
  lemma RecoveryExhaustionLeavesDecisionsOpen(w: World, e: ExecutionId, record: RecordId, token: Option<Token>)
    requires Reachable(w) && e in w.db.executions
    requires AssertRecoveryAllowed(w.db, e, record, token).1.Exhausted?
    ensures LeavesOpenIffInProgress(w.db, AssertRecoveryAllowed(w.db, e, record, token).0, e)
  {
    ReachableInv(w);
    var x := w.db.executions[e];
    assert AuditOk(w.db.decisions, e, x);
    if !InProgressStatus(x.status) && HasOpenDecision(w.db.decisions, e, x) {
      OpenDecisionMeansExhausted(w, e);
    }
  }

  /** A reachable world in which a recovery check has left a terminal execution with an open decision. */
  lemma ExhaustedWithOpenDecision() returns (w: World)
    ensures Reachable(w) && Random(0) in w.db.executions
    ensures IsTerminal(w.db.executions[Random(0)].status)
    ensures HasOpenDecision(w.db.decisions, Random(0), w.db.executions[Random(0)])
  {
    var w5 := DisplacedIsReachable(1);
    var recover := RecoverEvent(Random(0), 0, Some(1));
    ReachableStep(w5, recover);
    RecoveryExhaustionLeavesDecisionsOpen(w5, Random(0), 0, Some(1));
    w := Step(w5, recover);
  }
}
