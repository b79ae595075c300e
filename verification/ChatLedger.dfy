/** The cost ledger holds exactly what finalizations were given: tokens are conserved over every run. */
module ChatLedger {
  import opened Common
  import opened ChatModel
  import opened ChatProtocol
  import opened ChatTheorems

  datatype Measure = Input | Output | Total

  /** What is added up: one measure of the rows booked for an execution as one operation from one source. */
  datatype Account = Account(execution: ExecutionId, operation: Operation, source: UsageSource, measure: Measure)

  /** What one row adds to an account; reservations are not costs. */
  function RowTokens(row: UsageRow, a: Account): int {
    if row.source == Reserved || row.execution != a.execution || row.operation != a.operation || row.source != a.source
    then 0
    else
      match a.measure
      case Input => row.inputTokens
      case Output => row.outputTokens
      case Total => row.totalTokens
  }

  /** What the first `n` rows add up to. */
  function BookedUpTo(ledger: seq<UsageRow>, a: Account, n: nat): int
    requires n <= |ledger|
  {
    if n == 0 then 0 else BookedUpTo(ledger, a, n - 1) + RowTokens(ledger[n - 1], a)
  }

  function Booked(ledger: seq<UsageRow>, a: Account): int {
    BookedUpTo(ledger, a, |ledger|)
  }

  /** What one accounting entry of the account's execution charges. */
  function EntryTokens(c: ExecutionCost, a: Account): int {
    if c.operation != a.operation || c.source != a.source then 0
    else
      match a.measure
      case Input => c.inputTokens
      case Output => c.outputTokens
      case Total => c.inputTokens + c.outputTokens
  }

  /** What the first `n` accounting entries charge. */
  function ChargedUpTo(entries: seq<ExecutionCost>, a: Account, n: nat): int
    requires n <= |entries|
  {
    if n == 0 then 0 else ChargedUpTo(entries, a, n - 1) + EntryTokens(entries[n - 1], a)
  }

  function Charged(entries: seq<ExecutionCost>, a: Account): int {
    ChargedUpTo(entries, a, |entries|)
  }

  /** Rows that add the same add up to the same. */
  lemma {:induction false} SameRowsBookTheSame(a: seq<UsageRow>, b: seq<UsageRow>, account: Account, n: nat)
    requires n <= |a| && n <= |b| && forall k | 0 <= k < n :: RowTokens(a[k], account) == RowTokens(b[k], account)
    ensures BookedUpTo(a, account, n) == BookedUpTo(b, account, n)
  {
    if n > 0 {
      SameRowsBookTheSame(a, b, account, n - 1);
    }
  }

  /** The rows of a finalization of `e` book exactly its accounting, and only for `e`. */
  lemma {:induction false} CostRowsAreBooked(ledger: seq<UsageRow>, all: seq<UsageRow>, e: ExecutionId, attempt: nat,
                                             entries: seq<ExecutionCost>, a: Account, n: nat)
    requires n <= |entries| && |all| == |ledger| + |entries|
    requires forall k | 0 <= k < |ledger| :: all[k] == ledger[k]
    requires forall k | |ledger| <= k < |all| :: all[k] == CostRow(e, attempt, entries[k - |ledger|])
    ensures BookedUpTo(all, a, |ledger| + n) ==
              Booked(ledger, a) + if a.execution == e then ChargedUpTo(entries, a, n) else 0
  {
    if n == 0 {
      SameRowsBookTheSame(all, ledger, a, |ledger|);
    } else {
      CostRowsAreBooked(ledger, all, e, attempt, entries, a, n - 1);
      assert all[|ledger| + n - 1] == CostRow(e, attempt, entries[n - 1]);
    }
  }

  // ---------------------------------------------------------------- over runs

  /** The event is a finalization of `e` that returns True. */
  predicate Settles(w: World, ev: Event, e: ExecutionId) {
    ev.FinalizeEvent? && ev.finalize.execution == e && Finalize(w.db, ev.finalize).1 == Finalized(true)
  }

  /** What one event accounts for. */
  function Entry(w: World, ev: Event, a: Account): int {
    if Settles(w, ev, a.execution) then Charged(ev.finalize.accounting, a) else 0
  }

  /** What the finalizations of an execution that return True were given, along a run. */
  ghost function Accounted(w: World, events: seq<Event>, a: Account): int
    decreases |events|
  {
    if events == [] then 0
    else Entry(w, events[0], a) + Accounted(Step(w, events[0]), events[1..], a)
  }

  lemma FinalizeAppends(db: Db, f: FinalizeRequest)
    ensures Finalize(db, f).1 == Finalized(true) ==>
              f.execution in db.executions && Finalize(db, f).0.ledger ==
                db.ledger + CostRows(f.execution, db.executions[f.execution].attempts, f.accounting)
    ensures Finalize(db, f).1 != Finalized(true) ==> Finalize(db, f).0.ledger == db.ledger
  {
  }

  lemma FinalizeBooks(w: World, f: FinalizeRequest, a: Account)
    ensures Booked(Finalize(w.db, f).0.ledger, a) == Booked(w.db.ledger, a) + Entry(w, FinalizeEvent(f), a)
  {
    FinalizeAppends(w.db, f);
    if Finalize(w.db, f).1 == Finalized(true) {
      CostRowsAreBooked(w.db.ledger, Finalize(w.db, f).0.ledger, f.execution,
                        w.db.executions[f.execution].attempts, f.accounting, a, |f.accounting|);
    }
  }

  lemma OtherEventsBookNothing(w: World, ev: Event)
    requires !ev.PrepareEvent? && !ev.FinalizeEvent?
    ensures Step(w, ev).db.ledger == w.db.ledger
  {
  }

  lemma StepBooks(w: World, ev: Event, a: Account)
    ensures Booked(Step(w, ev).db.ledger, a) == Booked(w.db.ledger, a) + Entry(w, ev, a)
  {
    match ev
    case PrepareEvent(p) => PrepareBooksNothing(w.db, p, a);
    case FinalizeEvent(f) => FinalizeBooks(w, f, a);
    case _ => OtherEventsBookNothing(w, ev);
  }

  lemma PrepareBooksNothing(db: Db, p: PrepareRequest, a: Account)
    ensures Booked(Prepare(db, p).0.ledger, a) == Booked(db.ledger, a)
  {
    SameRowsBookTheSame(Prepare(db, p).0.ledger, db.ledger, a, |db.ledger|);
  }

  /**
   Conservation of usage: over any run the cost rows of an execution grow, for each operation and
   source, by exactly the input, output and total tokens of the accounting of its finalizations.
  */
  lemma {:induction false} UsageIsConserved(w: World, events: seq<Event>, a: Account)
    ensures Booked(Run(w, events).db.ledger, a) == Booked(w.db.ledger, a) + Accounted(w, events, a)
    decreases |events|
  {
    if events != [] {
      StepBooks(w, events[0], a);
      UsageIsConserved(Step(w, events[0]), events[1..], a);
    }
  }

  // ---------------------------------------------------------------- rows

  /** A reservation holds no usage; a cost row totals input and output; a primary row is the execution's model's. */
  predicate SoundRow(executions: map<ExecutionId, Execution>, row: UsageRow) {
    && row.execution in executions
    && var scope := executions[row.execution].scope;
    if row.source == Reserved then
      row.inputTokens == 0 && row.outputTokens == 0 && row.provider == scope.provider && row.model == scope.model
    else
      && row.totalTokens == row.inputTokens + row.outputTokens && row.operation != Reservation
      && (row.operation == Primary ==> row.provider == scope.provider && row.model == scope.model)
  }

  ghost predicate SoundLedger(db: Db) {
    forall k {:trigger SoundRow(db.executions, db.ledger[k])} | 0 <= k < |db.ledger| ::
      SoundRow(db.executions, db.ledger[k])
  }

  /** Executions keep their scope, so rows that stay remain sound. */
  lemma OldRowsStaySound(w: World, ev: Event)
    requires SoundLedger(w.db)
    ensures forall k | 0 <= k < |w.db.ledger| :: SoundRow(Step(w, ev).db.executions, w.db.ledger[k])
  {
    forall k | 0 <= k < |w.db.ledger| ensures SoundRow(Step(w, ev).db.executions, w.db.ledger[k]) {
      assert SoundRow(w.db.executions, w.db.ledger[k]);
      StepAdvances(w, ev, w.db.ledger[k].execution);
    }
  }

  lemma StepKeepsSound(w: World, ev: Event)
    requires SoundLedger(w.db)
    ensures SoundLedger(Step(w, ev).db)
  {
    var after := Step(w, ev).db;
    OldRowsStaySound(w, ev);
    match ev
    case PrepareEvent(p) => PrepareKeepsSound(w, p);
    case FinalizeEvent(f) => FinalizeKeepsSound(w, f);
    case _ => assert after.ledger == w.db.ledger;
  }

  lemma PrepareKeepsSound(w: World, p: PrepareRequest)
    requires SoundLedger(w.db)
    ensures SoundLedger(Prepare(w.db, p).0)
  {
    var after := Step(w, PrepareEvent(p)).db;
    OldRowsStaySound(w, PrepareEvent(p));
    forall k | 0 <= k < |after.ledger| ensures SoundRow(after.executions, after.ledger[k]) {
      if k < |w.db.ledger| {
        assert SoundRow(after.executions, w.db.ledger[k]);
      }
    }
  }

  lemma FinalizeKeepsSound(w: World, f: FinalizeRequest)
    requires SoundLedger(w.db)
    ensures SoundLedger(Finalize(w.db, f).0)
  {
    var after := Step(w, FinalizeEvent(f)).db;
    OldRowsStaySound(w, FinalizeEvent(f));
    var n := |w.db.ledger|;
    forall k | 0 <= k < |after.ledger| ensures SoundRow(after.executions, after.ledger[k]) {
      if k < n {
        assert after.ledger[k] == w.db.ledger[k];
      } else {
        assert after.ledger[k] ==
               CostRow(f.execution, w.db.executions[f.execution].attempts, f.accounting[k - n]);
        StepAdvances(w, FinalizeEvent(f), f.execution);
      }
    }
  }

  lemma {:induction false} RunKeepsSound(w: World, events: seq<Event>)
    requires SoundLedger(w.db)
    ensures SoundLedger(Run(w, events).db)
    decreases |events|
  {
    if events != [] {
      StepKeepsSound(w, events[0]);
      RunKeepsSound(Step(w, events[0]), events[1..]);
    }
  }

  /** In every reachable state every row is sound. */
  lemma LedgerRowsAreSound(w: World, k: nat)
    requires Reachable(w) && k < |w.db.ledger|
    ensures SoundRow(w.db.executions, w.db.ledger[k])
  {
    var now, events :| AllowedRun(Init(now), events) && w == Run(Init(now), events);
    RunKeepsSound(Init(now), events);
    assert SoundRow(w.db.executions, w.db.ledger[k]);
  }
}
