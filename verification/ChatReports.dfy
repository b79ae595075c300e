/** What an execution row says about itself is true: its reply, its flags and its failure. */
module ChatReports {
  import opened Common
  import opened ChatModel
  import opened ChatProtocol
  import ChatTheorems

  /** The failure that was reported says whether another attempt is possible. */
  predicate FailureIsTold(x: Execution) {
    x.lastFailure.Some? && x.retryable == PolicyOf(x.lastFailure.value).retryable
  }

  /**
   While an attempt is open its reply is empty and it is a first attempt or follows a retryable
   failure. A completed execution is neither partial nor retryable. A failed or cancelled one is
   partial exactly when it kept some text, and retryable exactly as its failure code says.
  */
  predicate Truthful(messages: map<MessageId, Message>, x: Execution) {
    && x.assistantMessage in messages
    && var content := messages[x.assistantMessage].content;
    if InProgressStatus(x.status) then
      && content == "" && !x.partial
      && (if x.attempts == 1 then x.lastFailure.None? && !x.retryable else FailureIsTold(x) && x.retryable)
    else if x.status.Completed? then !x.partial && !x.retryable
    else x.partial == (content != "") && FailureIsTold(x)
  }

  ghost predicate AllTruthful(db: Db) {
    forall e {:trigger Truthful(db.messages, db.executions[e])} | e in db.executions ::
      Truthful(db.messages, db.executions[e])
  }

  /** One execution becomes truthful by a step that leaves the others and their replies alone. */
  lemma OneChanges(w: World, e: ExecutionId, after: Db)
    requires Inv(w) && AllTruthful(w.db) && e in after.executions
    requires after.executions == w.db.executions[e := after.executions[e]]
    requires Truthful(after.messages, after.executions[e])
    requires forall m <- w.db.messages :: w.db.messages[m].execution != e ==>
               m in after.messages && after.messages[m] == w.db.messages[m]
    ensures AllTruthful(after)
  {
    forall f | f in after.executions ensures Truthful(after.messages, after.executions[f]) {
      if f != e {
        assert Truthful(w.db.messages, w.db.executions[f]);
        assert MessagesOk(w.db.messages, f, w.db.executions[f]);
      }
    }
  }

  lemma PrepareKeepsTruth(w: World, p: PrepareRequest)
    requires Inv(w) && AllTruthful(w.db)
    ensures AllTruthful(Prepare(w.db, p).0)
  {
    var e := p.execution;
    if e in w.db.executions {
      assert Truthful(w.db.messages, w.db.executions[e]);
      assert MessagesOk(w.db.messages, e, w.db.executions[e]);
      if Prepare(w.db, p).1.Persisted? || Prepare(w.db, p).1.RetryLimit? {
        OneChanges(w, e, Prepare(w.db, p).0);
      }
    } else if Prepare(w.db, p).1.Persisted? {
      OneChanges(w, e, Prepare(w.db, p).0);
    }
  }

  lemma MarkKeepsTruth(w: World, e: ExecutionId)
    requires Inv(w) && AllTruthful(w.db)
    ensures AllTruthful(MarkStreaming(w.db, e).0)
  {
    if MarkStreaming(w.db, e).1 == Marked(true) {
      assert Truthful(w.db.messages, w.db.executions[e]);
      OneChanges(w, e, MarkStreaming(w.db, e).0);
    }
  }

  lemma RecoverKeepsTruth(w: World, e: ExecutionId, record: RecordId, token: Option<Token>)
    requires Inv(w) && AllTruthful(w.db)
    ensures AllTruthful(AssertRecoveryAllowed(w.db, e, record, token).0)
  {
    if AssertRecoveryAllowed(w.db, e, record, token).1.Exhausted? {
      OneChanges(w, e, AssertRecoveryAllowed(w.db, e, record, token).0);
    }
  }

  lemma FinalizeKeepsTruth(w: World, f: FinalizeRequest)
    requires Inv(w) && AllTruthful(w.db) && Allowed(w, FinalizeEvent(f))
    ensures AllTruthful(Finalize(w.db, f).0)
  {
    if Finalize(w.db, f).1 == Finalized(true) {
      OneChanges(w, f.execution, Finalize(w.db, f).0);
    }
  }

  /** Detaching a record changes nothing an execution reports. */
  lemma DetachingKeepsTruth(db: Db, after: Db)
    requires AllTruthful(db) && after.messages == db.messages && after.executions.Keys == db.executions.Keys
    requires forall e <- db.executions ::
               after.executions[e] == db.executions[e] || after.executions[e] == db.executions[e].(record := None)
    ensures AllTruthful(after)
  {
    forall e | e in after.executions ensures Truthful(after.messages, after.executions[e]) {
      assert Truthful(db.messages, db.executions[e]);
    }
  }

  lemma StepKeepsTruth(w: World, ev: Event)
    requires Inv(w) && Allowed(w, ev) && AllTruthful(w.db)
    ensures AllTruthful(Step(w, ev).db)
  {
    match ev
    case PrepareEvent(p) => PrepareKeepsTruth(w, p);
    case MarkEvent(e) => MarkKeepsTruth(w, e);
    case RecoverEvent(e, record, token) => RecoverKeepsTruth(w, e, record, token);
    case FinalizeEvent(f) => FinalizeKeepsTruth(w, f);
    case _ => DetachingKeepsTruth(w.db, Step(w, ev).db);
  }

  lemma {:induction false} RunKeepsTruth(w: World, events: seq<Event>)
    requires Inv(w) && AllTruthful(w.db) && AllowedRun(w, events)
    ensures AllTruthful(Run(w, events).db)
    decreases |events|
  {
    if events != [] {
      StepKeepsInv(w, events[0]);
      StepKeepsTruth(w, events[0]);
      RunKeepsTruth(Step(w, events[0]), events[1..]);
    }
  }

  /** In every reachable state every execution row tells the truth about its attempt. */
  lemma ReportsAreTruthful(w: World, e: ExecutionId)
    requires Reachable(w) && e in w.db.executions
    ensures Truthful(w.db.messages, w.db.executions[e])
  {
    var now, events :| AllowedRun(Init(now), events) && w == Run(Init(now), events);
    RunKeepsTruth(Init(now), events);
  }

  /** The prompt of an execution stays as it was written. */
  predicate SamePrompt(a: Db, b: Db, e: ExecutionId)
    requires e in a.executions
  {
    var m := a.executions[e].userMessage;
    && e in b.executions && b.executions[e].userMessage == m
    && m in a.messages && m in b.messages && b.messages[m] == a.messages[m]
  }

  lemma StepKeepsPrompt(w: World, ev: Event, e: ExecutionId)
    requires Inv(w) && e in w.db.executions
    ensures SamePrompt(w.db, Step(w, ev).db, e)
  {
    ChatTheorems.StepAdvances(w, ev, e);
    var m := w.db.executions[e].userMessage;
    assert MessagesOk(w.db.messages, e, w.db.executions[e]);
    match ev
    case PrepareEvent(p) => PrepareKeepsUsers(w, p, m);
    case FinalizeEvent(f) =>
    case RecoverEvent(f, record, token) =>
    case _ =>
  }

  lemma PrepareKeepsUsers(w: World, p: PrepareRequest, m: MessageId)
    requires Inv(w) && m in w.db.messages && w.db.messages[m].role.User?
    ensures m in Prepare(w.db, p).0.messages && Prepare(w.db, p).0.messages[m] == w.db.messages[m]
  {
  }

  lemma {:induction false} RunKeepsPrompt(w: World, events: seq<Event>, e: ExecutionId)
    requires Inv(w) && AllowedRun(w, events) && e in w.db.executions
    ensures SamePrompt(w.db, Run(w, events).db, e)
    decreases |events|
  {
    assert MessagesOk(w.db.messages, e, w.db.executions[e]);
    if events != [] {
      StepKeepsInv(w, events[0]);
      StepKeepsPrompt(w, events[0], e);
      RunKeepsPrompt(Step(w, events[0]), events[1..], e);
    }
  }
}
