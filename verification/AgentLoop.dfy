/**
 The asynchronous agent loop with its execution budget and audit trail. The planner, the authorizer,
 the tool, the clocks and the audit database are arbitrary scripts, so every run is covered. In a
 governed run the authorizer's verdicts and the tool's results are the runtime's.
*/
module AgentLoop {
  import opened Common
  import opened AgentTrace
  import opened AgentGuard
  import opened AgentRuns
  import AgentPermits
  import ToolSchema

  datatype Outcome = Outcome(status: Status, reason: Reason, steps: nat, observation: Option<ToolSchema.Value>)

  /** A run returns, is cancelled inside its tool, or stops because an audit write failed. */
  datatype RunResult = Returned(outcome: Outcome) | Cancelled(steps: nat) | AuditUnavailable

  datatype Recorded = Persisted | AuditDown
  {
    predicate IsFailure() {
      AuditDown?
    }

    function PropagateFailure(): RunResult
      requires IsFailure()
    {
      AuditUnavailable
    }
  }

  // ---------------------------------------------------------------- execution budget

  class ExecutionBudget {
    var remaining: int
    var ticks: nat
    const deadline: real
    const clock: nat -> real

    constructor (maxExecutions: int, timeout: real, clock: nat -> real)
      requires maxExecutions >= 0 && timeout > 0.0
      ensures remaining == maxExecutions && ticks == 1 && deadline == clock(0) + timeout && this.clock == clock
    {
      this.clock := clock;
      remaining, ticks, deadline := maxExecutions, 1, clock(0) + timeout;
    }

    /** Grants exactly while time and executions remain, and spends one execution per grant. */
    method Consume() returns (ruling: BudgetRuling)
      requires remaining >= 0
      modifies this
      ensures remaining >= 0 && ticks == old(ticks) + 1
      ensures ruling.allowed <==> clock(old(ticks)) < deadline && old(remaining) > 0
      ensures remaining == old(remaining) - (if ruling.allowed then 1 else 0) == ruling.remaining
      ensures ruling.reason == if clock(old(ticks)) >= deadline then TimeBudgetExhausted
                               else if old(remaining) == 0 then ExecutionBudgetExhausted
                               else BudgetGranted
    {
      var now := clock(ticks);
      ticks := ticks + 1;
      if now >= deadline {
        return BudgetRuling(false, TimeBudgetExhausted, remaining);
      }
      if remaining <= 0 {
        return BudgetRuling(false, ExecutionBudgetExhausted, 0);
      }
      remaining := remaining - 1;
      return BudgetRuling(true, BudgetGranted, remaining);
    }
  }

  // ---------------------------------------------------------------- one run

  const DECLINED := Outcome(Denied, NonCancellableExecutor, 0, None)

  /** None of the first `n` audit writes fails. */
  ghost predicate IsWritten(auditFails: nat -> bool, n: nat) {
    n > 0 ==> !auditFails(n - 1) && IsWritten(auditFails, n - 1)
  }

  /** The outcome is the one the guard has come to, and carries what was seen last where it says so. */
  predicate Tells(g: Guard, seen: Option<ToolSchema.Value>, outcome: Outcome) {
    match g
    case Done(status, reason, carries) =>
      && outcome.status == status && outcome.reason == reason
      && outcome.observation == if carries then seen else None
    case Declined => outcome == DECLINED
    case _ => false
  }

  /** Where the trace and the guard stand. */
  datatype Place = Place(phase: Phase, guard: Guard)

  /** The trace and the guard both allow an event, and it leads there. */
  predicate Leads(maxDepth: nat, from: Place, event: AuditEvent, to: Place) {
    && Next(maxDepth, from.phase, event) == to.phase && !to.phase.Bad?
    && MoveByEvent(from.guard, event) == to.guard && !to.guard.Broken?
  }

  class AgentRun {
    const limits: Limits
    const budget: ExecutionBudget
    const planner: nat -> Answer<Option<Step>>
    const authorizer: nat -> Answer<Ruling>
    const tool: nat -> ToolAnswer
    const clock: nat -> real
    const auditFails: nat -> bool

    /** Null when the callbacks are the scripts alone. */
    const runtime: AgentPermits.GovernedRuntime?
    const executors: nat -> (ToolSchema.Value, AgentPermits.Permit) -> AgentPermits.Executed

    var calls: Calls
    var writes: nat
    var sequence: nat
    var rows: seq<AuditRow>
    var deadline: real
    ghost var run: Run
    ghost var allowance: int
    ghost var firstWeighing: nat

    constructor (limits: Limits, budget: ExecutionBudget, planner: nat -> Answer<Option<Step>>,
                 authorizer: nat -> Answer<Ruling>, tool: nat -> ToolAnswer, clock: nat -> real,
                 auditFails: nat -> bool, runtime: AgentPermits.GovernedRuntime?,
                 executors: nat -> (ToolSchema.Value, AgentPermits.Permit) -> AgentPermits.Executed)
      ensures this.limits == limits && this.budget == budget && this.clock == clock && this.runtime == runtime
      ensures this.planner == planner && this.authorizer == authorizer && this.tool == tool
      ensures this.auditFails == auditFails && this.executors == executors
      ensures IsNew()
    {
      this.limits, this.budget, this.planner, this.authorizer := limits, budget, planner, authorizer;
      this.tool, this.clock, this.auditFails := tool, clock, auditFails;
      this.runtime, this.executors := runtime, executors;
      calls, writes, sequence, rows, deadline := START.calls, 0, 0, [], 0.0;
      run, allowance, firstWeighing := UNSTARTED, 0, 0;
    }

    /** As constructed: nothing consulted, nothing recorded. */
    predicate IsNew()
      reads this
    {
      writes == sequence == 0 && rows == [] && calls == START.calls
    }

    /** What the run's callbacks, clocks and budget will say. */
    ghost function Consulted(): Sources
      reads `deadline, `allowance, `firstWeighing
    {
      var policy := if runtime == null then None else Some(Policy(runtime.authority, runtime.tools));
      Sources(limits, policy, planner, authorizer, tool, clock, deadline, budget.clock, budget.deadline,
              firstWeighing, allowance)
    }

    /** The runtime's permit table and dispatches are the run's. */
    ghost predicate Tied(state: State)
      reads runtime
    {
      runtime != null ==> runtime.permits == state.permits && runtime.history == state.history
    }

    /** What holds wherever the run stops. */
    ghost predicate Sound()
      reads this, runtime
    {
      && run.sources == Consulted()
      && calls == run.Now().calls
      && rows == run.Now().rows && sequence == |rows|
      && Tied(run.Now())
    }

    /** The phase of the trace, the guard and what was seen last; the budget has paid for every grant. */
    ghost predicate Stands(phase: Phase, guard: Guard, seen: Option<ToolSchema.Value>)
      reads this, budget, runtime
    {
      && Sound() && writes == |rows| && IsWritten(auditFails, writes)
      && var now := run.Now();
      && now.phase == phase && now.guard == guard && now.seen == seen
      && 0 <= budget.remaining == allowance - calls.grants
      && budget.ticks == firstWeighing + calls.weighings
    }

    /** A run that is over: returned or cancelled with a finished trace, or stopped by its first failed audit write. */
    ghost predicate Over(result: RunResult)
      reads this, budget, runtime
    {
      match result
      case Returned(outcome) =>
        Ends(Ended(outcome.status, outcome.reason, outcome.steps)) &&
        Tells(run.Now().guard, run.Now().seen, outcome)
      case Cancelled(steps) =>
        Ends(Ended(CancelledRun, RunCancelled, steps)) &&
        run.Now().guard == Done(CancelledRun, RunCancelled, true)
      case AuditUnavailable => Sound() && Stopped()
    }

    ghost predicate Ends(phase: Phase)
      reads this, budget, runtime
    {
      Sound() && Stands(phase, run.Now().guard, run.Now().seen)
    }

    /** The last audit write, and only that one, has failed. */
    ghost predicate Stopped()
      reads this
    {
      writes == |rows| + 1 && auditFails(|rows|) && IsWritten(auditFails, |rows|)
    }

    // -------------------------------------------------------------- audit, clock and callbacks

    /** One audit write: it commits the next row or leaves the trail as it was. */
    method Record(event: AuditEvent) returns (r: Recorded)
      modifies `writes, `sequence, `rows
      ensures writes == old(writes) + 1
      ensures r.AuditDown? <==> auditFails(old(writes))
      ensures r.Persisted? ==> sequence == old(sequence) + 1 && rows == old(rows) + [AuditRow(sequence, event)]
      ensures r.AuditDown? ==> sequence == old(sequence) && rows == old(rows)
    {
      writes := writes + 1;
      if auditFails(writes - 1) {
        return AuditDown;
      }
      var next := sequence + 1;
      rows := rows + [AuditRow(next, event)];
      sequence := next;
      return Persisted;
    }

    ghost method Extend(action: Action, history: seq<AgentPermits.DispatchRecord>)
      requires IsStep(run.sources, run.Now(), action, After(run.sources, run.Now(), action, history))
      modifies `run
      ensures run.sources == old(run.sources) && run.log == old(run.log) + [action]
      ensures run.Now() == After(run.sources, old(run.Now()), action, history)
    {
      var q := After(run.sources, run.Now(), action, history);
      RunAppend(run, action, q);
      run := Trace(run.sources, run.log + [action], run.states + [q]);
    }

    /** An audit event moves the trace and the guard and leaves the rest. */
    ghost method Attest(event: AuditEvent, to: Place)
      requires Leads(run.sources.limits.maxDepth, Place(run.Now().phase, run.Now().guard), event, to)
      modifies `run
      ensures run.sources == old(run.sources)
      ensures var p, q := old(run.Now()), run.Now();
        && q == p.(phase := to.phase, guard := to.guard, events := q.events, rows := q.rows)
        && q.rows == p.rows + [AuditRow(|p.rows| + 1, event)]
    {
      AuditIsStep(run, event);
      Extend(Audit(event), run.Now().history);
    }

    /** Records one event that the trace and the guard allow here. */
    method Note(ghost phase: Phase, ghost guard: Guard, ghost seen: Option<ToolSchema.Value>, event: AuditEvent,
                ghost to: Place)
      returns (r: Recorded)
      requires Stands(phase, guard, seen) && Leads(limits.maxDepth, Place(phase, guard), event, to)
      modifies `writes, `sequence, `rows, `run
      ensures r.Persisted? ==> Stands(to.phase, to.guard, seen)
      ensures r.AuditDown? ==> Sound() && Stopped()
    {
      r := Record(event);
      if r.Persisted? {
        Attest(event, to);
      }
    }

    /** The runtime's own doing: the policy's verdict, a dispatch's outcome. */
    ghost predicate Fits(guard: Guard, action: Action)
      reads this, runtime
    {
      runtime != null ==>
        && !action.AuthorizeCall? && !action.ToolCall?
        && AgentPermits.VerdictIsFaithful(runtime.authority, runtime.tools, guard, action)
        && (action.ToolAnswered? ==>
              runtime.history != [] &&
              AgentPermits.IsReport(runtime.history[|runtime.history| - 1].outcome, action.answer))
    }

    /** Any other action; the runtime, if there is one, has no part in it or has prepared it. */
    method Act(ghost phase: Phase, ghost guard: Guard, ghost seen: Option<ToolSchema.Value>, action: Action)
      requires Stands(phase, guard, seen) && Fits(guard, action) && Obeys(Consulted(), run.Now(), action)
      requires !action.Audit? && !action.BudgetAnswer? && !Move(deadline, guard, action).Broken? && !phase.Bad?
      modifies `calls, `run
      ensures Stands(phase, Move(deadline, guard, action), Seen(seen, action))
      ensures calls == Counted(old(calls), action)
    {
      calls := Counted(calls, action);
      Extend(action, run.Now().history);
    }

    /** A reading of the run's clock, after the one that fixed the deadline. */
    method ReadClock(ghost phase: Phase, ghost guard: Guard, ghost seen: Option<ToolSchema.Value>)
      returns (now: real)
      requires Stands(phase, guard, seen) && !phase.Bad? && !guard.Opening?
      requires !MoveByClock(deadline, guard, 0.0).Broken?
      modifies `calls, `run
      ensures Stands(phase, MoveByClock(deadline, guard, now), seen)
      ensures calls == old(calls).(ticks := old(calls).ticks + 1)
    {
      now := clock(calls.ticks);
      Act(phase, guard, seen, ClockRead(now));
    }

    /** The deadline is checked before a call ... */
    method IsLate(ghost phase: Phase, ghost guard: Guard, ghost seen: Option<ToolSchema.Value>)
      returns (late: bool, ghost now: real)
      requires Stands(phase, guard, seen) && !phase.Bad? && !guard.Opening?
      requires !MoveByClock(deadline, guard, 0.0).Broken?
      modifies `calls, `run
      ensures late <==> now >= deadline
      ensures Stands(phase, MoveByClock(deadline, guard, now), seen)
      ensures calls == old(calls).(ticks := old(calls).ticks + 1)
    {
      var read := ReadClock(phase, guard, seen);
      now := read;
      late := deadline - read <= 0.0;
    }

    /** ... and again before awaiting what the call returned. */
    method AwaitAnswer<T>(ghost phase: Phase, ghost guard: Guard, ghost seen: Option<ToolSchema.Value>,
                          answer: Answer<T>)
      returns (reply: Reply<T>, late: bool)
      requires Stands(phase, guard, seen) && !phase.Bad? && (guard.Planning? || guard.Asked?)
      modifies `calls, `run
      ensures if late then reply == Expired && Stands(phase, Overdue, seen)
              else reply == answer.reply && Stands(phase, guard, seen)
      ensures calls.(ticks := 0) == old(calls).(ticks := 0)
    {
      late := false;
      if answer.Later? {
        ghost var now;
        late, now := IsLate(phase, guard, seen);
        if late {
          return Expired, true;
        }
      }
      reply := answer.reply;
    }

    /** A plan was heard, or the deadline passed first. */
    ghost predicate IsPlanned(phase: Phase, seen: Option<ToolSchema.Value>, plan: Reply<Option<Step>>)
      reads this, budget, runtime
    {
      Stands(phase, Heard(plan), seen) || (plan == Expired && Stands(phase, Overdue, seen))
    }

    method Plan(ghost phase: Phase, observation: Option<ToolSchema.Value>) returns (reply: Reply<Option<Step>>)
      requires Stands(phase, OnTime, observation) && !phase.Bad?
      modifies `calls, `run
      ensures IsPlanned(phase, observation, reply)
    {
      var late, now := IsLate(phase, OnTime, observation);
      if late {
        return Expired;
      }
      var answer := planner(calls.plans);
      Act(phase, Ready, observation, PlannerCall(observation));
      reply := HearPlan(phase, observation, answer);
    }

    method HearPlan(ghost phase: Phase, ghost seen: Option<ToolSchema.Value>, answer: Answer<Option<Step>>)
      returns (reply: Reply<Option<Step>>)
      requires Stands(phase, Planning, seen) && !phase.Bad?
      requires calls.plans > 0 && answer == planner(calls.plans - 1)
      modifies `calls, `run
      ensures IsPlanned(phase, seen, reply)
    {
      var late;
      reply, late := AwaitAnswer(phase, Planning, seen, answer);
      if !late {
        Act(phase, Planning, seen, PlannerAnswer(reply));
      }
    }

    /** A verdict arrived, or the deadline passed first. */
    ghost predicate IsRuled(phase: Phase, seen: Option<ToolSchema.Value>, step: Step, verdict: Reply<Ruling>)
      reads this, budget, runtime
    {
      Stands(phase, Ruled(step, verdict), seen) || (verdict == Expired && Stands(phase, Overdue, seen))
    }

    method Authorize(ghost phase: Phase, ghost seen: Option<ToolSchema.Value>, step: Step)
      returns (reply: Reply<Ruling>)
      requires Stands(phase, Picked(step), seen) && !phase.Bad?
      modifies `calls, `run, runtime
      ensures IsRuled(phase, seen, step, reply)
    {
      var late, now := IsLate(phase, Picked(step), seen);
      if late {
        return Expired;
      }
      var answer := Ask(phase, seen, step);
      reply := HearVerdict(phase, seen, step, answer);
    }

    method HearVerdict(ghost phase: Phase, ghost seen: Option<ToolSchema.Value>, ghost step: Step,
                       answer: Answer<Ruling>)
      returns (reply: Reply<Ruling>)
      requires Stands(phase, Asked(step), seen) && IsAsked(step, answer.reply) && !phase.Bad?
      modifies `calls, `run
      ensures IsRuled(phase, seen, step, reply)
    {
      var late;
      reply, late := AwaitAnswer(phase, Asked(step), seen, answer);
      if !late {
        Act(phase, Asked(step), seen, AuthorizeAnswer(reply));
      }
    }

    /** Calls the authorizer: the script, or the governed runtime's policy. */
    method Ask(ghost phase: Phase, ghost seen: Option<ToolSchema.Value>, step: Step) returns (answer: Answer<Ruling>)
      requires Stands(phase, Cleared(step), seen) && !phase.Bad?
      modifies `calls, `run, runtime
      ensures Stands(phase, Asked(step), seen) && IsAsked(step, answer.reply)
    {
      answer := authorizer(calls.rulings);
      if runtime == null {
        Act(phase, Cleared(step), seen, AuthorizeCall(step));
      } else {
        answer := AskPolicy(phase, seen, step, answer);
      }
    }

    /** The answer to the last authorization call. */
    ghost predicate IsAsked(step: Step, reply: Reply<Ruling>)
      reads `calls
    {
      && calls.rulings > 0
      && var scripted := authorizer(calls.rulings - 1).reply;
      if runtime == null then reply == scripted
      else
        && (reply.Gave? <==> scripted.Gave?) && (!reply.Gave? ==> reply == scripted)
        && (reply.Gave? ==>
              reply.value == AgentPermits.RulingOf(AgentPermits.Decide(runtime.authority, runtime.tools, step)))
    }

    /** The policy runs in a thread: the script only says whether its verdict arrives. */
    method AskPolicy(ghost phase: Phase, ghost seen: Option<ToolSchema.Value>, step: Step, scripted: Answer<Ruling>)
      returns (answer: Answer<Ruling>)
      requires runtime != null && Stands(phase, Cleared(step), seen) && !phase.Bad?
      requires scripted == authorizer(calls.rulings)
      modifies `calls, `run, runtime
      ensures Stands(phase, Asked(step), seen) && IsAsked(step, answer.reply)
    {
      var decision := runtime.Policy(step);
      ActOfRuntime(phase, Cleared(step), seen, AuthorizeCall(step));
      return Now(if scripted.reply.Gave? then Gave(AgentPermits.RulingOf(decision)) else scripted.reply);
    }

    /** An authorization or tool call of a governed run; the runtime has already changed its table and history. */
    method ActOfRuntime(ghost phase: Phase, ghost guard: Guard, ghost seen: Option<ToolSchema.Value>, action: Action)
      requires runtime != null && (action.AuthorizeCall? || action.ToolCall?)
      requires run.sources == Consulted() && calls == run.Now().calls && rows == run.Now().rows
      requires sequence == |rows| == writes && IsWritten(auditFails, writes)
      requires 0 <= budget.remaining == allowance - calls.grants
      requires budget.ticks == firstWeighing + calls.weighings
      requires var now := run.Now();
        now.phase == phase && now.guard == guard && now.seen == seen && Obeys(Consulted(), now, action)
      requires !Move(deadline, guard, action).Broken? && !phase.Bad?
      requires IsRuntimes(Consulted().policy, run.Now(), action, runtime.history)
      requires runtime.permits ==
               AgentPermits.Touch(runtime.authority, runtime.tools, run.Now().permits, action)
      modifies `calls, `run
      ensures Stands(phase, Move(deadline, guard, action), seen) && calls == Counted(old(calls), action)
    {
      calls := Counted(calls, action);
      Extend(action, runtime.history);
    }

    method Execute(ghost phase: Phase, ghost seen: Option<ToolSchema.Value>, step: Step, now: real)
      returns (answer: ToolAnswer)
      requires Stands(phase, Started(step, now), seen) && !phase.Bad?
      modifies `calls, `run, runtime
      ensures Stands(phase, Answered(answer), if answer.Observation? then Some(answer.value) else seen)
    {
      var patience := Least(limits.toolTimeout, deadline - now);
      answer := tool(calls.tools);
      if runtime == null {
        Act(phase, Started(step, now), seen, ToolCall(step, patience));
      } else {
        answer := CallDispatch(phase, seen, step, now, patience, answer);
      }
      Act(phase, Working, seen, ToolAnswered(answer));
    }

    /** The script only says whether the dispatch is cut short. */
    method CallDispatch(ghost phase: Phase, ghost seen: Option<ToolSchema.Value>, step: Step, ghost now: real,
                        patience: real, scripted: ToolAnswer)
      returns (answer: ToolAnswer)
      requires runtime != null && Stands(phase, Started(step, now), seen) && !phase.Bad?
      requires patience == Least(limits.toolTimeout, deadline - now)
      modifies `calls, `run, runtime
      ensures Stands(phase, Working, seen) && calls == Counted(old(calls), ToolCall(step, patience))
      ensures runtime.history != [] &&
              AgentPermits.IsReport(runtime.history[|runtime.history| - 1].outcome, answer)
      ensures if scripted.ToolExpired? || scripted.ToolCancellation? then answer == scripted
              else answer.Observation? || answer.ToolError?
    {
      ghost var permits, history := runtime.permits, runtime.history;
      var outcome, executed := runtime.Dispatch(step, executors(calls.tools));
      DispatchFits(run, step, patience,
                   AgentPermits.DispatchRecord(step, AgentPermits.PermitOf(permits, step), executed, outcome));
      ActOfRuntime(phase, Started(step, now), seen, ToolCall(step, patience));
      if scripted.ToolExpired? || scripted.ToolCancellation? {
        return scripted;
      }
      return if outcome.Delivered? then Observation(outcome.value) else ToolError;
    }

    /** Asks the budget for one execution. */
    method Weigh(ghost phase: Phase, ghost seen: Option<ToolSchema.Value>, ghost step: Step)
      returns (grant: BudgetRuling)
      requires Stands(phase, Permitted(step), seen) && !phase.Bad?
      modifies `calls, `run, budget
      ensures Stands(phase, Weighed(step, grant), seen)
    {
      grant := budget.Consume();
      calls := Counted(calls, BudgetAnswer(grant));
      Extend(BudgetAnswer(grant), run.Now().history);
    }

    /** Records the termination of the run and returns its outcome. */
    method Finish(ghost phase: Phase, ghost guard: Guard, ghost seen: Option<ToolSchema.Value>, outcome: Outcome)
      returns (result: RunResult)
      requires Stands(phase, guard, seen) && Tells(MoveByEnd(guard, outcome.status, outcome.reason), seen, outcome)
      requires Next(limits.maxDepth, phase, RunTerminated(outcome.status, outcome.reason, outcome.steps)) ==
                 Ended(outcome.status, outcome.reason, outcome.steps)
      modifies `writes, `sequence, `rows, `run
      ensures Over(result) && (result == Returned(outcome) || result == AuditUnavailable)
      ensures result.Returned? ==> run.Now().guard == MoveByEnd(guard, outcome.status, outcome.reason)
    {
      var recorded := Note(phase, guard, seen, RunTerminated(outcome.status, outcome.reason, outcome.steps),
                           Place(Ended(outcome.status, outcome.reason, outcome.steps),
                                 MoveByEnd(guard, outcome.status, outcome.reason)));
      :- recorded;
      return Returned(outcome);
    }

    /** Records the event that decides the outcome, then the termination. */
    method FinishAfter(ghost phase: Phase, ghost guard: Guard, ghost seen: Option<ToolSchema.Value>,
                       event: AuditEvent, outcome: Outcome, ghost carries: bool)
      returns (result: RunResult)
      requires Stands(phase, guard, seen)
      requires Next(limits.maxDepth, phase, event) == MustEnd(outcome.status, outcome.reason, outcome.steps)
      requires MoveByEvent(guard, event) == Closing(outcome.status, outcome.reason, carries)
      requires outcome.observation == if carries then seen else None
      modifies `writes, `sequence, `rows, `run
      ensures Over(result) && (result == Returned(outcome) || result == AuditUnavailable)
      ensures result.Returned? ==> run.Now().guard == Done(outcome.status, outcome.reason, carries)
    {
      var recorded := Note(phase, guard, seen, event,
                           Place(MustEnd(outcome.status, outcome.reason, outcome.steps),
                                 Closing(outcome.status, outcome.reason, carries)));
      :- recorded;
      result := FinishDecided(seen, outcome, carries);
    }

    /** Records the termination that is already decided. */
    method FinishDecided(ghost seen: Option<ToolSchema.Value>, outcome: Outcome, ghost carries: bool)
      returns (result: RunResult)
      requires Stands(MustEnd(outcome.status, outcome.reason, outcome.steps),
                      Closing(outcome.status, outcome.reason, carries), seen)
      requires outcome.observation == if carries then seen else None
      modifies `writes, `sequence, `rows, `run
      ensures Over(result) && (result == Returned(outcome) || result == AuditUnavailable)
      ensures result.Returned? ==> run.Now().guard == Done(outcome.status, outcome.reason, carries)
    {
      result := Finish(MustEnd(outcome.status, outcome.reason, outcome.steps),
                       Closing(outcome.status, outcome.reason, carries), seen, outcome);
    }

    // -------------------------------------------------------------- the loop

    /**
     One run. If it returns, its trace is a word of the language that ends in its outcome, every action was in
     order and the scripts' own, and the budget has paid for every grant. A cancelled run leaves a finished
     trace too; the first failed audit write stops the run where it is.
    */
    method RunAgentLoop(cancellable: bool) returns (result: RunResult)
      requires limits.Valid() && IsNew() && budget.remaining >= 0
      requires runtime != null ==> runtime.permits == map[] && runtime.history == []
      modifies this, budget, runtime
      ensures allowance == old(budget.remaining)
      ensures Over(result)
      ensures result.Returned? ==> (run.Now().guard.Declined? <==> !cancellable)
      ensures result.Cancelled? ==> cancellable
    {
      var recorded := Begin();
      :- recorded;
      if cancellable {
        result := Iterate();
      } else {
        result := Decline();
      }
    }

    /** A tool that could not be cancelled is not run at all. */
    method Decline() returns (result: RunResult)
      requires Stands(AtTop(0), Idle(false), None)
      modifies `writes, `sequence, `rows, `run
      ensures Over(result) && !result.Cancelled? && (result.Returned? ==> run.Now().guard.Declined?)
    {
      result := Finish(AtTop(0), Idle(false), None, DECLINED);
    }

    /** Opens the run and its trace. */
    method Begin() returns (recorded: Recorded)
      requires limits.Valid() && IsNew() && budget.remaining >= 0
      requires runtime != null ==> runtime.permits == map[] && runtime.history == []
      modifies this
      ensures allowance == budget.remaining
      ensures if recorded.Persisted? then Stands(AtTop(0), Idle(false), None) else Sound() && Stopped()
    {
      Open();
      recorded := Note(Fresh, Begun, None, RunStarted, Place(AtTop(0), Idle(false)));
    }

    /** Fixes the deadline before anything is recorded. */
    method Open()
      requires limits.Valid() && IsNew() && budget.remaining >= 0
      requires runtime != null ==> runtime.permits == map[] && runtime.history == []
      modifies this
      ensures allowance == budget.remaining && Stands(Fresh, Begun, None)
    {
      allowance, firstWeighing := budget.remaining, budget.ticks;
      var started := clock(calls.ticks);
      deadline := started + limits.timeout;
      run := Trace(Consulted(), [], [START]);
      Act(Fresh, Opening, None, ClockRead(started));
    }

    /** Rounds until one of them ends the run or the depth limit is reached. */
    method Iterate() returns (result: RunResult)
      requires Stands(AtTop(0), Idle(false), None)
      modifies `calls, `writes, `sequence, `rows, `run, budget, runtime
      ensures Over(result) && (result.Returned? ==> run.Now().guard.Done?)
    {
      var observation: Option<ToolSchema.Value> := None;
      var depth: nat := 0;
      while depth < limits.maxDepth
        invariant depth <= limits.maxDepth
        invariant Stands(AtTop(depth), Idle(depth > 0), observation)
        decreases limits.maxDepth - depth
      {
        var answer, more, seen := Round(depth, observation);
        if !more {
          return answer;
        }
        observation := seen;
        depth := depth + 1;
      }
      result := ReachLimit(observation);
    }

    /** The last round has completed. */
    method ReachLimit(observation: Option<ToolSchema.Value>) returns (result: RunResult)
      requires limits.maxDepth > 0 && Stands(AtTop(limits.maxDepth), Idle(true), observation)
      modifies `writes, `sequence, `rows, `run
      ensures Over(result) && (result.Returned? ==> run.Now().guard.Done?)
    {
      result := Finish(AtTop(limits.maxDepth), Idle(true), observation,
                       Outcome(DepthLimitReached, MaxDepthReached, limits.maxDepth, observation));
    }

    /** What each part of an iteration leads to: one more completed execution, or the end of the run. */
    ghost predicate GoesOn(depth: nat, result: RunResult, more: bool, seen: Option<ToolSchema.Value>)
      reads this, budget, runtime
    {
      if more then Stands(AtTop(depth + 1), Idle(true), seen)
      else Over(result) && (result.Returned? ==> run.Now().guard.Done?)
    }

    method Round(depth: nat, observation: Option<ToolSchema.Value>)
      returns (result: RunResult, more: bool, seen: Option<ToolSchema.Value>)
      requires depth < limits.maxDepth && Stands(AtTop(depth), Idle(depth > 0), observation)
      modifies `calls, `writes, `sequence, `rows, `run, budget, runtime
      ensures GoesOn(depth, result, more, seen)
    {
      more, seen := false, observation;
      var now := ReadClock(AtTop(depth), Idle(depth > 0), observation);
      if now >= deadline {
        result := Finish(AtTop(depth), Overdue, observation, Outcome(TimedOut, RunDeadlineExceeded, depth, None));
      } else {
        result, more, seen := PlanRound(depth, observation);
      }
    }

    /** From a round begun in time to its plan. */
    method PlanRound(depth: nat, observation: Option<ToolSchema.Value>)
      returns (result: RunResult, more: bool, seen: Option<ToolSchema.Value>)
      requires depth < limits.maxDepth && Stands(AtTop(depth), OnTime, observation)
      modifies `calls, `writes, `sequence, `rows, `run, budget, runtime
      ensures GoesOn(depth, result, more, seen)
    {
      more, seen := false, observation;
      var plan := Plan(AtTop(depth), observation);
      if plan.Gave? && plan.value.Some? {
        var recorded := Note(AtTop(depth), Heard(plan), observation, PlannerDecision(Selected, depth),
                             Place(Planned(depth), Selecting(plan.value.value)));
        :- recorded;
        result, more, seen := Govern(depth, observation, plan.value.value);
      } else {
        result := EndPlanning(depth, observation, plan);
      }
    }

    /** A planner that names no step ends the run. */
    method EndPlanning(depth: nat, observation: Option<ToolSchema.Value>, plan: Reply<Option<Step>>)
      returns (result: RunResult)
      requires depth < limits.maxDepth && IsPlanned(AtTop(depth), observation, plan)
      requires plan.Gave? ==> plan.value.None?
      modifies `calls, `writes, `sequence, `rows, `run
      ensures Over(result) && (result.Returned? ==> run.Now().guard.Done?)
    {
      ghost var guard := run.Now().guard;
      match plan
      case Expired =>
        result := FinishAfter(AtTop(depth), guard, observation, PlannerDecision(PlanTimeout, depth),
                              Outcome(TimedOut, RunDeadlineExceeded, depth, None), false);
      case Failed =>
        result := FinishAfter(AtTop(depth), guard, observation, PlannerDecision(PlanFailed, depth),
                              Outcome(FailedRun, PlannerFailed, depth, None), false);
      case Gave(_) =>
        result := FinishAfter(AtTop(depth), guard, observation, PlannerDecision(PlanComplete, depth),
                              Outcome(CompleteRun, NoReason, depth, observation), true);
    }

    /** From a planned step to its authorization. */
    method Govern(depth: nat, observation: Option<ToolSchema.Value>, step: Step)
      returns (result: RunResult, more: bool, seen: Option<ToolSchema.Value>)
      requires depth < limits.maxDepth && Stands(Planned(depth), Selecting(step), observation)
      modifies `calls, `writes, `sequence, `rows, `run, budget, runtime
      ensures GoesOn(depth, result, more, seen)
    {
      more, seen := false, observation;
      var recorded := Note(Planned(depth), Selecting(step), observation, ToolSelected(depth),
                           Place(Chosen(depth), Picked(step)));
      :- recorded;
      var ruling := Authorize(Chosen(depth), observation, step);
      if ruling.Gave? {
        result, more, seen := Rule(depth, observation, step, ruling.value);
      } else {
        result := FailAuthorization(depth, observation, step, ruling);
      }
    }

    /** Authorization that gave no verdict ends the run. */
    method FailAuthorization(depth: nat, ghost seen: Option<ToolSchema.Value>, ghost step: Step, ruling: Reply<Ruling>)
      returns (result: RunResult)
      requires depth < limits.maxDepth && IsRuled(Chosen(depth), seen, step, ruling) && !ruling.Gave?
      modifies `calls, `writes, `sequence, `rows, `run
      ensures Over(result) && (result.Returned? ==> run.Now().guard.Done?)
    {
      ghost var guard := run.Now().guard;
      if ruling.Expired? {
        result := FinishAfter(Chosen(depth), guard, seen,
                              AuthorizationDecision(VerdictTimeout, RunDeadlineExceeded, depth),
                              Outcome(TimedOut, RunDeadlineExceeded, depth, None), false);
      } else {
        result := FinishAfter(Chosen(depth), guard, seen,
                              AuthorizationDecision(VerdictFailed, AuthorizationFailed, depth),
                              Outcome(FailedRun, AuthorizationFailed, depth, None), false);
      }
    }

    /** From a verdict to a permission or the end. */
    method Rule(depth: nat, observation: Option<ToolSchema.Value>, step: Step, decision: Ruling)
      returns (result: RunResult, more: bool, seen: Option<ToolSchema.Value>)
      requires depth < limits.maxDepth && Stands(Chosen(depth), Ruled(step, Gave(decision)), observation)
      modifies `calls, `writes, `sequence, `rows, `run, budget, runtime
      ensures GoesOn(depth, result, more, seen)
    {
      more, seen := false, observation;
      ghost var guard := Ruled(step, Gave(decision));
      if !decision.allowed {
        result := FinishAfter(Chosen(depth), guard, observation,
                              AuthorizationDecision(Refused, decision.reason, depth),
                              Outcome(Denied, decision.reason, depth, observation), true);
        return;
      }
      var recorded := Note(Chosen(depth), guard, observation, AuthorizationDecision(Allowed, decision.reason, depth),
                           Place(Authorized(depth), Permitted(step)));
      :- recorded;
      result, more, seen := Spend(depth, observation, step);
    }

    /** A permitted step asks for one execution and starts its tool unless the deadline has passed. */
    method Spend(depth: nat, observation: Option<ToolSchema.Value>, step: Step)
      returns (result: RunResult, more: bool, seen: Option<ToolSchema.Value>)
      requires depth < limits.maxDepth && Stands(Authorized(depth), Permitted(step), observation)
      modifies `calls, `writes, `sequence, `rows, `run, budget, runtime
      ensures GoesOn(depth, result, more, seen)
    {
      more, seen := false, observation;
      var grant := Weigh(Authorized(depth), observation, step);
      ghost var status := if grant.reason == TimeBudgetExhausted then TimedOut else BudgetExhausted;
      var recorded := Note(Authorized(depth), Weighed(step, grant), observation,
                           BudgetDecision(grant.allowed, grant.reason, depth),
                           if grant.allowed then Place(Granted(depth), Paid(step))
                           else Place(MustEnd(status, grant.reason, depth), Closing(status, grant.reason, true)));
      :- recorded;
      if grant.allowed {
        result, more, seen := StartTool(depth, observation, step);
      } else {
        result := EndSpending(depth, observation, grant.reason);
      }
    }

    /** Without a grant the run ends. */
    method EndSpending(depth: nat, observation: Option<ToolSchema.Value>, reason: Reason) returns (result: RunResult)
      requires depth < limits.maxDepth
      requires var status := if reason == TimeBudgetExhausted then TimedOut else BudgetExhausted;
        Stands(MustEnd(status, reason, depth), Closing(status, reason, true), observation)
      modifies `writes, `sequence, `rows, `run
      ensures Over(result) && (result.Returned? ==> run.Now().guard.Done?)
    {
      var status := if reason == TimeBudgetExhausted then TimedOut else BudgetExhausted;
      result := FinishDecided(observation, Outcome(status, reason, depth, observation), true);
    }

    /** A paid step starts its tool unless the deadline has passed. */
    method StartTool(depth: nat, observation: Option<ToolSchema.Value>, step: Step)
      returns (result: RunResult, more: bool, seen: Option<ToolSchema.Value>)
      requires depth < limits.maxDepth && Stands(Granted(depth), Paid(step), observation)
      modifies `calls, `writes, `sequence, `rows, `run, runtime
      ensures GoesOn(depth, result, more, seen)
    {
      more, seen := false, observation;
      var now := ReadClock(Granted(depth), Paid(step), observation);
      if deadline - now <= 0.0 {
        result := Finish(Granted(depth), Overdue, observation, Outcome(TimedOut, RunDeadlineExceeded, depth, None));
        return;
      }
      var recorded := Note(Granted(depth), InTime(step, now), observation, ToolExecutionStarted(depth),
                           Place(Running(depth), Started(step, now)));
      :- recorded;
      result, more, seen := RunTool(depth, observation, step, now);
    }

    /** From a start event to an observation. */
    method RunTool(depth: nat, observation: Option<ToolSchema.Value>, step: Step, now: real)
      returns (result: RunResult, more: bool, seen: Option<ToolSchema.Value>)
      requires depth < limits.maxDepth && Stands(Running(depth), Started(step, now), observation)
      modifies `calls, `writes, `sequence, `rows, `run, runtime
      ensures GoesOn(depth, result, more, seen)
    {
      more, seen := false, observation;
      var answer := Execute(Running(depth), observation, step, now);
      if !answer.Observation? {
        result := FailTool(depth, observation, answer);
        return;
      }
      result, more, seen := Observe(depth, answer.value);
    }

    /** A completed execution counts, and its observation goes to the next round. */
    method Observe(depth: nat, value: ToolSchema.Value)
      returns (result: RunResult, more: bool, seen: Option<ToolSchema.Value>)
      requires depth < limits.maxDepth && Stands(Running(depth), Answered(Observation(value)), Some(value))
      modifies `calls, `writes, `sequence, `rows, `run
      ensures GoesOn(depth, result, more, seen)
    {
      more, seen := false, Some(value);
      var recorded := Note(Running(depth), Answered(Observation(value)), seen, ToolExecutionCompleted(depth),
                           Place(Observing(depth), Delivering));
      :- recorded;
      recorded := Note(Observing(depth), Delivering, seen, ObservationReceived(depth + 1),
                       Place(AtTop(depth + 1), Idle(true)));
      :- recorded;
      more := true;
      result := AuditUnavailable;
    }

    /** A tool that gave no observation ends the run. */
    method FailTool(depth: nat, observation: Option<ToolSchema.Value>, answer: ToolAnswer) returns (result: RunResult)
      requires depth < limits.maxDepth && Stands(Running(depth), Answered(answer), observation)
      requires !answer.Observation?
      modifies `calls, `writes, `sequence, `rows, `run
      ensures Over(result) && (result.Returned? ==> run.Now().guard.Done?)
    {
      if answer.ToolExpired? {
        result := LapseTool(depth, observation);
      } else if answer.ToolError? {
        result := FinishAfter(Running(depth), Answered(ToolError), observation,
                              ToolExecutionFailed(ToolBroke, ToolFailed, depth),
                              Outcome(FailedRun, ToolFailed, depth, observation), true);
      } else {
        result := CancelRun(depth, observation);
      }
    }

    /** A cancelled run leaves a finished trace and is cancelled all the same. */
    method CancelRun(depth: nat, observation: Option<ToolSchema.Value>) returns (result: RunResult)
      requires depth < limits.maxDepth && Stands(Running(depth), Answered(ToolCancellation), observation)
      modifies `writes, `sequence, `rows, `run
      ensures Over(result) && !result.Returned?
    {
      result := FinishAfter(Running(depth), Answered(ToolCancellation), observation,
                            ToolExecutionFailed(ToolCancelled, RunCancelled, depth),
                            Outcome(CancelledRun, RunCancelled, depth, observation), true);
      if result.Returned? {
        result := Cancelled(depth);
      }
    }

    /** A tool that did not finish in time: the clock tells whether its own limit or the run's deadline is to blame. */
    method LapseTool(depth: nat, observation: Option<ToolSchema.Value>) returns (result: RunResult)
      requires depth < limits.maxDepth && Stands(Running(depth), Answered(ToolExpired), observation)
      modifies `calls, `writes, `sequence, `rows, `run
      ensures Over(result) && (result.Returned? ==> run.Now().guard.Done?)
    {
      var now := ReadClock(Running(depth), Answered(ToolExpired), observation);
      var reason := if now >= deadline then RunDeadlineExceeded else ToolTimeout;
      result := FinishAfter(Running(depth), Lapsed(reason), observation,
                            ToolExecutionFailed(ToolTimedOut, reason, depth),
                            Outcome(TimedOut, reason, depth, observation), true);
    }
  }

  // ---------------------------------------------------------------- what holds of a run that is over

  /**
   What a returned run leaves behind, for every planner, authorizer, tool, clock and budget: one
   start and one termination event, the latter last and carrying the outcome; as many completed
   executions as the outcome reports; and tool calls within the depth limit and the allowance.
  */
  lemma ReturnedRunIsBounded(agent: AgentRun, outcome: Outcome)
    requires agent.Over(Returned(outcome))
    ensures var events := Events(agent.run.log);
      && events != [] && events[0] == RunStarted
      && (forall k | 1 <= k < |events| :: !events[k].RunStarted?)
      && events[|events| - 1] == RunTerminated(outcome.status, outcome.reason, outcome.steps)
      && (forall k | 0 <= k < |events| - 1 :: !events[k].RunTerminated?)
      && Completions(events) == outcome.steps
      && ToolCalls(agent.run.log) == Starts(events) <= Min(agent.limits.maxDepth, agent.allowance)
      && |agent.rows| == |events|
      && forall i | 0 <= i < |events| :: agent.rows[i] == AuditRow(i + 1, events[i])
  {
    var n, events := |agent.run.log|, Events(agent.run.log);
    StateIsTheLogs(agent.run, n);
    assert agent.run.log[..n] == agent.run.log;
    TerminatedOnceAtTheEnd(agent.limits.maxDepth, events, outcome.status, outcome.reason, outcome.steps);
    StartedOnceAtTheBeginning(agent.limits.maxDepth, events);
    EndedCounts(agent.limits.maxDepth, events, outcome.status, outcome.reason, outcome.steps);
    CallsAreStarted(agent.run, n);
    GrantsAreGiven(agent.run, n);
    CallsAreTools(agent.run.log);
    RowsAreNumbered(agent.run, n);
  }

  lemma {:induction false} CallsAreTools(log: seq<Action>)
    ensures ToolCalls(log) == Tally(log).tools
  {
    if log != [] {
      CallsAreTools(log[..|log| - 1]);
    }
  }

  /** The deadline of a run is its first action, a clock reading, plus the limit. */
  lemma DeadlineIsFirstReading(agent: AgentRun, result: RunResult)
    requires agent.Over(result) && agent.run.log != []
    ensures agent.run.log[0] == ClockRead(agent.clock(0)) && agent.deadline == agent.clock(0) + agent.limits.timeout
  {
    assert StepAt(agent.run, 0);
  }

  /**
   Every answer in a run is its script's for that very call and every reading is the clock's next; in a governed
   run verdicts are the policy's. The planner is always shown what a tool delivered last.
  */
  lemma SourcesAreFollowed(agent: AgentRun, result: RunResult, i: nat)
    requires agent.Over(result) && i < |agent.run.log|
    ensures var n, a := Tally(agent.run.log[..i]), agent.run.log[i];
      && (a.ClockRead? ==> a.time == agent.clock(n.ticks))
      && (a.PlannerCall? ==> a.seen == LastSeen(agent.run.log[..i]))
      && (a.PlannerAnswer? ==> n.plans > 0 && a.plan == agent.planner(n.plans - 1).reply)
      && (a.AuthorizeAnswer? ==> n.rulings > 0)
      && (a.AuthorizeAnswer? && (agent.runtime == null || !a.verdict.Gave?) ==>
            a.verdict == agent.authorizer(n.rulings - 1).reply)
      && (a.ToolAnswered? ==> n.tools > 0)
      && (a.ToolAnswered? && (agent.runtime == null || a.answer.ToolExpired?) ==> a.answer == agent.tool(n.tools - 1))
  {
    StepObeys(agent.run, i);
  }

  /** The budget's rulings: one execution per grant while its time and the allowance last. */
  lemma BudgetIsSpent(agent: AgentRun, result: RunResult, i: nat)
    requires agent.Over(result) && i < |agent.run.log| && agent.run.log[i].BudgetAnswer?
    ensures var n, ruling := Tally(agent.run.log[..i]), agent.run.log[i].ruling;
      var late := agent.budget.clock(agent.firstWeighing + n.weighings) >= agent.budget.deadline;
      && (ruling.allowed <==> !late && n.grants < agent.allowance)
      && ruling.remaining == agent.allowance - n.grants - (if ruling.allowed then 1 else 0)
      && (ruling.reason == if late then TimeBudgetExhausted
                           else if ruling.allowed then BudgetGranted
                           else ExecutionBudgetExhausted)
  {
    RulingIsBudgets(agent.run, i);
  }

  /**
   Calls are made in time, and a tool is called only for a step that was planned, permitted and paid for, for no
   longer than its limit and what was left until the deadline.
  */
  lemma CallsAreGoverned(agent: AgentRun, result: RunResult, i: nat)
    requires agent.Over(result) && i < |agent.run.log|
    ensures var log := agent.run.log;
      && (log[i].PlannerCall? ==> i >= 2 && log[i - 1].ClockRead? && log[i - 1].time < agent.deadline)
      && (log[i].AuthorizeCall? ==>
            && i >= 4 && log[i - 1].ClockRead? && log[i - 1].time < agent.deadline
            && log[i - 4] == PlannerAnswer(Gave(Some(log[i].step))))
      && (log[i].ToolCall? ==>
            && i >= 6 && log[i - 2].ClockRead? && log[i - 2].time < agent.deadline
            && log[i - 4].BudgetAnswer? && log[i - 4].ruling.allowed
            && log[i - 6].AuthorizeAnswer? && log[i - 6].verdict.Gave? && log[i - 6].verdict.value.allowed
            && 0.0 < log[i].patience <= agent.limits.toolTimeout
            && log[i].patience <= agent.deadline - log[i - 2].time)
  {
    if agent.run.log[i].PlannerCall? {
      PlannerIsCalledOnTime(agent.run, i);
    } else if agent.run.log[i].AuthorizeCall? {
      AuthorizerIsCalledOnTime(agent.run, i);
    } else if agent.run.log[i].ToolCall? {
      ToolCallIsGoverned(agent.run, i);
    }
  }

  /**
   Why a run returned what it did, from its last deeds alone: each ending has its one cause, and the outcome
   carries the last observation exactly when the planner had finished, the authorizer or the budget had ruled,
   the tool had answered, or the depth limit was reached.
  */
  lemma OutcomeTellsWhy(agent: AgentRun, outcome: Outcome)
    requires agent.Over(Returned(outcome)) && !agent.run.Now().guard.Declined?
    ensures Deeds(agent.run.log) != []
    ensures var deeds := Deeds(agent.run.log);
      var n, last := |deeds|, deeds[|deeds| - 1];
      var lapsed := n > 1 && deeds[n - 2] == ToolAnswered(ToolExpired) && last.ClockRead?;
      var carries := last == PlannerAnswer(Gave(None)) || (last.AuthorizeAnswer? && last.verdict.Gave?)
                     || last.BudgetAnswer? || last.ToolAnswered? || lapsed;
      && EndsBecause(agent.deadline, outcome.status, outcome.reason, carries, last, lapsed)
      && outcome.observation == if carries then LastSeen(agent.run.log) else None
  {
    var n := |agent.run.log|;
    StateIsTheLogs(agent.run, n);
    LastIsTheLogs(agent.run, n);
    GuardRemembers(agent.run, n);
    assert agent.run.log[..n] == agent.run.log;
  }

  /**
   While there is time and nothing expires, a run never reports its deadline as exceeded: not unless a reading
   of its clock was late, or the planner or the authorizer did not answer in time.
  */
  lemma DeadlineIsExceededOnlyWhenLate(agent: AgentRun, outcome: Outcome)
    requires agent.Over(Returned(outcome)) && outcome.status == TimedOut && outcome.reason == RunDeadlineExceeded
    ensures || (exists k: nat :: agent.clock(k) >= agent.clock(0) + agent.limits.timeout)
            || (exists k: nat :: agent.planner(k).reply == Expired)
            || (exists k: nat :: agent.authorizer(k).reply == Expired)
  {
    OutcomeTellsWhy(agent, outcome);
    var i := DeedIsInLog(agent.run.log, |Deeds(agent.run.log)| - 1);
    var n := Tally(agent.run.log[..i]);
    SourcesAreFollowed(agent, Returned(outcome), i);
    DeadlineIsFirstReading(agent, Returned(outcome));
    match agent.run.log[i]
    case ClockRead(_) => assert agent.clock(n.ticks) >= agent.clock(0) + agent.limits.timeout;
    case PlannerAnswer(_) => assert agent.planner(n.plans - 1).reply == Expired;
    case AuthorizeAnswer(_) => assert agent.authorizer(n.rulings - 1).reply == Expired;
  }

  lemma {:induction false} DeedIsInLog(log: seq<Action>, k: nat) returns (i: nat)
    requires k < |Deeds(log)|
    ensures i < |log| && log[i] == Deeds(log)[k]
  {
    i := |log| - 1;
    if k < |Deeds(log[..i])| {
      i := DeedIsInLog(log[..i], k);
    }
  }

  /** A run is stopped by its first failed audit write, and by nothing else. */
  lemma FailedWriteStops(agent: AgentRun, result: RunResult)
    requires agent.Over(result)
    ensures forall k | 0 <= k < |agent.rows| :: !agent.auditFails(k)
    ensures result.AuditUnavailable? <==> agent.writes == |agent.rows| + 1
    ensures result.AuditUnavailable? ==> agent.auditFails(|agent.rows|)
  {
    WritesSucceeded(agent.auditFails, |agent.rows|);
  }

  lemma {:induction false} WritesSucceeded(auditFails: nat -> bool, n: nat)
    requires IsWritten(auditFails, n)
    ensures forall k | 0 <= k < n :: !auditFails(k)
  {
    if n > 0 {
      WritesSucceeded(auditFails, n - 1);
    }
  }

  /** A run that is declined did nothing: its clock was read once, and its trace starts and ends. */
  lemma DeclinedRunDoesNothing(agent: AgentRun, outcome: Outcome)
    requires agent.Over(Returned(outcome)) && agent.run.Now().guard.Declined?
    ensures outcome == DECLINED
    ensures agent.run.log == [ClockRead(agent.clock(0)), Audit(RunStarted),
                        Audit(RunTerminated(Denied, NonCancellableExecutor, 0))]
  {
    DeclinedRunIsShort(agent.run);
    DeadlineIsFirstReading(agent, Returned(outcome));
    ReturnedRunIsBounded(agent, outcome);
    LastEvent(agent.run.log);
  }

  lemma LastEvent(log: seq<Action>)
    requires log != [] && log[|log| - 1].Audit?
    ensures var events := Events(log);
      events != [] && events[|events| - 1] == log[|log| - 1].event
  {
  }

  /**
   A governed run, wherever it stops: each tool call found exactly one permit, its own step's, issued by
   the policy since the last call, and left none.
  */
  lemma EachCallConsumesItsPermit(agent: AgentRun, result: RunResult, i: nat)
    requires agent.Over(result) && agent.runtime != null && i < |agent.run.log| && agent.run.log[i].ToolCall?
    ensures var step, tools := agent.run.log[i].step, agent.runtime.tools;
      && AgentPermits.MayRun(agent.runtime.authority, tools, step)
      && agent.run.states[i].permits == map[step.identity := AgentPermits.Permit(tools[step.tool], step.capability)]
      && agent.run.states[i + 1].permits == map[]
  {
    CallConsumesItsPermit(agent.run, i);
  }

  /** At no point was more than one permit outstanding, and the runtime's own table holds no more. */
  lemma AtMostOnePermit(agent: AgentRun, result: RunResult, i: nat)
    requires agent.Over(result) && agent.runtime != null && i <= |agent.run.log|
    ensures |agent.run.states[i].permits| <= 1 && |agent.runtime.permits| <= 1
  {
    var n := |agent.run.log|;
    forall k | k == i || k == n ensures |agent.run.states[k].permits| <= 1 {
      PermitsInStep(agent.run, k);
      assert k > 0 ==> StepAt(agent.run, k - 1);
      AgentPermits.OnePermitAtATime(agent.runtime.authority, agent.runtime.tools, agent.run.states[k].permits,
                                    agent.run.states[k].guard);
    }
  }

  /**
   A governed run dispatches once per tool call. Every dispatch is of a step the policy permits, runs the
   executor exactly when its arguments conform, and delivers only a conforming result.
  */
  lemma EveryDispatchIsLawful(agent: AgentRun, result: RunResult)
    requires agent.Over(result) && agent.runtime != null
    ensures |agent.runtime.history| == ToolCalls(agent.run.log)
    ensures forall d | d in agent.runtime.history ::
              AgentPermits.Lawful(agent.runtime.authority, agent.runtime.tools, d)
  {
    var n := |agent.run.log|;
    DispatchesAreLawful(agent.run, n);
    StateIsTheLogs(agent.run, n);
    CallsAreTools(agent.run.log);
    assert agent.run.log[..n] == agent.run.log;
  }
}
