/**
 Whole agent runs: the actions of one run with the state before and after each of them, and what holds at
 every one of its actions.
*/
module AgentRuns {
  import opened Common
  import opened AgentTrace
  import opened AgentGuard
  import AgentPermits
  import ToolSchema

  /** What a callback does inside its deadline: possibly it hands back another awaitable. */
  datatype Answer<+T> = Now(reply: Reply<T>) | Later(reply: Reply<T>)

  datatype Limits = Limits(maxDepth: int, timeout: real, toolTimeout: real)
  {
    /** What the limits' constructor accepts. */
    predicate Valid() {
      maxDepth >= 1 && timeout > 0.0 && toolTimeout > 0.0 && toolTimeout <= timeout
    }
  }

  datatype Policy = Policy(authority: AgentPermits.Authority, tools: map<string, AgentPermits.Tool>)

  /**
   Everything a run consults: its callbacks' scripts, the governed runtime's policy if there is one, its clock
   and deadline, and the budget's clock and deadline, next reading and remaining executions when the run began.
  */
  datatype Sources =
    Sources(limits: Limits, policy: Option<Policy>, planner: nat -> Answer<Option<Step>>,
            authorizer: nat -> Answer<Ruling>, tool: nat -> ToolAnswer, clock: nat -> real, deadline: real,
            budgetClock: nat -> real, budgetDeadline: real, firstWeighing: nat, allowance: int)

  /** How often each source has been consulted, and what the budget has granted. */
  datatype Calls = Calls(ticks: nat, plans: nat, rulings: nat, weighings: nat, grants: nat, tools: nat)

  function Counted(calls: Calls, action: Action): Calls {
    match action
    case ClockRead(_) => calls.(ticks := calls.ticks + 1)
    case PlannerCall(_) => calls.(plans := calls.plans + 1)
    case AuthorizeCall(_) => calls.(rulings := calls.rulings + 1)
    case BudgetAnswer(ruling) =>
      calls.(weighings := calls.weighings + 1, grants := calls.grants + if ruling.allowed then 1 else 0)
    case ToolCall(_, _) => calls.(tools := calls.tools + 1)
    case _ => calls
  }

  datatype AuditRow = AuditRow(sequence: nat, event: AuditEvent)

  /**
   What a run has come to: where its trace and its actions stand, what a tool delivered last, the last deed and
   whether that was a lapse, the audit events and their rows, and the governed runtime's permit table and
   dispatches.
  */
  datatype State =
    State(phase: Phase, guard: Guard, seen: Option<ToolSchema.Value>, last: Option<Action>, lapsed: bool,
          calls: Calls, events: seq<AuditEvent>, rows: seq<AuditRow>, permits: map<nat, AgentPermits.Permit>,
          history: seq<AgentPermits.DispatchRecord>)

  const START := State(Fresh, Opening, None, None, false, Calls(0, 0, 0, 0, 0, 0), [], [], map[], [])

  function Seen(seen: Option<ToolSchema.Value>, action: Action): Option<ToolSchema.Value> {
    if action.ToolAnswered? && action.answer.Observation? then Some(action.answer.value) else seen
  }

  function Touched(policy: Option<Policy>, permits: map<nat, AgentPermits.Permit>, a: Action)
    : map<nat, AgentPermits.Permit>
  {
    if policy.None? then permits else AgentPermits.Touch(policy.value.authority, policy.value.tools, permits, a)
  }

  /** The state after an action, given the dispatches after it. */
  function After(s: Sources, p: State, a: Action, history: seq<AgentPermits.DispatchRecord>): State
    requires s.limits.Valid()
  {
    if a.Audit? then
      p.(phase := Next(s.limits.maxDepth, p.phase, a.event), guard := MoveByEvent(p.guard, a.event),
         events := p.events + [a.event], rows := p.rows + [AuditRow(|p.rows| + 1, a.event)], history := history)
    else
      State(p.phase, Move(s.deadline, p.guard, a), Seen(p.seen, a), Some(a), IsLapse(p.last, a),
            Counted(p.calls, a), p.events, p.rows, Touched(s.policy, p.permits, a), history)
  }

  /**
   In state `p` this action is what the sources say: each reading is the clock's next, the first one fixes the
   deadline, each answer is its script's for this very call, the planner is shown the last observation, and a
   tool is waited for no longer than the limits and the deadline allow. In a governed run the scripts only say
   whether a verdict and a tool's result arrive.
  */
  ghost predicate Obeys(s: Sources, p: State, a: Action) {
    match a
    case ClockRead(time) =>
      time == s.clock(p.calls.ticks) && (p.guard.Opening? ==> s.deadline == time + s.limits.timeout)
    case PlannerCall(seen) => seen == p.seen
    case PlannerAnswer(plan) => p.calls.plans > 0 && plan == s.planner(p.calls.plans - 1).reply
    case AuthorizeAnswer(verdict) =>
      && p.calls.rulings > 0
      && (s.policy.None? || !verdict.Gave? ==> verdict == s.authorizer(p.calls.rulings - 1).reply)
      && (verdict.Gave? ==> s.authorizer(p.calls.rulings - 1).reply.Gave?)
    case BudgetAnswer(ruling) => IsBudgets(s, p.calls, ruling)
    case ToolCall(_, patience) =>
      p.guard.Started? && patience == Least(s.limits.toolTimeout, s.deadline - p.guard.time)
    case ToolAnswered(answer) =>
      && p.calls.tools > 0
      && var scripted := s.tool(p.calls.tools - 1);
      && (s.policy.None? || answer.ToolExpired? || answer.ToolCancellation? ==> answer == scripted)
      && (scripted.ToolExpired? || scripted.ToolCancellation? ==> answer == scripted)
    case _ => true
  }

  ghost predicate IsBudgets(s: Sources, calls: Calls, ruling: BudgetRuling) {
    var inTime := s.budgetClock(s.firstWeighing + calls.weighings) < s.budgetDeadline;
    && (ruling.allowed <==> inTime && s.allowance > calls.grants)
    && ruling.remaining == s.allowance - calls.grants - (if ruling.allowed then 1 else 0)
    && (ruling.reason == TimeBudgetExhausted <==> !inTime)
    && (ruling.reason == ExecutionBudgetExhausted <==> inTime && s.allowance <= calls.grants)
    && (ruling.reason == BudgetGranted <==> ruling.allowed)
  }

  function Least(x: real, y: real): real {
    if x <= y then x else y
  }

  /**
   The runtime's part in an action: the policy's own verdict, a lawful dispatch for each tool call, and its
   outcome reported as the tool's answer.
  */
  ghost predicate IsRuntimes(policy: Option<Policy>, p: State, a: Action, history: seq<AgentPermits.DispatchRecord>) {
    if policy.None? then history == p.history
    else
      && AgentPermits.VerdictIsFaithful(policy.value.authority, policy.value.tools, p.guard, a)
      && (a.ToolAnswered? ==>
            p.history != [] && AgentPermits.IsReport(p.history[|p.history| - 1].outcome, a.answer))
      && if a.ToolCall? then
           |history| == |p.history| + 1 && history[..|p.history|] == p.history
           && history[|p.history|].step == a.step
           && AgentPermits.Lawful(policy.value.authority, policy.value.tools, history[|p.history|])
         else history == p.history
  }

  ghost predicate IsStep(s: Sources, p: State, a: Action, q: State)
    requires s.limits.Valid()
  {
    && q == After(s, p, a, q.history)
    && !q.phase.Bad? && !q.guard.Broken?
    && Obeys(s, p, a)
    && IsRuntimes(s.policy, p, a, q.history)
  }

  /** What a run consults, its actions so far, and the states before, between and after them. */
  datatype Trace = Trace(sources: Sources, log: seq<Action>, states: seq<State>)
  {
    function Now(): State
      requires states != []
    {
      states[|states| - 1]
    }
  }

  ghost predicate StepAt(t: Trace, i: nat) {
    && t.sources.limits.Valid() && i < |t.log| && i + 1 < |t.states|
    && IsStep(t.sources, t.states[i], t.log[i], t.states[i + 1])
  }

  ghost predicate IsRun(t: Trace) {
    && t.sources.limits.Valid()
    && |t.states| == |t.log| + 1
    && t.states[0] == START
    && forall i | 0 <= i < |t.log| :: StepAt(t, i)
  }

  type Run = t: Trace | IsRun(t) ghost witness UNSTARTED

  const UNSTARTED :=
    Trace(Sources(Limits(1, 1.0, 1.0), None, _ => Now(Expired), _ => Now(Expired), _ => ToolExpired, _ => 0.0, 0.0,
                  _ => 0.0, 0.0, 0, 0),
          [], [START])

  lemma RunAppend(run: Run, a: Action, q: State)
    requires IsStep(run.sources, run.Now(), a, q)
    ensures IsRun(Trace(run.sources, run.log + [a], run.states + [q]))
  {
    var t := Trace(run.sources, run.log + [a], run.states + [q]);
    forall i | 0 <= i < |t.log| ensures StepAt(t, i) {
      if i < |run.log| {
        assert StepAt(run, i);
      }
    }
  }

  /** An audit event only has to be in its place. */
  lemma AuditIsStep(run: Run, event: AuditEvent)
    requires !Next(run.sources.limits.maxDepth, run.Now().phase, event).Bad?
    requires !MoveByEvent(run.Now().guard, event).Broken?
    ensures IsStep(run.sources, run.Now(), Audit(event),
                   After(run.sources, run.Now(), Audit(event), run.Now().history))
  {
  }

  // ---------------------------------------------------------------- the state is the log's

  function Tally(log: seq<Action>): Calls {
    if log == [] then Calls(0, 0, 0, 0, 0, 0) else Counted(Tally(log[..|log| - 1]), log[|log| - 1])
  }

  /** What was consulted, seen and recorded so far can be read off the log. */
  lemma {:induction false} StateIsTheLogs(run: Run, i: nat)
    requires i <= |run.log|
    ensures run.states[i].events == Events(run.log[..i]) && run.states[i].seen == LastSeen(run.log[..i])
    ensures run.states[i].calls == Tally(run.log[..i])
    ensures run.states[i].phase == Parse(run.sources.limits.maxDepth, run.states[i].events)
  {
    if i > 0 {
      StateIsTheLogs(run, i - 1);
      assert run.log[..i][..i - 1] == run.log[..i - 1];
      var p, a, q := run.states[i - 1], run.log[i - 1], run.states[i];
      assert StepAt(run, i - 1);
      if a.Audit? {
        ParseAppend(run.sources.limits.maxDepth, p.events, a.event);
      }
    }
  }

  /** Rows are numbered 1..n without gaps and hold the audit events in order. */
  lemma {:induction false} RowsAreNumbered(run: Run, i: nat)
    requires i <= |run.log|
    ensures |run.states[i].rows| == |run.states[i].events|
    ensures forall k | 0 <= k < |run.states[i].rows| ::
              run.states[i].rows[k] == AuditRow(k + 1, run.states[i].events[k])
  {
    if i > 0 {
      RowsAreNumbered(run, i - 1);
      assert StepAt(run, i - 1);
    }
  }

  /** So can the last deed. */
  lemma {:induction false} LastIsTheLogs(run: Run, i: nat)
    requires i <= |run.log|
    ensures var deeds := Deeds(run.log[..i]);
      && run.states[i].last == (if deeds == [] then None else Some(deeds[|deeds| - 1]))
      && (run.states[i].lapsed <==> |deeds| > 1 && IsLapse(Some(deeds[|deeds| - 2]), deeds[|deeds| - 1]))
  {
    if i > 0 {
      LastIsTheLogs(run, i - 1);
      assert run.log[..i][..i - 1] == run.log[..i - 1];
      assert StepAt(run, i - 1);
    }
  }

  lemma {:induction false} GuardRemembers(run: Run, i: nat)
    requires i <= |run.log|
    ensures Remembers(run.sources.deadline, run.states[i].guard, run.states[i].last, run.states[i].lapsed)
  {
    if i > 0 {
      GuardRemembers(run, i - 1);
      var p, a, q := run.states[i - 1], run.log[i - 1], run.states[i];
      assert StepAt(run, i - 1);
      if a.Audit? {
        EventKeepsCause(run.sources.deadline, p.guard, a.event, p.last, p.lapsed);
      } else {
        DeedIsRemembered(run.sources.deadline, p.guard, a, p.last, p.lapsed);
      }
    }
  }

  // ---------------------------------------------------------------- what comes before a call

  lemma StageBefore(run: Run, i: nat)
    requires i <= |run.log| && IsStage(run.states[i].guard)
    ensures i > 0 && IsWayIn(run.sources.deadline, run.states[i - 1].guard, run.log[i - 1], run.states[i].guard)
  {
    assert StepAt(run, i - 1);
    GuardWaysIn(run.sources.deadline, run.states[i - 1].guard, run.log[i - 1]);
  }

  /** The planner is called only right after two clock readings before the deadline. */
  lemma PlannerIsCalledOnTime(run: Run, i: nat)
    requires i < |run.log| && run.log[i].PlannerCall?
    ensures i >= 2 && IsOnTime(run.sources.deadline, run.log[i - 1]) && IsOnTime(run.sources.deadline, run.log[i - 2])
  {
    assert StepAt(run, i);
    StageBefore(run, i);
    StageBefore(run, i - 1);
  }

  /**
   The authorizer is called only right after a clock reading before the deadline, and for the very step the
   planner has just named and the trail has recorded.
  */
  lemma AuthorizerIsCalledOnTime(run: Run, i: nat)
    requires i < |run.log| && run.log[i].AuthorizeCall?
    ensures i >= 4 && IsOnTime(run.sources.deadline, run.log[i - 1])
    ensures run.log[i - 2].Audit? && run.log[i - 2].event.ToolSelected? && IsPlan(run.log[i - 3])
    ensures run.log[i - 4] == PlannerAnswer(Gave(Some(run.log[i].step)))
  {
    assert StepAt(run, i);
    StageBefore(run, i);
    StageBefore(run, i - 1);
    StageBefore(run, i - 2);
    StageBefore(run, i - 3);
  }

  /**
   A tool is called only right after its start event, a clock reading before the deadline, the record of a
   budget grant, that grant, the record of a permission and that permission, which was asked for this very step;
   and it is waited for no longer than its limit and what was left until the deadline.
  */
  lemma ToolCallIsGoverned(run: Run, i: nat)
    requires i < |run.log| && run.log[i].ToolCall?
    ensures i >= 6
    ensures run.log[i - 1].Audit? && run.log[i - 1].event.ToolExecutionStarted?
    ensures run.log[i - 2].ClockRead? && run.log[i - 2].time < run.sources.deadline
    ensures var left := run.sources.deadline - run.log[i - 2].time;
      run.log[i].patience == Least(run.sources.limits.toolTimeout, left) > 0.0
    ensures run.log[i - 3].Audit? && IsGrant(run.log[i - 3].event)
    ensures run.log[i - 4].BudgetAnswer? && run.log[i - 4].ruling.allowed
    ensures run.log[i - 5].Audit? && Permits(run.log[i - 5].event)
    ensures run.log[i - 6] == AuthorizeAnswer(Gave(Ruling(true, run.log[i - 5].event.reason)))
    ensures exists j: nat | j < i - 6 ::
              run.log[j] == AuthorizeCall(run.log[i].step) &&
              forall k | j < k < i - 6 :: IsOnTime(run.sources.deadline, run.log[k])
  {
    StartIsCalled(run, i);
    StageBefore(run, i);
    StageBefore(run, i - 1);
    StageBefore(run, i - 2);
    StageBefore(run, i - 3);
    PermissionWasAskedFor(run, i - 4);
  }

  lemma StartIsCalled(run: Run, i: nat)
    requires i < |run.log| && run.log[i].ToolCall?
    ensures var g := run.states[i].guard;
      && g.Started? && g.step == run.log[i].step
      && run.log[i].patience == Least(run.sources.limits.toolTimeout, run.sources.deadline - g.time)
  {
    assert StepAt(run, i);
  }

  lemma PermissionWasAskedFor(run: Run, i: nat)
    requires i <= |run.log| && run.states[i].guard.Permitted?
    ensures i >= 2 && run.log[i - 1].Audit? && Permits(run.log[i - 1].event)
    ensures run.log[i - 2] == AuthorizeAnswer(Gave(Ruling(true, run.log[i - 1].event.reason)))
    ensures exists j: nat | j < i - 2 ::
              run.log[j] == AuthorizeCall(run.states[i].guard.step) &&
              forall k | j < k < i - 2 :: IsOnTime(run.sources.deadline, run.log[k])
  {
    StageBefore(run, i);
    StageBefore(run, i - 1);
    var j := AnswerWasAskedFor(run, i - 2, run.states[i].guard.step);
  }

  /** What is waited for was asked for: since the call there are only readings before the deadline. */
  lemma {:induction false} AnswerWasAskedFor(run: Run, end: nat, step: Step)
    returns (j: nat)
    requires end <= |run.log| && run.states[end].guard == Asked(step)
    ensures j < end && run.log[j] == AuthorizeCall(step)
    ensures forall k | j < k < end :: IsOnTime(run.sources.deadline, run.log[k])
  {
    StageBefore(run, end);
    j := end - 1;
    if run.log[j] != AuthorizeCall(step) {
      j := AnswerWasAskedFor(run, end - 1, step);
    }
  }

  /** A declined run is three actions long. */
  lemma DeclinedRunIsShort(run: Run)
    requires run.Now().guard.Declined?
    ensures |run.log| == 3 && run.log[0].ClockRead? && run.log[1] == Audit(RunStarted)
    ensures run.log[2].Audit? && run.log[2].event.RunTerminated?
  {
    var n := |run.log|;
    CameByWayOfDecline(run, n);
    CameByWayOfDecline(run, n - 1);
    CameByWayOfDecline(run, n - 2);
    CameByWayOfDecline(run, n - 3);
  }

  lemma CameByWayOfDecline(run: Run, i: nat)
    requires i <= |run.log|
    ensures run.states[i].guard.Opening? <==> i == 0
    ensures var h := run.states[i].guard;
      && (h.Declined? ==> run.states[i - 1].guard == Idle(false) && run.log[i - 1].Audit?
                          && run.log[i - 1].event.RunTerminated?)
      && (h == Idle(false) ==> run.states[i - 1].guard.Begun? && run.log[i - 1] == Audit(RunStarted))
      && (h.Begun? ==> run.states[i - 1].guard.Opening? && run.log[i - 1].ClockRead?)
  {
    if i > 0 {
      GuardCameFrom(run, i - 1);
      DeclinedWaysIn(run.sources.deadline, run.states[i - 1].guard, run.log[i - 1]);
    }
  }

  lemma GuardCameFrom(run: Run, i: nat)
    requires i < |run.log|
    ensures run.states[i + 1].guard == Move(run.sources.deadline, run.states[i].guard, run.log[i])
  {
    assert StepAt(run, i);
  }

  lemma StepObeys(run: Run, i: nat)
    requires i < |run.log|
    ensures Obeys(run.sources, run.states[i], run.log[i])
    ensures run.states[i].calls == Tally(run.log[..i]) && run.states[i].seen == LastSeen(run.log[..i])
  {
    StateIsTheLogs(run, i);
    assert StepAt(run, i);
  }

  /** The budget rules on the executions left and the time. */
  lemma RulingIsBudgets(run: Run, i: nat)
    requires i < |run.log| && run.log[i].BudgetAnswer?
    ensures IsBudgets(run.sources, Tally(run.log[..i]), run.log[i].ruling)
  {
    StateIsTheLogs(run, i);
    assert StepAt(run, i);
  }

  // ---------------------------------------------------------------- what is counted

  /** Recorded starts and tool calls come in pairs: only the last start can still lack its call. */
  lemma {:induction false} CallsAreStarted(run: Run, i: nat)
    requires i <= |run.log|
    ensures run.states[i].calls.tools + (if run.states[i].guard.Started? then 1 else 0) == Starts(run.states[i].events)
  {
    if i > 0 {
      CallsAreStarted(run, i - 1);
      var p, a := run.states[i - 1], run.log[i - 1];
      assert StepAt(run, i - 1);
      CallPaysForStart(run.sources.deadline, p.guard, a);
      if a.Audit? {
        StartsAppend(p.events, a.event);
      }
    }
  }

  lemma GrantIsGiven(deadline: real, g: Guard, a: Action)
    requires !Move(deadline, g, a).Broken?
    ensures a.Audit? && IsGrant(a.event) <==> g.Weighed? && g.ruling.allowed
    ensures a.BudgetAnswer? && a.ruling.allowed <==>
            Move(deadline, g, a).Weighed? && Move(deadline, g, a).ruling.allowed
  {
  }

  lemma GrantsAppend(events: seq<AuditEvent>, ev: AuditEvent)
    ensures Grants(events + [ev]) == Grants(events) + if IsGrant(ev) then 1 else 0
  {
    assert (events + [ev])[..|events|] == events;
  }

  /** Recorded grants are the budget's: only the last one can still lack its record. */
  lemma {:induction false} GrantsAreGiven(run: Run, i: nat)
    requires i <= |run.log|
    ensures var g := run.states[i].guard;
      Grants(run.states[i].events) + (if g.Weighed? && g.ruling.allowed then 1 else 0) == run.states[i].calls.grants
  {
    if i > 0 {
      GrantsAreGiven(run, i - 1);
      var p, a := run.states[i - 1], run.log[i - 1];
      assert StepAt(run, i - 1);
      GrantIsGiven(run.sources.deadline, p.guard, a);
      if a.Audit? {
        GrantsAppend(p.events, a.event);
      }
    }
  }

  /** The budget never grants more than it had. */
  lemma {:induction false} GrantsAreAllowed(run: Run, i: nat)
    requires i <= |run.log| && run.sources.allowance >= 0
    ensures run.states[i].calls.grants <= run.sources.allowance
  {
    if i > 0 {
      GrantsAreAllowed(run, i - 1);
      assert StepAt(run, i - 1);
    }
  }

  // ---------------------------------------------------------------- permits

  lemma {:induction false} PermitsInStep(run: Run, i: nat)
    requires i <= |run.log| && run.sources.policy.Some?
    ensures var policy := run.sources.policy.value;
      AgentPermits.InStep(policy.authority, policy.tools, run.states[i].permits, run.states[i].guard)
  {
    if i > 0 {
      PermitsInStep(run, i - 1);
      var p, a := run.states[i - 1], run.log[i - 1];
      assert StepAt(run, i - 1);
      var policy := run.sources.policy.value;
      AgentPermits.ActionKeepsStep(policy.authority, policy.tools, run.sources.deadline, p.permits, p.guard, a);
    }
  }

  /**
   Each tool call of a governed run finds exactly one permit, its own step's, issued by the policy since the
   last call, and leaves none.
  */
  lemma CallConsumesItsPermit(run: Run, i: nat)
    requires i < |run.log| && run.log[i].ToolCall? && run.sources.policy.Some?
    ensures var step, tools := run.log[i].step, run.sources.policy.value.tools;
      && AgentPermits.MayRun(run.sources.policy.value.authority, tools, step)
      && run.states[i].permits == map[step.identity := AgentPermits.Permit(tools[step.tool], step.capability)]
      && run.states[i + 1].permits == map[]
  {
    assert StepAt(run, i);
    PermitsInStep(run, i);
  }

  /** In a governed run a verdict that arrives is the policy's on the step that was last asked about. */
  lemma VerdictIsThePolicys(run: Run, i: nat) returns (j: nat)
    requires i < |run.log| && run.log[i].AuthorizeAnswer? && run.log[i].verdict.Gave? && run.sources.policy.Some?
    ensures j < i && run.log[j].AuthorizeCall?
    ensures forall k | j < k < i :: IsOnTime(run.sources.deadline, run.log[k])
    ensures run.log[i].verdict.value ==
              AgentPermits.RulingOf(AgentPermits.Decide(run.sources.policy.value.authority,
                                                        run.sources.policy.value.tools, run.log[j].step))
  {
    assert StepAt(run, i);
    j := AnswerWasAskedFor(run, i, run.states[i].guard.step);
  }

  /** In a governed run an observation is what the last dispatch delivered, and an error that it delivered nothing. */
  lemma AnswerIsTheDispatchs(run: Run, i: nat)
    requires i < |run.log| && run.log[i].ToolAnswered? && run.sources.policy.Some?
    ensures var history := run.states[i].history;
      && history != []
      && var outcome := history[|history| - 1].outcome;
      && (run.log[i].answer.Observation? ==> outcome == AgentPermits.Delivered(run.log[i].answer.value))
      && (run.log[i].answer.ToolError? ==> !outcome.Delivered?)
  {
    assert StepAt(run, i);
  }

  /** One dispatch per tool call, each of a step the policy permits. */
  lemma {:induction false} DispatchesAreLawful(run: Run, i: nat)
    requires i <= |run.log| && run.sources.policy.Some?
    ensures |run.states[i].history| == run.states[i].calls.tools
    ensures forall d | d in run.states[i].history ::
              AgentPermits.Lawful(run.sources.policy.value.authority, run.sources.policy.value.tools, d)
  {
    if i > 0 {
      DispatchesAreLawful(run, i - 1);
      var p, a, q := run.states[i - 1], run.log[i - 1], run.states[i];
      assert StepAt(run, i - 1);
      if a.ToolCall? {
        assert q.history == p.history + [q.history[|p.history|]];
      }
    }
  }

  /** A dispatch of the step whose tool has started is lawful. */
  lemma DispatchFits(run: Run, step: Step, patience: real, d: AgentPermits.DispatchRecord)
    requires run.Now().guard.Started? && run.Now().guard.step == step && run.sources.policy.Some?
    requires d.step == step && d.permit == AgentPermits.PermitOf(run.Now().permits, step)
    requires step.identity in run.Now().permits ==>
               && (d.executed.Some? <==>
                     ToolSchema.Conforms(step.arguments, run.Now().permits[step.identity].tool.input))
               && AgentPermits.IsDispatched(run.Now().permits[step.identity].tool.output, d.executed, d.outcome)
    ensures IsRuntimes(run.sources.policy, run.Now(), ToolCall(step, patience), run.Now().history + [d])
  {
    PermitsInStep(run, |run.log|);
  }
}
