/** Everything one agent run does, action by action, and the order its actions are held to. */
module AgentGuard {
  import opened Common
  import opened AgentTrace
  import ToolSchema

  /** A planned step; its identity is the object the planner returned. */
  datatype Step = Step(identity: nat, tool: string, capability: string, arguments: ToolSchema.Value)

  /** What comes back from a call with a deadline. */
  datatype Reply<+T> = Gave(value: T) | Expired | Failed

  datatype Ruling = Ruling(allowed: bool, reason: Reason)

  datatype BudgetRuling = BudgetRuling(allowed: bool, reason: Reason, remaining: int)

  datatype ToolAnswer = Observation(value: ToolSchema.Value) | ToolExpired | ToolCancellation | ToolError

  datatype Action =
    | Audit(event: AuditEvent)
    | ClockRead(time: real)
    | PlannerCall(seen: Option<ToolSchema.Value>)
    | PlannerAnswer(plan: Reply<Option<Step>>)
    | AuthorizeCall(step: Step)
    | AuthorizeAnswer(verdict: Reply<Ruling>)
    | BudgetAnswer(ruling: BudgetRuling)
    | ToolCall(step: Step, patience: real)
    | ToolAnswered(answer: ToolAnswer)

  /** The audit events among the actions. */
  function Events(log: seq<Action>): seq<AuditEvent> {
    if log == [] then []
    else
      var front := Events(log[..|log| - 1]);
      if log[|log| - 1].Audit? then front + [log[|log| - 1].event] else front
  }

  /** The other actions: clock readings, calls and answers. */
  function Deeds(log: seq<Action>): seq<Action> {
    if log == [] then []
    else
      var front := Deeds(log[..|log| - 1]);
      if log[|log| - 1].Audit? then front else front + [log[|log| - 1]]
  }

  /** The last observation a tool delivered. */
  function LastSeen(log: seq<Action>): Option<ToolSchema.Value> {
    if log == [] then None
    else
      var last := log[|log| - 1];
      if last.ToolAnswered? && last.answer.Observation? then Some(last.answer.value) else LastSeen(log[..|log| - 1])
  }

  /**
   Where a run stands after its actions. Between the first clock reading and the end there is always exactly
   one kind of thing to do next: `Overdue` after a late reading, `Closing` once the end is decided.
   `resumed`: whether a tool has completed. `carries`: whether the outcome reports the last observation.
  */
  datatype Guard =
    | Opening
    | Begun
    | Idle(resumed: bool)
    | OnTime
    | Ready
    | Planning
    | Heard(plan: Reply<Option<Step>>)
    | Selecting(step: Step)
    | Picked(step: Step)
    | Cleared(step: Step)
    | Asked(step: Step)
    | Ruled(step: Step, verdict: Reply<Ruling>)
    | Permitted(step: Step)
    | Weighed(step: Step, ruling: BudgetRuling)
    | Paid(step: Step)
    | InTime(step: Step, time: real)
    | Started(step: Step, time: real)
    | Working
    | Answered(answer: ToolAnswer)
    | Lapsed(reason: Reason)
    | Delivering
    | Overdue
    | Closing(status: Status, reason: Reason, carries: bool)
    | Done(status: Status, reason: Reason, carries: bool)
    | Declined
    | Broken

  function Move(deadline: real, g: Guard, a: Action): Guard {
    match a
    case Audit(event) => MoveByEvent(g, event)
    case ClockRead(time) => MoveByClock(deadline, g, time)
    case PlannerCall(_) => if g.Ready? then Planning else Broken
    case PlannerAnswer(plan) => if g.Planning? then Heard(plan) else Broken
    case AuthorizeCall(step) => if g == Cleared(step) then Asked(step) else Broken
    case AuthorizeAnswer(verdict) => if g.Asked? then Ruled(g.step, verdict) else Broken
    case BudgetAnswer(ruling) => if g.Permitted? then Weighed(g.step, ruling) else Broken
    case ToolCall(step, _) => if g.Started? && g.step == step then Working else Broken
    case ToolAnswered(answer) => if g.Working? then Answered(answer) else Broken
  }

  function MoveByClock(deadline: real, g: Guard, time: real): Guard {
    match g
    case Opening => Begun
    case Answered(answer) =>
      if answer.ToolExpired? then Lapsed(if time >= deadline then RunDeadlineExceeded else ToolTimeout) else Broken
    case Idle(_) => if time < deadline then OnTime else Overdue
    case OnTime => if time < deadline then Ready else Overdue
    case Picked(step) => if time < deadline then Cleared(step) else Overdue
    case Planning => if time < deadline then g else Overdue
    case Asked(_) => if time < deadline then g else Overdue
    case Paid(step) => if time < deadline then InTime(step, time) else Overdue
    case _ => Broken
  }

  function MoveByEvent(g: Guard, event: AuditEvent): Guard {
    match event
    case RunStarted => if g.Begun? then Idle(false) else Broken
    case PlannerDecision(outcome, _) => MoveByPlan(g, outcome)
    case ToolSelected(_) => if g.Selecting? then Picked(g.step) else Broken
    case AuthorizationDecision(verdict, reason, _) => MoveByVerdict(g, verdict, reason)
    case BudgetDecision(allowed, reason, _) =>
      if !g.Weighed? || allowed != g.ruling.allowed || reason != g.ruling.reason then Broken
      else if allowed then Paid(g.step)
      else Closing(if reason == TimeBudgetExhausted then TimedOut else BudgetExhausted, reason, true)
    case ToolExecutionStarted(_) => if g.InTime? then Started(g.step, g.time) else Broken
    case ToolExecutionCompleted(_) => if g.Answered? && g.answer.Observation? then Delivering else Broken
    case ToolExecutionFailed(failure, reason, _) => MoveByFailure(g, failure, reason)
    case ObservationReceived(_) => if g.Delivering? then Idle(true) else Broken
    case RunTerminated(status, reason, _) => MoveByEnd(g, status, reason)
  }

  function MoveByPlan(g: Guard, outcome: PlannerOutcome): Guard {
    match outcome
    case PlanTimeout =>
      if g.Overdue? || (g.Heard? && g.plan.Expired?) then Closing(TimedOut, RunDeadlineExceeded, false) else Broken
    case PlanFailed => if g.Heard? && g.plan.Failed? then Closing(FailedRun, PlannerFailed, false) else Broken
    case PlanComplete =>
      if g.Heard? && g.plan.Gave? && g.plan.value.None? then Closing(CompleteRun, NoReason, true) else Broken
    case Selected =>
      if g.Heard? && g.plan.Gave? && g.plan.value.Some? then Selecting(g.plan.value.value) else Broken
  }

  function MoveByVerdict(g: Guard, verdict: Verdict, reason: Reason): Guard {
    match verdict
    case VerdictTimeout =>
      if g.Overdue? || (g.Ruled? && g.verdict.Expired?) then Closing(TimedOut, RunDeadlineExceeded, false) else Broken
    case VerdictFailed =>
      if g.Ruled? && g.verdict.Failed? then Closing(FailedRun, AuthorizationFailed, false) else Broken
    case Allowed =>
      if g.Ruled? && g.verdict.Gave? && g.verdict.value.allowed && g.verdict.value.reason == reason
      then Permitted(g.step) else Broken
    case Refused =>
      if g.Ruled? && g.verdict.Gave? && !g.verdict.value.allowed && g.verdict.value.reason == reason
      then Closing(Denied, reason, true) else Broken
  }

  function MoveByFailure(g: Guard, failure: Failure, reason: Reason): Guard {
    match failure
    case ToolTimedOut => if g.Lapsed? && g.reason == reason then Closing(TimedOut, reason, true) else Broken
    case ToolCancelled =>
      if g.Answered? && g.answer.ToolCancellation? then Closing(CancelledRun, RunCancelled, true) else Broken
    case ToolBroke => if g.Answered? && g.answer.ToolError? then Closing(FailedRun, ToolFailed, true) else Broken
  }

  function MoveByEnd(g: Guard, status: Status, reason: Reason): Guard {
    match g
    case Closing(s, r, carries) => if s == status && r == reason then Done(s, r, carries) else Broken
    case Overdue => if status.TimedOut? && reason.RunDeadlineExceeded? then Done(status, reason, false) else Broken
    case Idle(resumed) =>
      if resumed && status.DepthLimitReached? && reason.MaxDepthReached? then Done(status, reason, true)
      else if !resumed && status.Denied? && reason.NonCancellableExecutor? then Declined
      else Broken
    case _ => Broken
  }

  // ---------------------------------------------------------------- what comes before a call

  /** The stages on the way from a planned step to its tool call, each with its only way in. */
  predicate IsStage(g: Guard) {
    || g.OnTime? || g.Ready? || g.Heard? || g.Selecting? || g.Picked? || g.Cleared? || g.Ruled? || g.Permitted?
    || g.Asked? || g.Weighed? || g.Paid? || g.InTime? || g.Started?
  }

  /** The guard before, and the action that led here. */
  predicate IsWayIn(deadline: real, g: Guard, a: Action, h: Guard) {
    && (h.OnTime? ==> g.Idle? && IsOnTime(deadline, a))
    && (h.Ready? ==> g == OnTime && IsOnTime(deadline, a))
    && (h.Heard? ==> a == PlannerAnswer(h.plan))
    && (h.Selecting? ==> g == Heard(Gave(Some(h.step))) && IsPlan(a))
    && (h.Picked? ==> g == Selecting(h.step) && a.Audit? && a.event.ToolSelected?)
    && (h.Cleared? ==> g == Picked(h.step) && IsOnTime(deadline, a))
    && (h.Asked? ==> a == AuthorizeCall(h.step) || (g == h && IsOnTime(deadline, a)))
    && (h.Ruled? ==> g == Asked(h.step) && a == AuthorizeAnswer(h.verdict))
    && (h.Permitted? ==> a.Audit? && Permits(a.event) && g == Ruled(h.step, Gave(Ruling(true, a.event.reason))))
    && (h.Weighed? ==> g == Permitted(h.step) && a == BudgetAnswer(h.ruling))
    && (h.Paid? ==> g.Weighed? && g.step == h.step && g.ruling.allowed && a.Audit? && IsGrant(a.event)
                    && a.event.reason == g.ruling.reason)
    && (h.InTime? ==> g == Paid(h.step) && a == ClockRead(h.time) && h.time < deadline)
    && (h.Started? ==> g == InTime(h.step, h.time) && a.Audit? && a.event.ToolExecutionStarted?)
  }

  predicate Permits(ev: AuditEvent) {
    ev.AuthorizationDecision? && ev.verdict.Allowed?
  }

  predicate IsOnTime(deadline: real, a: Action) {
    a.ClockRead? && a.time < deadline
  }

  predicate IsPlan(a: Action) {
    a.Audit? && a.event.PlannerDecision? && a.event.planner.Selected?
  }

  lemma EventWaysIn(deadline: real, g: Guard, event: AuditEvent)
    ensures IsWayIn(deadline, g, Audit(event), MoveByEvent(g, event))
  {
  }

  lemma ClockWaysIn(deadline: real, g: Guard, time: real)
    ensures IsWayIn(deadline, g, ClockRead(time), MoveByClock(deadline, g, time))
  {
  }

  lemma GuardWaysIn(deadline: real, g: Guard, a: Action)
    ensures IsWayIn(deadline, g, a, Move(deadline, g, a))
  {
    if a.Audit? {
      EventWaysIn(deadline, g, a.event);
    } else if a.ClockRead? {
      ClockWaysIn(deadline, g, a.time);
    }
  }

  /** The only way to the three actions of a declined run. */
  lemma DeclinedWaysIn(deadline: real, g: Guard, a: Action)
    ensures var h := Move(deadline, g, a);
      && (h.Declined? ==> g == Idle(false) && a.Audit? && a.event.RunTerminated?)
      && (h == Idle(false) ==> g.Begun? && a == Audit(RunStarted))
      && (h.Begun? ==> g.Opening? && a.ClockRead?)
      && !h.Opening?
  {
  }

  function ToolCalls(log: seq<Action>): nat {
    if log == [] then 0 else ToolCalls(log[..|log| - 1]) + if log[|log| - 1].ToolCall? then 1 else 0
  }

  lemma StartsAppend(events: seq<AuditEvent>, ev: AuditEvent)
    ensures Starts(events + [ev]) == Starts(events) + if ev.ToolExecutionStarted? then 1 else 0
  {
    assert (events + [ev])[..|events|] == events;
  }

  /** A start event is followed by its call, and nothing else is. */
  lemma CallPaysForStart(deadline: real, g: Guard, a: Action)
    requires !Move(deadline, g, a).Broken?
    ensures a.ToolCall? <==> g.Started?
    ensures a.Audit? && a.event.ToolExecutionStarted? <==> Move(deadline, g, a).Started?
  {
  }

  // ---------------------------------------------------------------- what an end is due to

  predicate IsLate(deadline: real, a: Action) {
    a.ClockRead? && a.time >= deadline
  }

  /**
   Each way to end and the one thing it is due to: `last` is the last deed, `lapsed` tells that it is the
   clock reading after a tool that expired.
  */
  predicate EndsBecause(deadline: real, status: Status, reason: Reason, carries: bool, last: Action, lapsed: bool) {
    && (status == CompleteRun <==> last == PlannerAnswer(Gave(None)))
    && (status == DepthLimitReached <==> last.ToolAnswered? && last.answer.Observation?)
    && (status == Denied <==> last == AuthorizeAnswer(Gave(Ruling(false, reason))))
    && (status == CancelledRun <==> last == ToolAnswered(ToolCancellation))
    && (status == FailedRun && reason == PlannerFailed <==> last == PlannerAnswer(Failed))
    && (status == FailedRun && reason == AuthorizationFailed <==> last == AuthorizeAnswer(Failed))
    && (status == FailedRun && reason == ToolFailed <==> last == ToolAnswered(ToolError))
    && (status == FailedRun ==> reason == PlannerFailed || reason == AuthorizationFailed || reason == ToolFailed)
    && (status == BudgetExhausted <==> last.BudgetAnswer? && last.ruling.reason != TimeBudgetExhausted)
    && (status == TimedOut && reason == TimeBudgetExhausted <==>
          last.BudgetAnswer? && last.ruling.reason == TimeBudgetExhausted)
    && (last.BudgetAnswer? ==> !last.ruling.allowed && reason == last.ruling.reason)
    && (status == TimedOut && reason == ToolTimeout <==> lapsed && IsOnTime(deadline, last))
    && (status == TimedOut && reason == RunDeadlineExceeded <==>
          last == PlannerAnswer(Expired) || last == AuthorizeAnswer(Expired) || IsLate(deadline, last))
    && (status == TimedOut ==> reason == TimeBudgetExhausted || reason == ToolTimeout || reason == RunDeadlineExceeded)
    && (carries <==>
          || last == PlannerAnswer(Gave(None)) || (last.AuthorizeAnswer? && last.verdict.Gave?)
          || last.BudgetAnswer? || last.ToolAnswered? || lapsed)
  }

  /** What the guard remembers of the last deed. */
  predicate Remembers(deadline: real, g: Guard, last: Option<Action>, lapsed: bool) {
    match g
    case Broken => true
    case Opening => last == None
    case Idle(true) => !lapsed && last.Some? && last.value.ToolAnswered? && last.value.answer.Observation?
    case Heard(plan) => !lapsed && last == Some(PlannerAnswer(plan))
    case Ruled(_, verdict) => !lapsed && last == Some(AuthorizeAnswer(verdict))
    case Weighed(_, ruling) => !lapsed && last == Some(BudgetAnswer(ruling))
    case Answered(answer) => !lapsed && last == Some(ToolAnswered(answer))
    case Delivering => !lapsed && last.Some? && last.value.ToolAnswered? && last.value.answer.Observation?
    case Lapsed(reason) =>
      && lapsed && last.Some? && last.value.ClockRead?
      && reason == if IsLate(deadline, last.value) then RunDeadlineExceeded else ToolTimeout
    case Overdue => !lapsed && last.Some? && IsLate(deadline, last.value)
    case Closing(status, reason, carries) =>
      last.Some? && EndsBecause(deadline, status, reason, carries, last.value, lapsed)
    case Done(status, reason, carries) =>
      last.Some? && EndsBecause(deadline, status, reason, carries, last.value, lapsed)
    case _ => last.Some? && last != Some(ToolAnswered(ToolExpired))
  }

  lemma VerdictKeepsCause(deadline: real, g: Guard, verdict: Verdict, reason: Reason, last: Option<Action>,
                          lapsed: bool)
    requires Remembers(deadline, g, last, lapsed)
    ensures Remembers(deadline, MoveByVerdict(g, verdict, reason), last, lapsed)
  {
  }

  lemma PlanKeepsCause(deadline: real, g: Guard, outcome: PlannerOutcome, last: Option<Action>, lapsed: bool)
    requires Remembers(deadline, g, last, lapsed)
    ensures Remembers(deadline, MoveByPlan(g, outcome), last, lapsed)
  {
  }

  lemma FailureKeepsCause(deadline: real, g: Guard, failure: Failure, reason: Reason, last: Option<Action>,
                          lapsed: bool)
    requires Remembers(deadline, g, last, lapsed)
    ensures Remembers(deadline, MoveByFailure(g, failure, reason), last, lapsed)
  {
  }

  lemma EndKeepsCause(deadline: real, g: Guard, status: Status, reason: Reason, last: Option<Action>, lapsed: bool)
    requires Remembers(deadline, g, last, lapsed)
    ensures Remembers(deadline, MoveByEnd(g, status, reason), last, lapsed)
  {
  }

  lemma OtherEventKeepsCause(deadline: real, g: Guard, event: AuditEvent, last: Option<Action>, lapsed: bool)
    requires Remembers(deadline, g, last, lapsed) && !event.PlannerDecision? && !event.AuthorizationDecision?
    requires !event.ToolExecutionFailed? && !event.RunTerminated?
    ensures Remembers(deadline, MoveByEvent(g, event), last, lapsed)
  {
  }

  lemma EventKeepsCause(deadline: real, g: Guard, event: AuditEvent, last: Option<Action>, lapsed: bool)
    requires Remembers(deadline, g, last, lapsed)
    ensures Remembers(deadline, MoveByEvent(g, event), last, lapsed)
  {
    if event.PlannerDecision? {
      PlanKeepsCause(deadline, g, event.planner, last, lapsed);
    } else if event.AuthorizationDecision? {
      VerdictKeepsCause(deadline, g, event.verdict, event.reason, last, lapsed);
    } else if event.ToolExecutionFailed? {
      FailureKeepsCause(deadline, g, event.failure, event.reason, last, lapsed);
    } else if event.RunTerminated? {
      EndKeepsCause(deadline, g, event.status, event.reason, last, lapsed);
    } else {
      OtherEventKeepsCause(deadline, g, event, last, lapsed);
    }
  }

  /** A reading of the clock after a tool that expired. */
  predicate IsLapse(last: Option<Action>, deed: Action) {
    deed.ClockRead? && last == Some(ToolAnswered(ToolExpired))
  }

  lemma DeedIsRemembered(deadline: real, g: Guard, a: Action, last: Option<Action>, lapsed: bool)
    requires Remembers(deadline, g, last, lapsed) && !a.Audit?
    ensures Remembers(deadline, Move(deadline, g, a), Some(a), IsLapse(last, a))
  {
  }
}
