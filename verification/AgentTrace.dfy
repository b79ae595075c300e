/** The language of audit traces of one bounded agent run, and what every word of it satisfies. */
module AgentTrace {
  import opened Common

  datatype Status =
    | CompleteRun | Denied | BudgetExhausted | TimedOut | FailedRun | CancelledRun | DepthLimitReached

  datatype Reason =
    | NoReason | NonCancellableExecutor | RunDeadlineExceeded | ToolTimeout | PlannerFailed
    | AuthorizationFailed | ToolFailed | RunCancelled | MaxDepthReached
    | TimeBudgetExhausted | ExecutionBudgetExhausted | BudgetGranted | PolicyReason(code: string)

  datatype PlannerOutcome = Selected | PlanComplete | PlanTimeout | PlanFailed
  datatype Verdict = Allowed | Refused | VerdictTimeout | VerdictFailed
  datatype Failure = ToolTimedOut | ToolCancelled | ToolBroke

  datatype AuditEvent =
    | RunStarted
    | PlannerDecision(planner: PlannerOutcome, depth: nat)
    | ToolSelected(depth: nat)
    | AuthorizationDecision(verdict: Verdict, reason: Reason, depth: nat)
    | BudgetDecision(allowed: bool, reason: Reason, depth: nat)
    | ToolExecutionStarted(depth: nat)
    | ToolExecutionCompleted(depth: nat)
    | ToolExecutionFailed(failure: Failure, reason: Reason, depth: nat)
    | ObservationReceived(depth: nat)
    | RunTerminated(status: Status, reason: Reason, depth: nat)

  /** Where a run stands after a trace; `d` counts completed tool executions. */
  datatype Phase =
    | Fresh
    | AtTop(d: nat)
    | Planned(d: nat)
    | Chosen(d: nat)
    | Authorized(d: nat)
    | Granted(d: nat)
    | Running(d: nat)
    | Observing(d: nat)
    | MustEnd(status: Status, reason: Reason, d: nat)
    | Ended(status: Status, reason: Reason, d: nat)
    | Bad

  function Next(maxDepth: nat, p: Phase, ev: AuditEvent): Phase {
    match (p, ev)
    case (Fresh, RunStarted) => AtTop(0)
    case (AtTop(d), RunTerminated(s, r, n)) =>
      if n != d then Bad
      else if d == maxDepth then
        if s == DepthLimitReached && r == MaxDepthReached then Ended(s, r, d) else Bad
      else if s == TimedOut && r == RunDeadlineExceeded then Ended(s, r, d)
      else if d == 0 && s == Denied && r == NonCancellableExecutor then Ended(s, r, d)
      else Bad
    case (AtTop(d), PlannerDecision(outcome, n)) =>
      if n != d || d >= maxDepth then Bad
      else
        (match outcome
         case Selected => Planned(d)
         case PlanComplete => MustEnd(CompleteRun, NoReason, d)
         case PlanTimeout => MustEnd(TimedOut, RunDeadlineExceeded, d)
         case PlanFailed => MustEnd(FailedRun, PlannerFailed, d))
    case (Planned(d), ToolSelected(n)) => if n == d then Chosen(d) else Bad
    case (Chosen(d), AuthorizationDecision(verdict, r, n)) =>
      if n != d then Bad
      else
        (match verdict
         case Allowed => Authorized(d)
         case Refused => MustEnd(Denied, r, d)
         case VerdictTimeout => MustEnd(TimedOut, RunDeadlineExceeded, d)
         case VerdictFailed => MustEnd(FailedRun, AuthorizationFailed, d))
    case (Authorized(d), BudgetDecision(allowed, r, n)) =>
      if n != d then Bad
      else if allowed then Granted(d)
      else MustEnd(if r == TimeBudgetExhausted then TimedOut else BudgetExhausted, r, d)
    case (Granted(d), RunTerminated(s, r, n)) =>
      if n == d && s == TimedOut && r == RunDeadlineExceeded then Ended(s, r, d) else Bad
    case (Granted(d), ToolExecutionStarted(n)) => if n == d then Running(d) else Bad
    case (Running(d), ToolExecutionCompleted(n)) => if n == d then Observing(d) else Bad
    case (Running(d), ToolExecutionFailed(failure, r, n)) =>
      if n != d then Bad
      else
        (match failure
         case ToolTimedOut => if r == RunDeadlineExceeded || r == ToolTimeout then MustEnd(TimedOut, r, d) else Bad
         case ToolCancelled => MustEnd(CancelledRun, RunCancelled, d)
         case ToolBroke => MustEnd(FailedRun, ToolFailed, d))
    case (Observing(d), ObservationReceived(n)) => if n == d + 1 then AtTop(d + 1) else Bad
    case (MustEnd(s, r, d), RunTerminated(s', r', n)) => if (s', r', n) == (s, r, d) then Ended(s, r, d) else Bad
    case _ => Bad
  }

  function Parse(maxDepth: nat, events: seq<AuditEvent>): Phase {
    if events == [] then Fresh
    else Next(maxDepth, Parse(maxDepth, events[..|events| - 1]), events[|events| - 1])
  }

  lemma ParseAppend(maxDepth: nat, events: seq<AuditEvent>, ev: AuditEvent)
    ensures Parse(maxDepth, events + [ev]) == Next(maxDepth, Parse(maxDepth, events), ev)
  {
    assert (events + [ev])[..|events|] == events;
  }

  // ---------------------------------------------------------------- what the language implies

  function Starts(events: seq<AuditEvent>): nat {
    if events == [] then 0
    else Starts(events[..|events| - 1]) + if events[|events| - 1].ToolExecutionStarted? then 1 else 0
  }

  function Completions(events: seq<AuditEvent>): nat {
    if events == [] then 0
    else Completions(events[..|events| - 1]) + if events[|events| - 1].ToolExecutionCompleted? then 1 else 0
  }

  predicate IsGrant(ev: AuditEvent) {
    ev.BudgetDecision? && ev.allowed
  }

  function Grants(events: seq<AuditEvent>): nat {
    if events == [] then 0
    else Grants(events[..|events| - 1]) + if IsGrant(events[|events| - 1]) then 1 else 0
  }

  /** Tool executions completed, started and granted when a run is in a phase. */
  predicate Counts(maxDepth: nat, p: Phase, completed: nat, started: nat, granted: nat) {
    match p
    case Bad => true
    case Fresh => completed == started == granted == 0
    case Granted(d) => d < maxDepth && completed == started == d && granted == d + 1
    case Running(d) => d < maxDepth && completed == d && started == granted == d + 1
    case Observing(d) => d < maxDepth && completed == started == granted == d + 1
    case AtTop(d) => d <= maxDepth && completed == started == granted == d
    case Planned(d) => d < maxDepth && completed == started == granted == d
    case Chosen(d) => d < maxDepth && completed == started == granted == d
    case Authorized(d) => d < maxDepth && completed == started == granted == d
    case MustEnd(_, _, d) => d < maxDepth && completed == d && started <= d + 1 && started == granted
    case Ended(_, _, d) => d <= maxDepth && completed == d && started <= granted && granted <= d + 1
                           && started <= maxDepth
  }

  lemma {:induction false} PhaseCounts(maxDepth: nat, events: seq<AuditEvent>)
    ensures Counts(maxDepth, Parse(maxDepth, events), Completions(events), Starts(events), Grants(events))
  {
    if events != [] {
      PhaseCounts(maxDepth, events[..|events| - 1]);
    }
  }

  /** A trace that has ended: its counts against the reported depth and the limit. */
  lemma EndedCounts(maxDepth: nat, events: seq<AuditEvent>, status: Status, reason: Reason, steps: nat)
    requires Parse(maxDepth, events) == Ended(status, reason, steps)
    ensures Completions(events) == steps <= maxDepth
    ensures steps <= Starts(events) <= Min(maxDepth, steps + 1) && Starts(events) <= Grants(events)
  {
    PhaseCounts(maxDepth, events);
    StartsCoverCompletions(maxDepth, events);
  }

  lemma {:induction false} StartsCoverCompletions(maxDepth: nat, events: seq<AuditEvent>)
    requires !Parse(maxDepth, events).Bad?
    ensures Completions(events) + (if Parse(maxDepth, events).Running? then 1 else 0) <= Starts(events)
  {
    if events != [] {
      StartsCoverCompletions(maxDepth, events[..|events| - 1]);
    }
  }

  /** Nothing leads out of Bad. */
  lemma {:induction false} PrefixParses(maxDepth: nat, events: seq<AuditEvent>, k: nat)
    requires k <= |events| && !Parse(maxDepth, events).Bad?
    ensures !Parse(maxDepth, events[..k]).Bad?
    decreases |events|
  {
    if k < |events| {
      var front := events[..|events| - 1];
      assert front[..k] == events[..k];
      PrefixParses(maxDepth, front, k);
    } else {
      assert events[..k] == events;
    }
  }

  /** Each event moves the phase of the prefix before it, and never to Bad. */
  lemma StepOfPrefix(maxDepth: nat, events: seq<AuditEvent>, k: nat)
    requires k < |events| && !Parse(maxDepth, events).Bad?
    ensures var p := Parse(maxDepth, events[..k]);
      && Parse(maxDepth, events[..k + 1]) == Next(maxDepth, p, events[k])
      && !Next(maxDepth, p, events[k]).Bad? && !p.Bad?
      && (k == 0 <==> p.Fresh?)
  {
    PrefixParses(maxDepth, events, k);
    PrefixParses(maxDepth, events, k + 1);
    assert events[..k + 1] == events[..k] + [events[k]];
    ParseAppend(maxDepth, events[..k], events[k]);
    if k > 0 {
      PrefixParses(maxDepth, events, k - 1);
      assert events[..k] == events[..k - 1] + [events[k - 1]];
      ParseAppend(maxDepth, events[..k - 1], events[k - 1]);
    }
  }

  /** A termination event ends the trace: nothing follows it. */
  lemma TerminationIsLast(maxDepth: nat, events: seq<AuditEvent>, k: nat)
    requires !Parse(maxDepth, events).Bad? && k < |events| && events[k].RunTerminated?
    ensures k == |events| - 1
    ensures Parse(maxDepth, events) == Ended(events[k].status, events[k].reason, events[k].depth)
  {
    StepOfPrefix(maxDepth, events, k);
    var p := Parse(maxDepth, events[..k + 1]);
    assert p == Ended(events[k].status, events[k].reason, events[k].depth);
    if k + 1 < |events| {
      StepOfPrefix(maxDepth, events, k + 1);
    } else {
      assert events[..k + 1] == events;
    }
  }

  /** Only a termination event ends a trace. */
  lemma EndingIsTermination(maxDepth: nat, events: seq<AuditEvent>)
    requires Parse(maxDepth, events).Ended?
    ensures |events| >= 2 && events[|events| - 1].RunTerminated?
  {
    var k := |events| - 1;
    StepOfPrefix(maxDepth, events, k);
    assert events[..k + 1] == events;
  }

  /** Exactly one termination event, the last one, carrying the outcome. */
  lemma TerminatedOnceAtTheEnd(maxDepth: nat, events: seq<AuditEvent>, status: Status, reason: Reason, steps: nat)
    requires Parse(maxDepth, events) == Ended(status, reason, steps)
    ensures |events| >= 2 && events[|events| - 1] == RunTerminated(status, reason, steps)
    ensures forall k | 0 <= k < |events| - 1 :: !events[k].RunTerminated?
  {
    EndingIsTermination(maxDepth, events);
    TerminationIsLast(maxDepth, events, |events| - 1);
    forall k | 0 <= k < |events| - 1 ensures !events[k].RunTerminated? {
      if events[k].RunTerminated? {
        TerminationIsLast(maxDepth, events, k);
      }
    }
  }

  /** Exactly one start event, the first one. */
  lemma StartedOnceAtTheBeginning(maxDepth: nat, events: seq<AuditEvent>)
    requires events != [] && !Parse(maxDepth, events).Bad?
    ensures events[0] == RunStarted && forall k | 1 <= k < |events| :: !events[k].RunStarted?
  {
    StepOfPrefix(maxDepth, events, 0);
    forall k | 1 <= k < |events| ensures !events[k].RunStarted? {
      StepOfPrefix(maxDepth, events, k);
    }
  }

  /** The only way into each phase on the path to a tool start. */
  lemma WaysIn(maxDepth: nat, p: Phase, ev: AuditEvent)
    ensures var q := Next(maxDepth, p, ev);
      && (q.Granted? ==> p == Authorized(q.d) && IsGrant(ev) && ev.depth == q.d)
      && (q.Authorized? ==> p == Chosen(q.d) && ev.AuthorizationDecision? && ev.verdict.Allowed? && ev.depth == q.d)
      && (q.Chosen? ==> p == Planned(q.d) && ev == ToolSelected(q.d))
      && (q.Planned? ==> p == AtTop(q.d) && ev == PlannerDecision(Selected, q.d) && q.d < maxDepth)
      && !q.Fresh?
  {
  }

  lemma CameFrom(maxDepth: nat, events: seq<AuditEvent>, k: nat)
    requires !Parse(maxDepth, events).Bad? && 0 < k <= |events|
    ensures Parse(maxDepth, events[..k]) == Next(maxDepth, Parse(maxDepth, events[..k - 1]), events[k - 1])
    ensures !Parse(maxDepth, events[..k]).Bad?
  {
    StepOfPrefix(maxDepth, events, k - 1);
  }

  /** A tool starts only right after its own round's plan, choice, permission and budget grant. */
  lemma StartIsGoverned(maxDepth: nat, events: seq<AuditEvent>, k: nat)
    requires !Parse(maxDepth, events).Bad? && k < |events| && events[k].ToolExecutionStarted?
    ensures k >= 5 && events[k].depth < maxDepth
    ensures IsGrant(events[k - 1]) && events[k - 1].depth == events[k].depth
    ensures events[k - 2].AuthorizationDecision? && events[k - 2].verdict.Allowed?
    ensures events[k - 2].depth == events[k].depth
    ensures events[k - 3] == ToolSelected(events[k].depth)
    ensures events[k - 4] == PlannerDecision(Selected, events[k].depth)
  {
    StepOfPrefix(maxDepth, events, k);
    var p1 := Parse(maxDepth, events[..k]);
    assert p1 == Granted(events[k].depth);
    CameFrom(maxDepth, events, k);
    WaysIn(maxDepth, Parse(maxDepth, events[..k - 1]), events[k - 1]);
    CameFrom(maxDepth, events, k - 1);
    WaysIn(maxDepth, Parse(maxDepth, events[..k - 2]), events[k - 2]);
    CameFrom(maxDepth, events, k - 2);
    WaysIn(maxDepth, Parse(maxDepth, events[..k - 3]), events[k - 3]);
    CameFrom(maxDepth, events, k - 3);
    WaysIn(maxDepth, Parse(maxDepth, events[..k - 4]), events[k - 4]);
  }
}
