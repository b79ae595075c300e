/** The governed runtime: permits issued by its policy and consumed by its dispatcher, over whole runs. */
module AgentPermits {
  import opened Common
  import opened AgentTrace
  import opened AgentGuard
  import opened ToolSchema

  datatype Tool = Tool(name: string, capabilities: set<string>, input: Schema, output: Schema)

  datatype Authority = Authority(actor: string, organization: int, resourceOrganization: int, allowed: set<string>)

  datatype Denial =
    | TenantMismatch | UnknownTool | InvalidRequest | CapabilityNotDeclared | CapabilityNotAuthorized

  datatype Decision = Granting | Denying(reason: Denial)

  datatype Permit = Permit(tool: Tool, capability: string)

  /** Default deny: every condition must hold for the step to be permitted. */
  function Decide(authority: Authority, tools: map<string, Tool>, step: Step): Decision {
    if authority.organization != authority.resourceOrganization then Denying(TenantMismatch)
    else if step.tool !in tools then Denying(UnknownTool)
    else if authority.actor == "" || step.capability == "" then Denying(InvalidRequest)
    else if step.capability !in tools[step.tool].capabilities then Denying(CapabilityNotDeclared)
    else if step.capability !in authority.allowed then Denying(CapabilityNotAuthorized)
    else Granting
  }

  datatype Executed = Result(value: Value) | ToolRaised
  datatype Outcome = Delivered(value: Value) | NoPermit | SchemaError | Raised

  /** One dispatch: the permit it consumed, what the executor did if it ran, and what came of it. */
  datatype DispatchRecord =
    DispatchRecord(step: Step, permit: Option<Permit>, executed: Option<Executed>, outcome: Outcome)

  /** Default deny, as one condition. */
  predicate MayRun(authority: Authority, tools: map<string, Tool>, step: Step) {
    && authority.organization == authority.resourceOrganization
    && step.tool in tools
    && authority.actor != "" && step.capability != ""
    && step.capability in tools[step.tool].capabilities
    && step.capability in authority.allowed
  }

  class GovernedRuntime {
    const tools: map<string, Tool>
    const authority: Authority
    var permits: map<nat, Permit>
    ghost var history: seq<DispatchRecord>

    constructor (tools: map<string, Tool>, authority: Authority)
      ensures this.tools == tools && this.authority == authority && permits == map[] && history == []
    {
      this.tools, this.authority, permits, history := tools, authority, map[], [];
    }

    /** A permit is issued exactly when every condition of the default-deny policy holds. */
    method Policy(step: Step) returns (decision: Decision)
      modifies this`permits
      ensures decision == Decide(authority, tools, step)
      ensures decision.Granting? <==> MayRun(authority, tools, step)
      ensures permits == Issued(authority, tools, old(permits), step)
    {
      if authority.organization != authority.resourceOrganization {
        return Denying(TenantMismatch);
      }
      if step.tool !in tools {
        return Denying(UnknownTool);
      }
      var tool := tools[step.tool];
      if authority.actor == "" || step.capability == "" {
        return Denying(InvalidRequest);
      }
      if step.capability !in tool.capabilities {
        return Denying(CapabilityNotDeclared);
      }
      if step.capability !in authority.allowed {
        return Denying(CapabilityNotAuthorized);
      }
      permits := permits[step.identity := Permit(tool, step.capability)];
      return Granting;
    }

    /**
     Consumes the step's permit whatever happens next. The executor runs only under a permit and on
     conforming arguments, and only a conforming result is delivered.
    */
    method Dispatch(step: Step, executor: (Value, Permit) -> Executed)
      returns (outcome: Outcome, ghost executed: Option<Executed>)
      modifies this
      ensures permits == old(permits) - {step.identity}
      ensures history == old(history) + [DispatchRecord(step, PermitOf(old(permits), step), executed, outcome)]
      ensures outcome.NoPermit? <==> step.identity !in old(permits)
      ensures executed.Some? <==> step.identity in old(permits)
                                  && Conforms(step.arguments, old(permits)[step.identity].tool.input)
      ensures step.identity in old(permits) ==>
                && (executed.Some? ==> executed.value == executor(step.arguments, old(permits)[step.identity]))
                && IsDispatched(old(permits)[step.identity].tool.output, executed, outcome)
    {
      executed := None;
      if step.identity !in permits {
        outcome := NoPermit;
      } else {
        var permit := permits[step.identity];
        permits := permits - {step.identity};
        ValidateIsConformance(step.arguments, permit.tool.input);
        if !Validate(step.arguments, permit.tool.input) {
          outcome := SchemaError;
        } else {
          var result := executor(step.arguments, permit);
          executed := Some(result);
          outcome := CheckResult(result, permit.tool.output);
        }
      }
      history := history + [DispatchRecord(step, PermitOf(old(permits), step), executed, outcome)];
    }
  }

  /** What comes of a dispatch under a permit: nothing ran, the executor raised, or its result is judged. */
  ghost predicate IsDispatched(output: Schema, executed: Option<Executed>, outcome: Outcome) {
    match executed
    case None => outcome == SchemaError
    case Some(ToolRaised) => outcome == Raised
    case Some(Result(value)) => outcome == if Conforms(value, output) then Delivered(value) else SchemaError
  }

  function PermitOf(permits: map<nat, Permit>, step: Step): Option<Permit> {
    if step.identity in permits then Some(permits[step.identity]) else None
  }

  /** What the executor returned is delivered exactly when it conforms. */
  function CheckResult(executed: Executed, output: Schema): (outcome: Outcome)
    ensures IsDispatched(output, Some(executed), outcome)
  {
    if executed.ToolRaised? then Raised
    else
      ValidateIsConformance(executed.value, output);
      if Validate(executed.value, output) then Delivered(executed.value) else SchemaError
  }

  // ---------------------------------------------------------------- permits along a run

  /** The permit table after an authorization call. */
  function Issued(authority: Authority, tools: map<string, Tool>, permits: map<nat, Permit>, step: Step)
    : map<nat, Permit>
  {
    if Decide(authority, tools, step).Granting?
    then permits[step.identity := Permit(tools[step.tool], step.capability)]
    else permits
  }

  /** Only authorization and tool calls touch the permit table. */
  function Touch(authority: Authority, tools: map<string, Tool>, permits: map<nat, Permit>, a: Action)
    : map<nat, Permit>
  {
    match a
    case AuthorizeCall(step) => Issued(authority, tools, permits, step)
    case ToolCall(step, _) => permits - {step.identity}
    case _ => permits
  }

  /** The policy's decision as the loop sees it. */
  function RulingOf(decision: Decision): Ruling {
    match decision
    case Granting => Ruling(true, PolicyReason("AUTHORIZED"))
    case Denying(TenantMismatch) => Ruling(false, PolicyReason("TENANT_MISMATCH"))
    case Denying(UnknownTool) => Ruling(false, PolicyReason("UNKNOWN_TOOL"))
    case Denying(InvalidRequest) => Ruling(false, PolicyReason("INVALID_REQUEST"))
    case Denying(CapabilityNotDeclared) => Ruling(false, PolicyReason("CAPABILITY_NOT_DECLARED"))
    case Denying(CapabilityNotAuthorized) => Ruling(false, PolicyReason("CAPABILITY_NOT_AUTHORIZED"))
  }

  /** The first condition that does not hold names the denial. */
  lemma DenialTellsWhy(authority: Authority, tools: map<string, Tool>, step: Step)
    ensures var ruling := RulingOf(Decide(authority, tools, step));
      && ruling.reason.PolicyReason?
      && (ruling.allowed <==> MayRun(authority, tools, step))
      && match ruling.reason.code {
           case "AUTHORIZED" => ruling.allowed
           case "TENANT_MISMATCH" => authority.organization != authority.resourceOrganization
           case "UNKNOWN_TOOL" => authority.organization == authority.resourceOrganization && step.tool !in tools
           case "INVALID_REQUEST" => step.tool in tools && (authority.actor == "" || step.capability == "")
           case "CAPABILITY_NOT_DECLARED" =>
             step.tool in tools && step.capability != "" && step.capability !in tools[step.tool].capabilities
           case "CAPABILITY_NOT_AUTHORIZED" =>
             && step.tool in tools && step.capability in tools[step.tool].capabilities
             && step.capability !in authority.allowed
           case _ => false
         }
  {
  }

  /** The authorizer's verdicts are the policy's. */
  predicate VerdictIsFaithful(authority: Authority, tools: map<string, Tool>, g: Guard, a: Action) {
    a.AuthorizeAnswer? && a.verdict.Gave? && g.Asked? ==> a.verdict.value == RulingOf(Decide(authority, tools, g.step))
  }

  /** The permit a granted step holds. */
  predicate IsHeld(authority: Authority, tools: map<string, Tool>, permits: map<nat, Permit>, step: Step) {
    && Decide(authority, tools, step).Granting?
    && permits == map[step.identity := Permit(tools[step.tool], step.capability)]
  }

  /** The table at each stage: empty between steps, and at most the current step's permit otherwise. */
  predicate InStep(authority: Authority, tools: map<string, Tool>, permits: map<nat, Permit>, g: Guard) {
    match g
    case Asked(step) => permits == Issued(authority, tools, map[], step)
    case Ruled(step, verdict) =>
      && permits == Issued(authority, tools, map[], step)
      && (verdict.Gave? && verdict.value.allowed ==> Decide(authority, tools, step).Granting?)
    case Permitted(step) => IsHeld(authority, tools, permits, step)
    case Weighed(step, _) => IsHeld(authority, tools, permits, step)
    case Paid(step) => IsHeld(authority, tools, permits, step)
    case InTime(step, _) => IsHeld(authority, tools, permits, step)
    case Started(step, _) => IsHeld(authority, tools, permits, step)
    case Overdue => |permits| <= 1
    case Closing(_, _, _) => |permits| <= 1
    case Done(_, _, _) => |permits| <= 1
    case Broken => true
    case _ => permits == map[]
  }

  lemma VerdictKeepsStep(authority: Authority, tools: map<string, Tool>, permits: map<nat, Permit>, g: Guard,
                         verdict: Verdict, reason: Reason)
    requires InStep(authority, tools, permits, g)
    ensures InStep(authority, tools, permits, MoveByVerdict(g, verdict, reason))
  {
  }

  lemma OtherEventKeepsStep(authority: Authority, tools: map<string, Tool>, permits: map<nat, Permit>, g: Guard,
                            event: AuditEvent)
    requires InStep(authority, tools, permits, g) && !event.AuthorizationDecision?
    ensures InStep(authority, tools, permits, MoveByEvent(g, event))
  {
  }

  lemma EventKeepsStep(authority: Authority, tools: map<string, Tool>, permits: map<nat, Permit>, g: Guard,
                       event: AuditEvent)
    requires InStep(authority, tools, permits, g)
    ensures InStep(authority, tools, permits, MoveByEvent(g, event))
  {
    if event.AuthorizationDecision? {
      VerdictKeepsStep(authority, tools, permits, g, event.verdict, event.reason);
    } else {
      OtherEventKeepsStep(authority, tools, permits, g, event);
    }
  }

  lemma ClockKeepsStep(authority: Authority, tools: map<string, Tool>, deadline: real, permits: map<nat, Permit>,
                       g: Guard, time: real)
    requires InStep(authority, tools, permits, g)
    ensures InStep(authority, tools, permits, MoveByClock(deadline, g, time))
  {
  }

  lemma CallKeepsStep(authority: Authority, tools: map<string, Tool>, deadline: real, permits: map<nat, Permit>,
                      g: Guard, a: Action)
    requires InStep(authority, tools, permits, g) && (a.AuthorizeCall? || a.ToolCall?)
    ensures InStep(authority, tools, Touch(authority, tools, permits, a), Move(deadline, g, a))
  {
  }

  lemma AnswerKeepsStep(authority: Authority, tools: map<string, Tool>, deadline: real, permits: map<nat, Permit>,
                        g: Guard, a: Action)
    requires InStep(authority, tools, permits, g) && VerdictIsFaithful(authority, tools, g, a)
    requires !a.Audit? && !a.ClockRead? && !a.AuthorizeCall? && !a.ToolCall?
    ensures InStep(authority, tools, permits, Move(deadline, g, a))
  {
  }

  lemma ActionKeepsStep(authority: Authority, tools: map<string, Tool>, deadline: real, permits: map<nat, Permit>,
                        g: Guard, a: Action)
    requires InStep(authority, tools, permits, g) && VerdictIsFaithful(authority, tools, g, a)
    ensures InStep(authority, tools, Touch(authority, tools, permits, a), Move(deadline, g, a))
  {
    if a.Audit? {
      EventKeepsStep(authority, tools, permits, g, a.event);
    } else if a.ClockRead? {
      ClockKeepsStep(authority, tools, deadline, permits, g, a.time);
    } else if a.AuthorizeCall? || a.ToolCall? {
      CallKeepsStep(authority, tools, deadline, permits, g, a);
    } else {
      AnswerKeepsStep(authority, tools, deadline, permits, g, a);
    }
  }

  /** In step, no more than one permit is outstanding. */
  lemma OnePermitAtATime(authority: Authority, tools: map<string, Tool>, permits: map<nat, Permit>, g: Guard)
    requires InStep(authority, tools, permits, g) && !g.Broken?
    ensures |permits| <= 1
  {
  }

  // ---------------------------------------------------------------- the runtime along a run

  /** A dispatch under its own step's permit: conforming arguments run, only conforming results are delivered. */
  ghost predicate Lawful(authority: Authority, tools: map<string, Tool>, d: DispatchRecord) {
    && MayRun(authority, tools, d.step)
    && var tool := tools[d.step.tool];
    && d.permit == Some(Permit(tool, d.step.capability))
    && (d.executed.Some? <==> Conforms(d.step.arguments, tool.input))
    && IsDispatched(tool.output, d.executed, d.outcome)
  }

  /** The loop gets what the dispatch delivered, unless it was cut short. */
  predicate IsReport(outcome: Outcome, answer: ToolAnswer) {
    && (answer.Observation? ==> outcome == Delivered(answer.value))
    && (answer.ToolError? ==> !outcome.Delivered?)
  }
}
