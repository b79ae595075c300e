# Verification of the EirAOS chat gateway core

This project models four parts of the EirAOS gateway and proves what they guarantee.

* **Chat execution protocol** (`ChatModel`, `ChatProtocol`, `ChatTheorems`, `ChatLimits`, `ChatReports`,
  `ChatAnswers`, `ChatWrites`, `ChatLedger`, `ChatClients`, `ChatStore`, `ChatIdentity`). Idempotency records with lease tokens, execution rows joining
  two messages, one reservation row and an append-only cost ledger, and governance decisions. Each transaction
  is a function on one database value. `ChatProtocol` interleaves transactions, clock ticks and cleanups of
  any number of clients (a crashed client sends nothing more) and carries the joint invariant. `ChatTheorems`
  proves the guarantees over whole runs and `ChatLimits` where they stop: reachable runs that show it and the
  exact conditions. `ChatAnswers` and `ChatWrites` say, field by field, what each transaction answers and
  writes, and `ChatLedger` that usage is conserved. `ChatClients` models the HTTP handler itself as a program and proves that any number of
  handlers, however they interleave, stay within the discipline those theorems assume. `ChatStore` has the
  same transactions as imperative methods on a class, each proved equal to its function.
* **Distributed token budget** (`TokenBudget`, `BudgetTheorems`, `BudgetAnswers`, `RedisBudget`, `Sums`). The
  three scripts over counters, markers and settlement keys with expiry; conservation, hierarchy, bounds, replay,
  the exact answers, and when the whole budget is free again.
* **Bounded agent run** (`AgentTrace`, `AgentGuard`, `AgentRuns`, `AgentLoop`, `AgentPermits`, `ToolSchema`). The
  loop with adversarial planner, authorizer, tool, clock and audit storage; the language of its audit traces;
  the run as a sequence of actions (clock readings, calls, answers, audit events) with the state between them,
  every action tied to its script and every event and ending to its cause; the governed runtime driven by that
  loop, with its permit table; the schema check and argument freezing.
* **Bounded algorithms** (`TokenMath`, `ContextCompaction`, `ContextBuilder`, `ContextTheorems`,
  `ContextFigures`, `StreamLifecycle`, `StreamServer`, `MemoryRuntime`, `MemoryAnswers`, `Provenance`, `Chunking`,
  `ChunkWindows`). Context selection and
  compaction, the stream pump with its fixed deadline and the response generator that drives it,
  provenance tracing over the memory store, and paragraph chunking.

Code that works step by step is imperative here too: classes `ChatStore.Database`, `RedisBudget.Store`,
`AgentLoop.ExecutionBudget`, `AgentLoop.AgentRun`, `AgentPermits.GovernedRuntime`,
`StreamServer.StreamPump`, `StreamServer.StreamFinalizer`, `MemoryRuntime.DurableMemoryStore`,
`Provenance.ProvenanceResolver`, and loops in `ContextCompaction`, `ContextBuilder` and `Chunking`. Each
method's contract ties its result and its new state to a specification function; the properties are then
proved about that function.

Row locks are step atomicity and a failed commit is no step. Lease tokens, record, message and decision
identities count up, so fresh means larger. A digest stands for the text it was computed from, or is an
arbitrary function passed as a parameter. Time is a number supplied by the environment.

## What turned out false, and when it is true

* Only a lease owner can write (F2-07). Three writes are not fenced, each with a reachable run and its exact
  extent. A *first* `prepare_exchange` never looks at the lease (`ChatLimits.StaleFirstPrepareCommits`,
  `ChatTheorems.StalePrepareWritesOnlyFirst`). Marking as streaming takes no token
  (`ChatLimits.StaleMarkCommits`, `ChatLimits.MarkNeedsNoLease`). Finalizing is not fenced once the record has
  been deleted (`ChatLimits.StaleFinalizeCommits`, `ChatLimits.StaleFinalizeWritesOnlyDetached`). While the
  record is there `ChatTheorems.StaleTokenIsInert` holds for every other transaction that presents a token.
* Terminal executions have no open decision: true of finalization
  (`ChatTheorems.FinalizeClosesDecisions`), false when attempts run out, in `prepare_exchange` or in the
  recovery check before it: an execution not exhausted before is left with an open decision exactly when it
  was in progress (`ChatLimits.ExhaustionLeavesDecisionsOpen`,
  `ChatLimits.RecoveryExhaustionLeavesDecisionsOpen`, with the run `ChatLimits.ExhaustedWithOpenDecision`), and
  nothing else ever leaves one (`ChatLimits.OpenDecisionMeansExhausted`).
* Exactly one terminal state is claimed per stream (F2-05): at most one always, and none exactly when the
  consumer closes the generator at one of the yields before the claim (`StreamServer.TerminalUnlessClosed`, with
  `StreamServer.ClosedAfterFirstChunk`).
* Releasing a reservation undoes its charge: exactly when it is unsettled, or in the two cases of
  `BudgetTheorems.ReleaseRefundsUnsettled`; `BudgetTheorems.ReleaseAfterSettleLosesCharges` is a run that
  loses usage, and `BudgetTheorems.CallersTogetherReleaseSettled` one in which every caller keeps its own order.
* Provenance traversal is bounded to the depth in nodes (F5-05): one node more comes back exactly when the
  record at the depth limit names a source it cannot be followed to (`Provenance.DepthBoundIsOffByOne`, with the
  reachable `Provenance.TwoNodesAtDepthOne`).
* A created memory always traces cleanly: false when it names a memory and a message whose digests differ,
  and only then (`Provenance.TwoSourcesBreakIntegrity`, with the reachable `Provenance.TwoSourcesInstance`).
* Long paragraphs are recovered from their windows: for every overlap that is not negative and no other
  (`Chunking.LongParagraphIsRecovered`).

## Model

| member | source | states |
|---|---|---|
| ChatProtocol.StepKeepsInv | src/eiraos/application/chat_persistence.py:65-343 | every transaction of every client keeps the joint invariant of records, executions, messages, ledger and decisions |
| ChatProtocol.OwnedIsNotCompleted | src/eiraos/application/chat_persistence.py:106-116 | whoever passes the ownership check before the exhausted branch never finds a completed execution |
| ChatProtocol.OpenAttemptIsUnrecorded | src/eiraos/application/chat_persistence.py:361-369 | an attempt that is still open has no cost rows, so the "already recorded" conflict cannot fire |
| ChatTheorems.RunAdvances | src/eiraos/application/chat_persistence.py:108-148 | over any run scope, limit and the two message rows of an execution never change and its attempt number only grows |
| ChatTheorems.CompletedIsFinal | src/eiraos/application/chat_persistence.py:106-125 | over every interleaving a completed execution keeps its row, its reply and, while attached, its answered record |
| ChatTheorems.FinalizedReplyIsReplayed | src/eiraos/core/idempotency.py:101-112 | after a completing finalization the same key and payload is answered by that very record and reference until it expires |
| ChatTheorems.StaleTokenIsInert | src/eiraos/application/chat_persistence.py:390-408 | once a newer token is issued, renew, complete, recovery, repeated prepare and finalization of the attached execution with the older one change nothing, ever after |
| ChatTheorems.StalePrepareWritesOnlyFirst | src/eiraos/application/chat_persistence.py:150-214 | with a superseded token prepare writes if and only if the execution does not exist yet and its constraints hold |
| ChatLimits.StaleFirstPrepareCommits | src/eiraos/application/chat_persistence.py:150-191 | a concrete reachable run in which a displaced client still creates the execution |
| ChatLimits.StaleFinalizeWritesOnlyDetached | src/eiraos/application/chat_persistence.py:288-299 | after any run, a proper finalization with a superseded token of an unfinished execution that had the record succeeds, and writes, if and only if the record has been deleted |
| ChatLimits.StaleFinalizeCommits | src/eiraos/application/chat_persistence.py:288-343 | a concrete reachable run in which a displaced client finalizes after the cleanup of the record |
| ChatLimits.MarkNeedsNoLease | src/eiraos/application/chat_persistence.py:216-224 | in every reachable state marking succeeds on exactly the unfinished executions and writes on exactly the prepared ones, whoever holds the lease |
| ChatLimits.StaleMarkCommits | src/eiraos/application/chat_persistence.py:216-224 | a concrete reachable run in which a displaced client marks the execution the rival has reclaimed |
| ChatTheorems.OneFinalizePerAttempt | src/eiraos/application/chat_persistence.py:280-283 | along any run at most one finalize of an execution and attempt number returns True |
| ChatTheorems.OwnerIsNeverStuck | src/eiraos/application/chat_persistence.py:288-343 | in every reachable state finalizing an unfinished execution succeeds if and only if the arguments are proper and the lease, if any, is held |
| ChatTheorems.OwnerAlwaysRecovers | src/eiraos/application/chat_persistence.py:90-148 | in every reachable state a repeated prepare commits if and only if the current owner asks, attempts remain and the state is retryable |
| ChatTheorems.LedgerKeysAreUnique | src/eiraos/application/chat_persistence.py:345-388 | ledger keys are pairwise distinct, and a cost row carries a past attempt or the last attempt of a terminal execution |
| ChatTheorems.FinalizeClosesDecisions | src/eiraos/application/chat_persistence.py:319-336 | finalization leaves no open decision of the execution and touches no other decision |
| ChatLimits.ExhaustionLeavesDecisionsOpen | src/eiraos/application/chat_persistence.py:108-116 | running out of attempts in a prepare is terminal and leaves an open decision, on an execution not exhausted before, if and only if it was in progress |
| ChatLimits.RecoveryExhaustionLeavesDecisionsOpen | src/eiraos/application/chat_persistence.py:245-257 | the same of the recovery check that a recovering request makes first |
| ChatLimits.OpenDecisionMeansExhausted | src/eiraos/application/chat_persistence.py:319-336 | in every reachable state a terminal execution with an open decision has run out of attempts |
| ChatLimits.ExhaustedWithOpenDecision | src/eiraos/application/chat_persistence.py:245-257 | a concrete reachable run whose recovery check leaves a terminal execution with an open decision |
| ChatTheorems.OwnerOrRivalNeverBoth | src/eiraos/core/idempotency.py:113-125 | at every instant either the owner may finalize or a rival is granted the lease, never both and never neither |
| ChatTheorems.PunctualOwnerIsNeverDisplaced | src/eiraos/api/v1/chat.py:146-158 | an owner whose renewals are at most the lease apart keeps the lease against every other client |
| ChatTheorems.AttemptsAreConserved | src/eiraos/application/chat_persistence.py:126-148 | attempts grow by the number of committed prepares and the reservation by the sum of exactly their estimates |
| ChatTheorems.AttemptsAreBounded | src/eiraos/application/chat_persistence.py:108-148 | from an empty database attempts equal committed prepares and stay within the limit, and the reply's status mirrors the execution's |
| ChatReports.ReportsAreTruthful | src/eiraos/application/chat_persistence.py:301-313 | in every reachable state an open attempt has an empty reply and follows a retryable failure if any, and a terminal row's partial and retryable flags are exactly what its text and failure code say |
| ChatReports.RunKeepsPrompt | src/eiraos/application/chat_persistence.py:166-182 | over any run the prompt message of an execution stays as written |
| ChatClients.HandlersKeepTheDiscipline | src/eiraos/api/v1/chat.py:299-660 | whatever any number of requests do, the database stays a reachable one of the protocol, so every theorem above applies |
| ChatClients.SystemRunsAreAllowed | src/eiraos/api/v1/chat.py:359-560 | every interleaved run of handlers, clock and cleanup projects to a run within the assumed discipline, with the same database |
| ChatClients.MoveIsAllowed | src/eiraos/api/v1/chat.py:506-560 | each transaction a handler commits meets the discipline: it releases only leases it never prepared with, and finalizes only what its token prepared |
| ChatClients.SettledIsNotPrepared | src/eiraos/api/v1/chat.py:368-394 | a request that was told of an answered record but found no cached reply never persists an execution |
| ChatIdentity.MaterialIdentifies | src/eiraos/application/chat_persistence.py:44-52 | two requests share the identity text if and only if tenant, key and record agree, colons in keys notwithstanding, save that record 0 reads as none |
| ChatAnswers.UsedKeyIsAnswered | src/eiraos/core/idempotency.py:100-125 | in every reachable state, what a begin of a used key answers and when: delete and retry, refusal of another payload, replay, reopening, reclaiming, or still in progress, each in the record's own fields |
| ChatAnswers.OtherPayloadIsRefused | src/eiraos/core/idempotency.py:107-109 | while a record is there and is not answered and expired, a begin of its key with another digest changes nothing and is neither granted nor replayed |
| ChatAnswers.GrantIsALease | src/eiraos/core/idempotency.py:77-125 | in every reachable state every grant leaves the slot's record processing under a fresh token for one lease from now, whatever its history |
| ChatAnswers.RecordsKeepTheirRequest | src/eiraos/core/idempotency.py:79-100 | over any run a record keeps the tenant, key and digest of the begin that inserted it |
| ChatAnswers.RenewalIsALease | src/eiraos/core/idempotency.py:128-140 | a renewal succeeds exactly for the token of a processing record and extends it to one lease from now, nothing else |
| ChatAnswers.ReleaseIsAnswered | src/eiraos/core/idempotency.py:143-162 | a completion stores its own status and reference and gives up the lease exactly while its token holds an unexpired one |
| ChatAnswers.CleanupSparesTheRest | src/eiraos/core/idempotency.py:173-180 | cleanup removes exactly the answered records whose expiry has passed and changes no other |
| ChatAnswers.HandlersReadTheirOwnReply | src/eiraos/api/v1/chat.py:359-394 | whatever the interleaving, a handler that serves a cached or replayed reply serves the one stored for its own payload |
| ChatWrites.FirstPrepareWrites | src/eiraos/application/chat_persistence.py:150-214 | the rows of a first preparation field by field: the prompt as the completed user message, an empty pending reply, one attempt, and the reservation of the estimate |
| ChatWrites.RepeatedPrepareWrites | src/eiraos/application/chat_persistence.py:126-148 | the next attempt: same messages, one attempt more, the reply emptied, the reservation raised, a crash recorded as one |
| ChatWrites.RecoveryIsDecided | src/eiraos/application/chat_persistence.py:226-264 | when the recovery check lets a request on, refuses it or finds its attempts spent |
| ChatWrites.FinalizeIsDecided | src/eiraos/application/chat_persistence.py:266-299 | on every database a finalization is applied if and only if the execution is unfinished, a failure names its code, the lease is held, a required audit is open and the accounting is in order and not yet booked |
| ChatWrites.FinalizeWrites | src/eiraos/application/chat_persistence.py:301-318 | what a finalization leaves in the execution and the reply, in the arguments' own terms, and that no other execution or message changes |
| ChatWrites.FinalizeResultsDecisions | src/eiraos/application/chat_persistence.py:319-336 | in every reachable state, the open decisions bound to the execution get the terminal's name, the stored status and the failure code as their result, and no other decision changes |
| ChatWrites.FinalizeAnswersRecord | src/eiraos/application/chat_persistence.py:288-318 | in the idempotency record: the failure policy's status or the given one, the given reference, no lease; completed exactly with a success status |
| ChatWrites.FailedAttemptIsRetried | src/eiraos/core/idempotency.py:113-118 | after a failed finalization the next begin of the same request is granted as a recovery of the same record, and the recovery check then passes exactly when the failure is retryable and an attempt is left |
| ChatWrites.DecisionsOnlyAdvance | src/eiraos/application/governance_audit.py:83-114 | over any run a governance decision keeps its tenant and verdict, is bound once and gets at most one result |
| ChatWrites.EveryExecutionIsAudited | src/eiraos/application/chat_persistence.py:410-436 | in every reachable state every execution requires its audit, and a bound decision is an allowed one of its execution's own tenant |
| ChatLedger.UsageIsConserved | src/eiraos/application/chat_persistence.py:345-388 | over any run the input, output and total tokens booked for an execution, operation and source grow by exactly what the accounting of its applied finalizations states |
| ChatLedger.LedgerRowsAreSound | src/eiraos/application/cost_accounting.py:42-113 | in every reachable state each usage row totals its input and output tokens, and reservations hold no usage |
| ChatWrites.FailuresAreClassed | src/eiraos/application/chat_recovery.py:32-47 | which failures may be retried, which are the server's and which are conflicts |
| ChatModel.PolicyOf | src/eiraos/application/chat_recovery.py:32-47 | no failure policy answers with a success status, so a failed finalization never completes a record |
| ChatStore.RetryIsGranted | src/eiraos/core/idempotency.py:101-106 | without interference one retry after deleting an expired record is granted |
| ChatStore.BeginGivesUpOnlyUnderInterference | src/eiraos/core/idempotency.py:101-106 | an attempt is retried in vain only if other clients changed the database before the next one |
| ChatStore.Database.BeginIdempotency | src/eiraos/core/idempotency.py:73-125 | insert, replay, reopen or reclaim in place, with up to three attempts and other clients acting in between, equals that many begin transactions |
| ChatStore.Database.RenewLease | src/eiraos/core/idempotency.py:128-140 | the conditional update equals the renew transaction |
| ChatStore.Database.CompleteIdempotency | src/eiraos/core/idempotency.py:143-162 | the guarded completion equals the complete transaction |
| ChatStore.Database.PrepareExchange | src/eiraos/application/chat_persistence.py:65-214 | the in-place preparation with its rollbacks equals the prepare transaction, outcome included |
| ChatStore.Database.MarkAsStreaming | src/eiraos/application/chat_persistence.py:216-224 | equals the mark-streaming transaction |
| ChatStore.Database.AssertRecovery | src/eiraos/application/chat_persistence.py:226-264 | equals the recovery check, including the failure it commits when attempts are spent |
| ChatStore.Database.BindGovernanceDecision | src/eiraos/application/chat_persistence.py:410-436 | binds exactly an open, allowed decision of the same tenant that is unbound or already bound here |
| ChatStore.Database.RecordAccounting | src/eiraos/application/chat_persistence.py:345-388 | the entry loop appends one cost row per entry if and only if the entries are well formed and unrecorded |
| ChatStore.Database.FinalizeExecution | src/eiraos/application/chat_persistence.py:266-343 | updating in place, closing decisions and accounting with rollback equals the one finalize transaction |
| BudgetTheorems.BudgetIsConserved | src/eiraos/domains/usage/redis_reservation.py:99-115 | in every reachable state each counter outlives every live marker charged to it and covers the total of live charges, and users sum to at most their organization |
| BudgetTheorems.ReleaseIsExact | src/eiraos/domains/usage/redis_reservation.py:143-152 | releasing an unsettled reservation finds both counters and takes off exactly the amount: the clamp never acts |
| BudgetTheorems.ReleaseRefundsUnsettled | src/eiraos/domains/usage/redis_reservation.py:143-152 | releasing refunds exactly the reservation's cost if and only if it is unsettled, settled at its amount, or all that both counters hold |
| BudgetTheorems.SettleIsExact | src/eiraos/domains/usage/redis_reservation.py:172-185 | settling finds both counters alive, moves them by actual minus reserved and never recreates one |
| BudgetTheorems.CountersAreBounded | src/eiraos/domains/usage/redis_reservation.py:104-114 | a counter never exceeds its limit by more than settlements added above their reservations since its last accepted reserve |
| BudgetTheorems.RepeatsCanBeRemoved | src/eiraos/domains/usage/redis_reservation.py:100-103 | removing any set of repeated reserves and identical settles of live reservations, all of them included, leaves the whole run's result as it was |
| BudgetTheorems.ConflictsChangeNothing | src/eiraos/domains/usage/redis_reservation.py:173-177 | while a reservation stands, another identity or another actual amount under its id changes nothing |
| BudgetTheorems.ReservationStands | src/eiraos/domains/usage/redis_reservation.py:109-114 | an accepted reservation and its settlement stay as they are until release or expiry, whatever others do |
| BudgetTheorems.ReleaseAfterSettleLosesCharges | src/eiraos/domains/usage/redis_reservation.py:143-152 | a concrete run in which releasing after settling leaves a counter below a live reservation |
| BudgetTheorems.CallersTogetherReleaseSettled | src/eiraos/api/v1/chat.py:506-522 | a concrete run of two callers, each releasing only before and settling only after persisting, that together release what is settled |
| BudgetAnswers.ReservationIsDecided | src/eiraos/domains/usage/redis_reservation.py:99-115 | a reservation is accepted exactly when it is positive, new and under both limits; it then raises both counters by its amount for one time to live, and otherwise nothing changes |
| BudgetAnswers.SettlementIsDecided | src/eiraos/domains/usage/redis_reservation.py:172-185 | a settlement is accepted exactly once per live marker and lives as long as it |
| BudgetAnswers.BudgetIsFreedInTime | src/eiraos/domains/usage/redis_reservation.py:112-114 | after any allowed run, once more than a time to live has passed, no counter, marker or settlement is left |
| BudgetAnswers.ReservationsComeBack | src/eiraos/domains/usage/redis_reservation.py:104-115 | so no run keeps the budget for ever: any reservation within the limits is accepted then |
| RedisBudget.Store.ReserveTenant | src/eiraos/domains/usage/redis_reservation.py:93-127 | the script command by command equals the atomic reserve |
| RedisBudget.Store.ReleaseTenant | src/eiraos/domains/usage/redis_reservation.py:135-157 | the script equals the atomic release; a replayed reservation is left alone |
| RedisBudget.Store.SettleTenant | src/eiraos/domains/usage/redis_reservation.py:161-196 | the script equals the atomic settle |
| AgentTrace.TerminatedOnceAtTheEnd | src/eiraos/application/agent_loop.py:106-113 | a finished trace has exactly one termination event, the last, carrying the outcome |
| AgentTrace.StartIsGoverned | src/eiraos/application/agent_loop.py:132-179 | each tool start directly follows its own round's plan, choice, permission and budget grant |
| AgentTrace.EndedCounts | src/eiraos/application/agent_loop.py:119-202 | completed executions equal the reported steps and starts exceed them by at most one, within the depth limit and the grants |
| AgentRuns.ToolCallIsGoverned | src/eiraos/application/agent_loop.py:162-183 | each tool call follows, in order and with nothing in between, the permission asked for that very step, its record, a grant, its record, a clock reading before the deadline and the start event, and is waited for no longer than its limit and the time left |
| AgentRuns.CallsAreStarted | src/eiraos/application/agent_loop.py:177-183 | recorded starts and tool calls come in pairs at every point of a run, save that the last start may still lack its call |
| AgentLoop.ExecutionBudget.Consume | src/eiraos/application/execution_budget.py:24-31 | grants exactly while time and executions remain and spends one execution per grant |
| AgentLoop.AgentRun.Record | src/eiraos/application/agent_audit.py:56-77 | an audit write appends the next number or changes nothing |
| AgentLoop.AgentRun.RunAgentLoop | src/eiraos/application/agent_loop.py:86-202 | for any planner, authorizer, tool, clock, budget and audit failures the actions are a run: each in its order and the scripts' own, the budget paid for every grant, the runtime's table and dispatches the run's; a returned run ends in its outcome, and declined exactly when not cancellable |
| AgentLoop.ReturnedRunIsBounded | src/eiraos/application/agent_loop.py:98-202 | a returned run has one start and one termination event, as many completions as steps, calls within depth and allowance, and audit rows numbered without gaps |
| AgentLoop.DeadlineIsFirstReading | src/eiraos/application/agent_loop.py:97-98 | the deadline is the run's first action, a clock reading, plus the limit |
| AgentLoop.SourcesAreFollowed | src/eiraos/application/agent_loop.py:121-196 | every reading is the clock's next and every answer its script's for that very call, and the planner is always shown what a tool delivered last |
| AgentLoop.BudgetIsSpent | src/eiraos/application/agent_loop.py:162-173 | the budget rules on its own clock and on what is left of the allowance, with the reason that goes with it |
| AgentLoop.CallsAreGoverned | src/eiraos/application/agent_loop.py:205-216 | planner and authorizer are called only right after a clock reading before the deadline, the authorizer only for the step just planned, and a tool only for a step permitted and paid for |
| AgentLoop.OutcomeTellsWhy | src/eiraos/application/agent_loop.py:115-202 | each status and reason of a returned run is due to exactly one kind of last action, and the outcome carries the last observation exactly after the endings that report it |
| AgentLoop.DeadlineIsExceededOnlyWhenLate | src/eiraos/application/agent_loop.py:205-216 | a run reports its deadline as exceeded only if a reading of its clock was late or the planner or authorizer did not answer in time |
| AgentLoop.FailedWriteStops | src/eiraos/application/agent_audit.py:56-77 | the first failed audit write stops the run, and nothing else does |
| AgentLoop.DeclinedRunDoesNothing | src/eiraos/application/agent_loop.py:115-116 | a run whose tool cannot be cancelled reads the clock once, starts and ends its trace and calls nothing |
| AgentPermits.GovernedRuntime.Policy | src/eiraos/application/agent_runtime.py:71-86 | grants, and issues a permit for the step, if and only if all five conditions of the default-deny policy hold |
| AgentPermits.GovernedRuntime.Dispatch | src/eiraos/application/agent_runtime.py:88-101 | consumes the step's permit; the executor runs if and only if there was one and the arguments conform, and only conforming results are delivered |
| AgentPermits.DenialTellsWhy | src/eiraos/application/agent_runtime.py:71-86 | a verdict allows exactly under all five conditions, and a denial names the first one that fails |
| AgentRuns.VerdictIsThePolicys | src/eiraos/application/agent_runtime.py:71-86 | in a governed run each verdict that arrives is the policy's on the very step asked about |
| AgentRuns.AnswerIsTheDispatchs | src/eiraos/application/agent_runtime.py:88-101 | in a governed run each observation is what the last dispatch delivered, and each error means it delivered nothing |
| AgentLoop.EachCallConsumesItsPermit | src/eiraos/application/agent_runtime.py:68-106 | in every run of the loop with the runtime, wherever it stops, each tool call finds exactly its own permitted step's permit outstanding and leaves none |
| AgentLoop.AtMostOnePermit | src/eiraos/application/agent_runtime.py:69-91 | at no point of such a run is more than one permit outstanding, nor in the runtime's own table when it stops |
| AgentLoop.EveryDispatchIsLawful | src/eiraos/application/agent_runtime.py:88-106 | such a run dispatches once per tool call; every dispatch is of a permitted step, runs the executor if and only if its arguments conform, and delivers only conforming results |
| ToolSchema.ValidateIsConformance | src/eiraos/application/agent_runtime.py:114-142 | the recursive check accepts a value if and only if every part the schema reaches is as the schema says |
| ToolSchema.FreezingIsTransparent | src/eiraos/application/agent_loop.py:261-268 | freezing makes a value read-only all the way down and changes neither its content nor any schema's verdict |
| ToolSchema.ContentDecides | src/eiraos/application/agent_runtime.py:114-142 | values that differ only in mutability get the same verdict |
| ToolSchema.ObjectIsAccepted | src/eiraos/application/agent_runtime.py:129-139 | a mapping is accepted if and only if required names are keys, a closed schema declares every key, and every declared value is accepted by its schema |
| ToolSchema.KindsOfValue | src/eiraos/application/agent_runtime.py:117-128 | which type names accept which values: no boolean is a number, integers are |
| ToolSchema.FreezeArguments | src/eiraos/application/agent_loop.py:22-25 | arguments are accepted exactly when they are a mapping with text keys throughout, and then frozen with the same content |
| TokenMath.CeilDiv | src/eiraos/application/context_construction.py:209-210 | the rounding division counts one token per full ratio of characters and one for the rest |
| TokenMath.TokensSubadditive | src/eiraos/application/cost_accounting.py:118-119 | rounding two parts together never costs more than rounding them apart |
| ContextCompaction.CompactionFits | src/eiraos/application/context_construction.py:93-111 | an artifact stays in its token budget, envelope and truncation included, and holds the whole payload or a marked prefix of it |
| ContextCompaction.CompactionNeedsRoom | src/eiraos/application/context_construction.py:66-104 | with a 64-character digest there is an artifact if and only if there is something to compact and room for the envelope and the payload, or for a cut and the marker |
| ContextCompaction.Compact | src/eiraos/application/context_construction.py:69-111 | the one-pass compactor equals its specification |
| ContextBuilder.LongestRunIsMaximal | src/eiraos/application/context_construction.py:198-207 | a selection contains exactly the newest-first runs that fit count and budget, so it is the longest and the only one |
| ContextBuilder.SmallerBudgetSelectsPrefix | src/eiraos/application/context_construction.py:152-159 | reselection under the smaller budget is a prefix of the fallback |
| ContextBuilder.Select | src/eiraos/application/context_construction.py:198-207 | the selection loop returns the longest run and its total |
| ContextBuilder.ChooseIsChoice | src/eiraos/application/context_construction.py:152-169 | kept turns and artifact together stay in the history budget, and the artifact stands for exactly the omitted turns |
| ContextBuilder.BuildContext | src/eiraos/application/context_construction.py:125-196 | filtering, selecting, compacting or falling back, dropping leading assistants and assembling equals the specification, refusals included |
| ContextTheorems.ContextShape | src/eiraos/application/context_construction.py:143-196 | the eligible history is a compacted or dropped prefix, an assistant-only gap and the selected suffix, which never starts with the assistant and is what is sent; suffix and gap are the longest run, and a compaction names the prefix and carries the digest of its text |
| ContextFigures.HistoryIsMaximal | src/eiraos/application/context_construction.py:134-169 | the history sent is the most the policy allows: with fewer turns than the maximum and one more to send, that turn would exceed the history limit or, with prompt and system prompt, the window less the reserved output; with an artifact the same with its tokens added |
| ContextFigures.RefusalIsExact | src/eiraos/application/context_construction.py:127-138 | a context is refused exactly when the prompt is empty or prompt and system prompt alone exceed the window less the reserved output |
| ContextFigures.CompactionIsTried | src/eiraos/application/context_construction.py:152-169 | with the shipped compactor there is a compaction exactly when something is omitted at the full budget, the policy gives it tokens, and the envelope with the text or a cut of it fits what is left |
| ContextTheorems.EmptyCompactionIsNone | src/eiraos/application/context_construction.py:168-169 | when compaction yields nothing the result is the build with compaction off |
| ContextTheorems.EstimateIsExactAndBounded | src/eiraos/application/context_construction.py:134-196 | the estimate is exactly the tokens of all messages and the system prompt, within the window less the reserved output, and the history is within its limit |
| ContextTheorems.ChargeIsWithinEstimate | src/eiraos/application/cost_accounting.py:74-78 | with the same ratio the accountant never charges more input than the builder estimated |
| StreamLifecycle.DeliveredIsPrefix | src/eiraos/application/streaming_lifecycle.py:85-122 | in every run the chunks handed out are a prefix of the provider's stream, in order, none lost and none twice |
| StreamLifecycle.EndIsComplete | src/eiraos/application/streaming_lifecycle.py:112-119 | an open pump reports the end only after the whole stream was delivered |
| StreamLifecycle.FailedStreamDoesNotEnd | src/eiraos/application/streaming_lifecycle.py:112-119 | an open pump of a failing provider never reports an end without having reported the failure |
| StreamLifecycle.FailureIsTheProviders | src/eiraos/application/streaming_lifecycle.py:112-119 | a failure is reported only of a provider that fails, after its last chunk |
| StreamLifecycle.EventsAreExact | src/eiraos/application/streaming_lifecycle.py:85-122 | which event an open pump reports, in the order client, lease, chunk, timer |
| StreamLifecycle.HeartbeatsAreBounded | src/eiraos/application/streaming_lifecycle.py:97-122 | in every run fewer than timeout over heartbeat heartbeats follow one another |
| StreamLifecycle.TimeoutIsOnTime | src/eiraos/application/streaming_lifecycle.py:89-121 | however many waits come between, a timeout is reported exactly when only the timer fired and the read is a whole timeout old |
| StreamLifecycle.DisconnectedIsSticky | src/eiraos/application/streaming_lifecycle.py:108-109 | once the client is gone every event until closing says so |
| StreamLifecycle.LostLeaseIsSticky | src/eiraos/application/streaming_lifecycle.py:110-111 | a lost lease is reported until closing unless the client goes too |
| StreamLifecycle.ClosedStaysClosed | src/eiraos/application/streaming_lifecycle.py:124-135 | after closing there are only ends, nothing is read and the stream is not closed again |
| StreamServer.StreamPump.NextEvent | src/eiraos/application/streaming_lifecycle.py:85-122 | the method on the pump's fields equals one step of the specification |
| StreamServer.StreamPump.AClose | src/eiraos/application/streaming_lifecycle.py:124-135 | closes the stream once, however often it is called |
| StreamServer.StreamFinalizer.Finalize | src/eiraos/application/streaming_lifecycle.py:43-51 | the first terminal is claimed before its side effect and stays even if that fails; later calls change nothing |
| StreamServer.Respond | src/eiraos/api/v1/chat.py:774-953 | on every path the terminals applied are the specification's, at most one, and an opened stream is closed exactly once |
| StreamServer.TerminalUnlessClosed | src/eiraos/api/v1/chat.py:815-945 | no terminal is claimed if and only if the consumer closes the generator at one of the yields the uninterrupted run makes before its claim; otherwise exactly the uninterrupted run's terminal is |
| StreamServer.ClosedAfterFirstChunk | src/eiraos/api/v1/chat.py:846-850 | an instance: a chunk is delivered, the generator is closed there and no terminal is ever claimed |
| StreamServer.CompletedReplyIsWholeStream | src/eiraos/api/v1/chat.py:846-925 | a reply is completed only from the whole stream with the lease held; other terminals carry what a prefix of it said |
| StreamServer.CompletedStreamDidNotFail | src/eiraos/api/v1/chat.py:934-945 | a reply is completed only when the provider did not fail |
| StreamServer.ClaimTellsWhy | src/eiraos/api/v1/chat.py:846-945 | without a closing consumer the terminal is completed exactly when streaming, settling, verification and lease all went well, and cancelled exactly when a cancellation or the client's leaving is what ended it |
| MemoryRuntime.RunKeepsInv | src/eiraos/application/memory_runtime.py:26-118 | every record keeps its own digest and links only to an older record of its organization with the digest recorded |
| MemoryRuntime.RecordsAreForever | src/eiraos/application/memory_runtime.py:109-118 | a created record keeps everything but its deletion mark, which is never taken back |
| MemoryRuntime.DurableMemoryStore.CreateItem | src/eiraos/application/memory_runtime.py:26-87 | validation, scope and source checks and the new row equal the create transaction |
| MemoryRuntime.DurableMemoryStore.DeleteItem | src/eiraos/application/memory_runtime.py:109-118 | equals the soft delete within scope and authority |
| MemoryAnswers.FoundIffVisible | src/eiraos/application/memory_runtime.py:89-100 | an item is found exactly when it is not deleted, of the caller's organization and shared or his own |
| MemoryAnswers.CreationIsDecided | src/eiraos/application/memory_runtime.py:26-57 | when a creation succeeds, is a boundary error or is denied |
| MemoryAnswers.CreatedIsFound | src/eiraos/application/memory_runtime.py:58-87 | a creation adds one record with what was asked for, and its actor finds it |
| MemoryAnswers.DeletedStaysGone | src/eiraos/application/memory_runtime.py:109-118 | what was deleted is found by nobody, whatever happens afterwards |
| MemoryAnswers.UndeletedStaysFound | src/eiraos/application/memory_runtime.py:89-118 | what was found stays found unchanged until it is deleted itself |
| Provenance.ProvenanceResolver.Resolve | src/eiraos/application/provenance.py:26-101 | the bounded loop equals the recursive lineage |
| Provenance.TraceIsChain | src/eiraos/application/provenance.py:34-101 | on any store a trace is a chain of at most the depth of distinct visible records, each hop matching its digest, plus at most one node, and is complete exactly when its last record has no hidden source |
| Provenance.TraceNodesAreTheChains | src/eiraos/application/provenance.py:34-101 | every node field by field: identity, content digest, verified exactly when the recorded digest is that one, deletion mark; each hop in scope and with its recorded digest; and the reason of each termination |
| Provenance.DepthBoundIsOffByOne | src/eiraos/application/provenance.py:34-95 | the documented node bound is exceeded, by one, if and only if the record reached in one hop less than the depth names a source and cannot be followed to it |
| Provenance.TwoNodesAtDepthOne | src/eiraos/application/provenance.py:73-91 | a reachable store with two nodes at depth one |
| Provenance.ReachableTracesAreSound | src/eiraos/application/provenance.py:34-95 | on every store reached by create and delete, under any change of messages, no trace ends in a cycle or an integrity failure and every memory visited is verified |
| Provenance.UnavailableIsSomeoneElses | src/eiraos/application/provenance.py:103-111 | a memory source can be followed if and only if it is shared or the caller's own |
| Provenance.TwoSourcesBreakIntegrity | src/eiraos/application/memory_runtime.py:44-63 | a new record's trace fails integrity if and only if it names two sources with different digests |
| Provenance.TwoSourcesInstance | src/eiraos/application/memory_runtime.py:44-63 | a reachable store on which a creation naming two sources succeeds and its trace fails integrity |
| Provenance.TraceSurvivesDeletion | src/eiraos/application/provenance.py:54-62 | later creations and deletions change nothing in a trace but deletion marks |
| Chunking.IntelligentChunking | src/eiraos/domains/documents/rag_service.py:13-35 | the two loops equal the chunks of the source's segments |
| Chunking.SegmentsPartition | src/eiraos/domains/documents/rag_service.py:17-33 | every paragraph lies in exactly one segment in order, short ones whole in fitting groups that could not be longer, long ones alone |
| Chunking.PartitionIsUnique | src/eiraos/domains/documents/rag_service.py:17-33 | there is no other way to cut paragraphs that well |
| Chunking.ChunkingIsBounded | src/eiraos/domains/documents/rag_service.py:13-35 | every chunk is non-empty and at most the chunk size |
| Chunking.LongParagraphIsRecovered | src/eiraos/domains/documents/rag_service.py:26-30 | joining the first step characters of its windows gives a long paragraph back if and only if the overlap is not negative |
| ChunkWindows.WindowAt | src/eiraos/domains/documents/rag_service.py:26-30 | window k is the size characters from k steps on, or what is left, and there is one for every start before the end |
| ChunkWindows.NeighboursOverlap | src/eiraos/domains/documents/rag_service.py:27-30 | what a window holds beyond its first step characters begins the next one: the overlap, when the window is full |
| ChunkWindows.JoinSplits | src/eiraos/domains/documents/rag_service.py:22-23 | paragraphs that share a chunk are set apart by one line break |
| ChunkWindows.SegmentIsChunked | src/eiraos/domains/documents/rag_service.py:22-35 | a group's chunk is its paragraphs joined and a long paragraph's chunks are its windows, in the segments' order |

## Left out

- ChatTheorems.StaleTokenIsInert: covers repeated prepares and attached executions only; first prepares, marking and finalization after the record is deleted are not fenced in the code, and ChatTheorems.StalePrepareWritesOnlyFirst, ChatLimits.MarkNeedsNoLease and ChatLimits.StaleFinalizeWritesOnlyDetached give their exact extent.
- ChatClients.HandlersKeepTheDiscipline: the handler's choices (provider results, budget failures, cancellations) are arbitrary moves, and every exception before persistence carries an error status; what the handler sends over HTTP is not modelled.
- ChatStore.Database.BeginIdempotency: an attempt is one step, so a record deleted between its insertion conflict and its selection is not modelled; a last outcome of Retry stands for the 503.
- AgentLoop.AgentRun.RunAgentLoop: cancellation while planning or authorizing leaves no termination event and is not modelled; a tool that times out is one that answers so, the waiting itself is the event loop's.
- AgentLoop.EachCallConsumesItsPermit: a policy whose verdict is lost to a timeout has run to its end by then; a tool call that is cut short has reached its dispatch.
- ToolSchema.FreezingIsTransparent: schema values have no list and tuple forms of their own in the model, so freezing a schema is the identity.
- BudgetTheorems.BudgetIsConserved: assumes that what has been settled is not released; each caller alone keeps to that, callers together need not, as BudgetTheorems.CallersTogetherReleaseSettled shows, and BudgetTheorems.ReleaseRefundsUnsettled says what happens then.
- StreamLifecycle.HeartbeatsAreBounded: timers fire no earlier than asked; the event loop's clock resolution is not modelled.
- StreamServer.Respond: the accounting entries are not modelled, and the verifier's answer is a parameter.
- ContextBuilder.BuildContext: contents are stripped texts; values that are not text, and the exception they raise, are not modelled.
- Chunking.IntelligentChunking: takes the paragraphs after splitting and stripping.
- SHA-256 collisions and uuid uniqueness; JSON text is opaque.
- Wall-clock columns (completed_at, recovered_at, created_at) and money: estimated cost is always zero in the handler, actual cost is a decimal that nothing modelled depends on.
- Failed commits and query errors: a transaction that cannot commit changes nothing.
- Database constraints that the protocol already implies; null lease tokens, which no insert produces.
- Sanitizing of audit payloads, identifiers and reason codes, and the synchronous agent loop.
- Rank fusion of hybrid search, roles, tokens, configuration, conversation lifecycle, the in-memory budget gate, provider adapters, HTTP and server-sent event formatting: easier or outside what the modelled code decides.
