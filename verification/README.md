# A verified model of the Aixion governance backend

The backend lets AI agents change repositories only through governed steps. This
project models its protocols in Dafny and proves what they guarantee over every
sequence of commands: durable runs with their leases and retries, the capability
leases and policy decisions that gate side effects, the MCP gateway that holds
mutating tool calls until a human approves, and the smaller algorithms around them
(replay protection, the hash-chained recorder, file application, calibration).

Each protocol has the same layout. A state is a datatype and every command is a
function on it, with the branches, the order of checks and the constants of the
source. Theorems speak about `Replay`, the state that any history of commands leads
to. Where the source updates objects in place, a class has those fields and its
methods, with the source's loops, are proved to leave exactly the state the function
describes; so the theorems hold of every sequence of method calls. The functions are
not taken on trust either: lemmas named `...Effect`, `...Iff` and `...Is` say of every
command when it is accepted and what it leaves, in terms of the state before and after
it and not of the functions that compute it.

| Files | Contents |
|---|---|
| `RunStates`, `MissionControl` | the two status machines and the commands on a run; an execution is begin, work, finish |
| `RunInvariants`, `RunTheorems`, `RunEffects` | the inductive invariant, the theorems over histories, and what each command does |
| `Supervisor`, `Scheduler` | the run as a class; the scheduler loop over all runs |
| `TrustScope`, `TrustPolicy` | path, command and domain tests; the policy decision |
| `TrustLedger`, `TrustInvariants`, `TrustTheorems`, `TrustEffects`, `TrustStore` | attestations, leases, decisions, consumption, credentials; the store as a class |
| `StepSettlement` | charging a finished step to its lease |
| `TrustedRun`, `TrustedRunInvariants`, `TrustedRunTheorems`, `TrustedRunEffects`, `RunAuthorization` | a run under trust enforcement, and in place |
| `TrustedSettlement` | from the authorization of a step to its settlement |
| `RunRegistry` | the runs of all tasks over one trust store |
| `Gateway` | the MCP approval gate |
| `NonceWindow`, `FlightRecorder`, `FileApplication`, `Calibration` | HMAC nonces, the trust event chain, approved file changes, evaluation metrics |
| `Text`, `Sorting`, `Options` | string splitting, a stable sort, optional values |

## What the code does, where it differs from what one might expect

- `resume_agent_run` never looks at the attempt budget. `RunTheorems.BudgetLostIff` says
  exactly when `attempt_count <= max_attempts` is lost: when a resume is accepted on a
  step that waits for a human with its budget spent. Under trust enforcement the retry
  number in the policy bounds the side-effect steps all the same
  (`TrustedRunTheorems.AttemptsNeverExceedTheLease`).
- Pausing a run that waits for a human fails but leaves the pause request set, and this is
  the only failing pause that changes anything (`RunTheorems.PauseLeavesRequestIff`); after
  the approval the run is SCHEDULED and can neither start nor resume until it is paused
  once more (`TrustedRunTheorems.PauseRequestOutlivesApproval`).
- A result that arrives after the watchdog recovered its attempt, on a run that has
  been paused meanwhile, moves the step but not the run. `RunTheorems.TableLostIff`
  says exactly when that takes a run out of the status table.
- The retry budget of a lease is checked when a charge is recorded but not in the
  aggregate preflight. `TrustedSettlement.AuthorizedStepSettlesIff` says exactly when a
  step that was authorized and has passed cannot be charged for it.
- More than 200 accepted requests within 600 seconds push a nonce out of the window,
  and the request is accepted again (`NonceWindow.FloodLetsReplayIn`).
- The recorder verifies after its last events have been cut off
  (`FlightRecorder.ChainPrefix`); only the head hash, kept elsewhere, betrays it.
- "At most one success, exactly when the record is FORWARDED" holds of the MCP gateway as
  long as no resolution and no operator retry looks at a delivery beyond its 30-second
  lease, and not one command longer (`Gateway.OnceThroughoutIff`,
  `Gateway.UntimelyBreaksTheRecordLaw`). A child that answers later can be called, and
  recorded as successful, twice (`Gateway.SlowChildSucceedsTwice`); its one success can
  stand on a record that was blocked meanwhile (`Gateway.LateAnswerOnBlockedRecord`); and
  a failure after a success rewrites FORWARDED (`Gateway.FailureRewritesForwarded`).
- Resolving a call before its approval is decided blocks it for good
  (`Gateway.PrematureResolveBlocks`).

## Model

| member | source | states |
|---|---|---|
| Supervisor.AgentRun.constructor | backend/app/agent_run_supervisor.py:127-162 | a new run is SCHEDULED with seven steps in the fixed order, the first READY and the rest PENDING, no attempts and no lease |
| Supervisor.AgentRun.MoveRun | backend/app/agent_run_state_machine.py:150-179 | a run moves exactly along the table (or stays); a terminal status drops the worker lease; an illegal move changes nothing |
| Supervisor.AgentRun.MoveStep | backend/app/agent_run_state_machine.py:182-216 | a step moves exactly along its table; entering RUNNING counts an attempt, a terminal status drops the lease, no other step changes |
| Supervisor.AgentRun.AcquireLease | backend/app/agent_run_supervisor.py:191-212 | a live lease of another worker refuses, one of the same worker is kept, otherwise a new lease is written |
| Supervisor.AgentRun.ReadyStep | backend/app/agent_run_supervisor.py:255-272 | the loop returns the first step that has not passed, if it may start now, moved to READY; nothing else changes |
| Supervisor.AgentRun.NextPendingStep | backend/app/agent_run_supervisor.py:275-290 | the first PENDING step after the given one is readied and named by the current-step pointer, or nothing changes |
| Supervisor.AgentRun.BeginStep | backend/app/agent_run_supervisor.py:477-566 | an execution request up to the worker: every refusal, the lease, the ready step moved to RUNNING, the run status |
| Supervisor.AgentRun.SealChain | backend/app/agent_run_supervisor.py:790-828 | the seal summarises the six earlier steps in order, hashes them with the event count, and passes only if all six passed |
| Supervisor.AgentRun.Perform | backend/app/agent_run_supervisor.py:568-589 | the worker's outcome or the classified failure is kept for the finish; only the seal writes the run's final hash |
| Supervisor.AgentRun.FinishPass | backend/app/agent_run_supervisor.py:317-345 | a PASS on a RUNNING step succeeds it and readies the next step, or succeeds the run; on any other step it is illegal and moves nothing |
| Supervisor.AgentRun.ApplyVerdict | backend/app/agent_run_supervisor.py:347-474 | every other verdict moves the step and then the run; a second move that is illegal leaves the step moved |
| Supervisor.AgentRun.FinishStep | backend/app/agent_run_supervisor.py:591-597 | the result is recorded on the step it was started for, the moves are made, and both leases are released unless a move was illegal |
| Supervisor.AgentRun.HeartbeatLease | backend/app/agent_run_supervisor.py:215-236 | only the holder of owner and token extends the lease, on the run and on the step it holds |
| Supervisor.AgentRun.RecoverStaleLease | backend/app/agent_run_supervisor.py:836-899 | an expired lease is dropped and a RUNNING step goes to RETRY_WAIT if attempts are left, to NEEDS_HUMAN otherwise |
| Supervisor.AgentRun.PauseWork | backend/app/agent_run_supervisor.py:902-923 | pauses at a step boundary; on a run that cannot be paused the request flag stays set |
| Supervisor.AgentRun.ResumeWork | backend/app/agent_run_supervisor.py:926-967 | PAUSED, NEEDS_HUMAN and RETRY_WAIT runs go back to SCHEDULED and their parked step to READY, whatever the attempts |
| Supervisor.AgentRun.CancelWork | backend/app/agent_run_supervisor.py:970-1014 | every step that is not terminal is cancelled, and so is the run; terminal runs refuse |
| Supervisor.AgentRun.CancelAtStepBoundary | backend/app/agent_run_routes.py:402-413 | cancelling is refused while a step is in flight |
| Supervisor.AgentRun.RetryWork | backend/app/agent_run_supervisor.py:1017-1058 | a waiting or parked step with attempts left becomes READY and current; everything else refuses |
| Supervisor.AgentRun.Restart | backend/app/agent_run_routes.py:145-160 | a restart of the process loses the execution lock and the worker's result, never the records |
| RunInvariants.ReadyIsFrontier | backend/app/agent_run_supervisor.py:255-272 | the only step that can start is the one the current-step pointer names |
| RunInvariants.ApplyKeepsCore | backend/app/agent_run_supervisor.py:302-1058 | every command, in any state and at any time, keeps the step list SUCCEEDED*, one frontier, PENDING* (CANCELLED* after a cancel) with `current_step_id` at the frontier, and the coupling of statuses, leases and flags |
| RunInvariants.ApplyEffect | backend/app/agent_run_supervisor.py:302-1058 | one command changes nothing before the frontier, moves the frontier along an edge, only readies or cancels later steps, and counts an attempt exactly when an execution starts |
| RunInvariants.RetryKeeps | backend/app/agent_run_supervisor.py:1017-1058 | whichever step the operator names, only the frontier can be retried |
| RunInvariants.HistoryKeeps | backend/app/agent_run_supervisor.py:108-1058 | the invariant, the seal included, holds after every history of commands |
| RunTheorems.SucceededIffEveryStepPassed | backend/app/agent_run_supervisor.py:333-345 | after any history the run is SUCCEEDED if and only if all seven steps are |
| RunTheorems.EveryStatusWriteIsAnEdge | backend/app/agent_run_state_machine.py:32-135 | every status a supervisor command writes, the raw write of RUNNING included, is an edge of the tables; terminal statuses are absorbing; a SUCCEEDED step never changes in any field |
| RunTheorems.SealMatchesRun | backend/app/agent_run_supervisor.py:790-828 | on a SUCCEEDED run the final hash equals the hash recomputed from its six earlier steps and the event count in the seal, over every history of supervisor commands |
| RunTheorems.SealNeverRefused | backend/app/agent_run_supervisor.py:818-824 | over every history of supervisor commands the "cannot be sealed" branch is unreachable |
| RunTheorems.LatePassMovesNothing | backend/app/agent_run_supervisor.py:836-899 | once the watchdog has recovered an attempt, then whatever commands follow, its late PASS moves no status of the run or of any step |
| RunTheorems.TableLostIff | backend/app/agent_run_supervisor.py:302-474 | a command takes a run out of the status table if and only if it is a result landing on a PAUSED run that asks for a legal step move other than the retry wait |
| RunTheorems.TableOverHistory | backend/app/agent_run_supervisor.py:302-1058 | in a history where no result lands on a paused run, the run status agrees with the frontier status by the fixed table throughout, however often the watchdog overtook the worker |
| RunTheorems.LateBlockStrandsPausedRun | backend/app/agent_run_supervisor.py:419-441 | the condition is real: recovered, paused, then a late BLOCK leaves a BLOCKED step on a PAUSED run |
| RunTheorems.BeginStartsIff | backend/app/agent_run_supervisor.py:477-566 | an execution starts if and only if no other is active, the run is neither paused, asked to pause nor terminal, and the frontier is READY or its backoff has elapsed; it is then the frontier that runs, under the new lease, and a refusal changes nothing |
| RunTheorems.BudgetLostIff | backend/app/agent_run_supervisor.py:926-967 | from within the attempt budget a command leaves it if and only if it is an accepted resume on a step that waits for a human with its budget spent |
| RunTheorems.BudgetThroughoutIff | backend/app/agent_run_supervisor.py:347-395 | over whole histories every step keeps attempt_count <= max_attempts, and a READY one an attempt to spend, if and only if no such resume occurs |
| RunTheorems.ExecutionsAreBounded | backend/app/agent_run_supervisor.py:477-566 | over any history every step has at most max_attempts attempts plus one per accepted resume, at most 7 x max_attempts plus resumes executions start, and without resumes a READY or RETRY_WAIT frontier has budget left |
| RunTheorems.ResumeBuysAnAttempt | backend/app/agent_run_supervisor.py:926-967 | with max_attempts 1, a resume after NEEDS_HUMAN leads to a second attempt |
| RunTheorems.PauseLeavesRequestIff | backend/app/agent_run_supervisor.py:902-923 | a pause goes through or changes nothing if and only if the run does not wait for a human; there it fails and leaves exactly the request flag |
| RunEffects.RunSources | backend/app/agent_run_state_machine.py:32-86 | for each run status, the statuses it is entered from; `RunEffects.StepSources` says the same of steps |
| RunEffects.StepSources | backend/app/agent_run_state_machine.py:88-135 | for each step status, the statuses it is entered from |
| RunEffects.LeaseIsExclusive | backend/app/agent_run_supervisor.py:191-212 | a worker is refused exactly while another worker holds a live lease; its own live lease stays, and otherwise it gets one for the asked seconds |
| RunEffects.StartEffect | backend/app/agent_run_supervisor.py:477-566 | a start leaves records, flags and other steps alone; the refusal for a backoff that has not elapsed is told apart exactly |
| RunEffects.WorkEffect | backend/app/agent_run_supervisor.py:568-589 | the outcome returned or classified is kept unchanged; the seal instead lists the six earlier steps field by field, passes exactly when all six succeeded, and its hash becomes the run's |
| RunEffects.PassAdvances | backend/app/agent_run_supervisor.py:317-345 | a PASS on the running frontier succeeds it and readies exactly the next step, or ends the run; both leases are gone and the outcome is on record |
| RunEffects.LatePassIsRecorded | backend/app/agent_run_supervisor.py:302-345 | a PASS on a step that no longer runs is illegal and leaves nothing but the record of the outcome |
| RunEffects.VerdictEffect | backend/app/agent_run_supervisor.py:347-474 | any other verdict, also a late one: where step and run end, which record, backoff and leases it leaves, and when it is illegal |
| RunEffects.VerdictOnRunningStep | backend/app/agent_run_supervisor.py:347-474 | on a running step with attempts left RETRY_TRANSIENT waits 2, 4, 8, ... up to 300 seconds; without, and on NEEDS_REVISION and NEEDS_HUMAN, step and run go to NEEDS_HUMAN; BLOCK blocks and FAIL fails both; both leases are gone |
| RunEffects.HeartbeatEffect | backend/app/agent_run_supervisor.py:215-236 | accepted exactly for owner and token of the lease, which is extended on run and frontier; nothing else moves |
| RunEffects.WatchdogEffect | backend/app/agent_run_supervisor.py:836-899 | only an expired lease is taken; its step and run then wait for a retry that is due at once, or for a human without attempts left |
| RunEffects.PauseEffect | backend/app/agent_run_supervisor.py:902-923 | each of the refusals of a pause and what it leaves |
| RunEffects.ResumeEffect | backend/app/agent_run_supervisor.py:926-967 | accepted exactly on PAUSED, NEEDS_HUMAN and RETRY_WAIT; the run is SCHEDULED, a waiting frontier READY without backoff, and the pause request gone |
| RunEffects.CancelEffect | backend/app/agent_run_supervisor.py:970-1014 | refused exactly in flight and on runs that are over otherwise; every open step is CANCELLED, every terminal one as it was |
| RunEffects.RetryEffect | backend/app/agent_run_supervisor.py:1017-1058 | accepted exactly for the frontier when it waits with attempts left; it is READY without backoff and the run SCHEDULED |
| Scheduler.OnlyEligibleRunsStart | backend/scripts/run_mission_control_worker.py:20-50 | the statuses polled and the retry filter lose no startable run |
| Scheduler.RoundStartsTheFirst | backend/scripts/run_mission_control_worker.py:53-76 | a round starts a run if and only if some run can start once stale leases are recovered; it starts the earliest created, and every other run is only swept |
| Scheduler.SchedulerComesToRest | backend/scripts/run_mission_control_worker.py:102-112 | whatever runs are created and whatever anybody does to them between the rounds, at most 7 x max_attempts rounds per run plus one per accepted resume ever start anything |
| Scheduler.Worker.RecoverStaleLeases | backend/app/agent_run_supervisor.py:836-899 | the watchdog loop recovers every run and no other state |
| Scheduler.Worker.EligibleRuns | backend/scripts/run_mission_control_worker.py:37-50 | the candidates are exactly the eligible runs, in order of creation |
| Scheduler.Worker.StartFirst | backend/scripts/run_mission_control_worker.py:63-76 | the loop asks the candidates in turn, passes over each refusal and stops at the first start |
| Scheduler.Worker.RunOnce | backend/scripts/run_mission_control_worker.py:53-76 | the sweep, the candidates and the loop leave the modelled round, and the count tells whether it started a run |
| Scheduler.EligibleIff | backend/scripts/run_mission_control_worker.py:20-50 | a run is a candidate exactly when it is SCHEDULED, RUNNING, or in RETRY_WAIT with its backoff elapsed |
| Scheduler.SweepEffect | backend/app/agent_run_supervisor.py:836-899 | after a sweep no lease has expired, and a run whose lease had not is as it was |
| RunRegistry.RunStore.CreateAgentRun | backend/app/agent_run_supervisor.py:108-163 | a missing task is not found, a task or approval that is not APPROVED refuses, the latest run that counts for the task is returned, and otherwise a new run under the approval of the task is appended |
| RunRegistry.CreationEffect | backend/app/agent_run_supervisor.py:108-163 | which refusal a request for a run meets; the run returned is the latest of the task that is not over; a new one is made exactly when all are over, fresh, under the approval of the task |
| RunRegistry.OthersStay | backend/app/agent_run_trust.py:325-461 | no command moves a run it is not about |
| RunRegistry.AtMostOneRunPerTask | backend/app/agent_run_supervisor.py:118-126 | at every moment of every history of creations, executions, supervisor commands, human decisions and trust commands, of two runs of a task one is FAILED, CANCELLED or BLOCKED |
| RunRegistry.ApplyKeepsSound | backend/app/agent_run_trust.py:325-461 | a command on one run moves the shared trust store along its edges, so every other run keeps its invariant |
| RunRegistry.EveryRunIsGoverned | backend/app/agent_run_routes.py:317-342 | at every moment of such a history each run is SUCCEEDED exactly when its steps are, is then sealed by the hash of its steps, and has attempted side-effect steps only in scope and only as often as its own lease permits |
| Text.PrefixIsPartsPrefix | backend/app/trust_policy.py:110 | "equal, or continues after a slash" on strings is exactly "the parts are a prefix of the parts" |
| Text.SuffixIsPartsSuffix | backend/app/trust_policy.py:136 | "equal, or ends after a dot" on strings is exactly "the labels are a suffix of the labels" |
| Text.StripIs | backend/app/trust_models.py:101-107 | stripping takes away exactly the whitespace around a text |
| TrustScope.ComponentsIff | backend/app/trust_policy.py:82-89 | which paths have components, backslashes read as slashes, and which parts these are |
| TrustScope.SensitiveIff | backend/app/trust_policy.py:92-99 | the sensitive names: everything that begins with .env, and .git, .ssh and the names of secrets with any extension, in any case |
| TrustScope.CommandAllowedIff | backend/app/trust_policy.py:115-127 | a command is allowed exactly when it can be parsed and equals an allowed one up to surrounding whitespace |
| TrustScope.DomainIs | backend/app/trust_policy.py:130-134 | what a domain is compared as: lower case, without surrounding whitespace and trailing dots |
| TrustScope.PathAllowedIffBelow | backend/app/trust_policy.py:82-112 | a path is allowed if and only if it is relative, never climbs, has no sensitive component, and lies at or below an allowed prefix by whole components |
| TrustScope.DomainAllowedIffLabels | backend/app/trust_policy.py:130-138 | a domain is allowed if and only if the labels of an allowed domain are its last labels |
| TrustScope.AcceptedPrefixIsApproved | backend/app/trust_service.py:151-156 | a path prefix that issuance accepted as an approved file has, in the policy, exactly the components of that file, for all slashes, backslashes and spaces |
| TrustPolicy.EvaluateProposedAction | backend/app/trust_policy.py:141-273 | the objections are exactly those that apply, in the order of the checks, and decide the verdict |
| TrustPolicy.UnobjectedIff | backend/app/trust_policy.py:169-236 | no objection is raised if and only if the lease is genuine, in force and issued to this agent, the action is inside its scope by components and labels, and it can be afforded |
| TrustPolicy.VerdictsIff | backend/app/trust_policy.py:141-273 | ALLOW, REQUIRE_APPROVAL and BLOCK each exactly characterised; a high-risk action is always blocked, with a lease or without |
| TrustPolicy.VerdictsOfAnyScope | backend/app/trust_policy.py:141-273 | the verdict for every mode and any scope, high-risk actions included |
| TrustPolicy.ObjectionsAreThoseThatApply | backend/app/trust_policy.py:169-236 | for each reason, the exact condition under which it is among the objections |
| TrustPolicy.ProtectedIff | backend/app/trust_policy.py:188-189 | the branches no action may name, in any case |
| TrustStore.Store.RecordAttestation | backend/app/trust_service.py:79-139 | one immutable opinion per reviewer and exact payload; the creator cannot attest |
| TrustStore.Store.IssueCapabilityLease | backend/app/trust_service.py:178-265 | every refusal in order; a live lease of the same request is handed out again; otherwise the signed lease is stored with nothing spent |
| TrustStore.Store.CheckQuorum | backend/app/trust_service.py:55-76 | the quorum holds exactly when no reviewer denied the payload, enough distinct reviewers back it, and the creator is not among them unless permitted |
| TrustStore.Store.RefreshLease | backend/app/trust_service.py:268-281 | an ACTIVE lease whose time has passed becomes EXPIRED, nothing else changes |
| TrustStore.Store.RevokeCapabilityLease | backend/app/trust_service.py:284-313 | a live lease becomes REVOKED together with every grant made under it; an ended lease stays as it ended |
| TrustStore.Store.EvaluateGatewayAction | backend/app/trust_service.py:316-362 | the action replaces any with its identifier and its verdict becomes the latest decision |
| TrustStore.Store.LatestDecision | backend/app/trust_decisions.py:7-15 | the loop finds the latest decision that names the action |
| TrustStore.Store.RecordActionAuthorization | backend/app/trust_action_authorization.py:119-245 | BLOCK is never overridden, a recorded decision is never changed, and only a pending action receives a new effective decision |
| TrustStore.Store.ConsumeEffectiveAction | backend/app/trust_consumption.py:41-107 | only an effective ALLOW is consumed, once, within all four budgets of an active lease; every refusal leaves counters and charges alone |
| TrustStore.Store.IssueCredentialGrant | backend/app/trust_service.py:424-471 | only internal grants on an active lease, for no longer than the whole seconds it has left |
| TrustStore.Store.RevokeCredentialGrant | backend/app/trust_credentials.py:69-96 | the grant becomes revoked and nothing else changes; an unknown grant is not found |
| TrustStore.Store.IntrospectCredential | backend/app/trust_credentials.py:35-66 | a credential is active exactly when its grant is unrevoked, unexpired, for this audience and these scopes, on a lease that is live |
| TrustEffects.AttestEffect | backend/app/trust_service.py:79-139 | an attestation is refused without an approved payload and to its creator; otherwise the first opinion of a reviewer stands and the answer tells whether this one agrees |
| TrustEffects.IssueEffect | backend/app/trust_service.py:178-265 | each refusal in its place, with scope and quorum written out; otherwise the lease in force stays alone or a new one has exactly the requested terms, signed and unspent |
| TrustEffects.ReuseEffect | backend/app/trust_service.py:205-221 | the lease in force is handed out to the very same request and stands in the way of any other |
| TrustEffects.RevokeEffect | backend/app/trust_service.py:284-313 | a live lease is REVOKED and exactly the grants under it with it; an ended one stays as it ended |
| TrustEffects.EvaluateEffect | backend/app/trust_service.py:316-362 | the action is stored and the last decision is the verdict on it under its lease as time has left it |
| TrustEffects.AuthorizeEffect | backend/app/trust_action_authorization.py:119-245 | every refusal of a human decision, when a repeated one is confirmed, and that a new one is recorded for the very action and becomes the latest decision |
| TrustEffects.ConsumeEffect | backend/app/trust_consumption.py:41-107 | each refusal in its place; the first consumption is accepted exactly on a live lease with room in all four budgets, and adds exactly its runtime, cost, pull requests and retry |
| TrustEffects.GrantEffect | backend/app/trust_service.py:424-471 | a grant is given exactly internally on a live lease that lasts as long, and holds what was asked for |
| TrustEffects.RevokeGrantEffect | backend/app/trust_credentials.py:69-96 | the grant is revoked, every other stays |
| TrustEffects.GrantIsGoodIff | backend/app/trust_credentials.py:35-66 | a token is good exactly for the audience and scopes it was granted for, as long as asked, while neither it nor its lease has ended |
| TrustInvariants.ApplyKeeps | backend/app/trust_service.py:178-471 | every command of the trust plane keeps the invariant on leases, decisions, charges, grants and liveness |
| TrustInvariants.ReplayKeeps | backend/app/trust_service.py:178-471 | the invariant holds after every admissible history |
| TrustTheorems.InsideIsWithinApproval | backend/app/trust_service.py:142-175 | what the policy lets through under a scope accepted at issuance, the approval covers: repository, branch, command and every path by whole components |
| TrustTheorems.EveryChargeWithinApproval | backend/app/trust_consumption.py:41-107 | every action ever consumed stayed inside the approval its lease was issued on, whatever has since reused its identifier |
| TrustTheorems.SpendingIsTheSumOfCharges | backend/app/trust_consumption.py:69-85 | for every lease, the runtime, cost, pull requests and retries spent are the four sums over what was charged to it, none beyond its maximum; no action is charged twice |
| TrustTheorems.FirstConsumptionIff | backend/app/trust_consumption.py:61-85 | in any run the first consumption of an effective action of a live lease is accepted if and only if each of the four sums plus its own amount is within its maximum; it is then the one new charge |
| TrustTheorems.RepeatedConsumptionIsFree | backend/app/trust_consumption.py:56-60 | after a consumption the identical one is accepted, any other refused, and neither changes anything |
| TrustTheorems.HumanAllowAlwaysVerifies | backend/app/trust_consumption.py:19-38 | in every run the stored human decision behind an effective ALLOW verifies against the action, so consumption never refuses it for that |
| TrustTheorems.RunTakesEdges | backend/app/trust_service.py:268-313 | over any history lease terms never change, status leaves only ACTIVE, and no counter goes down |
| TrustTheorems.EndedLeaseIsDead | backend/app/trust_credentials.py:43-50 | under a lease that has ended no history ever charges again, and none of its credentials introspects as active |
| TrustTheorems.AtMostOneLiveLease | backend/app/trust_service.py:205-221 | at any moment of a run at most one lease per approval and agent is live |
| TrustTheorems.GrantsFollowTheirLease | backend/app/trust_service.py:424-454 | no grant outlives its lease, and a REVOKED lease has only revoked grants |
| TrustTheorems.RevokedGrantIsDead | backend/app/trust_credentials.py:69-96 | a revoked grant stays revoked over every history of trust commands, and its token never introspects as active again |
| TrustTheorems.EveryLeaseWasAttested | backend/app/trust_service.py:194-203 | every lease was issued on an APPROVED payload with enough distinct reviewers and without self-approval |
| TrustTheorems.DenialIsFinal | backend/app/trust_service.py:70-76 | once a reviewer has denied an exact payload, no history issues another lease on it |
| StepSettlement.SharesAddUp | backend/app/agent_run_trust.py:472-478 | the per-action runtimes of a step sum exactly to its whole-second duration, for any number of actions |
| StepSettlement.SharesAreEven | backend/app/agent_run_trust.py:472-478 | no two shares differ by more than a second and earlier ones are not smaller |
| StepSettlement.SettlementCharges | backend/app/agent_run_trust.py:464-494 | a completed settlement charges each action once, in order: its share, no cost, the pull request, the retry only on the first of a repeated step, output and evidence |
| StepSettlement.SettlesIffRetryBudget | backend/app/agent_run_trust.py:253-278 | after a passed preflight of its actions on a lease that is as it was then, the settlement completes if and only if the step passed at its first attempt or a retry is left; it then charges exactly the duration, the pull requests and one retry for a repeated step, and a refusal charges nothing |
| StepSettlement.ConsumeRunStepActions | backend/app/agent_run_trust.py:464-494 | the loop charges each action its share in order and stops at the first refusal |
| TrustedSettlement.AuthorizedStepSettlesIff | backend/app/agent_run_routes.py:317-342 | from the authorization that succeeded to the settlement: if nobody touches the lease and the actions in between and the step stays within its estimates, it is charged in full if and only if this was its first attempt or the lease has a retry left |
| RunAuthorization.ClearActions | backend/app/agent_run_trust.py:368-445 | the loop evaluates unknown actions, compares known ones, and stops at the first that is not allowed |
| RunAuthorization.AuthorizeRunStep | backend/app/agent_run_trust.py:325-461 | run and store after an authorization: lease checks, aggregate preflight, the actions, and parking or unparking of step and run |
| TrustedRunEffects.AuthorizationIff | backend/app/agent_run_trust.py:325-461 | at a step boundary of an open run, step and run are NEEDS_HUMAN if and only if lease and preflight are in order and the first action that is not allowed waits for a human; they are BLOCKED if and only if the lease is not in order, has no room, or that action is altered, undecided or blocked; the step may start if and only if all is in order and every action is allowed |
| TrustedRunEffects.AuthorizeEffect | backend/app/agent_run_trust.py:325-461 | for every run at a step boundary, paused and finished ones too: where step, run and store end, which actions were evaluated on which lease, and that nothing else moved |
| TrustedRunEffects.PreflightIff | backend/app/agent_run_trust.py:253-278 | the preflight in figures: one timeout per action, no cost, a pull request for the one step |
| TrustedRunEffects.ActionIs | backend/app/agent_run_trust.py:182-250 | every field of every action of an attempt |
| RunAuthorization.GovernedRun.AttachCapabilityLease | backend/app/agent_run_trust.py:114-164 | a bound run is never rebound; otherwise a lease that fits is attached before the first side-effect attempt, at a step boundary, after its refresh |
| TrustedRunEffects.AttachEffect | backend/app/agent_run_trust.py:73-164 | the exact condition for binding a lease, field by field; the run itself never moves |
| RunAuthorization.GovernedRun.ExecuteNextStep | backend/app/agent_run_routes.py:305-352 | an execution request in place: lock and step boundary, authorization of the current step with its effect on run and store, then the start |
| TrustedRunEffects.StartIff | backend/app/agent_run_routes.py:305-352 | a bound side-effect step of an open run starts if and only if nothing runs, no pause is asked for, lease and preflight are in order, every action is allowed and no backoff is left |
| RunAuthorization.GovernedRun.DecideAction | backend/app/trust_action_authorization.py:58-245 | a human decision in place: recorded in the store, then carried to the step and the run the action was proposed for |
| TrustedRunEffects.DecideEffect | backend/app/trust_action_authorization.py:58-245 | a decision on record moves exactly the first step with the key of the action, and the run, if it is the run of the action and they wait; any other decision moves nothing |
| RunAuthorization.DenyRun | backend/app/trust_action_authorization.py:98-103 | a recorded denial blocks the waiting step and the waiting run, each if it waits |
| RunAuthorization.UnparkRun | backend/app/trust_action_authorization.py:81-97 | a recorded approval readies the waiting step and reschedules the waiting run, each if it waits |
| TrustedRunTheorems.NoStartWithoutAllow | backend/app/agent_run_routes.py:317-342 | a side-effect step starts an attempt only if every action derived for this run, step, attempt and lease stands unaltered with an effective ALLOW inside the lease; and the authorized step is the one that starts |
| TrustedRunInvariants.AuthorizeKeeps | backend/app/agent_run_trust.py:325-461 | an authorization, whatever its outcome and the status of the run, moves at most the frontier and the run status, keeps all attempt counts, and keeps the invariants of run, seal, scope and ledger |
| TrustedRunInvariants.ApplyKeeps | backend/app/agent_run_trust.py:114-461 | every command on run and trust store together keeps the joint invariant, the lease binding, and the edges of every lease |
| TrustedRunTheorems.EveryTrustedWriteIsAnEdge | backend/app/agent_run_trust.py:281-322 | every status written by authorization, human decisions or any other request is an edge of the tables, terminal statuses are absorbing, and a SUCCEEDED step never changes; only an approval found and used in one request takes a step from NEEDS_HUMAN through READY to RUNNING |
| TrustedRunTheorems.TrustedSuccessIsSealed | backend/app/agent_run_supervisor.py:790-828 | over every history under trust enforcement the run is SUCCEEDED exactly when its steps are, and its final hash is then recomputable from its steps |
| TrustedRunTheorems.TrustedSealNeverRefused | backend/app/agent_run_supervisor.py:818-824 | the "cannot be sealed" branch is unreachable under trust enforcement too |
| TrustedRunTheorems.NothingRunsOutOfScope | backend/app/agent_run_verifier.py:137-173 | over every history no step after the first is attempted unless the repository is named, the branch is neither main nor master, and the approved files and tests are not empty |
| TrustedRunTheorems.AttemptsNeverExceedTheLease | backend/app/trust_policy.py:231-232 | over every history of executions, late results, watchdog, operators, human decisions and lease commands, each of the four side-effect steps has at most max_retries + 1 attempts under a lease that fits the run and its sealed approval, and none without a lease |
| TrustedRunTheorems.BindingStays | backend/app/agent_run_trust.py:114-125 | from any moment of a history on, the run keeps its lease and its attempt limit, and every lease its terms |
| TrustedRunTheorems.ActionsCoverTheStep | backend/app/agent_run_trust.py:182-250 | the actions of an attempt name every approved file and every command of the test plan, the run, its lease and the retry number; only a side-effect step has any |
| TrustedRunTheorems.AttemptsShareNoAction | backend/app/agent_run_trust.py:171-179 | with collision-free identifiers, an action and so a human decision on it belongs to one attempt of one step under one lease |
| TrustedRunTheorems.PauseRequestOutlivesApproval | backend/app/agent_run_supervisor.py:902-923 | a pause refused on a NEEDS_HUMAN run leaves its request behind: after the approval the run cannot start, resume or retry, and a second pause makes it resumable |
| Gateway.ApprovalGate.Submit | backend/app/mcp_gateway.py:76-90 | a mutating call waits under a new approval with a pending record of itself; any other call is sent at once |
| Gateway.ApprovalGate.AcquireLease | backend/app/mcp_gateway.py:294-305 | the 30-second delivery lease is granted exactly to a waiting record or one whose lease has lapsed, and counts an attempt |
| Gateway.ApprovalGate.Resolve | backend/app/mcp_gateway.py:96-184 | a resolution up to the delivery, for this call and no other |
| Gateway.ApprovalGate.Deliver | backend/app/mcp_gateway.py:164-184 | the cached call, or the one rebuilt from the waiting record, leaves under a new lease; other calls are untouched |
| Gateway.ApprovalGate.Answered | backend/app/mcp_gateway.py:184-207 | a success finalises the record as FORWARDED; a failure retains it, or dead-letters it at the last attempt |
| Gateway.ApprovalGate.RetryPending | backend/app/mcp_gateway_routes.py:197-249 | an operator retry is refused from final records other than DEAD_LETTER and under a live lease, and otherwise returns the record to waiting |
| Gateway.ApprovalGate.Restart | backend/app/mcp_gateway.py:70-74 | a restart empties the cache and keeps every record |
| Gateway.MutatingCalls | backend/app/mcp_gateway.py:236-239 | which calls need an approval |
| Gateway.ResolveEffect | backend/app/mcp_gateway.py:96-184 | for every record, where a resolution ends and what it sends; a delivery counts an attempt under a lease of 30 seconds |
| Gateway.AnswerEffect | backend/app/mcp_gateway.py:184-207 | where an answer ends, for every record |
| Gateway.RetryEffect | backend/app/mcp_gateway_routes.py:197-249 | when an operator retry is accepted and what it resets |
| Gateway.AttemptsAreDeliveries | backend/app/mcp_gateway.py:294-305 | over every history the attempts of a record are its deliveries since the last reset |
| Gateway.FailureGivesUpIff | backend/app/mcp_gateway.py:307-317 | after any history a failure dead-letters the call if and only if the deliveries since the last reset have reached the limit; otherwise the call waits again |
| Gateway.DeadLetterRests | backend/app/mcp_gateway.py:109-117 | a call that was given up is never delivered again without an operator's retry |
| Gateway.DeliveredIff | backend/app/mcp_gateway.py:109-171 | after any history a resolution delivers if and only if the record is neither final nor leased and the approval is APPROVED with an unchanged hash; it delivers the submitted call, cached or rebuilt, and the approval then shows the very payload that was approved |
| Gateway.OnceIff | backend/app/mcp_gateway.py:294-305 | a command keeps one open delivery at a time, and one success exactly on FORWARDED, if and only if it is no resolution and no retry that looks at a delivery beyond its lease |
| Gateway.AtMostOneSuccess | backend/app/mcp_gateway.py:186-199 | if no resolution and no retry looks at a delivery beyond its lease, then over submit, decisions, edits, resolutions, failures, exceptions, retries and restarts at most one success is recorded, exactly when the record is FORWARDED |
| Gateway.OnceThroughoutIff | backend/app/mcp_gateway.py:186-199 | over whole histories the condition is exact: one delivery at a time and the record law hold all along if and only if every such command is in time |
| Gateway.UntimelyBreaksTheRecordLaw | backend/app/mcp_gateway.py:283-317 | after the first command that is not in time, a withdrawal, one more resolution and the answers lead to a success the record does not show or to two; after one in time they do not |
| Gateway.OverlapIff | backend/app/mcp_gateway.py:294-305 | whatever deliveries are open, a resolution opens another if and only if the record is neither final nor leased and the approval is in force; beyond the lease of the one delivery an operator retry is accepted too |
| Gateway.SlowChildSucceedsTwice | backend/app/mcp_gateway.py:118-131 | a child that answers after 30 seconds can be recorded as successful twice |
| Gateway.LateAnswerOnBlockedRecord | backend/app/mcp_gateway.py:137-145 | one delivery is enough: denied and resolved again beyond its lease, its success stands on a BLOCKED record |
| Gateway.FailureRewritesForwarded | backend/app/mcp_gateway.py:307-317 | with two deliveries open, a failure answered after a success turns FORWARDED into waiting or dead-lettered |
| Gateway.SettledForever | backend/app/mcp_gateway.py:111-117 | a forwarded, blocked or orphaned record with no answer expected is never delivered again, in any history |
| Gateway.PrematureResolveBlocks | backend/app/mcp_gateway.py:137-145 | resolving before the decision blocks the call for good, even if it is approved later |
| NonceWindow.Connector.CleanHistory | backend/app/connector_webhook.py:159-172 | the loop keeps exactly the entries seen within the lifetime, and the 200 latest of them |
| NonceWindow.CleanKeepsLatest | backend/app/connector_webhook.py:159-172 | for any history, sorted or not: all entries of the last 600 seconds stay, or 200 of them, none seen earlier than one that is dropped |
| NonceWindow.Connector.AssertNotReplayed | backend/app/connector_webhook.py:175-183 | a tracked nonce refuses; a new one is appended to the cleaned history |
| NonceWindow.Connector.AuthenticateHmac | backend/app/connector_webhook.py:186-209 | the checks in their order; the history is rewritten only by requests that pass all the others |
| NonceWindow.AcceptedIff | backend/app/connector_webhook.py:186-209 | after any history a request is accepted if and only if its version is v1, its signature is the signer's value for its timestamp, nonce and body, its nonce has 1 to 128 characters, its timestamp is at most 300 seconds away on either side, and the nonce is not among the remembered acceptances |
| NonceWindow.RefusalIs | backend/app/connector_webhook.py:186-209 | which refusal a request meets that is not properly signed, and that the history stays |
| NonceWindow.SignatureIsUnwrapped | backend/app/connector_webhook.py:186-209 | the signature compared is the header without surrounding whitespace and an optional v1= prefix |
| NonceWindow.EveryAcceptanceWasSigned | backend/app/connector_webhook.py:186-209 | over every history each acceptance comes from an arrival that was properly signed at its time |
| NonceWindow.ServeIsFaithful | backend/app/connector_webhook.py:159-183 | through any pruning and truncation the history is the tail of the acceptances, and all it leaves out is older than 600 seconds or has 200 after it |
| NonceWindow.ReplayedIff | backend/app/connector_webhook.py:175-183 | a request is refused as a replay if and only if its nonce is among the acceptances of the last 600 seconds with fewer than 200 after them |
| NonceWindow.PairAcceptedTwiceOnlyUnderFlood | backend/app/connector_webhook.py:34-36 | a (timestamp, nonce) pair accepted twice has at least 200 acceptances strictly in between, all within 600 seconds: the lifetime is exactly twice the tolerance |
| NonceWindow.NoPairAcceptedTwice | backend/app/connector_webhook.py:159-209 | with at most 200 acceptances in any 600 seconds on a forward clock, no pair is accepted twice |
| NonceWindow.FloodLetsReplayIn | backend/app/connector_webhook.py:170-172 | after 200 other acceptances a request is accepted again, however recent |
| Sorting.SortBySorts | backend/app/connector_webhook.py:170-171 | the sort by an integer key that truncation and the recorder rely on is sorted |
| Sorting.SortByKeeps | backend/app/trust_flight_recorder.py:53-57 | and it is a permutation |
| FlightRecorder.Recorder.Append | backend/app/trust_flight_recorder.py:22-50 | the new event carries the next sequence and the last hash, and a log that verified still does |
| FlightRecorder.Recorder.Verify | backend/app/trust_flight_recorder.py:53-83 | valid exactly when every event passes; otherwise the report names the first event that fails and its first failed check |
| FlightRecorder.AppendsVerify | backend/app/trust_flight_recorder.py:22-50 | any sequence of appends verifies and holds what was appended, in order, numbered from 1, each event with its own hash and that of its predecessor |
| FlightRecorder.FlawIff | backend/app/trust_flight_recorder.py:53-83 | which check a faulty event is reported for, and that an event without fault is properly linked |
| FlightRecorder.HeadDeterminesHistory | backend/app/trust_flight_recorder.py:53-83 | with an injective hash, two verified chains that end in the same hash are identical |
| FlightRecorder.VerifiesIffUnaltered | backend/app/trust_flight_recorder.py:53-83 | a log ending in the recorded head verifies if and only if it holds the recorded history, so altering, dropping, adding or reordering events is reported |
| FlightRecorder.ChainPrefix | backend/app/trust_flight_recorder.py:53-83 | a log cut short still verifies |
| FileApplication.ValidatePlan | backend/app/agent_worker_file_plan.py:114-130 | no error exactly for a plan of 1 to 25 distinct, individually valid changes; otherwise the first fault in the order of the checks |
| FileApplication.SafePathIff | backend/app/agent_worker_file_plan.py:82-96 | a path is safe if and only if, by components and in any case, it is relative, never climbs, does not lie in a guarded directory and does not name a file of secrets |
| FileApplication.CheckIff | backend/app/agent_worker_file_plan.py:99-111 | which changes pass, and which fault is reported of those that do not |
| FileApplication.ValidPlanIff | backend/app/agent_worker_file_plan.py:114-130 | a plan is valid if and only if it has 1 to 25 changes that pass, no two for one path |
| FileApplication.FindBadChange | backend/app/agent_worker_file_plan.py:121-129 | the loop over the growing set of seen paths finds the first repeat or failing change |
| FileApplication.Branch.ApplyFileChanges | backend/app/agent_worker_github_files.py:214-260 | the loop leaves on the branch exactly the modelled run; on success the counters and items report every change |
| FileApplication.RunIsParallelUpdate | backend/app/agent_worker_github_files.py:227-253 | for distinct paths the loop succeeds if and only if every change's precondition holds on the original tree; it leaves the parallel update by exactly the changes before the first failure, other paths untouched |
| FileApplication.PlanEffect | backend/app/agent_worker_github_files.py:214-260 | applying a valid plan, said of the plan: it succeeds if and only if no service is refused, every file to create is missing and every other is there; each path then holds what its change says, and any other what it held |
| FileApplication.OrderIsIrrelevant | backend/app/agent_worker_github_files.py:227-253 | every permutation of a plan has the same outcome and, on success, the same tree |
| FileApplication.ValidPlanIsContentful | backend/app/agent_worker_file_plan.py:99-111 | a valid plan meets what the loop assumes: distinct paths, content for every write, no other change type |
| Calibration.BinsPartition | backend/app/agent_run_verifier.py:203-207 | the bins partition the rows: each row occurs in its own bin, as often as among the rows, and in no other |
| Calibration.BinIsInterval | backend/app/agent_run_verifier.py:205-206 | a bin holds exactly its interval of clamped confidence; confidence 1 belongs to the last |
| Calibration.CellsAddUp | backend/app/agent_run_verifier.py:189-192 | the four confusion counts add up to the number of rows |
| Calibration.CellsOfMetrics | backend/app/agent_run_verifier.py:189-192 | each of the four counts is the number of rows with that prediction and that truth |
| Calibration.RatiosOfMetrics | backend/app/agent_run_verifier.py:193-195 | precision is the part of the positive predictions, recall the part of the positive rows, and F1 their harmonic mean; zero where there are none |
| Calibration.BrierAppended | backend/app/agent_run_verifier.py:196-200 | every row adds the square of the distance between its clamped confidence and its truth to the Brier sum |
| Calibration.CalibrationErrorIs | backend/app/agent_run_verifier.py:203-214 | n times the calibration error is the sum, over at least one bin, of how far confidences and truths of the bin are apart |
| Calibration.EntropyIsExpectedBits | backend/app/agent_run_verifier.py:176-180 | the entropy is the expected number of bits: symmetric, 1 for an even chance, 0 for a certainty |
| Calibration.ScoresAreBounded | backend/app/agent_run_verifier.py:196-213 | for any rows and any bin count, Brier and the calibration error lie in [0, 1] and the error squared is at most Brier |
| Calibration.F1IsBetween | backend/app/agent_run_verifier.py:193-195 | F1 lies between precision and recall and is zero exactly when nothing positive was predicted rightly |
| Calibration.MeanEntropyIsUnit | backend/app/agent_run_verifier.py:176-180 | with the binary logarithm, the mean entropy of the clamped confidences lies in [0, 1], for any rows |
| Calibration.FillBins | backend/app/agent_run_verifier.py:203-207 | the loop puts every row in its bin, in order |
| Calibration.ErrorOver | backend/app/agent_run_verifier.py:208-214 | the accumulation loop computes the calibration error of the rows |
| Calibration.ComputeMetrics | backend/app/agent_run_verifier.py:183-228 | all counts and scores of the report, for empty input too |

## Left out

- Steps, leases and approvals are values inside the run or the store; aliasing between Python objects is not modelled, and the loops update the sequence or map that holds them.
- Commands are atomic except at the two places where a request leaves the process: the worker of a step and the child of the MCP gateway. Each command reads the clock once, so no property depends on two readings within one call.
- Run and trust clocks are given separately to an execution request; nothing proved relates them.
- SHA-256, HMAC, signatures, bearer tokens and request fingerprints are functions given as parameters; injectivity is assumed only where a statement says so. A bearer token stands for its grant, and the payload hash of a human decision for the action itself.
- Fresh identifiers are new: a lease identifier is not yet mentioned by any action. Policy decisions are ordered by the log; two with one timestamp, ordered by identifier in the source, do not occur.
- The execution lock is per process, as in the source; two API processes over one store are not modelled.
- Events, audit entries, notifications, metrics endpoints, scorecards, the exception queue and persistence: formatting and bookkeeping around the modelled state.
- The identity fields inside the seal payload (run, task and correlation identifiers) are constant for a run and left out of the hashed chain.
- The DUPLICATE_DELIVERY branch of execution and the FAILED-step branch of retry are unreachable through the routes, and `derive_run_status`, `recompute_run_status` and `consume_gateway_action` have no caller.
- Executors, classification texts and injected faults: the worker returns any decision, except that the first step passes only under the scope contract, and a failure any decision but PASS. The facts of that contract are constant in a run; that the approval is still APPROVED at that time is left to the worker.
- `ensure_run_capability` appears as its two parts, issuing a lease and attaching it; its own derivation of the scope is not modelled.
- Limits of request validation that only reject input (lengths, list sizes, ranges), except the bound of 3 on the retry number, which stops authorization.
- Text is characters: whitespace and lower case are those of ASCII, JSON canonicalisation is part of the hash, and the shell lexer is a parameter.
- Nonce histories hold only well-formed entries; what the source skips as unparsable does not occur.
- The branch is a flat map from paths to contents; commit identifiers, blob hashes and the GitHub API are not modelled beyond a failure at any item.
- Confidences, costs and scores are reals: rounding, NaN and infinities are not modelled. The binary logarithm is a parameter, of which the bound on the entropy uses the product law, its value at 2 and its tangent at 1.
- TrustedSettlement.AuthorizedStepSettlesIff: assumes that between the authorization and the settlement nobody charges, ends or changes the lease and nobody re-evaluates, decides or consumes the actions; a concurrent charge in between can exhaust any budget.
- StepSettlement.SettlesIffRetryBudget: assumes the same of the lease, and that its actions are effectively allowed and not yet consumed.
- The scheduler loop is modelled with trust enforcement switched off, where a request authorizes nothing; its queries return all runs of a status, not the 500 that changed last.
