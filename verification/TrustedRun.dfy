/**
 A run under trust enforcement: a side-effect step starts only when every action
 derived for the attempt is effectively allowed, whatever operators, reviewers,
 agents and the watchdog do in between.
 */
module TrustedRun {
  import opened Options
  import opened RunStates
  import M = MissionControl
  import opened RunInvariants
  import opened Text
  import opened TrustPolicy
  import L = TrustLedger
  import T = TrustInvariants

  const MAX_RETRY_NUMBER: nat := 3

  /**
   What a run, its task and its sealed approval say; the identifier of an action is a
   hash of its key, and `hash` hashes evidence.
   */
  datatype Facts = Facts(
    runId: Name, taskId: Name, approvalId: Id, payloadHash: Digest, provider: string, agent: Option<Name>,
    repository: string, branch: string, paths: seq<string>, testPlan: seq<string>, stepKeys: seq<string>,
    actionId: (nat, nat, Id, nat) -> Id, hash: M.Hash)

  datatype TrustedState = TrustedState(run: M.RunState, ledger: L.Ledger, leaseId: Option<Id>)

  datatype Next = Next(state: TrustedState, reply: M.Reply)

  predicate SideEffect(t: StepType) {
    t.CreateBranch? || t.ApplyChanges? || t.RunValidation? || t.CreatePullRequest?
  }

  // ----- the actions of an attempt -----

  function Proposal(f: Facts, leaseId: Id, step: nat, attempts: nat, index: nat, actionType: ActionType,
                    paths: seq<string>, command: Option<string>, timeout: nat): Action
    requires step < |f.stepKeys|
  {
    Action(f.actionId(step, attempts + 1, leaseId, index), Some(leaseId), f.provider, f.agent, Some(f.runId),
           Some(f.taskId), actionType, Some(f.repository), Some(f.branch), paths, command, [], timeout, 0.0, attempts,
           false, f.stepKeys[step])
  }

  function StepActions(f: Facts, leaseId: Id, step: nat, attempts: nat, timeout: nat): seq<Action>
    requires step < STEP_COUNT && step < |f.stepKeys|
  {
    match DEFAULT_STEPS[step]
    case CreateBranch =>
      [Proposal(f, leaseId, step, attempts, 0, ActionType.CreateBranch, [], None, timeout)]
    case ApplyChanges =>
      [Proposal(f, leaseId, step, attempts, 0, ModifyFiles, f.paths, None, timeout)]
    case RunValidation =>
      seq(|f.testPlan|, i requires 0 <= i < |f.testPlan| =>
        Proposal(f, leaseId, step, attempts, i, RunCommand, [], Some(f.testPlan[i]), timeout))
    case CreatePullRequest =>
      [Proposal(f, leaseId, step, attempts, 0, ActionType.CreatePullRequest, [], None, timeout)]
    case _ => []
  }

  /** The lease is for this approval and payload, this task, and at least as many attempts as the run may make. */
  predicate TermsFit(t: Terms, f: Facts, maxAttempts: nat) {
    && t.approvalId == f.approvalId && t.scope.repository == f.repository && maxAttempts <= t.scope.maxRetries + 1
    && t.provider == f.provider && (Given(t.agent) ==> t.agent == f.agent)
    && t.scope.branch == f.branch && t.payloadHash == f.payloadHash
  }

  predicate LeaseFits(lease: Lease, f: Facts, maxAttempts: nat) {
    lease.status.Active? && TermsFit(lease.terms, f, maxAttempts)
  }

  // ----- authorization -----

  datatype Clearance = Cleared | MustBlock | MustAsk

  datatype Cleared = Result(ledger: L.Ledger, clearance: Clearance)

  /** A known action must be the very one proposed and have a decision; an unknown one is evaluated now. */
  function ClearOne(l: L.Ledger, instant: int, a: Action, env: Env): Cleared {
    if a.id in l.actions && l.actions[a.id] != a then Result(l, MustBlock)
    else
      var after := if a.id in l.actions then l else L.EvaluateAction(l, instant, a, env);
      match L.Latest(after.decisions, a.id)
      case None => Result(after, MustBlock)
      case Some(d) =>
        Result(after, if d.verdict.Block? then MustBlock else if d.verdict.RequireApproval? then MustAsk else Cleared)
  }

  /** The first k actions in turn; the first that is not allowed ends the loop. */
  function ClearFirst(l: L.Ledger, instant: int, actions: seq<Action>, env: Env, k: nat): Cleared
    requires k <= |actions|
  {
    if k == 0 then Result(l, Cleared)
    else
      var earlier := ClearFirst(l, instant, actions, env, k - 1);
      if !earlier.clearance.Cleared? then earlier else ClearOne(earlier.ledger, instant, actions[k - 1], env)
  }

  /** Moves the current step, then the run. */
  function Park(s: M.RunState, step: StepStatus, run: RunStatus): M.RunState
    requires s.current < |s.steps|
  {
    var p := M.Settle(s.status, s.steps[s.current], step, run);
    s.(steps := s.steps[s.current := p.step], status := p.run)
  }

  /** The approval is recorded: whatever waited for it goes back to the scheduler. */
  function Unpark(s: M.RunState, k: nat): M.RunState
    requires k < |s.steps|
  {
    var step := s.steps[k];
    var steps := if step.status.NeedsHuman? then s.steps[k := step.(status := StepStatus.Ready)] else s.steps;
    s.(steps := steps, status := if s.status.NeedsHuman? then RunStatus.Scheduled else s.status)
  }

  predicate Enforceable(f: Facts, s: M.RunState) {
    M.WellFormed(s) && |f.stepKeys| == STEP_COUNT
  }

  function Current(s: M.RunState): M.Step
    requires M.WellFormed(s)
  {
    s.steps[s.current]
  }

  /** What the end of the loop over the actions means for the run. */
  function Conclude(s: TrustedState, cleared: Cleared): (next: Next)
    requires M.WellFormed(s.run)
    ensures M.WellFormed(next.state.run)
  {
    match cleared.clearance
    case MustBlock =>
      Next(s.(ledger := cleared.ledger, run := Park(s.run, StepStatus.Blocked, RunStatus.Blocked)), M.Conflict)
    case MustAsk =>
      Next(s.(ledger := cleared.ledger, run := Park(s.run, StepStatus.NeedsHuman, RunStatus.NeedsHuman)), M.Conflict)
    case Cleared => Next(s.(ledger := cleared.ledger, run := Unpark(s.run, s.run.current)), M.Done)
  }

  /** The authorization under a lease that has just been refreshed. */
  function AuthorizeUnder(s: TrustedState, leaseId: Id, instant: int, timeout: nat, f: Facts, env: Env): (next: Next)
    requires Enforceable(f, s.run) && leaseId in s.ledger.leases
    ensures Enforceable(f, next.state.run)
  {
    var blocked := s.(run := Park(s.run, StepStatus.Blocked, RunStatus.Blocked));
    if !LeaseFits(s.ledger.leases[leaseId], f, s.run.maxAttempts) then Next(blocked, M.Conflict)
    else
      var actions := StepActions(f, leaseId, s.run.current, Current(s.run).attempts, timeout);
      if actions != [] && Current(s.run).attempts > MAX_RETRY_NUMBER then Next(s, M.Illegal)
      else if !Preflight(s.ledger.leases[leaseId], actions) then Next(blocked, M.Conflict)
      else Conclude(s, ClearFirst(s.ledger, instant, actions, env, |actions|))
  }

  /** `Done` when the step may start; otherwise the state the refusal leaves. */
  function Authorize(s: TrustedState, instant: int, timeout: nat, f: Facts, env: Env): (next: Next)
    requires Enforceable(f, s.run)
    ensures Enforceable(f, next.state.run)
  {
    if !SideEffect(DEFAULT_STEPS[s.run.current]) then Next(s, M.Done)
    else if s.leaseId.None? || s.leaseId.value !in s.ledger.leases then Next(s, M.Conflict)
    else
      var refreshed := s.(ledger := L.Refresh(s.ledger, s.leaseId.value, instant));
      AuthorizeUnder(refreshed, s.leaseId.value, instant, timeout, f, env)
  }

  /** An execution request under the per-run lock: authorize the current step, then start the ready step. */
  function Begin(s: TrustedState, now: int, instant: int, worker: string, token: string, seconds: nat, timeout: nat,
                 f: Facts, env: Env): (next: Next)
    requires Enforceable(f, s.run)
    ensures Enforceable(f, next.state.run)
  {
    if s.run.flight.Some? || M.StepInFlight(s.run) then Next(s, M.Conflict)
    else
      var authorized := Authorize(s, instant, timeout, f, env);
      if !authorized.reply.Done? then authorized
      else
        var begun := M.BeginExecution(authorized.state.run, now, worker, token, seconds);
        Next(authorized.state.(run := begun.state), begun.reply)
  }

  // ----- attaching a lease, deciding an action -----

  predicate SideEffectAttempted(s: M.RunState)
    requires M.WellFormed(s)
  {
    exists i :: 0 <= i < STEP_COUNT && SideEffect(DEFAULT_STEPS[i]) && s.steps[i].attempts > 0
  }

  function Attach(s: TrustedState, instant: int, leaseId: Id, f: Facts): (next: Next)
    requires Enforceable(f, s.run)
    ensures Enforceable(f, next.state.run)
  {
    if s.leaseId.Some? then Next(s, if s.leaseId.value == leaseId then M.Done else M.Conflict)
    else if TerminalRun(s.run.status) || s.run.status.Evaluating? || M.StepInFlight(s.run) then Next(s, M.Conflict)
    else if SideEffectAttempted(s.run) then Next(s, M.Conflict)
    else if leaseId !in s.ledger.leases then Next(s, M.Conflict)
    else
      var r := L.Refresh(s.ledger, leaseId, instant);
      if !LeaseFits(r.leases[leaseId], f, s.run.maxAttempts) then Next(s.(ledger := r), M.Conflict)
      else Next(s.(ledger := r, leaseId := Some(leaseId)), M.Done)
  }

  /** The position of the step an action was proposed for. */
  function StepOf(f: Facts, a: Action, i: nat): Option<nat>
    requires i <= |f.stepKeys|
    decreases |f.stepKeys| - i
  {
    if i == |f.stepKeys| then None else if f.stepKeys[i] == a.metadata then Some(i) else StepOf(f, a, i + 1)
  }

  /** What a recorded human decision does to the run of the action. */
  function Durable(s: M.RunState, k: nat, allow: bool): M.RunState
    requires k < |s.steps|
  {
    if allow then Unpark(s, k)
    else
      var step := s.steps[k];
      var steps := if step.status.NeedsHuman?
                   then s.steps[k := step.(status := StepStatus.Blocked, lease := None)] else s.steps;
      if s.status.NeedsHuman? then s.(steps := steps, status := RunStatus.Blocked, lease := None)
      else s.(steps := steps)
  }

  function Decide(s: TrustedState, id: Id, reviewer: bool, allow: bool, reason: string, f: Facts): (next: Next)
    requires Enforceable(f, s.run)
    ensures Enforceable(f, next.state.run)
  {
    var decided := L.Authorize(s.ledger, id, reviewer, allow, reason);
    var reply := if decided.reply.Done? then M.Done else M.Conflict;
    if !decided.reply.Done? || id !in decided.ledger.actions || id !in decided.ledger.authorizations then
      Next(s.(ledger := decided.ledger), reply)
    else
      var a := decided.ledger.actions[id];
      var target := StepOf(f, a, 0);
      if a.runId != Some(f.runId) || target.None? || target.value >= STEP_COUNT then
        Next(s.(ledger := decided.ledger), reply)
      else
        Next(s.(ledger := decided.ledger,
                run := Durable(s.run, target.value, decided.ledger.authorizations[id].allow)), reply)
  }

  // ----- histories -----

  datatype Command =
    | TBegin(now: int, instant: int, worker: string, token: string, seconds: nat, timeout: nat)
    | TRun(run: M.Command)
    | TLedger(ledger: L.Command)
    | TAttach(instant: int, leaseId: Id)
    | TDecide(id: Id, reviewer: bool, allow: bool, reason: string)

  /** What the first step checks of the task and its approval; what it checks of the status is left to the worker. */
  predicate ScopeContract(f: Facts) {
    var branch := Strip(f.branch);
    && '/' in Strip(f.repository) && branch != "" && branch != "main" && branch != "master"
    && f.paths != [] && f.testPlan != []
  }

  /** The worker of the first step passes it only under the contract; every other worker returns what it likes. */
  predicate Works(s: M.RunState, work: M.Work, f: Facts) {
    s.flight.Some? && s.flight.value.step == 0 && work.Returned? && work.outcome.decision.Pass? ==> ScopeContract(f)
  }

  /** Execution goes through authorization, human decisions through their effect on the run. */
  predicate Admissible(s: TrustedState, c: Command, f: Facts) {
    match c
    case TBegin(_, instant, _, _, _, _) => s.ledger.clock <= instant
    case TRun(run) => !run.Begin? && (run.Perform? ==> Works(s.run, run.work, f))
    case TLedger(ledger) => L.Admissible(s.ledger, ledger) && !ledger.CAuthorize?
    case TAttach(instant, _) => s.ledger.clock <= instant
    case TDecide(_, _, _, _) => true
  }

  ghost function Apply(s: TrustedState, c: Command, f: Facts, env: Env): (next: Next)
    requires Enforceable(f, s.run)
    ensures Enforceable(f, next.state.run)
  {
    match c
    case TBegin(now, instant, worker, token, seconds, timeout) =>
      Begin(s, now, instant, worker, token, seconds, timeout, f, env)
    case TRun(run) => var next := M.Apply(s.run, f.hash, run); Next(s.(run := next.state), next.reply)
    case TLedger(ledger) => Next(s.(ledger := L.Apply(s.ledger, ledger, env).ledger), M.Done)
    case TAttach(instant, leaseId) => Attach(s, instant, leaseId, f)
    case TDecide(id, reviewer, allow, reason) => Decide(s, id, reviewer, allow, reason, f)
  }

  // ----- what every history keeps -----

  /**
   The lease of the run fits it; a side-effect step has been attempted at most as
   often as that lease permits, and never without one.
   */
  predicate AttemptsBounded(s: TrustedState, f: Facts)
    requires Enforceable(f, s.run)
  {
    && (s.leaseId.Some? ==>
          s.leaseId.value in s.ledger.leases
          && TermsFit(s.ledger.leases[s.leaseId.value].terms, f, s.run.maxAttempts))
    && forall i :: 0 <= i < STEP_COUNT && SideEffect(DEFAULT_STEPS[i]) ==>
         if s.leaseId.None? then s.run.steps[i].attempts == 0
         else s.run.steps[i].attempts <= s.ledger.leases[s.leaseId.value].terms.scope.maxRetries + 1
  }

  /** Without the contract the run is still at its first step, and no PASS is on its way. */
  predicate Scoped(s: M.RunState, f: Facts) {
    ScopeContract(f) || (s.current == 0 && (M.HasResult(s) ==> !s.flight.value.result.value.decision.Pass?))
  }

  predicate RunOk(s: M.RunState, f: Facts) {
    Enforceable(f, s) && Inv(s, f.hash) && Scoped(s, f)
  }

  ghost predicate TInv(s: TrustedState, f: Facts, env: Env, m: T.Meaning) {
    RunOk(s.run, f) && T.Inv(s.ledger, env, m) && AttemptsBounded(s, f)
  }
}
