/**
 The policy decision on a proposed action under a capability lease: every
 objection that can be raised, and exactly when an action is allowed, sent to a
 human, or blocked.
 */
module TrustPolicy {
  import opened Options
  import opened Text
  import opened TrustScope

  /** The identifier of a stored record; only ever compared. */
  type Id(==, !new)
  type Name = string
  type Digest = string

  datatype ActionType =
    | ReadRepository | CreateBranch | ModifyFiles | RunCommand | AccessNetwork | CreatePullRequest
    | Deploy | ReadSecret | WriteDatabase | Custom

  predicate HighRisk(t: ActionType) { t.Deploy? || t.ReadSecret? || t.WriteDatabase? }

  predicate RepositoryAction(t: ActionType) { !HighRisk(t) && !t.Custom? }

  datatype Mode = Strict | Bounded | Supervised

  type Money = amount: real | 0.0 <= amount

  /** Identifiers in the metadata are empty when absent. */
  datatype Scope = Scope(
    repository: string, branch: string, allowedActions: seq<ActionType>, pathPrefixes: seq<string>,
    commands: seq<string>, domains: seq<string>, maxRuntime: nat, maxCost: Money, maxRetries: nat,
    maxPullRequests: nat, allowAutoMerge: bool, runId: string, taskId: string, fingerprint: Digest)

  /** A request for a lease, living for a number of seconds. */
  datatype Request = Request(
    approvalId: Id, agent: Option<Name>, provider: string, mode: Mode, scope: Scope, lifetime: nat,
    requiredReviewers: nat, preventSelfApproval: bool)

  /** What the receipt of a lease signs. */
  datatype Terms = Terms(
    id: Id, approvalId: Id, payloadHash: Digest, agent: Option<Name>, provider: string, mode: Mode, scope: Scope,
    issuedAt: int, expiresAt: int)

  datatype LeaseStatus = Active | Expired | Revoked

  datatype Spent = Spent(runtime: int, cost: real, pullRequests: int, retries: int)

  datatype Lease = Lease(terms: Terms, signature: Digest, status: LeaseStatus, spent: Spent)

  datatype Action = Action(
    id: Id, leaseId: Option<Id>, provider: string, agent: Option<Name>, runId: Option<Name>, taskId: Option<Name>,
    actionType: ActionType, repository: Option<string>, branch: Option<string>, paths: seq<string>,
    command: Option<string>, domains: seq<string>, runtime: nat, cost: Money, retryNumber: nat, autoMerge: bool,
    metadata: string)

  datatype Verdict = Allow | RequireApproval | Block

  /** The signing key, the request fingerprint and the shell lexer. */
  datatype Env = Env(sign: Terms -> Digest, fingerprint: Request -> Digest, lexes: string -> bool)

  datatype Reason =
    | WrongLease | NotActive | LapsedLease | BadSignature | WrongAgent | UnboundLease | WrongProvider
    | ActionOutside | WrongRepository | WrongBranch | ProtectedBranch | AutoMerge | WrongRun | WrongTask
    | NoPath | PathOutside | NoCommand | CommandOutside | NoDomain | DomainOutside
    | RuntimeBudget | CostBudget | RetryBudget | PullRequestBudget

  predicate Given(s: Option<string>) { s.Some? && s.value != "" }

  predicate Protected(branch: Option<string>) {
    var lowered := Lower(if branch.Some? then branch.value else "");
    lowered == "main" || lowered == "master" || lowered == "refs/heads/main" || lowered == "refs/heads/master"
  }

  predicate PathsInside(a: Action, s: Scope) {
    forall i :: 0 <= i < |a.paths| ==> PathAllowed(a.paths[i], s.pathPrefixes)
  }

  predicate DomainsInside(a: Action, s: Scope) {
    forall i :: 0 <= i < |a.domains| ==> DomainAllowed(a.domains[i], s.domains)
  }

  // ----- the budget of several actions together -----

  function TotalRuntime(actions: seq<Action>): nat {
    if actions == [] then 0 else TotalRuntime(actions[..|actions| - 1]) + actions[|actions| - 1].runtime
  }

  function TotalCost(actions: seq<Action>): Money {
    if actions == [] then 0.0 else TotalCost(actions[..|actions| - 1]) + actions[|actions| - 1].cost
  }

  function TotalPullRequests(actions: seq<Action>): nat {
    if actions == [] then 0
    else
      TotalPullRequests(actions[..|actions| - 1])
      + if actions[|actions| - 1].actionType.CreatePullRequest? then 1 else 0
  }

  /** What the lease has spent and all estimates together stay within its scope; retries are not looked at. */
  predicate Preflight(lease: Lease, actions: seq<Action>) {
    && lease.spent.runtime + TotalRuntime(actions) <= lease.terms.scope.maxRuntime
    && lease.spent.cost + TotalCost(actions) <= lease.terms.scope.maxCost
    && lease.spent.pullRequests + TotalPullRequests(actions) <= lease.terms.scope.maxPullRequests
  }

  // ----- the objections, in the order they are looked for -----

  function Noted(reasons: seq<Reason>, applies: bool, reason: Reason): seq<Reason> {
    if applies then reasons + [reason] else reasons
  }

  function AboutGrant(a: Action, l: Lease, now: int, env: Env, reasons: seq<Reason>): seq<Reason> {
    var r1 := Noted(reasons, a.leaseId != Some(l.terms.id), WrongLease);
    var r2 := Noted(r1, !l.status.Active?, NotActive);
    var r3 := Noted(r2, l.terms.expiresAt <= now, LapsedLease);
    Noted(r3, l.signature != env.sign(l.terms), BadSignature)
  }

  function AboutHolder(a: Action, l: Lease, reasons: seq<Reason>): seq<Reason> {
    var r1 := Noted(reasons, Given(l.terms.agent) && a.agent != l.terms.agent, WrongAgent);
    var r2 := Noted(r1, l.terms.agent.None? && a.agent.Some?, UnboundLease);
    Noted(r2, a.provider != l.terms.provider, WrongProvider)
  }

  function AboutLease(a: Action, l: Lease, now: int, env: Env, reasons: seq<Reason>): seq<Reason> {
    AboutHolder(a, l, AboutGrant(a, l, now, env, reasons))
  }

  function AboutPlace(a: Action, s: Scope, reasons: seq<Reason>): seq<Reason> {
    var r1 := Noted(reasons, a.actionType !in s.allowedActions, ActionOutside);
    var r2 := Noted(r1, RepositoryAction(a.actionType) && a.repository != Some(s.repository), WrongRepository);
    Noted(r2, RepositoryAction(a.actionType) && a.branch != Some(s.branch), WrongBranch)
  }

  function AboutTarget(a: Action, s: Scope, reasons: seq<Reason>): seq<Reason> {
    var r1 := Noted(AboutPlace(a, s, reasons), Protected(a.branch), ProtectedBranch);
    var r2 := Noted(r1, a.autoMerge || s.allowAutoMerge, AutoMerge);
    var r3 := Noted(r2, s.runId != "" && a.runId != Some(s.runId), WrongRun);
    Noted(r3, s.taskId != "" && a.taskId != Some(s.taskId), WrongTask)
  }

  function AboutResources(a: Action, s: Scope, env: Env, reasons: seq<Reason>): seq<Reason> {
    var r1 := Noted(reasons, a.actionType.ModifyFiles? && a.paths == [], NoPath);
    var r2 := Noted(r1, !PathsInside(a, s), PathOutside);
    var r3 := Noted(r2, a.actionType.RunCommand? && !Given(a.command), NoCommand);
    var r4 := Noted(r3, Given(a.command) && !CommandAllowed(a.command.value, s.commands, env.lexes), CommandOutside);
    var r5 := Noted(r4, a.actionType.AccessNetwork? && a.domains == [], NoDomain);
    Noted(r5, !DomainsInside(a, s), DomainOutside)
  }

  function AboutBudget(a: Action, spent: Spent, s: Scope, reasons: seq<Reason>): seq<Reason> {
    var r1 := Noted(reasons, spent.runtime + a.runtime > s.maxRuntime, RuntimeBudget);
    var r2 := Noted(r1, spent.cost + a.cost > s.maxCost, CostBudget);
    var r3 := Noted(r2, a.retryNumber > s.maxRetries, RetryBudget);
    Noted(r3, a.actionType.CreatePullRequest? && spent.pullRequests >= s.maxPullRequests, PullRequestBudget)
  }

  function Objections(a: Action, l: Lease, now: int, env: Env): seq<Reason> {
    var s := l.terms.scope;
    AboutBudget(a, l.spent, s, AboutResources(a, s, env, AboutTarget(a, s, AboutLease(a, l, now, env, []))))
  }

  function Evaluate(a: Action, lease: Option<Lease>, now: int, env: Env): Verdict {
    if lease.None? then (if HighRisk(a.actionType) then Block else RequireApproval)
    else if Objections(a, lease.value, now, env) != [] then Block
    else if lease.value.terms.mode.Strict? then RequireApproval
    else if lease.value.terms.mode.Supervised? && HighRisk(a.actionType) then RequireApproval
    else Allow
  }

  method EvaluateProposedAction(a: Action, lease: Option<Lease>, now: int, env: Env)
    returns (verdict: Verdict, reasons: seq<Reason>)
    ensures verdict == Evaluate(a, lease, now, env)
    ensures lease.Some? ==> reasons == Objections(a, lease.value, now, env)
  {
    reasons := [];
    if lease.None? { return (if HighRisk(a.actionType) then Block else RequireApproval), []; }
    var l, s := lease.value, lease.value.terms.scope;
    reasons := LeaseReasons(a, l, now, env, reasons);
    reasons := TargetReasons(a, s, reasons);
    reasons := ResourceReasons(a, s, env, reasons);
    reasons := BudgetReasons(a, l.spent, s, reasons);
    if reasons != [] { return Block, reasons; }
    if l.terms.mode.Strict? { return RequireApproval, []; }
    if l.terms.mode.Supervised? && HighRisk(a.actionType) { return RequireApproval, []; }
    verdict := Allow;
  }

  method LeaseReasons(a: Action, l: Lease, now: int, env: Env, before: seq<Reason>) returns (reasons: seq<Reason>)
    ensures reasons == AboutLease(a, l, now, env, before)
  {
    reasons := before;
    if a.leaseId != Some(l.terms.id) { reasons := reasons + [WrongLease]; }
    if !l.status.Active? { reasons := reasons + [NotActive]; }
    if l.terms.expiresAt <= now { reasons := reasons + [LapsedLease]; }
    if l.signature != env.sign(l.terms) { reasons := reasons + [BadSignature]; }
    if Given(l.terms.agent) && a.agent != l.terms.agent { reasons := reasons + [WrongAgent]; }
    if l.terms.agent.None? && a.agent.Some? { reasons := reasons + [UnboundLease]; }
    if a.provider != l.terms.provider { reasons := reasons + [WrongProvider]; }
  }

  method TargetReasons(a: Action, s: Scope, before: seq<Reason>) returns (reasons: seq<Reason>)
    ensures reasons == AboutTarget(a, s, before)
  {
    reasons := before;
    if a.actionType !in s.allowedActions { reasons := reasons + [ActionOutside]; }
    if RepositoryAction(a.actionType) {
      if a.repository != Some(s.repository) { reasons := reasons + [WrongRepository]; }
      if a.branch != Some(s.branch) { reasons := reasons + [WrongBranch]; }
    }
    if Protected(a.branch) { reasons := reasons + [ProtectedBranch]; }
    if a.autoMerge || s.allowAutoMerge { reasons := reasons + [AutoMerge]; }
    if s.runId != "" && a.runId != Some(s.runId) { reasons := reasons + [WrongRun]; }
    if s.taskId != "" && a.taskId != Some(s.taskId) { reasons := reasons + [WrongTask]; }
  }

  method ResourceReasons(a: Action, s: Scope, env: Env, before: seq<Reason>) returns (reasons: seq<Reason>)
    ensures reasons == AboutResources(a, s, env, before)
  {
    reasons := before;
    if a.actionType.ModifyFiles? && a.paths == [] { reasons := reasons + [NoPath]; }
    if !PathsInside(a, s) { reasons := reasons + [PathOutside]; }
    if a.actionType.RunCommand? && !Given(a.command) { reasons := reasons + [NoCommand]; }
    if Given(a.command) && !CommandAllowed(a.command.value, s.commands, env.lexes) {
      reasons := reasons + [CommandOutside];
    }
    if a.actionType.AccessNetwork? && a.domains == [] { reasons := reasons + [NoDomain]; }
    if !DomainsInside(a, s) { reasons := reasons + [DomainOutside]; }
  }

  method BudgetReasons(a: Action, spent: Spent, s: Scope, before: seq<Reason>) returns (reasons: seq<Reason>)
    ensures reasons == AboutBudget(a, spent, s, before)
  {
    reasons := before;
    if spent.runtime + a.runtime > s.maxRuntime { reasons := reasons + [RuntimeBudget]; }
    if spent.cost + a.cost > s.maxCost { reasons := reasons + [CostBudget]; }
    if a.retryNumber > s.maxRetries { reasons := reasons + [RetryBudget]; }
    if a.actionType.CreatePullRequest? && spent.pullRequests >= s.maxPullRequests {
      reasons := reasons + [PullRequestBudget];
    }
  }

  // ----- what the decision means -----

  /** The lease is genuine, in force, and issued to this agent of this provider. */
  predicate Standing(a: Action, l: Lease, now: int, env: Env) {
    && a.leaseId == Some(l.terms.id) && l.status.Active? && now < l.terms.expiresAt
    && l.signature == env.sign(l.terms)
    && a.provider == l.terms.provider
    && (if l.terms.agent.None? then a.agent.None? else l.terms.agent == Some("") || a.agent == l.terms.agent)
  }

  /** Every path is at or below an allowed prefix by whole components, and names nothing sensitive. */
  predicate PathsBelow(a: Action, s: Scope) {
    forall i :: 0 <= i < |a.paths| ==> PathBelow(a.paths[i], s.pathPrefixes)
  }

  predicate PathBelow(path: string, prefixes: seq<string>) {
    && Components(path).Some?
    && (forall part :: part in Components(path).value ==> !Sensitive(part))
    && exists k :: 0 <= k < |prefixes| && AtOrBelow(TrimEnd(prefixes[k], '/'), path)
  }

  predicate CommandInside(a: Action, s: Scope, env: Env) {
    Given(a.command) ==> CommandAllowed(a.command.value, s.commands, env.lexes)
  }

  /** What an action may touch, whatever has been spent and whatever the time. */
  predicate Inside(a: Action, s: Scope, env: Env) {
    && a.actionType in s.allowedActions
    && (RepositoryAction(a.actionType) ==> a.repository == Some(s.repository) && a.branch == Some(s.branch))
    && !Protected(a.branch) && !a.autoMerge && !s.allowAutoMerge
    && (s.runId != "" ==> a.runId == Some(s.runId)) && (s.taskId != "" ==> a.taskId == Some(s.taskId))
    && PathsBelow(a, s) && (a.actionType.ModifyFiles? ==> a.paths != [])
    && CommandInside(a, s, env) && (a.actionType.RunCommand? ==> Given(a.command))
    && DomainsInside(a, s) && (a.actionType.AccessNetwork? ==> a.domains != [])
    && a.retryNumber <= s.maxRetries
  }

  predicate Affordable(a: Action, spent: Spent, s: Scope) {
    && spent.runtime + a.runtime <= s.maxRuntime && spent.cost + a.cost <= s.maxCost
    && (a.actionType.CreatePullRequest? ==> spent.pullRequests < s.maxPullRequests)
  }

  lemma PathsInsideIffBelow(a: Action, s: Scope)
    ensures PathsInside(a, s) <==> PathsBelow(a, s)
  {
    forall i | 0 <= i < |a.paths|
      ensures PathAllowed(a.paths[i], s.pathPrefixes) <==> PathBelow(a.paths[i], s.pathPrefixes)
    {
      PathAllowedIffBelow(a.paths[i], s.pathPrefixes);
    }
  }

  lemma ResourcesUnobjected(a: Action, s: Scope, env: Env)
    ensures AboutResources(a, s, env, []) == [] <==>
            && PathsBelow(a, s) && (a.actionType.ModifyFiles? ==> a.paths != [])
            && CommandInside(a, s, env) && (a.actionType.RunCommand? ==> Given(a.command))
            && DomainsInside(a, s) && (a.actionType.AccessNetwork? ==> a.domains != [])
  {
    PathsInsideIffBelow(a, s);
  }

  /** No objection is raised exactly when the lease stands, the action is inside its scope and it can be afforded. */
  lemma UnobjectedIff(a: Action, l: Lease, now: int, env: Env)
    ensures Objections(a, l, now, env) == [] <==>
            Standing(a, l, now, env) && Inside(a, l.terms.scope, env) && Affordable(a, l.spent, l.terms.scope)
  {
    ResourcesUnobjected(a, l.terms.scope, env);
  }

  /** V1 scopes grant none of the high-risk or custom actions. */
  predicate GrantsOnlyRepositoryActions(s: Scope) {
    forall i :: 0 <= i < |s.allowedActions| ==> RepositoryAction(s.allowedActions[i])
  }

  predicate Clear(a: Action, l: Lease, now: int, env: Env) {
    Standing(a, l, now, env) && Inside(a, l.terms.scope, env) && Affordable(a, l.spent, l.terms.scope)
  }

  /** The verdicts under any scope: a high-risk action is never allowed under supervision, or without a lease. */
  lemma VerdictsOfAnyScope(a: Action, lease: Option<Lease>, now: int, env: Env)
    ensures var verdict, risky := Evaluate(a, lease, now, env), a.actionType in {Deploy, ReadSecret, WriteDatabase};
            if lease.None? then verdict == if risky then Block else RequireApproval
            else if !Clear(a, lease.value, now, env) then verdict.Block?
            else
              match lease.value.terms.mode
              case Strict => verdict.RequireApproval?
              case Supervised => verdict == if risky then RequireApproval else Allow
              case Bounded => verdict.Allow?
  {
    if lease.Some? { UnobjectedIff(a, lease.value, now, env); }
  }

  /** The three verdicts, each exactly characterised. */
  lemma VerdictsIff(a: Action, lease: Option<Lease>, now: int, env: Env)
    requires lease.Some? ==> GrantsOnlyRepositoryActions(lease.value.terms.scope)
    ensures var verdict := Evaluate(a, lease, now, env);
            var clear := lease.Some? && Clear(a, lease.value, now, env);
            && (verdict.Allow? <==> clear && !lease.value.terms.mode.Strict?)
            && (verdict.RequireApproval? <==>
                if lease.None? then !HighRisk(a.actionType) else clear && lease.value.terms.mode.Strict?)
            && (HighRisk(a.actionType) ==> verdict.Block?)
  {
    if lease.Some? { UnobjectedIff(a, lease.value, now, env); }
  }

  // ----- kinds, branches and reasons -----

  lemma KindsOfAction(t: ActionType)
    ensures HighRisk(t) <==> t in {Deploy, ReadSecret, WriteDatabase}
    ensures RepositoryAction(t) <==>
            t in {ReadRepository, CreateBranch, ModifyFiles, RunCommand, AccessNetwork, CreatePullRequest}
  {
  }

  lemma ProtectedIff(branch: Option<string>)
    ensures Protected(branch) <==>
            branch.Some? && Lower(branch.value) in {"main", "master", "refs/heads/main", "refs/heads/master"}
  {
  }

  /** What each reason reproaches an action with: first those that concern the lease. */
  predicate LeaseApplies(r: Reason, a: Action, l: Lease, now: int, env: Env) {
    || (r.WrongLease? && a.leaseId != Some(l.terms.id))
    || (r.NotActive? && !l.status.Active?)
    || (r.LapsedLease? && l.terms.expiresAt <= now)
    || (r.BadSignature? && l.signature != env.sign(l.terms))
    || (r.WrongAgent? && l.terms.agent.Some? && l.terms.agent.value != "" && a.agent != l.terms.agent)
    || (r.UnboundLease? && l.terms.agent.None? && a.agent.Some?)
    || (r.WrongProvider? && a.provider != l.terms.provider)
  }

  /** Then what is aimed at. */
  predicate TargetApplies(r: Reason, a: Action, s: Scope) {
    || (r.ActionOutside? && a.actionType !in s.allowedActions)
    || (r.WrongRepository? && RepositoryAction(a.actionType) && a.repository != Some(s.repository))
    || (r.WrongBranch? && RepositoryAction(a.actionType) && a.branch != Some(s.branch))
    || (r.ProtectedBranch? && Protected(a.branch))
    || (r.AutoMerge? && (a.autoMerge || s.allowAutoMerge))
    || (r.WrongRun? && s.runId != "" && a.runId != Some(s.runId))
    || (r.WrongTask? && s.taskId != "" && a.taskId != Some(s.taskId))
  }

  /** What is touched. */
  predicate ResourceApplies(r: Reason, a: Action, s: Scope, env: Env) {
    || (r.NoPath? && a.actionType.ModifyFiles? && a.paths == [])
    || (r.PathOutside? && !PathsBelow(a, s))
    || (r.NoCommand? && a.actionType.RunCommand? && !(a.command.Some? && a.command.value != ""))
    || (r.CommandOutside? && !CommandInside(a, s, env))
    || (r.NoDomain? && a.actionType.AccessNetwork? && a.domains == [])
    || (r.DomainOutside? && !DomainsInside(a, s))
  }

  /** And what it costs. */
  predicate BudgetApplies(r: Reason, a: Action, spent: Spent, s: Scope) {
    || (r.RuntimeBudget? && s.maxRuntime < spent.runtime + a.runtime)
    || (r.CostBudget? && s.maxCost < spent.cost + a.cost)
    || (r.RetryBudget? && s.maxRetries < a.retryNumber)
    || (r.PullRequestBudget? && a.actionType.CreatePullRequest? && s.maxPullRequests <= spent.pullRequests)
  }

  predicate Has(reasons: seq<Reason>, r: Reason) { r in reasons }

  lemma {:induction false} GrantReasonsAre(a: Action, l: Lease, now: int, env: Env, before: seq<Reason>, r: Reason)
    ensures Has(AboutGrant(a, l, now, env, before), r) <==>
            Has(before, r)
            || (!r.WrongAgent? && !r.UnboundLease? && !r.WrongProvider? && LeaseApplies(r, a, l, now, env))
  {
  }

  lemma {:induction false} LeaseReasonsAre(a: Action, l: Lease, now: int, env: Env, before: seq<Reason>, r: Reason)
    ensures Has(AboutLease(a, l, now, env, before), r) <==> Has(before, r) || LeaseApplies(r, a, l, now, env)
  {
    GrantReasonsAre(a, l, now, env, before, r);
  }

  lemma {:induction false} PlaceReasonsAre(a: Action, s: Scope, before: seq<Reason>, r: Reason)
    ensures Has(AboutPlace(a, s, before), r) <==>
            Has(before, r) || ((r.ActionOutside? || r.WrongRepository? || r.WrongBranch?) && TargetApplies(r, a, s))
  {
  }

  lemma {:induction false} TargetReasonsAre(a: Action, s: Scope, before: seq<Reason>, r: Reason)
    ensures Has(AboutTarget(a, s, before), r) <==> Has(before, r) || TargetApplies(r, a, s)
  {
    PlaceReasonsAre(a, s, before, r);
  }

  lemma {:induction false} ResourceReasonsAre(a: Action, s: Scope, env: Env, before: seq<Reason>, r: Reason)
    ensures Has(AboutResources(a, s, env, before), r) <==>
            Has(before, r) || if r.PathOutside? then !PathsInside(a, s) else ResourceApplies(r, a, s, env)
  {
  }

  lemma {:induction false} BudgetReasonsAre(a: Action, spent: Spent, s: Scope, before: seq<Reason>, r: Reason)
    ensures Has(AboutBudget(a, spent, s, before), r) <==> Has(before, r) || BudgetApplies(r, a, spent, s)
  {
  }

  /** A reason is among the objections exactly when it applies. */
  lemma ObjectionsAreThoseThatApply(a: Action, l: Lease, now: int, env: Env, r: Reason)
    ensures Has(Objections(a, l, now, env), r) <==>
            || LeaseApplies(r, a, l, now, env) || TargetApplies(r, a, l.terms.scope)
            || ResourceApplies(r, a, l.terms.scope, env) || BudgetApplies(r, a, l.spent, l.terms.scope)
  {
    var s := l.terms.scope;
    var about := AboutLease(a, l, now, env, []);
    var target := AboutTarget(a, s, about);
    LeaseReasonsAre(a, l, now, env, [], r);
    TargetReasonsAre(a, s, about, r);
    ResourceReasonsAre(a, s, env, target, r);
    PathsInsideIffBelow(a, s);
    BudgetReasonsAre(a, l.spent, s, AboutResources(a, s, env, target), r);
  }
}
