/**
 The trust control plane as functions on its store: attestations, leases, policy
 decisions, human authorizations, consumption and credentials. Each command reads
 the clock once. `origins` and `charges` remember, for the theorems, what a lease
 was issued on and what was charged to it.
 */
module TrustLedger {
  import opened Options
  import opened Text
  import opened TrustScope
  import opened TrustPolicy

  const MICROS: int := 1_000_000

  datatype Approval = Approval(
    id: Id, approved: bool, payloadHash: Option<Digest>, creator: Option<Name>, approver: Option<Name>,
    targetBranch: Option<string>, files: seq<string>, testPlan: seq<string>)

  /** The AgentTask linked to an approval. */
  datatype Task = Task(repository: Option<string>, branch: Option<string>)

  datatype Ballot = Ballot(approvalId: Id, payloadHash: Digest, reviewer: Name)

  datatype Opinion = Opinion(approve: bool, reason: string)

  /** The approval, task and reviewers a lease was issued on. */
  datatype Origin = Origin(approval: Approval, task: Task, reviewers: set<Name>, request: Request)

  /** `human` marks the policy version that ends in "+human-decision". */
  datatype Decision = Decision(actionId: Id, verdict: Verdict, human: bool)

  /** With an injective payload hash, the hash stands for the action as it was when signed. */
  datatype Authorization = Authorization(payload: Action, allow: bool, reason: string)

  datatype Consumption = Consumption(
    runtime: nat, cost: Money, pullRequests: nat, retry: bool, output: Option<string>, evidence: string)

  datatype Charge = Charge(action: Action, leaseId: Id, consumption: Consumption)

  datatype Grant = Grant(leaseId: Id, audience: string, scope: seq<string>, expiresAt: int, revoked: bool)

  datatype Ledger = Ledger(
    clock: int, attestations: map<Ballot, Opinion>, leases: map<Id, Lease>, origins: map<Id, Origin>,
    actions: map<Id, Action>, decisions: seq<Decision>, authorizations: map<Id, Authorization>,
    consumptions: map<Id, Consumption>, charges: seq<Charge>, grants: map<Id, Grant>)

  datatype Reply = Done | NotFound | Conflict

  datatype Next = Next(ledger: Ledger, reply: Reply)

  const EMPTY := Ledger(0, map[], map[], map[], map[], [], map[], map[], [], map[])

  // ----- attestations -----

  function Attest(l: Ledger, approval: Option<Approval>, user: Name, opinion: Opinion): Next {
    if approval.None? then Next(l, NotFound)
    else if !Given(approval.value.payloadHash) || approval.value.creator == Some(user) then Next(l, Conflict)
    else
      var ballot := Ballot(approval.value.id, approval.value.payloadHash.value, user);
      if ballot in l.attestations then Next(l, if l.attestations[ballot] == opinion then Done else Conflict)
      else Next(l.(attestations := l.attestations[ballot := opinion]), Done)
  }

  predicate Denied(l: Ledger, approvalId: Id, payloadHash: Digest) {
    exists b :: b in l.attestations && b.approvalId == approvalId && b.payloadHash == payloadHash
                && !l.attestations[b].approve
  }

  function Reviewers(l: Ledger, approval: Approval): set<Name> {
    (if Given(approval.approver) then {approval.approver.value} else {})
    + set b | b in l.attestations && Backs(b, l.attestations[b], approval) :: b.reviewer
  }

  predicate Backs(b: Ballot, opinion: Opinion, approval: Approval) {
    b.approvalId == approval.id && Some(b.payloadHash) == approval.payloadHash && opinion.approve
  }

  // ----- leases -----

  /** What the request validators guarantee of a scope. */
  predicate Validated(s: Scope) {
    && GrantsOnlyRepositoryActions(s)
    && (forall i :: 0 <= i < |s.pathPrefixes| ==> Strip(s.pathPrefixes[i]) == s.pathPrefixes[i])
    && (forall i :: 0 <= i < |s.commands| ==> Strip(s.commands[i]) == s.commands[i])
  }

  predicate PrefixApproved(prefix: string, files: seq<string>) {
    exists k :: 0 <= k < |files| && Requested(prefix) == Slashed(files[k])
  }

  predicate CommandApproved(command: string, plan: seq<string>) {
    exists k :: 0 <= k < |plan| && Strip(plan[k]) != "" && Strip(command) == Strip(plan[k])
  }

  predicate ScopeWithin(s: Scope, approval: Approval, task: Task) {
    && Some(s.repository) == task.repository
    && Some(s.branch) == approval.targetBranch && Some(s.branch) == task.branch
    && (forall i :: 0 <= i < |s.pathPrefixes| ==> PrefixApproved(s.pathPrefixes[i], approval.files))
    && (forall i :: 0 <= i < |s.commands| ==> CommandApproved(s.commands[i], approval.testPlan))
    && !s.allowAutoMerge
  }

  predicate Live(lease: Lease, now: int) { lease.status.Active? && now < lease.terms.expiresAt }

  predicate LiveFor(l: Ledger, id: Id, approvalId: Id, agent: Option<Name>, now: int) {
    id in l.leases && Serves(l.leases[id], approvalId, agent, now)
  }

  predicate Serves(lease: Lease, approvalId: Id, agent: Option<Name>, now: int) {
    lease.terms.approvalId == approvalId && lease.terms.agent == agent && Live(lease, now)
  }

  /** What an approval must show before a lease is issued on it, other than the scope and a live lease. */
  predicate Quorum(l: Ledger, r: Request, approval: Approval) {
    && approval.approved && Given(approval.payloadHash)
    && !Denied(l, approval.id, approval.payloadHash.value)
    && (r.preventSelfApproval && approval.creator.Some? ==> approval.creator.value !in Reviewers(l, approval))
    && r.requiredReviewers <= |Reviewers(l, approval)|
  }

  function TermsOf(id: Id, r: Request, payloadHash: Digest, now: int, env: Env): Terms {
    Terms(id, r.approvalId, payloadHash, r.agent, r.provider, r.mode, r.scope.(fingerprint := env.fingerprint(r)),
          now, now + r.lifetime * MICROS)
  }

  function AddLease(l: Ledger, id: Id, r: Request, approval: Approval, task: Task, now: int, env: Env): Ledger
    requires approval.payloadHash.Some?
  {
    var terms := TermsOf(id, r, approval.payloadHash.value, now, env);
    l.(leases := l.leases[id := Lease(terms, env.sign(terms), Active, Spent(0, 0.0, 0, 0))],
       origins := l.origins[id := Origin(approval, task, Reviewers(l, approval), r)], clock := now)
  }

  /** A live lease for the same request is handed out again; for another request it stands in the way. */
  ghost function Reuse(l: Ledger, now: int, id: Id, r: Request, approval: Approval, task: Task, env: Env): Next
    requires approval.payloadHash.Some?
  {
    if exists other :: LiveFor(l, other, r.approvalId, r.agent, now) then
      var other :| LiveFor(l, other, r.approvalId, r.agent, now);
      Next(l.(clock := now),
           if l.leases[other].terms.scope.fingerprint == env.fingerprint(r) then Done else Conflict)
    else Next(AddLease(l, id, r, approval, task, now, env), Done)
  }

  /** `approval` and `task` are what the other stores hold for `r.approvalId` at the time. */
  ghost function Issue(l: Ledger, now: int, id: Id, r: Request, approval: Option<Approval>, task: Option<Task>,
                       agentKnown: bool, env: Env): Next
  {
    if approval.None? then Next(l, NotFound)
    else if !approval.value.approved || !Given(approval.value.payloadHash) then Next(l, Conflict)
    else if Given(r.agent) && !agentKnown then Next(l, NotFound)
    else if task.None? || !ScopeWithin(r.scope, approval.value, task.value) then Next(l, Conflict)
    else if !Quorum(l, r, approval.value) then Next(l, Conflict)
    else Reuse(l, now, id, r, approval.value, task.value, env)
  }

  function RefreshedLease(lease: Lease, now: int): Lease {
    if lease.status.Active? && lease.terms.expiresAt <= now then lease.(status := Expired) else lease
  }

  /** Every command that looks at a lease first marks it EXPIRED when its time has passed. */
  function Refresh(l: Ledger, id: Id, now: int): Ledger {
    l.(leases := Lapse(l.leases, id, now), clock := now)
  }

  function Lapse(leases: map<Id, Lease>, id: Id, now: int): map<Id, Lease> {
    if id in leases then leases[id := RefreshedLease(leases[id], now)] else leases
  }

  function RevokeGrants(grants: map<Id, Grant>, leaseId: Id): map<Id, Grant> {
    map g | g in grants :: AfterRevocation(grants[g], leaseId)
  }

  function AfterRevocation(g: Grant, leaseId: Id): Grant {
    if g.leaseId == leaseId then g.(revoked := true) else g
  }

  function RevokeIn(leases: map<Id, Lease>, id: Id, now: int): map<Id, Lease>
    requires id in leases
  {
    var lapsed := Lapse(leases, id, now);
    if lapsed[id].status.Active? then lapsed[id := lapsed[id].(status := Revoked)] else lapsed
  }

  /** Only a lease that was still live takes its grants with it; those of an expired lease lapse by themselves. */
  function RevokeLease(l: Ledger, now: int, id: Id): Next {
    if id !in l.leases then Next(l, NotFound)
    else Next(l.(leases := RevokeIn(l.leases, id, now),
                 grants := if Live(l.leases[id], now) then RevokeGrants(l.grants, id) else l.grants,
                 clock := now), Done)
  }

  // ----- actions -----

  function LeaseOf(l: Ledger, a: Action): Option<Lease> {
    if a.leaseId.Some? && a.leaseId.value in l.leases then Some(l.leases[a.leaseId.value]) else None
  }

  function RefreshFor(l: Ledger, a: Action, now: int): Ledger {
    if a.leaseId.Some? then Refresh(l, a.leaseId.value, now) else l.(clock := now)
  }

  /** An action that reuses an identifier replaces the earlier one. */
  function EvaluateAction(l: Ledger, now: int, a: Action, env: Env): (t: Ledger)
    ensures t.clock == now
  {
    var r := RefreshFor(l, a, now);
    r.(actions := r.actions[a.id := a],
       decisions := r.decisions + [Decision(a.id, Evaluate(a, LeaseOf(r, a), now, env), false)])
  }

  function Latest(decisions: seq<Decision>, id: Id): (d: Option<Decision>)
    ensures d.Some? ==> d.value.actionId == id
  {
    if decisions == [] then None
    else if decisions[|decisions| - 1].actionId == id then Some(decisions[|decisions| - 1])
    else Latest(decisions[..|decisions| - 1], id)
  }

  /** A recorded decision is final: repeating it changes nothing here, contradicting it is refused. */
  function Authorize(l: Ledger, id: Id, reviewer: bool, allow: bool, reason: string): Next {
    if !reviewer then Next(l, Conflict)
    else if id !in l.actions then Next(l, NotFound)
    else
      var a, current := l.actions[id], Latest(l.decisions, id);
      if current.None? || current.value.verdict.Block? then Next(l, Conflict)
      else if id in l.authorizations then
        var existing := l.authorizations[id];
        var same := existing.allow == allow && existing.reason == reason;
        Next(l, if existing.payload == a && (current.value.verdict.Allow? || same) then Done else Conflict)
      else if current.value.verdict.Allow? then Next(l, Conflict)
      else Next(l.(authorizations := l.authorizations[id := Authorization(a, allow, reason)],
                   decisions := l.decisions + [Decision(id, if allow then Allow else Block, true)]), Done)
  }

  predicate HumanAllows(l: Ledger, id: Id)
    requires id in l.actions
  {
    id in l.authorizations && l.authorizations[id].allow && l.authorizations[id].payload == l.actions[id]
  }

  function CostOf(c: Consumption): Spent {
    Spent(c.runtime, c.cost, c.pullRequests, if c.retry then 1 else 0)
  }

  function Plus(s: Spent, t: Spent): Spent {
    Spent(s.runtime + t.runtime, s.cost + t.cost, s.pullRequests + t.pullRequests, s.retries + t.retries)
  }

  predicate WithinBudget(s: Spent, scope: Scope) {
    s.runtime <= scope.maxRuntime && s.cost <= scope.maxCost && s.pullRequests <= scope.maxPullRequests
    && s.retries <= scope.maxRetries
  }

  function ChargeLease(l: Ledger, a: Action, leaseId: Id, c: Consumption): Ledger
    requires leaseId in l.leases
  {
    var lease := l.leases[leaseId];
    l.(leases := l.leases[leaseId := lease.(spent := Plus(lease.spent, CostOf(c)))],
       consumptions := l.consumptions[a.id := c], charges := l.charges + [Charge(a, leaseId, c)])
  }

  function Consume(l: Ledger, now: int, id: Id, c: Consumption): Next {
    if id !in l.actions then Next(l, NotFound)
    else
      var a, current := l.actions[id], Latest(l.decisions, id);
      if current.None? || !current.value.verdict.Allow? then Next(l, Conflict)
      else if current.value.human && !HumanAllows(l, id) then Next(l, Conflict)
      else if id in l.consumptions then Next(l, if l.consumptions[id] == c then Done else Conflict)
      else if LeaseOf(l, a).None? then Next(l, Conflict)
      else
        var r, leaseId := Refresh(l, a.leaseId.value, now), a.leaseId.value;
        var lease := r.leases[leaseId];
        var affordable := WithinBudget(Plus(lease.spent, CostOf(c)), lease.terms.scope);
        if !lease.status.Active? || !affordable then Next(r, Conflict)
        else Next(ChargeLease(r, a, leaseId, c), Done)
  }

  // ----- credentials -----

  function IssueGrant(l: Ledger, now: int, id: Id, leaseId: Id, internal: bool, audience: string,
                      scope: seq<string>, seconds: nat): Next
  {
    if leaseId !in l.leases then Next(l, NotFound)
    else
      var r := Refresh(l, leaseId, now);
      var lease := r.leases[leaseId];
      if !lease.status.Active? || !internal || seconds > (lease.terms.expiresAt - now) / MICROS then Next(r, Conflict)
      else Next(r.(grants := r.grants[id := Grant(leaseId, audience, scope, now + seconds * MICROS, false)]), Done)
  }

  function RevokeGrant(l: Ledger, id: Id): Next {
    if id !in l.grants then Next(l, NotFound)
    else Next(l.(grants := l.grants[id := l.grants[id].(revoked := true)]), Done)
  }

  /** What introspection of the token of grant `id` answers. */
  predicate Introspects(l: Ledger, now: int, id: Id, audience: string, required: seq<string>) {
    && id in l.grants
    && var g := l.grants[id];
    && !g.revoked && now < g.expiresAt
    && g.leaseId in l.leases && Live(l.leases[g.leaseId], now)
    && g.audience == audience && forall i :: 0 <= i < |required| ==> required[i] in g.scope
  }

  // ----- histories -----

  datatype Command =
    | CAttest(approval: Option<Approval>, user: Name, opinion: Opinion)
    | CIssue(now: int, id: Id, request: Request, approval: Option<Approval>, task: Option<Task>, agentKnown: bool)
    | CRevoke(now: int, id: Id)
    | CEvaluate(now: int, action: Action)
    | CAuthorize(id: Id, reviewer: bool, allow: bool, reason: string)
    | CConsume(now: int, id: Id, consumption: Consumption)
    | CGrant(now: int, id: Id, leaseId: Id, internal: bool, audience: string, scope: seq<string>, seconds: nat)
    | CRevokeGrant(id: Id)

  ghost function Apply(l: Ledger, c: Command, env: Env): Next {
    match c
    case CAttest(approval, user, opinion) => Attest(l, approval, user, opinion)
    case CIssue(now, id, r, approval, task, known) => Issue(l, now, id, r, approval, task, known, env)
    case CRevoke(now, id) => RevokeLease(l, now, id)
    case CEvaluate(now, a) => Next(EvaluateAction(l, now, a, env), Done)
    case CAuthorize(id, reviewer, allow, reason) => Authorize(l, id, reviewer, allow, reason)
    case CConsume(now, id, consumption) => Consume(l, now, id, consumption)
    case CGrant(now, id, leaseId, internal, audience, scope, seconds) =>
      IssueGrant(l, now, id, leaseId, internal, audience, scope, seconds)
    case CRevokeGrant(id) => RevokeGrant(l, id)
  }

  /** New identifiers are new, the clock never goes back, and requests have passed their validators. */
  predicate Admissible(l: Ledger, c: Command) {
    match c
    case CIssue(now, id, r, approval, task, _) =>
      && l.clock <= now && id !in l.leases && id !in l.origins
      && (forall a :: a in l.actions ==> l.actions[a].leaseId != Some(id))
      && (approval.Some? ==> approval.value.id == r.approvalId) && Validated(r.scope)
    case CGrant(now, id, _, _, _, _, _) => l.clock <= now && id !in l.grants
    case CRevoke(now, _) => l.clock <= now
    case CEvaluate(now, _) => l.clock <= now
    case CConsume(now, _, _) => l.clock <= now
    case _ => true
  }

  ghost function Replay(l: Ledger, history: seq<Command>, env: Env): Ledger {
    if history == [] then l
    else Apply(Replay(l, history[..|history| - 1], env), history[|history| - 1], env).ledger
  }

  ghost predicate AdmissibleRun(l: Ledger, history: seq<Command>, env: Env) {
    forall i :: 0 <= i < |history| ==> Admissible(Replay(l, history[..i], env), history[i])
  }
}
