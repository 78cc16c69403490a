/**
 The theorems about the trust control plane, over every run of its commands from
 an empty store.
 */
module TrustTheorems {
  import opened Options
  import opened Text
  import opened TrustScope
  import opened TrustPolicy
  import opened TrustLedger
  import opened TrustInvariants

  // ----- containment -----

  predicate PathWithin(path: string, files: seq<string>) {
    && Components(path).Some?
    && (forall part :: part in Components(path).value ==> !Sensitive(part))
    && exists k :: 0 <= k < |files| && AtOrBelow(files[k], path)
  }

  /** The action stays inside the approval: same repository and branch, approved command, approved paths. */
  predicate WithinApproval(a: Action, approval: Approval, task: Task) {
    && RepositoryAction(a.actionType) && a.repository == task.repository && a.branch == approval.targetBranch
    && (forall i :: 0 <= i < |a.paths| ==> PathWithin(a.paths[i], approval.files))
    && (Given(a.command) ==> CommandApproved(a.command.value, approval.testPlan))
  }

  lemma PathBelowIsWithin(path: string, s: Scope, approval: Approval, task: Task)
    requires Validated(s) && ScopeWithin(s, approval, task) && PathBelow(path, s.pathPrefixes)
    ensures PathWithin(path, approval.files)
  {
    var k :| 0 <= k < |s.pathPrefixes| && AtOrBelow(TrimEnd(s.pathPrefixes[k], '/'), path);
    assert PrefixApproved(s.pathPrefixes[k], approval.files);
    var f :| 0 <= f < |approval.files| && Requested(s.pathPrefixes[k]) == Slashed(approval.files[f]);
    AcceptedPrefixIsApproved(s.pathPrefixes[k], approval.files[f]);
    assert AtOrBelow(approval.files[f], path);
  }

  lemma CommandInsideIsApproved(command: string, s: Scope, approval: Approval, task: Task, env: Env)
    requires ScopeWithin(s, approval, task) && CommandAllowed(command, s.commands, env.lexes)
    ensures CommandApproved(command, approval.testPlan)
  {
  }

  /** What the policy lets through under a scope, the approval behind the scope covers. */
  lemma InsideIsWithinApproval(a: Action, s: Scope, approval: Approval, task: Task, env: Env)
    requires Validated(s) && ScopeWithin(s, approval, task) && Inside(a, s, env)
    ensures WithinApproval(a, approval, task)
  {
    assert PathsBelow(a, s) && CommandInside(a, s, env);
    forall i | 0 <= i < |a.paths| ensures PathWithin(a.paths[i], approval.files) {
      PathBelowIsWithin(a.paths[i], s, approval, task);
    }
    if Given(a.command) { CommandInsideIsApproved(a.command.value, s, approval, task, env); }
  }

  lemma EmptyIsSound(env: Env, m: Meaning)
    ensures Inv(EMPTY, env, m)
  {
  }

  lemma RunKeeps(history: seq<Command>, env: Env)
    requires AdmissibleRun(EMPTY, history, env)
    ensures Inv(Replay(EMPTY, history, env), env, MeaningOf(env))
  {
    EmptyIsSound(env, MeaningOf(env));
    ReplayKeeps(EMPTY, history, env, MeaningOf(env));
  }

  /**
   Every action ever consumed stayed inside the approval its lease was issued on,
   through issuance, policy, human override and consumption, and whatever other
   actions have since reused its identifier.
   */
  lemma EveryChargeWithinApproval(history: seq<Command>, env: Env, i: nat)
    requires AdmissibleRun(EMPTY, history, env) && i < |Replay(EMPTY, history, env).charges|
    ensures var l := Replay(EMPTY, history, env);
            var charge := l.charges[i];
            charge.leaseId in l.origins
            && WithinApproval(charge.action, l.origins[charge.leaseId].approval, l.origins[charge.leaseId].task)
  {
    RunKeeps(history, env);
    ChargeWithinApproval(Replay(EMPTY, history, env), env, MeaningOf(env), i);
  }

  lemma ChargeWithinApproval(l: Ledger, env: Env, m: Meaning, i: nat)
    requires Inv(l, env, m) && m == MeaningOf(env) && i < |l.charges|
    ensures var charge := l.charges[i];
            charge.leaseId in l.origins
            && WithinApproval(charge.action, l.origins[charge.leaseId].approval, l.origins[charge.leaseId].task)
  {
    var id := l.charges[i].leaseId;
    assert ChargeOk(l, l.charges[i], m);
    assert LeaseOk(id, l.leases[id], l.origins[id], l.charges, l.clock, env, m);
    var origin := l.origins[id];
    InsideIsWithinApproval(l.charges[i].action, l.leases[id].terms.scope, origin.approval, origin.task, env);
  }

  // ----- budgets -----

  function RuntimeCharged(charges: seq<Charge>, id: Id): int {
    if charges == [] then 0
    else
      var last := charges[|charges| - 1];
      RuntimeCharged(charges[..|charges| - 1], id) + if last.leaseId == id then last.consumption.runtime else 0
  }

  function CostCharged(charges: seq<Charge>, id: Id): real {
    if charges == [] then 0.0
    else
      var last := charges[|charges| - 1];
      CostCharged(charges[..|charges| - 1], id) + if last.leaseId == id then last.consumption.cost else 0.0
  }

  function PullRequestsCharged(charges: seq<Charge>, id: Id): int {
    if charges == [] then 0
    else
      var last := charges[|charges| - 1];
      PullRequestsCharged(charges[..|charges| - 1], id)
      + if last.leaseId == id then last.consumption.pullRequests else 0
  }

  function RetriesCharged(charges: seq<Charge>, id: Id): int {
    if charges == [] then 0
    else
      var last := charges[|charges| - 1];
      RetriesCharged(charges[..|charges| - 1], id)
      + if last.leaseId == id && last.consumption.retry then 1 else 0
  }

  lemma {:induction false} TotalIsCharged(charges: seq<Charge>, id: Id)
    ensures var total := Total(charges, id);
            && total.runtime == RuntimeCharged(charges, id) && total.cost == CostCharged(charges, id)
            && total.pullRequests == PullRequestsCharged(charges, id) && total.retries == RetriesCharged(charges, id)
  {
    if charges != [] { TotalIsCharged(charges[..|charges| - 1], id); }
  }

  /** The four counters of the lease are the four sums over its charges, and none is beyond its maximum. */
  predicate Accounted(lease: Lease, charges: seq<Charge>, id: Id) {
    var scope := lease.terms.scope;
    && lease.spent.runtime == RuntimeCharged(charges, id) <= scope.maxRuntime
    && lease.spent.cost == CostCharged(charges, id) <= scope.maxCost
    && lease.spent.pullRequests == PullRequestsCharged(charges, id) <= scope.maxPullRequests
    && lease.spent.retries == RetriesCharged(charges, id) <= scope.maxRetries
  }

  lemma LeaseIsAccounted(l: Ledger, env: Env, m: Meaning, id: Id)
    requires Inv(l, env, m) && id in l.leases
    ensures Accounted(l.leases[id], l.charges, id)
  {
    assert LeaseOk(id, l.leases[id], l.origins[id], l.charges, l.clock, env, m);
    TotalIsCharged(l.charges, id);
  }

  /**
   What a lease has spent is, for runtime, cost, pull requests and retries, the sum of
   what was charged to it, and never beyond its maxima; no action is charged twice.
   */
  lemma SpendingIsTheSumOfCharges(history: seq<Command>, env: Env)
    requires AdmissibleRun(EMPTY, history, env)
    ensures var l := Replay(EMPTY, history, env);
            && (forall id :: id in l.leases ==> Accounted(l.leases[id], l.charges, id))
            && (forall i, j :: 0 <= i < j < |l.charges| ==> l.charges[i].action.id != l.charges[j].action.id)
  {
    RunKeeps(history, env);
    var l := Replay(EMPTY, history, env);
    forall id | id in l.leases ensures Accounted(l.leases[id], l.charges, id) {
      LeaseIsAccounted(l, env, MeaningOf(env), id);
    }
  }

  /** The action is allowed, has not been consumed, and its lease is live. */
  predicate Ready(l: Ledger, now: int, id: Id) {
    && id in l.actions && id !in l.consumptions && l.actions[id].leaseId.Some?
    && l.actions[id].leaseId.value in l.leases
    && l.leases[l.actions[id].leaseId.value].status.Active?
    && now < l.leases[l.actions[id].leaseId.value].terms.expiresAt
    && Latest(l.decisions, id).Some? && Latest(l.decisions, id).value.verdict.Allow?
  }

  /** With this consumption none of the four sums goes beyond its maximum. */
  predicate Affords(lease: Lease, charges: seq<Charge>, id: Id, c: Consumption) {
    var scope := lease.terms.scope;
    && RuntimeCharged(charges, id) + c.runtime <= scope.maxRuntime
    && CostCharged(charges, id) + c.cost <= scope.maxCost
    && PullRequestsCharged(charges, id) + c.pullRequests <= scope.maxPullRequests
    && RetriesCharged(charges, id) + (if c.retry then 1 else 0) <= scope.maxRetries
  }

  lemma ReadyIsConsumedIff(l: Ledger, env: Env, m: Meaning, now: int, id: Id, c: Consumption)
    requires Inv(l, env, m) && Ready(l, now, id)
    ensures var next, leaseId := Consume(l, now, id, c), l.actions[id].leaseId.value;
            && (next.reply.Done? <==> Affords(l.leases[leaseId], l.charges, leaseId, c))
            && next.ledger.charges
               == l.charges + (if next.reply.Done? then [Charge(l.actions[id], leaseId, c)] else [])
            && next.ledger.consumptions == (if next.reply.Done? then l.consumptions[id := c] else l.consumptions)
  {
    assert ActionOk(l, id, m);
    LeaseIsAccounted(l, env, m, l.actions[id].leaseId.value);
  }

  /**
   In a run, the first consumption of an effective action under a live lease is
   accepted if and only if each of the four sums plus its own amount fits; it is then
   one more charge, and otherwise nothing is recorded.
   */
  lemma FirstConsumptionIff(history: seq<Command>, env: Env, now: int, id: Id, c: Consumption)
    requires AdmissibleRun(EMPTY, history, env) && Ready(Replay(EMPTY, history, env), now, id)
    ensures var l := Replay(EMPTY, history, env);
            var next, leaseId := Consume(l, now, id, c), l.actions[id].leaseId.value;
            && (next.reply.Done? <==> Affords(l.leases[leaseId], l.charges, leaseId, c))
            && next.ledger.charges
               == l.charges + (if next.reply.Done? then [Charge(l.actions[id], leaseId, c)] else [])
  {
    RunKeeps(history, env);
    ReadyIsConsumedIff(Replay(EMPTY, history, env), env, MeaningOf(env), now, id, c);
  }

  lemma RepeatIsFree(l: Ledger, now: int, id: Id, first: Consumption, later: int, second: Consumption)
    requires Consume(l, now, id, first).reply.Done? && (id in l.actions ==> l.actions[id].id == id)
    ensures var t := Consume(l, now, id, first).ledger;
            Consume(t, later, id, second) == Next(t, if first == second then Done else Conflict)
  {
    var t := Consume(l, now, id, first).ledger;
    assert id in t.consumptions && t.consumptions[id] == first;
    assert t.actions == l.actions && t.decisions == l.decisions && t.authorizations == l.authorizations;
  }

  /** Repeating a consumption charges nothing, and only the identical one is accepted. */
  lemma RepeatedConsumptionIsFree(history: seq<Command>, env: Env, now: int, id: Id, first: Consumption, later: int,
                                  second: Consumption)
    requires AdmissibleRun(EMPTY, history, env) && Consume(Replay(EMPTY, history, env), now, id, first).reply.Done?
    ensures var t := Consume(Replay(EMPTY, history, env), now, id, first).ledger;
            Consume(t, later, id, second) == Next(t, if first == second then Done else Conflict)
  {
    RunKeeps(history, env);
    var l := Replay(EMPTY, history, env);
    if id in l.actions { assert ActionOk(l, id, MeaningOf(env)); }
    RepeatIsFree(l, now, id, first, later, second);
  }

  /** In a run, the human decision that made an action effective always verifies when it is consumed. */
  lemma HumanAllowAlwaysVerifies(history: seq<Command>, env: Env, id: Id)
    requires AdmissibleRun(EMPTY, history, env) && id in Replay(EMPTY, history, env).actions
    ensures var l := Replay(EMPTY, history, env);
            var latest := Latest(l.decisions, id);
            latest.Some? && (latest.value.verdict.Allow? && latest.value.human ==> HumanAllows(l, id))
  {
    RunKeeps(history, env);
    assert ActionOk(Replay(EMPTY, history, env), id, MeaningOf(env));
  }

  // ----- leases over time -----

  /** Terms never change, status leaves only ACTIVE, and nothing is ever given back. */
  predicate LeaseEdge(before: Lease, after: Lease) {
    && after.terms == before.terms && after.signature == before.signature
    && (after.status == before.status || (before.status.Active? && !after.status.Active?))
    && before.spent.runtime <= after.spent.runtime && before.spent.cost <= after.spent.cost
    && before.spent.pullRequests <= after.spent.pullRequests && before.spent.retries <= after.spent.retries
  }

  predicate LeaseEdges(before: map<Id, Lease>, after: map<Id, Lease>) {
    forall id :: id in before ==> id in after && LeaseEdge(before[id], after[id])
  }

  lemma LapseTakesEdges(leases: map<Id, Lease>, id: Id, now: int)
    ensures LeaseEdges(leases, Lapse(leases, id, now))
  {
  }

  lemma ChargeTakesEdge(lease: Lease, c: Consumption)
    ensures LeaseEdge(lease, lease.(spent := Plus(lease.spent, CostOf(c))))
  {
  }

  /** What every command but issuance and attestation does to the leases and the attestations. */
  predicate KeepsBooks(l: Ledger, t: Ledger) {
    t.attestations == l.attestations && t.leases.Keys == l.leases.Keys && LeaseEdges(l.leases, t.leases)
  }

  lemma SameBooks(l: Ledger, t: Ledger)
    requires t.leases == l.leases && t.attestations == l.attestations
    ensures KeepsBooks(l, t)
  {
  }

  lemma ConsumeKeepsBooks(l: Ledger, now: int, id: Id, c: Consumption)
    ensures KeepsBooks(l, Consume(l, now, id, c).ledger)
  {
    if id in l.actions && LeaseOf(l, l.actions[id]).Some? {
      var leaseId := l.actions[id].leaseId.value;
      LapseTakesEdges(l.leases, leaseId, now);
      ChargeKeepsBooks(l, now, l.actions[id], leaseId, c);
    }
  }

  lemma ChargeKeepsBooks(l: Ledger, now: int, a: Action, leaseId: Id, c: Consumption)
    requires leaseId in l.leases
    ensures KeepsBooks(l, Refresh(l, leaseId, now))
    ensures KeepsBooks(l, ChargeLease(Refresh(l, leaseId, now), a, leaseId, c))
  {
    LapseTakesEdges(l.leases, leaseId, now);
    ChargeTakesEdge(Lapse(l.leases, leaseId, now)[leaseId], c);
  }

  lemma RevokeInTakesEdges(leases: map<Id, Lease>, id: Id, now: int)
    requires id in leases
    ensures RevokeIn(leases, id, now).Keys == leases.Keys && LeaseEdges(leases, RevokeIn(leases, id, now))
  {
  }

  lemma RevokeKeepsBooks(l: Ledger, now: int, id: Id)
    ensures KeepsBooks(l, RevokeLease(l, now, id).ledger)
  {
    if id in l.leases { RevokeInTakesEdges(l.leases, id, now); }
  }

  lemma EvaluateKeepsBooks(l: Ledger, now: int, a: Action, env: Env)
    ensures KeepsBooks(l, EvaluateAction(l, now, a, env))
  {
    if a.leaseId.Some? { LapseTakesEdges(l.leases, a.leaseId.value, now); }
  }

  lemma GrantKeepsBooks(l: Ledger, now: int, id: Id, leaseId: Id, internal: bool, audience: string, scope: seq<string>,
                        seconds: nat)
    ensures KeepsBooks(l, IssueGrant(l, now, id, leaseId, internal, audience, scope, seconds).ledger)
  {
    SameBooks(l, l);
    LapseTakesEdges(l.leases, leaseId, now);
  }

  lemma OthersKeepBooks(l: Ledger, c: Command, env: Env)
    requires !c.CAttest? && !c.CIssue?
    ensures KeepsBooks(l, Apply(l, c, env).ledger)
  {
    match c
    case CRevoke(now, id) => RevokeKeepsBooks(l, now, id);
    case CEvaluate(now, a) => EvaluateKeepsBooks(l, now, a, env);
    case CConsume(now, id, consumption) => ConsumeKeepsBooks(l, now, id, consumption);
    case CGrant(now, id, leaseId, internal, audience, scope, seconds) =>
      GrantKeepsBooks(l, now, id, leaseId, internal, audience, scope, seconds);
    case _ => SameBooks(l, Apply(l, c, env).ledger);
  }

  lemma AttestKeepsBooks(l: Ledger, approval: Option<Approval>, user: Name, opinion: Opinion)
    ensures var t := Attest(l, approval, user, opinion).ledger;
            t.leases == l.leases && LeaseEdges(l.leases, t.leases)
            && forall b :: b in l.attestations ==> b in t.attestations && t.attestations[b] == l.attestations[b]
  {
  }

  lemma IssueOutcomes(l: Ledger, now: int, id: Id, r: Request, approval: Option<Approval>, task: Option<Task>,
                      agentKnown: bool, env: Env)
    ensures var t := Issue(l, now, id, r, approval, task, agentKnown, env).ledger;
            || t == l || t == l.(clock := now)
            || (approval.Some? && task.Some? && Quorum(l, r, approval.value)
                && t == AddLease(l, id, r, approval.value, task.value, now, env))
  {
  }

  lemma AddLeaseKeepsBooks(l: Ledger, now: int, id: Id, r: Request, approval: Approval, task: Task, env: Env)
    requires id !in l.leases && approval.id == r.approvalId && Quorum(l, r, approval)
    ensures var t := AddLease(l, id, r, approval, task, now, env);
            && t.attestations == l.attestations && LeaseEdges(l.leases, t.leases)
            && t.leases.Keys == l.leases.Keys + {id}
            && !Denied(l, t.leases[id].terms.approvalId, t.leases[id].terms.payloadHash)
  {
  }

  /** Issuance adds at most the one lease, and none on a payload that a reviewer has denied. */
  lemma IssueKeepsBooks(l: Ledger, now: int, id: Id, r: Request, approval: Option<Approval>, task: Option<Task>,
                        agentKnown: bool, env: Env)
    requires id !in l.leases && (approval.Some? ==> approval.value.id == r.approvalId)
    ensures var t := Issue(l, now, id, r, approval, task, agentKnown, env).ledger;
            && t.attestations == l.attestations && LeaseEdges(l.leases, t.leases)
            && t.leases.Keys <= l.leases.Keys + {id}
            && (id in t.leases ==> !Denied(l, t.leases[id].terms.approvalId, t.leases[id].terms.payloadHash))
  {
    IssueOutcomes(l, now, id, r, approval, task, agentKnown, env);
    var t := Issue(l, now, id, r, approval, task, agentKnown, env).ledger;
    if t.leases != l.leases { AddLeaseKeepsBooks(l, now, id, r, approval.value, task.value, env); }
  }

  lemma ApplyTakesEdges(l: Ledger, c: Command, env: Env)
    requires Admissible(l, c)
    ensures LeaseEdges(l.leases, Apply(l, c, env).ledger.leases)
  {
    match c
    case CAttest(approval, user, opinion) => AttestKeepsBooks(l, approval, user, opinion);
    case CIssue(now, id, r, approval, task, known) => IssueKeepsBooks(l, now, id, r, approval, task, known, env);
    case _ => OthersKeepBooks(l, c, env);
  }

  lemma {:induction false} RunTakesEdges(l: Ledger, history: seq<Command>, env: Env)
    requires AdmissibleRun(l, history, env)
    ensures LeaseEdges(l.leases, Replay(l, history, env).leases)
  {
    if history != [] {
      var earlier := history[..|history| - 1];
      ShorterRun(l, history, |history| - 1, env);
      RunTakesEdges(l, earlier, env);
      ApplyTakesEdges(Replay(l, earlier, env), history[|history| - 1], env);
      EdgesCompose(l.leases, Replay(l, earlier, env).leases, Replay(l, history, env).leases);
    }
  }

  lemma EdgesCompose(a: map<Id, Lease>, b: map<Id, Lease>, c: map<Id, Lease>)
    requires LeaseEdges(a, b) && LeaseEdges(b, c)
    ensures LeaseEdges(a, c)
  {
  }

  /** A lease that has ended never lets anything through again: no consumption, no credential. */
  lemma EndedLeaseIsDead(l: Ledger, history: seq<Command>, env: Env, id: Id)
    requires AdmissibleRun(l, history, env) && id in l.leases && !l.leases[id].status.Active?
    ensures var t := Replay(l, history, env);
            && id in t.leases && t.leases[id].status == l.leases[id].status
            && (forall now, g, audience, required :: g in t.grants && t.grants[g].leaseId == id ==>
                  !Introspects(t, now, g, audience, required))
            && (forall now, a, c :: a in t.actions && t.actions[a].leaseId == Some(id) ==>
                  Consume(t, now, a, c).ledger.charges == t.charges)
  {
    RunTakesEdges(l, history, env);
    var t := Replay(l, history, env);
    assert LeaseEdge(l.leases[id], t.leases[id]);
    forall now, a, c | a in t.actions && t.actions[a].leaseId == Some(id)
      ensures Consume(t, now, a, c).ledger.charges == t.charges
    {
      EndedRefuses(t, now, a, id, c);
    }
  }

  lemma EndedRefuses(t: Ledger, now: int, a: Id, id: Id, c: Consumption)
    requires a in t.actions && t.actions[a].leaseId == Some(id) && id in t.leases && !t.leases[id].status.Active?
    ensures Consume(t, now, a, c).ledger.charges == t.charges
  {
  }

  /** At any moment of a run at most one lease per approval and agent is live. */
  lemma AtMostOneLiveLease(history: seq<Command>, env: Env)
    requires AdmissibleRun(EMPTY, history, env)
    ensures OneLive(Replay(EMPTY, history, env))
  {
    RunKeeps(history, env);
  }

  /** No grant outlives its lease, and a revoked lease has only revoked grants. */
  lemma GrantsFollowTheirLease(history: seq<Command>, env: Env)
    requires AdmissibleRun(EMPTY, history, env)
    ensures var l := Replay(EMPTY, history, env);
            forall g :: g in l.grants ==>
              && l.grants[g].leaseId in l.leases
              && l.grants[g].expiresAt <= l.leases[l.grants[g].leaseId].terms.expiresAt
              && (l.leases[l.grants[g].leaseId].status.Revoked? ==> l.grants[g].revoked)
  {
    RunKeeps(history, env);
    var l := Replay(EMPTY, history, env);
    forall g | g in l.grants ensures GrantOk(l, l.grants[g]) {
    }
  }

  // ----- grants over time -----

  /** A grant keeps its terms, and a revoked one stays revoked. */
  predicate GrantEdge(before: Grant, after: Grant) {
    after == before || after == before.(revoked := true)
  }

  predicate GrantEdges(before: map<Id, Grant>, after: map<Id, Grant>) {
    forall id :: id in before ==> id in after && GrantEdge(before[id], after[id])
  }

  lemma SameGrants(l: Ledger, t: Ledger)
    requires t.grants == l.grants
    ensures GrantEdges(l.grants, t.grants)
  {
  }

  lemma IssueKeepsGrants(l: Ledger, now: int, id: Id, r: Request, approval: Option<Approval>, task: Option<Task>,
                         agentKnown: bool, env: Env)
    ensures GrantEdges(l.grants, Issue(l, now, id, r, approval, task, agentKnown, env).ledger.grants)
  {
    IssueOutcomes(l, now, id, r, approval, task, agentKnown, env);
    SameGrants(l, Issue(l, now, id, r, approval, task, agentKnown, env).ledger);
  }

  lemma RevokeLeaseTakesGrants(l: Ledger, now: int, id: Id)
    ensures GrantEdges(l.grants, RevokeLease(l, now, id).ledger.grants)
  {
  }

  lemma RevokeGrantTakesEdge(l: Ledger, id: Id)
    ensures GrantEdges(l.grants, RevokeGrant(l, id).ledger.grants)
  {
  }

  lemma GrantIsNew(l: Ledger, now: int, id: Id, leaseId: Id, internal: bool, audience: string, scope: seq<string>,
                   seconds: nat)
    requires id !in l.grants
    ensures GrantEdges(l.grants, IssueGrant(l, now, id, leaseId, internal, audience, scope, seconds).ledger.grants)
  {
  }

  lemma OthersLeaveGrants(l: Ledger, c: Command, env: Env)
    requires c.CAttest? || c.CEvaluate? || c.CAuthorize? || c.CConsume?
    ensures Apply(l, c, env).ledger.grants == l.grants
  {
  }

  lemma OthersKeepGrants(l: Ledger, c: Command, env: Env)
    requires c.CAttest? || c.CEvaluate? || c.CAuthorize? || c.CConsume?
    ensures GrantEdges(l.grants, Apply(l, c, env).ledger.grants)
  {
    OthersLeaveGrants(l, c, env);
    SameGrants(l, Apply(l, c, env).ledger);
  }

  lemma GrantsTakeEdges(l: Ledger, c: Command, env: Env)
    requires Admissible(l, c)
    ensures GrantEdges(l.grants, Apply(l, c, env).ledger.grants)
  {
    match c
    case CIssue(now, id, r, approval, task, known) => IssueKeepsGrants(l, now, id, r, approval, task, known, env);
    case CRevoke(now, id) => RevokeLeaseTakesGrants(l, now, id);
    case CGrant(now, id, leaseId, internal, audience, scope, seconds) =>
      GrantIsNew(l, now, id, leaseId, internal, audience, scope, seconds);
    case CRevokeGrant(id) => RevokeGrantTakesEdge(l, id);
    case _ => OthersKeepGrants(l, c, env);
  }

  lemma GrantEdgesCompose(a: map<Id, Grant>, b: map<Id, Grant>, c: map<Id, Grant>)
    requires GrantEdges(a, b) && GrantEdges(b, c)
    ensures GrantEdges(a, c)
  {
  }

  lemma {:induction false} RunKeepsGrants(l: Ledger, history: seq<Command>, env: Env)
    requires AdmissibleRun(l, history, env)
    ensures GrantEdges(l.grants, Replay(l, history, env).grants)
  {
    if history == [] {
      SameGrants(l, Replay(l, history, env));
    } else {
      var earlier := history[..|history| - 1];
      ShorterRun(l, history, |history| - 1, env);
      RunKeepsGrants(l, earlier, env);
      GrantsTakeEdges(Replay(l, earlier, env), history[|history| - 1], env);
      GrantEdgesCompose(l.grants, Replay(l, earlier, env).grants, Replay(l, history, env).grants);
    }
  }

  /** A revoked grant is revoked for good: whatever follows, its token never introspects as active again. */
  lemma RevokedGrantIsDead(l: Ledger, history: seq<Command>, env: Env, id: Id, now: int, audience: string,
                           required: seq<string>)
    requires AdmissibleRun(l, history, env) && id in l.grants && l.grants[id].revoked
    ensures var t := Replay(l, history, env);
            id in t.grants && t.grants[id].revoked && !Introspects(t, now, id, audience, required)
  {
    RunKeepsGrants(l, history, env);
    assert GrantEdge(l.grants[id], Replay(l, history, env).grants[id]);
  }

  // ----- reviewers -----

  /** Every lease had its reviewers: enough of them, and not its creator unless self-approval was permitted. */
  lemma EveryLeaseWasAttested(history: seq<Command>, env: Env, id: Id)
    requires AdmissibleRun(EMPTY, history, env) && id in Replay(EMPTY, history, env).leases
    ensures var l := Replay(EMPTY, history, env);
            id in l.origins && Attested(l.leases[id], l.origins[id])
  {
    RunKeeps(history, env);
    var l := Replay(EMPTY, history, env);
    assert LeaseOk(id, l.leases[id], l.origins[id], l.charges, l.clock, env, MeaningOf(env));
  }

  predicate NoNewLeaseFor(l: Ledger, t: Ledger, approvalId: Id, payloadHash: Digest) {
    forall id :: id in t.leases && id !in l.leases ==> !IssuedOn(t.leases[id].terms, approvalId, payloadHash)
  }

  predicate IssuedOn(terms: Terms, approvalId: Id, payloadHash: Digest) {
    terms.approvalId == approvalId && terms.payloadHash == payloadHash
  }

  lemma AttestKeepsDenial(l: Ledger, approval: Option<Approval>, user: Name, opinion: Opinion, approvalId: Id,
                          payloadHash: Digest)
    requires Denied(l, approvalId, payloadHash)
    ensures Denied(Attest(l, approval, user, opinion).ledger, approvalId, payloadHash)
  {
  }

  lemma DenialStays(l: Ledger, c: Command, env: Env, approvalId: Id, payloadHash: Digest)
    requires Denied(l, approvalId, payloadHash) && Admissible(l, c)
    ensures Denied(Apply(l, c, env).ledger, approvalId, payloadHash)
    ensures NoNewLeaseFor(l, Apply(l, c, env).ledger, approvalId, payloadHash)
  {
    match c
    case CAttest(approval, user, opinion) =>
      AttestKeepsBooks(l, approval, user, opinion);
      AttestKeepsDenial(l, approval, user, opinion, approvalId, payloadHash);
    case CIssue(now, id, r, approval, task, known) => IssueKeepsBooks(l, now, id, r, approval, task, known, env);
    case _ => OthersKeepBooks(l, c, env);
  }

  lemma NoNewLeaseComposes(l: Ledger, t: Ledger, u: Ledger, approvalId: Id, payloadHash: Digest)
    requires NoNewLeaseFor(l, t, approvalId, payloadHash) && NoNewLeaseFor(t, u, approvalId, payloadHash)
    requires LeaseEdges(t.leases, u.leases)
    ensures NoNewLeaseFor(l, u, approvalId, payloadHash)
  {
  }

  /** One reviewer's denial of an exact payload is final: no lease is issued on it in any continuation. */
  lemma {:induction false} DenialIsFinal(l: Ledger, history: seq<Command>, env: Env, approvalId: Id,
                                         payloadHash: Digest)
    requires Denied(l, approvalId, payloadHash) && AdmissibleRun(l, history, env)
    ensures Denied(Replay(l, history, env), approvalId, payloadHash)
    ensures NoNewLeaseFor(l, Replay(l, history, env), approvalId, payloadHash)
  {
    if history != [] {
      var earlier := history[..|history| - 1];
      ShorterRun(l, history, |history| - 1, env);
      DenialIsFinal(l, earlier, env, approvalId, payloadHash);
      DenialStays(Replay(l, earlier, env), history[|history| - 1], env, approvalId, payloadHash);
      ApplyTakesEdges(Replay(l, earlier, env), history[|history| - 1], env);
      NoNewLeaseComposes(l, Replay(l, earlier, env), Replay(l, history, env), approvalId, payloadHash);
    }
  }
}
