/**
 What every command of the trust control plane does to the store, and when it is
 refused, said of the records before and after it.
 */
module TrustEffects {
  import opened Options
  import opened Text
  import opened TrustScope
  import opened TrustPolicy
  import opened TrustLedger
  import opened TrustInvariants
  import opened TrustStore

  // ----- attestations -----

  /** A reviewer who is not the creator has one opinion on the exact payload, and it never changes. */
  lemma AttestEffect(l: Ledger, approval: Option<Approval>, user: Name, opinion: Opinion)
    ensures var next := Attest(l, approval, user, opinion);
            if approval.None? then next == Next(l, NotFound)
            else if approval.value.payloadHash.None? || approval.value.payloadHash.value == ""
                    || approval.value.creator == Some(user) then next == Next(l, Conflict)
            else
              var ballot := Ballot(approval.value.id, approval.value.payloadHash.value, user);
              && next.ledger == l.(attestations := next.ledger.attestations)
              && ballot in next.ledger.attestations
              && (ballot in l.attestations ==> next.ledger == l)
              && (ballot !in l.attestations ==> next.ledger.attestations == l.attestations[ballot := opinion])
              && next.reply == if next.ledger.attestations[ballot] == opinion then Done else Conflict
  {
  }

  // ----- leases -----

  /** What time does to a lease. */
  predicate Aged(before: Lease, after: Lease, now: int) {
    if before.status.Active? && before.terms.expiresAt <= now then
      after == before.(status := Expired)
    else after == before
  }

  lemma RefreshEffect(l: Ledger, id: Id, now: int)
    ensures var t := Refresh(l, id, now);
            && t == l.(leases := t.leases, clock := now)
            && if id in l.leases then id in t.leases && Aged(l.leases[id], t.leases[id], now)
                                      && t.leases == l.leases[id := t.leases[id]]
               else t.leases == l.leases
  {
  }

  /** The prefix is an approved file, up to slashes, backslashes and surrounding space. */
  predicate IsFile(prefix: string, files: seq<string>) {
    exists k :: 0 <= k < |files|
                && TrimEnd(Replace(Strip(prefix), '\\', '/'), '/') == Replace(Strip(files[k]), '\\', '/')
  }

  /** The command is one of the approved tests. */
  predicate IsTest(command: string, plan: seq<string>) {
    exists k :: 0 <= k < |plan| && Strip(plan[k]) != "" && Strip(plan[k]) == Strip(command)
  }

  predicate Contained(s: Scope, approval: Approval, task: Task) {
    && task.repository == Some(s.repository) && task.branch == Some(s.branch)
    && approval.targetBranch == Some(s.branch) && !s.allowAutoMerge
    && (forall i :: 0 <= i < |s.pathPrefixes| ==> IsFile(s.pathPrefixes[i], approval.files))
    && (forall i :: 0 <= i < |s.commands| ==> IsTest(s.commands[i], approval.testPlan))
  }

  lemma IsFileIff(prefix: string, files: seq<string>)
    ensures PrefixApproved(prefix, files) <==> IsFile(prefix, files)
  {
  }

  lemma IsTestIff(command: string, plan: seq<string>)
    ensures CommandApproved(command, plan) <==> IsTest(command, plan)
  {
  }

  lemma ContainedIff(s: Scope, approval: Approval, task: Task)
    ensures ScopeWithin(s, approval, task) <==> Contained(s, approval, task)
  {
    forall prefix: string ensures PrefixApproved(prefix, approval.files) <==> IsFile(prefix, approval.files) {
      IsFileIff(prefix, approval.files);
    }
    forall command: string
      ensures CommandApproved(command, approval.testPlan) <==> IsTest(command, approval.testPlan)
    {
      IsTestIff(command, approval.testPlan);
    }
  }

  /** The name stands behind the exact payload: as the approver, or by an approving ballot. */
  predicate Stands(l: Ledger, approval: Approval, name: Name) {
    || (approval.approver == Some(name) && name != "")
    || exists b :: b in l.attestations && b.reviewer == name && b.approvalId == approval.id
                   && Some(b.payloadHash) == approval.payloadHash && l.attestations[b].approve
  }

  lemma ReviewersAre(l: Ledger, approval: Approval, name: Name)
    ensures name in Reviewers(l, approval) <==> Stands(l, approval, name)
  {
    if b :| b in l.attestations && b.reviewer == name && b.approvalId == approval.id
            && Some(b.payloadHash) == approval.payloadHash && l.attestations[b].approve {
      assert Backs(b, l.attestations[b], approval);
    }
  }

  /** No reviewer has denied the payload, enough stand behind it, and its creator only where that is waived. */
  predicate Attests(l: Ledger, r: Request, approval: Approval) {
    && (forall b :: b in l.attestations ==>
          b.approvalId != approval.id || Some(b.payloadHash) != approval.payloadHash || l.attestations[b].approve)
    && r.requiredReviewers <= |Reviewers(l, approval)|
    && (r.preventSelfApproval && approval.creator.Some? ==> !Stands(l, approval, approval.creator.value))
  }

  lemma AttestsIff(l: Ledger, r: Request, approval: Approval)
    requires approval.approved && Given(approval.payloadHash)
    ensures Quorum(l, r, approval) <==> Attests(l, r, approval)
  {
    if approval.creator.Some? { ReviewersAre(l, approval, approval.creator.value); }
  }

  /** A lease on the terms of the request, signed, in force and unspent. */
  predicate IssuedFor(lease: Lease, id: Id, r: Request, approval: Approval, now: int, env: Env) {
    && lease.terms.id == id && lease.terms.approvalId == r.approvalId
    && Some(lease.terms.payloadHash) == approval.payloadHash
    && lease.terms.agent == r.agent && lease.terms.provider == r.provider && lease.terms.mode == r.mode
    && lease.terms.scope == r.scope.(fingerprint := env.fingerprint(r))
    && lease.terms.issuedAt == now && lease.terms.expiresAt == now + r.lifetime * 1_000_000
    && lease.signature == env.sign(lease.terms) && lease.status.Active?
    && lease.spent.runtime == 0 && lease.spent.cost == 0.0 && lease.spent.pullRequests == 0 && lease.spent.retries == 0
  }

  predicate LiveOn(l: Ledger, id: Id, r: Request, now: int) {
    && id in l.leases && l.leases[id].terms.approvalId == r.approvalId && l.leases[id].terms.agent == r.agent
    && l.leases[id].status.Active? && now < l.leases[id].terms.expiresAt
  }

  lemma AddedLeaseIs(l: Ledger, id: Id, r: Request, approval: Approval, task: Task, now: int, env: Env)
    requires approval.payloadHash.Some?
    ensures var t := AddLease(l, id, r, approval, task, now, env);
            && id in t.leases && IssuedFor(t.leases[id], id, r, approval, now, env)
            && t == l.(leases := l.leases[id := t.leases[id]], clock := now, origins := t.origins)
  {
  }

  /** Every refusal in its place; then the lease in force for the same request, or a new one. */
  lemma IssueEffect(l: Ledger, now: int, id: Id, r: Request, approval: Option<Approval>, task: Option<Task>,
                    agentKnown: bool, env: Env)
    ensures var next := Issue(l, now, id, r, approval, task, agentKnown, env);
            if approval.None? then next == Next(l, NotFound)
            else if !approval.value.approved || approval.value.payloadHash.None?
                    || approval.value.payloadHash.value == "" then next == Next(l, Conflict)
            else if r.agent.Some? && r.agent.value != "" && !agentKnown then next == Next(l, NotFound)
            else if task.None? || !Contained(r.scope, approval.value, task.value)
                    || !Attests(l, r, approval.value) then next == Next(l, Conflict)
            else if exists other :: LiveOn(l, other, r, now) then
              next.ledger == l.(clock := now) && (next.reply.Done? || next.reply.Conflict?)
            else
              && next.reply.Done? && id in next.ledger.leases
              && IssuedFor(next.ledger.leases[id], id, r, approval.value, now, env)
              && next.ledger == l.(leases := l.leases[id := next.ledger.leases[id]], clock := now,
                                   origins := next.ledger.origins)
  {
    if approval.Some? && approval.value.approved && Given(approval.value.payloadHash) && task.Some? {
      ContainedIff(r.scope, approval.value, task.value);
      AttestsIff(l, r, approval.value);
      LiveAgrees(l, r, now);
      AddedLeaseIs(l, id, r, approval.value, task.value, now, env);
    }
  }

  lemma LiveAgrees(l: Ledger, r: Request, now: int)
    ensures (exists other :: LiveOn(l, other, r, now)) <==>
            exists other :: LiveFor(l, other, r.approvalId, r.agent, now)
  {
    if other :| LiveOn(l, other, r, now) { assert LiveFor(l, other, r.approvalId, r.agent, now); }
    if other :| LiveFor(l, other, r.approvalId, r.agent, now) { assert LiveOn(l, other, r, now); }
  }

  /** The lease in force is handed out again to the very same request, and stands in the way of any other. */
  lemma ReuseEffect(l: Ledger, now: int, id: Id, r: Request, approval: Approval, task: Task, env: Env, found: Id)
    requires OneLive(l) && l.clock <= now && approval.payloadHash.Some? && LiveOn(l, found, r, now)
    ensures Reuse(l, now, id, r, approval, task, env)
         == Next(l.(clock := now),
                 if l.leases[found].terms.scope.fingerprint == env.fingerprint(r) then Done else Conflict)
  {
    ReuseFound(l, found, now, id, r, approval, task, env);
  }

  /** Revoked with its lease, or as it was. */
  predicate RevokedWith(before: Grant, after: Grant, leaseId: Id) {
    after == if before.leaseId == leaseId then before.(revoked := true) else before
  }

  predicate AllRevokedWith(before: map<Id, Grant>, after: map<Id, Grant>, leaseId: Id) {
    after.Keys == before.Keys && forall g :: g in before ==> RevokedWith(before[g], after[g], leaseId)
  }

  /** A live lease is REVOKED and takes every grant under it along; one whose time is over only expires. */
  lemma RevokeEffect(l: Ledger, now: int, id: Id)
    ensures var next := RevokeLease(l, now, id);
            var t := next.ledger;
            if id !in l.leases then next == Next(l, NotFound)
            else
              && next.reply.Done? && id in t.leases
              && t == l.(leases := l.leases[id := t.leases[id]], grants := t.grants, clock := now)
              && if l.leases[id].status.Active? && now < l.leases[id].terms.expiresAt then
                   t.leases[id] == l.leases[id].(status := Revoked) && AllRevokedWith(l.grants, t.grants, id)
                 else Aged(l.leases[id], t.leases[id], now) && t.grants == l.grants
  {
  }

  // ----- actions -----

  /** The lease an evaluation looks at: as time has left it, if the action names one that exists. */
  predicate LooksAt(l: Ledger, t: Ledger, a: Action, now: int, lease: Option<Lease>) {
    if a.leaseId.Some? && a.leaseId.value in l.leases then
      && lease.Some? && Aged(l.leases[a.leaseId.value], lease.value, now)
      && t.leases == l.leases[a.leaseId.value := lease.value]
    else lease.None? && t.leases == l.leases
  }

  lemma RefreshForEffect(l: Ledger, a: Action, now: int)
    ensures var r := RefreshFor(l, a, now);
            LooksAt(l, r, a, now, LeaseOf(r, a)) && r == l.(leases := r.leases, clock := now)
  {
    if a.leaseId.Some? { RefreshEffect(l, a.leaseId.value, now); }
  }

  /** The evaluated action is stored, and the verdict on it is the last of the log and not a human's. */
  lemma EvaluateEffect(l: Ledger, now: int, a: Action, env: Env) returns (lease: Option<Lease>)
    ensures var t := EvaluateAction(l, now, a, env);
            && LooksAt(l, t, a, now, lease) && t.actions == l.actions[a.id := a]
            && t.decisions == l.decisions + [Decision(a.id, Evaluate(a, lease, now, env), false)]
            && t == l.(actions := t.actions, decisions := t.decisions, leases := t.leases, clock := now)
  {
    RefreshForEffect(l, a, now);
    lease := LeaseOf(RefreshFor(l, a, now), a);
  }

  lemma {:induction false} LatestIs(decisions: seq<Decision>, i: nat, id: Id)
    requires i < |decisions| && decisions[i].actionId == id
    requires forall j :: i < j < |decisions| ==> decisions[j].actionId != id
    ensures Latest(decisions, id) == Some(decisions[i])
  {
    if i < |decisions| - 1 { LatestIs(decisions[..|decisions| - 1], i, id); }
  }

  /** The latest decision on the action, the recorded human one, and what a reviewer may still say. */
  lemma AuthorizeEffect(l: Ledger, id: Id, reviewer: bool, allow: bool, reason: string)
    ensures var next, latest := Authorize(l, id, reviewer, allow, reason), Latest(l.decisions, id);
            if !reviewer then next == Next(l, Conflict)
            else if id !in l.actions then next == Next(l, NotFound)
            else if latest.None? || latest.value.verdict.Block? then next == Next(l, Conflict)
            else if id in l.authorizations then
              && next.ledger == l
              && next.reply == if l.authorizations[id].payload == l.actions[id]
                                  && (latest.value.verdict.RequireApproval? ==>
                                        l.authorizations[id].allow == allow && l.authorizations[id].reason == reason)
                               then Done else Conflict
            else if latest.value.verdict.Allow? then next == Next(l, Conflict)
            else
              && next.reply.Done?
              && next.ledger == l.(decisions := next.ledger.decisions, authorizations := next.ledger.authorizations)
              && next.ledger.authorizations == l.authorizations[id := Authorization(l.actions[id], allow, reason)]
              && |next.ledger.decisions| == |l.decisions| + 1 && l.decisions <= next.ledger.decisions
              && var d := next.ledger.decisions[|l.decisions|];
              d.actionId == id && d.human && if allow then d.verdict.Allow? else d.verdict.Block?
  {
  }

  // ----- consumption -----

  /** Within the budgets, all four. */
  predicate Fits(lease: Lease, c: Consumption) {
    var scope, spent := lease.terms.scope, lease.spent;
    && spent.runtime + c.runtime <= scope.maxRuntime && spent.cost + c.cost <= scope.maxCost
    && spent.pullRequests + c.pullRequests <= scope.maxPullRequests
    && spent.retries + (if c.retry then 1 else 0) <= scope.maxRetries
  }

  lemma FitsIff(lease: Lease, c: Consumption)
    ensures WithinBudget(Plus(lease.spent, CostOf(c)), lease.terms.scope) <==> Fits(lease, c)
  {
  }

  /** The charge on the lease of the action, or none. */
  predicate ChargeEffect(l: Ledger, now: int, id: Id, c: Consumption, next: Next)
    requires id in l.actions && l.actions[id].leaseId.Some? && l.actions[id].leaseId.value in l.leases
  {
    var leaseId, t := l.actions[id].leaseId.value, next.ledger;
    var before := l.leases[leaseId];
    var spent := before.spent;
    && leaseId in t.leases && t.leases == l.leases[leaseId := t.leases[leaseId]]
    && t == l.(leases := t.leases, clock := now, consumptions := t.consumptions, charges := t.charges)
    && (next.reply.Done? <==>
        before.status.Active? && now < before.terms.expiresAt && Fits(before, c))
    && (if next.reply.Done? then
          && t.leases[leaseId]
             == before.(spent := Spent(spent.runtime + c.runtime, spent.cost + c.cost,
                                       spent.pullRequests + c.pullRequests,
                                       spent.retries + (if c.retry then 1 else 0)))
          && t.consumptions == l.consumptions[l.actions[id].id := c]
          && t.charges == l.charges + [Charge(l.actions[id], leaseId, c)]
        else
          && next.reply.Conflict? && Aged(before, t.leases[leaseId], now)
          && t.consumptions == l.consumptions && t.charges == l.charges)
  }

  lemma ChargeIs(l: Ledger, now: int, id: Id, c: Consumption)
    requires id in l.actions && l.actions[id].leaseId.Some? && l.actions[id].leaseId.value in l.leases
    ensures var leaseId := l.actions[id].leaseId.value;
            var r := Refresh(l, leaseId, now);
            var fits := r.leases[leaseId].status.Active? && Fits(r.leases[leaseId], c);
            ChargeEffect(l, now, id, c, if fits then Next(ChargeLease(r, l.actions[id], leaseId, c), Done)
                                        else Next(r, Conflict))
  {
  }

  /** Which consumptions are refused before any budget is looked at, and what a repetition is told. */
  lemma ConsumeEffect(l: Ledger, now: int, id: Id, c: Consumption)
    ensures var next, latest := Consume(l, now, id, c), Latest(l.decisions, id);
            if id !in l.actions then next == Next(l, NotFound)
            else if latest.None? || !latest.value.verdict.Allow? then next == Next(l, Conflict)
            else if latest.value.human
                    && !(id in l.authorizations && l.authorizations[id].allow
                         && l.authorizations[id].payload == l.actions[id]) then next == Next(l, Conflict)
            else if id in l.consumptions then next == Next(l, if l.consumptions[id] == c then Done else Conflict)
            else if l.actions[id].leaseId.None? || l.actions[id].leaseId.value !in l.leases then
              next == Next(l, Conflict)
            else ChargeEffect(l, now, id, c, next)
  {
    if id in l.actions && l.actions[id].leaseId.Some? && l.actions[id].leaseId.value in l.leases {
      var leaseId := l.actions[id].leaseId.value;
      ChargeIs(l, now, id, c);
      FitsIff(Refresh(l, leaseId, now).leases[leaseId], c);
    }
  }

  // ----- credentials -----

  /** An internal grant on a live lease, for no longer than the lease has left. */
  lemma GrantEffect(l: Ledger, now: int, id: Id, leaseId: Id, internal: bool, audience: string, scope: seq<string>,
                    seconds: nat)
    ensures var next := IssueGrant(l, now, id, leaseId, internal, audience, scope, seconds);
            var t := next.ledger;
            if leaseId !in l.leases then next == Next(l, NotFound)
            else
              && (next.reply.Done? <==>
                  && l.leases[leaseId].status.Active? && now < l.leases[leaseId].terms.expiresAt && internal
                  && now + seconds * 1_000_000 <= l.leases[leaseId].terms.expiresAt)
              && (next.reply.Done? || next.reply.Conflict?)
              && leaseId in t.leases && Aged(l.leases[leaseId], t.leases[leaseId], now)
              && t == l.(leases := l.leases[leaseId := t.leases[leaseId]], grants := t.grants, clock := now)
              && t.grants == if next.reply.Done?
                             then l.grants[id := Grant(leaseId, audience, scope, now + seconds * 1_000_000, false)]
                             else l.grants
  {
  }

  lemma RevokeGrantEffect(l: Ledger, id: Id)
    ensures var next := RevokeGrant(l, id);
            if id !in l.grants then next == Next(l, NotFound)
            else
              && next.reply.Done? && id in next.ledger.grants
              && next.ledger == l.(grants := l.grants[id := next.ledger.grants[id]])
              && next.ledger.grants[id].revoked && next.ledger.grants[id] == l.grants[id].(revoked := true)
  {
  }

  /** `s` is among the scopes of the grant. */
  predicate HasScope(g: Grant, s: string) { exists i :: 0 <= i < |g.scope| && g.scope[i] == s }

  /**
   A token is good exactly for the audience and the scopes it was granted for, for as
   many seconds, while it is not revoked and its lease is live.
   */
  lemma GrantIsGoodIff(l: Ledger, now: int, id: Id, leaseId: Id, audience: string, scope: seq<string>, seconds: nat,
                       t: Ledger, later: int, target: string, required: seq<string>)
    requires IssueGrant(l, now, id, leaseId, true, audience, scope, seconds).reply.Done?
    requires id in t.grants && leaseId in t.leases
    requires var given := IssueGrant(l, now, id, leaseId, true, audience, scope, seconds).ledger.grants[id];
             t.grants[id] == given.(revoked := t.grants[id].revoked)
    ensures Introspects(t, later, id, target, required) <==>
            && target == audience && later < now + seconds * 1_000_000 && !t.grants[id].revoked
            && t.leases[leaseId].status.Active? && later < t.leases[leaseId].terms.expiresAt
            && forall i :: 0 <= i < |required| ==> HasScope(t.grants[id], required[i])
    ensures t.grants[id].scope == scope
  {
    var g := t.grants[id];
    forall s ensures s in g.scope <==> HasScope(g, s) {
    }
  }
}
