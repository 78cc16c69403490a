/**
 The trust store as its services update it in place. Every method leaves exactly
 the ledger that the corresponding function of TrustLedger describes, so the
 theorems of TrustTheorems hold of every sequence of these calls.
 */
module TrustStore {
  import opened Options
  import opened TrustPolicy
  import opened TrustLedger
  import opened TrustInvariants

  class Store {
    const env: Env
    var attestations: map<Ballot, Opinion>
    var leases: map<Id, Lease>
    var actions: map<Id, Action>
    var decisions: seq<Decision>
    var authorizations: map<Id, Authorization>
    var consumptions: map<Id, Consumption>
    var grants: map<Id, Grant>
    ghost var clock: int
    ghost var origins: map<Id, Origin>
    ghost var charges: seq<Charge>

    ghost function State(): Ledger
      reads this
    {
      Ledger(clock, attestations, leases, origins, actions, decisions, authorizations, consumptions, charges, grants)
    }

    constructor (env: Env)
      ensures State() == EMPTY && this.env == env
    {
      this.env := env;
      attestations, leases, actions, decisions := map[], map[], map[], [];
      authorizations, consumptions, grants := map[], map[], map[];
      clock, origins, charges := 0, map[], [];
    }

    method RefreshLease(id: Id, now: int)
      requires id in leases
      modifies this`leases, this`clock
      ensures State() == Refresh(old(State()), id, now)
    {
      var lease := leases[id];
      if lease.status.Active? && lease.terms.expiresAt <= now {
        lease := lease.(status := Expired);
      }
      leases, clock := leases[id := lease], now;
    }

    /** The latest decision on an action: the last of the log that names it. */
    method LatestDecision(id: Id) returns (latest: Option<Decision>)
      ensures latest == Latest(decisions, id)
    {
      latest := None;
      var i := 0;
      while i < |decisions|
        invariant 0 <= i <= |decisions| && latest == Latest(decisions[..i], id)
      {
        assert decisions[..i + 1] == decisions[..i] + [decisions[i]];
        LatestAppended(decisions[..i], decisions[i], id);
        if decisions[i].actionId == id { latest := Some(decisions[i]); }
        i := i + 1;
      }
      assert decisions[..i] == decisions;
    }

    method RecordAttestation(approval: Option<Approval>, user: Name, opinion: Opinion) returns (reply: Reply)
      modifies this`attestations
      ensures Next(State(), reply) == Attest(old(State()), approval, user, opinion)
    {
      if approval.None? { return NotFound; }
      var payloadHash := approval.value.payloadHash;
      if !Given(payloadHash) || approval.value.creator == Some(user) { return Conflict; }
      var ballot := Ballot(approval.value.id, payloadHash.value, user);
      if ballot in attestations { return if attestations[ballot] == opinion then Done else Conflict; }
      attestations := attestations[ballot := opinion];
      reply := Done;
    }

    /** Revoking a lease revokes every grant made under it. */
    method RevokeGrantsOf(leaseId: Id)
      modifies this`grants
      ensures grants == RevokeGrants(old(grants), leaseId)
    {
      var todo: set<Id> := grants.Keys;
      while todo != {}
        invariant todo <= old(grants).Keys == grants.Keys
        invariant forall g :: g in grants ==>
                    grants[g] == if g in todo then old(grants)[g] else AfterRevocation(old(grants)[g], leaseId)
        decreases |todo|
      {
        SomeMember(todo);
        var g: Id :| g in todo;
        if grants[g].leaseId == leaseId { grants := grants[g := grants[g].(revoked := true)]; }
        todo := todo - {g};
      }
      SameMap(grants, RevokeGrants(old(grants), leaseId));
    }

    method RevokeCapabilityLease(now: int, id: Id) returns (reply: Reply)
      modifies this
      ensures Next(State(), reply) == RevokeLease(old(State()), now, id)
    {
      if id !in leases { return NotFound; }
      RefreshLease(id, now);
      if !leases[id].status.Active? { return Done; }
      leases := leases[id := leases[id].(status := Revoked)];
      RevokeGrantsOf(id);
      reply := Done;
    }

    method EvaluateGatewayAction(now: int, a: Action) returns (verdict: Verdict)
      modifies this
      ensures State() == EvaluateAction(old(State()), now, a, env)
      ensures Latest(decisions, a.id) == Some(Decision(a.id, verdict, false))
    {
      var lease: Option<Lease> := None;
      if a.leaseId.Some? && a.leaseId.value in leases {
        RefreshLease(a.leaseId.value, now);
        lease := Some(leases[a.leaseId.value]);
      }
      clock := now;
      ghost var r := State();
      assert r == RefreshFor(old(State()), a, now) && lease == LeaseOf(r, a);
      actions := actions[a.id := a];
      var reasons;
      verdict, reasons := EvaluateProposedAction(a, lease, now, env);
      LatestAppended(decisions, Decision(a.id, verdict, false), a.id);
      decisions := decisions + [Decision(a.id, verdict, false)];
    }

    method RecordActionAuthorization(id: Id, reviewer: bool, allow: bool, reason: string) returns (reply: Reply)
      modifies this`authorizations, this`decisions
      ensures Next(State(), reply) == Authorize(old(State()), id, reviewer, allow, reason)
    {
      if !reviewer { return Conflict; }
      if id !in actions { return NotFound; }
      var current := LatestDecision(id);
      if current.None? || current.value.verdict.Block? { return Conflict; }
      if id in authorizations {
        var existing := authorizations[id];
        if !current.value.verdict.Allow? && (existing.allow != allow || existing.reason != reason) {
          return Conflict;
        }
        return if existing.payload == actions[id] then Done else Conflict;
      }
      if current.value.verdict.Allow? { return Conflict; }
      authorizations := authorizations[id := Authorization(actions[id], allow, reason)];
      decisions := decisions + [Decision(id, if allow then Allow else Block, true)];
      reply := Done;
    }

    method ConsumeEffectiveAction(now: int, id: Id, c: Consumption) returns (reply: Reply)
      requires id in actions ==> actions[id].id == id
      modifies this
      ensures Next(State(), reply) == Consume(old(State()), now, id, c)
    {
      if id !in actions { return NotFound; }
      var a := actions[id];
      var current := LatestDecision(id);
      if current.None? || !current.value.verdict.Allow? { return Conflict; }
      if current.value.human
         && (id !in authorizations || !authorizations[id].allow || authorizations[id].payload != a) {
        return Conflict;
      }
      if id in consumptions { return if consumptions[id] == c then Done else Conflict; }
      if a.leaseId.None? || a.leaseId.value !in leases { return Conflict; }
      reply := ChargeTo(now, a, a.leaseId.value, c);
    }

    /** The four budgets, checked before anything is recorded. */
    method ChargeTo(now: int, a: Action, leaseId: Id, c: Consumption) returns (reply: Reply)
      requires leaseId in leases
      modifies this
      ensures var r := Refresh(old(State()), leaseId, now);
              var fits := r.leases[leaseId].status.Active?
                          && WithinBudget(Plus(r.leases[leaseId].spent, CostOf(c)), r.leases[leaseId].terms.scope);
              Next(State(), reply) == if fits then Next(ChargeLease(r, a, leaseId, c), Done) else Next(r, Conflict)
    {
      RefreshLease(leaseId, now);
      var lease := leases[leaseId];
      if !lease.status.Active? { return Conflict; }
      var scope, spent := lease.terms.scope, lease.spent;
      var runtime, cost := spent.runtime + c.runtime, spent.cost + c.cost;
      var pullRequests, retries := spent.pullRequests + c.pullRequests, spent.retries + if c.retry then 1 else 0;
      if runtime > scope.maxRuntime { return Conflict; }
      if cost > scope.maxCost { return Conflict; }
      if pullRequests > scope.maxPullRequests { return Conflict; }
      if retries > scope.maxRetries { return Conflict; }
      leases := leases[leaseId := lease.(spent := Spent(runtime, cost, pullRequests, retries))];
      consumptions := consumptions[a.id := c];
      charges := charges + [Charge(a, leaseId, c)];
      reply := Done;
    }

    method IssueCredentialGrant(now: int, id: Id, leaseId: Id, internal: bool, audience: string, scope: seq<string>,
                                seconds: nat) returns (reply: Reply)
      modifies this
      ensures Next(State(), reply) == IssueGrant(old(State()), now, id, leaseId, internal, audience, scope, seconds)
    {
      if leaseId !in leases { return NotFound; }
      RefreshLease(leaseId, now);
      if !leases[leaseId].status.Active? || !internal { return Conflict; }
      var remaining := (leases[leaseId].terms.expiresAt - now) / MICROS;
      if seconds > remaining { return Conflict; }
      grants := grants[id := Grant(leaseId, audience, scope, now + seconds * MICROS, false)];
      reply := Done;
    }

    method RevokeCredentialGrant(id: Id) returns (reply: Reply)
      modifies this`grants
      ensures Next(State(), reply) == RevokeGrant(old(State()), id)
    {
      if id !in grants { return NotFound; }
      if !grants[id].revoked { grants := grants[id := grants[id].(revoked := true)]; }
      reply := Done;
    }

    /** Whether the token of a grant is good for an audience and a list of scopes. */
    method IntrospectCredential(now: int, id: Id, audience: string, required: seq<string>) returns (active: bool)
      ensures active <==> Introspects(State(), now, id, audience, required)
    {
      if id !in grants { return false; }
      var g := grants[id];
      if g.revoked || g.expiresAt <= now { return false; }
      if g.leaseId !in leases { return false; }
      var lease := leases[g.leaseId];
      if !lease.status.Active? || lease.terms.expiresAt <= now { return false; }
      if g.audience != audience { return false; }
      var i := 0;
      while i < |required|
        invariant 0 <= i <= |required| && forall j :: 0 <= j < i ==> required[j] in g.scope
      {
        if required[i] !in g.scope { return false; }
        i := i + 1;
      }
      active := true;
    }

    /** The live lease of an approval and agent, if there is one. */
    method FindLive(approvalId: Id, agent: Option<Name>, now: int) returns (found: Option<Id>)
      ensures found.Some? ==> found.value in leases && Serves(leases[found.value], approvalId, agent, now)
      ensures found.None? ==> forall id :: id in leases ==> !Serves(leases[id], approvalId, agent, now)
    {
      var todo: set<Id> := leases.Keys;
      while todo != {}
        invariant todo <= leases.Keys
        invariant forall id :: id in leases && id !in todo ==> !Serves(leases[id], approvalId, agent, now)
        decreases |todo|
      {
        SomeMember(todo);
        var id: Id :| id in todo;
        var lease := leases[id];
        if lease.terms.approvalId == approvalId && lease.terms.agent == agent && lease.status.Active?
           && now < lease.terms.expiresAt {
          return Some(id);
        }
        todo := todo - {id};
      }
      found := None;
    }

    method IssueCapabilityLease(now: int, id: Id, r: Request, approval: Option<Approval>, task: Option<Task>,
                                agentKnown: bool) returns (reply: Reply)
      requires OneLive(State()) && clock <= now
      modifies this
      ensures Next(State(), reply) == Issue(old(State()), now, id, r, approval, task, agentKnown, env)
    {
      if approval.None? { return NotFound; }
      if !approval.value.approved || !Given(approval.value.payloadHash) { return Conflict; }
      if Given(r.agent) && !agentKnown { return NotFound; }
      if task.None? || !ScopeWithin(r.scope, approval.value, task.value) { return Conflict; }
      var attested := CheckQuorum(r, approval.value);
      if !attested { return Conflict; }
      reply := ReuseOrIssue(now, id, r, approval.value, task.value);
    }

    method CheckQuorum(r: Request, approval: Approval) returns (ok: bool)
      requires approval.approved && Given(approval.payloadHash)
      ensures ok <==> Quorum(State(), r, approval)
    {
      if exists b :: b in attestations && b.approvalId == approval.id && b.payloadHash == approval.payloadHash.value
                     && !attestations[b].approve {
        assert Denied(State(), approval.id, approval.payloadHash.value);
        return false;
      }
      assert !Denied(State(), approval.id, approval.payloadHash.value);
      var reviewers := ReviewersOf(approval);
      if r.preventSelfApproval && approval.creator.Some? && approval.creator.value in reviewers { return false; }
      ok := r.requiredReviewers <= |reviewers|;
    }

    /** A live lease for the same request is handed out again; for another request it stands in the way. */
    method ReuseOrIssue(now: int, id: Id, r: Request, approval: Approval, task: Task) returns (reply: Reply)
      requires approval.payloadHash.Some? && OneLive(State()) && clock <= now
      modifies this
      ensures Next(State(), reply) == Reuse(old(State()), now, id, r, approval, task, env)
    {
      ghost var l := State();
      var active := FindLive(r.approvalId, r.agent, now);
      clock := now;
      if active.Some? {
        ReuseFound(l, active.value, now, id, r, approval, task, env);
        return if leases[active.value].terms.scope.fingerprint == env.fingerprint(r) then Done else Conflict;
      }
      forall other ensures !LiveFor(l, other, r.approvalId, r.agent, now) {
        assert other in leases ==> !Serves(leases[other], r.approvalId, r.agent, now);
      }
      var terms := TermsOf(id, r, approval.payloadHash.value, now, env);
      origins := origins[id := Origin(approval, task, Reviewers(l, approval), r)];
      leases := leases[id := Lease(terms, env.sign(terms), Active, NOTHING)];
      reply := Done;
    }

    method ReviewersOf(approval: Approval) returns (reviewers: set<Name>)
      ensures reviewers == Reviewers(State(), approval)
    {
      reviewers := if Given(approval.approver) then {approval.approver.value} else {};
      ghost var approver := reviewers;
      var todo: set<Ballot> := attestations.Keys;
      while todo != {}
        invariant todo <= attestations.Keys && approver <= reviewers
        invariant forall b :: b in attestations && b !in todo && Backs(b, attestations[b], approval) ==>
                    b.reviewer in reviewers
        invariant forall n :: n in reviewers && n !in approver ==>
                    exists b :: b in attestations && Backs(b, attestations[b], approval) && b.reviewer == n
        decreases |todo|
      {
        SomeMember(todo);
        var b: Ballot :| b in todo;
        if b.approvalId == approval.id && Some(b.payloadHash) == approval.payloadHash && attestations[b].approve {
          reviewers := reviewers + {b.reviewer};
        }
        todo := todo - {b};
      }
      assert reviewers == Reviewers(State(), approval);
    }
  }

  /** At most one lease is live, so which one the search finds does not matter. */
  lemma ReuseFound(l: Ledger, found: Id, now: int, id: Id, r: Request, approval: Approval, task: Task, env: Env)
    requires OneLive(l) && l.clock <= now && approval.payloadHash.Some?
    requires found in l.leases && Serves(l.leases[found], r.approvalId, r.agent, now)
    ensures Reuse(l, now, id, r, approval, task, env)
         == Next(l.(clock := now),
                 if l.leases[found].terms.scope.fingerprint == env.fingerprint(r) then Done else Conflict)
  {
    assert LiveFor(l, found, r.approvalId, r.agent, now);
    forall other | LiveFor(l, other, r.approvalId, r.agent, now) ensures other == found {
      assert Live(l.leases[other], l.clock) && Live(l.leases[found], l.clock);
    }
  }

  lemma SomeMember<T>(s: set<T>)
    requires s != {}
    ensures exists x :: x in s
  {
  }

  lemma SameMap<K, V>(a: map<K, V>, b: map<K, V>)
    requires a.Keys == b.Keys && forall k :: k in a ==> a[k] == b[k]
    ensures a == b
  {
  }
}
