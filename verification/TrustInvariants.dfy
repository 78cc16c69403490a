/**
 What every run of the trust control plane keeps.
 */
module TrustInvariants {
  import opened Options
  import opened TrustPolicy
  import opened TrustLedger

  const NOTHING := Spent(0, 0.0, 0, 0)

  /** The sum of what was charged to a lease. */
  function Total(charges: seq<Charge>, leaseId: Id): Spent {
    if charges == [] then NOTHING
    else
      var earlier, last := Total(charges[..|charges| - 1], leaseId), charges[|charges| - 1];
      if last.leaseId == leaseId then Plus(earlier, CostOf(last.consumption)) else earlier
  }

  // ----- the invariant, record by record -----

  /**
   What an allowed action and an issued scope mean. A parameter of the invariant:
   only the lemmas about deciding and issuing look inside it.
   */
  datatype Meaning = Meaning(inside: (Action, Scope) -> bool, granted: (Scope, Approval, Task) -> bool)

  function MeaningOf(env: Env): Meaning {
    Meaning((a: Action, s: Scope) => Inside(a, s, env),
            (s: Scope, approval: Approval, task: Task) => Validated(s) && ScopeWithin(s, approval, task))
  }

  predicate LeaseOk(id: Id, lease: Lease, origin: Origin, charges: seq<Charge>, clock: int, env: Env, m: Meaning) {
    && lease.terms.id == id && lease.signature == env.sign(lease.terms)
    && lease.terms.approvalId == origin.approval.id && lease.terms.issuedAt <= clock
    && m.granted(lease.terms.scope, origin.approval, origin.task)
    && lease.spent == Total(charges, id) && WithinBudget(lease.spent, lease.terms.scope)
    && Attested(lease, origin)
  }

  /** Enough reviewers stood behind the lease, and its creator was not one of them unless that was waived. */
  predicate Attested(lease: Lease, origin: Origin) {
    && origin.approval.approved && Some(lease.terms.payloadHash) == origin.approval.payloadHash
    && origin.request.requiredReviewers <= |origin.reviewers|
    && (origin.request.preventSelfApproval && origin.approval.creator.Some? ==>
          origin.approval.creator.value !in origin.reviewers)
  }

  predicate LeasesOk(l: Ledger, env: Env, m: Meaning) {
    forall id :: id in l.leases ==>
      id in l.origins && LeaseOk(id, l.leases[id], l.origins[id], l.charges, l.clock, env, m)
  }

  predicate InsideLease(l: Ledger, a: Action, m: Meaning) {
    a.leaseId.Some? && a.leaseId.value in l.leases ==> m.inside(a, l.leases[a.leaseId.value].terms.scope)
  }

  /** The latest decision on an identifier is about the action that now bears it. */
  predicate ActionOk(l: Ledger, id: Id, m: Meaning)
    requires id in l.actions
  {
    var latest := Latest(l.decisions, id);
    && l.actions[id].id == id && latest.Some?
    && (!latest.value.verdict.Block? ==> InsideLease(l, l.actions[id], m))
    && (latest.value.verdict.Allow? && latest.value.human ==> HumanAllows(l, id))
  }

  predicate ActionsOk(l: Ledger, m: Meaning) {
    forall id :: id in l.actions ==> ActionOk(l, id, m)
  }

  predicate ChargeOk(l: Ledger, c: Charge, m: Meaning) {
    && c.leaseId in l.leases && c.action.leaseId == Some(c.leaseId)
    && m.inside(c.action, l.leases[c.leaseId].terms.scope)
    && c.action.id in l.consumptions && l.consumptions[c.action.id] == c.consumption
  }

  predicate ChargesOk(l: Ledger, m: Meaning) {
    && (forall i :: 0 <= i < |l.charges| ==> ChargeOk(l, l.charges[i], m))
    && (forall i, j :: 0 <= i < j < |l.charges| ==> l.charges[i].action.id != l.charges[j].action.id)
  }

  predicate GrantOk(l: Ledger, g: Grant) {
    && g.leaseId in l.leases && g.expiresAt <= l.leases[g.leaseId].terms.expiresAt
    && (l.leases[g.leaseId].status.Revoked? ==> g.revoked)
  }

  predicate GrantsOk(l: Ledger) {
    forall id :: id in l.grants ==> GrantOk(l, l.grants[id])
  }

  predicate OneLive(l: Ledger) {
    forall x, y :: x in l.leases && y in l.leases && Live(l.leases[x], l.clock) && Live(l.leases[y], l.clock)
                   && l.leases[x].terms.approvalId == l.leases[y].terms.approvalId
                   && l.leases[x].terms.agent == l.leases[y].terms.agent
      ==> x == y
  }

  predicate Inv(l: Ledger, env: Env, m: Meaning) {
    LeasesOk(l, env, m) && ActionsOk(l, m) && ChargesOk(l, m) && GrantsOk(l) && OneLive(l)
  }

  // ----- what a change leaves alone -----

  /** Leases may be added and their status may change, but no terms do. */
  predicate SameTerms(l: Ledger, t: Ledger) {
    forall id :: id in l.leases ==> id in t.leases && t.leases[id].terms == l.leases[id].terms
  }

  predicate LeasesKept(l: Ledger, t: Ledger) {
    && t.leases.Keys == l.leases.Keys && t.origins == l.origins && t.charges == l.charges && l.clock <= t.clock
    && forall id :: id in l.leases ==>
         && t.leases[id].terms == l.leases[id].terms && t.leases[id].spent == l.leases[id].spent
         && t.leases[id].signature == l.leases[id].signature
  }

  /** No action names a lease that is new. */
  predicate ActionsKept(l: Ledger, t: Ledger) {
    && t.actions == l.actions && t.decisions == l.decisions && t.authorizations == l.authorizations
    && forall a :: a in l.actions && l.actions[a].leaseId.Some? && l.actions[a].leaseId.value in t.leases ==>
         l.actions[a].leaseId.value in l.leases
  }

  predicate ChargesKept(l: Ledger, t: Ledger) { t.charges == l.charges && t.consumptions == l.consumptions }

  predicate GrantsKept(l: Ledger, t: Ledger) {
    && t.grants == l.grants
    && forall id :: id in l.leases && id in t.leases && t.leases[id].status.Revoked? ==> l.leases[id].status.Revoked?
  }

  predicate LiveKept(l: Ledger, t: Ledger) {
    && t.leases.Keys == l.leases.Keys && l.clock <= t.clock
    && forall id :: id in l.leases && t.leases[id].status.Active? ==> l.leases[id].status.Active?
  }

  lemma LeasesFrame(l: Ledger, t: Ledger, env: Env, m: Meaning)
    requires LeasesOk(l, env, m) && LeasesKept(l, t)
    ensures LeasesOk(t, env, m)
  {
  }

  lemma ActionsFrame(l: Ledger, t: Ledger, m: Meaning)
    requires ActionsOk(l, m) && SameTerms(l, t) && ActionsKept(l, t)
    ensures ActionsOk(t, m)
  {
  }

  lemma ChargesFrame(l: Ledger, t: Ledger, m: Meaning)
    requires ChargesOk(l, m) && SameTerms(l, t) && ChargesKept(l, t)
    ensures ChargesOk(t, m)
  {
  }

  lemma GrantsFrame(l: Ledger, t: Ledger)
    requires GrantsOk(l) && SameTerms(l, t) && GrantsKept(l, t)
    ensures GrantsOk(t)
  {
  }

  lemma LiveFrame(l: Ledger, t: Ledger)
    requires OneLive(l) && SameTerms(l, t) && LiveKept(l, t)
    ensures OneLive(t)
  {
  }

  // ----- one primitive change at a time -----

  /** At most some leases lapse and the clock advances. */
  predicate StatusChange(l: Ledger, t: Ledger) {
    SameTerms(l, t) && LeasesKept(l, t) && ActionsKept(l, t) && ChargesKept(l, t) && GrantsKept(l, t) && LiveKept(l, t)
  }

  lemma StatusKeeps(l: Ledger, t: Ledger, env: Env, m: Meaning)
    requires Inv(l, env, m) && StatusChange(l, t)
    ensures Inv(t, env, m)
  {
    LeasesFrame(l, t, env, m);
    ActionsFrame(l, t, m);
    ChargesFrame(l, t, m);
    GrantsFrame(l, t);
    LiveFrame(l, t);
  }

  /** The same leases, some of which may have ended. */
  predicate Ended(before: map<Id, Lease>, after: map<Id, Lease>) {
    after.Keys == before.Keys
    && forall id :: id in before ==>
         after[id] == before[id].(status := after[id].status) && EndedOne(before[id], after[id])
  }

  predicate EndedOne(before: Lease, after: Lease) { after.status.Active? ==> before.status.Active? }

  predicate NoneRevoked(before: map<Id, Lease>, after: map<Id, Lease>) {
    forall id :: id in before && id in after && after[id].status.Revoked? ==> before[id].status.Revoked?
  }

  lemma Changes(l: Ledger, leases: map<Id, Lease>, clock: int, attestations: map<Ballot, Opinion>,
                grants: map<Id, Grant>)
    requires Ended(l.leases, leases) && l.clock <= clock
    ensures var t := l.(leases := leases, clock := clock, attestations := attestations, grants := grants);
            && SameTerms(l, t) && LeasesKept(l, t) && ActionsKept(l, t) && ChargesKept(l, t) && LiveKept(l, t)
            && (grants == l.grants && NoneRevoked(l.leases, leases) ==> StatusChange(l, t))
  {
  }

  lemma LapseEnds(leases: map<Id, Lease>, id: Id, now: int)
    ensures Ended(leases, Lapse(leases, id, now)) && NoneRevoked(leases, Lapse(leases, id, now))
  {
  }

  lemma RefreshChanges(l: Ledger, id: Id, now: int)
    requires l.clock <= now
    ensures StatusChange(l, Refresh(l, id, now))
  {
    LapseEnds(l.leases, id, now);
    Changes(l, Lapse(l.leases, id, now), now, l.attestations, l.grants);
  }

  lemma RefreshKeeps(l: Ledger, id: Id, now: int, env: Env, m: Meaning)
    requires Inv(l, env, m) && l.clock <= now
    ensures Inv(Refresh(l, id, now), env, m)
  {
    RefreshChanges(l, id, now);
    StatusKeeps(l, Refresh(l, id, now), env, m);
  }

  lemma RefreshForKeeps(l: Ledger, a: Action, now: int, env: Env, m: Meaning)
    requires Inv(l, env, m) && l.clock <= now
    ensures Inv(RefreshFor(l, a, now), env, m)
  {
    if a.leaseId.Some? {
      RefreshKeeps(l, a.leaseId.value, now, env, m);
    } else {
      ClockKeeps(l, now, env, m);
    }
  }

  lemma ClockKeeps(l: Ledger, now: int, env: Env, m: Meaning)
    requires Inv(l, env, m) && l.clock <= now
    ensures Inv(l.(clock := now), env, m)
  {
    ClockChanges(l, now);
    StatusKeeps(l, l.(clock := now), env, m);
  }

  lemma ClockChanges(l: Ledger, now: int)
    requires l.clock <= now
    ensures StatusChange(l, l.(clock := now))
  {
  }

  lemma LatestAppended(decisions: seq<Decision>, d: Decision, id: Id)
    ensures Latest(decisions + [d], id) == if d.actionId == id then Some(d) else Latest(decisions, id)
  {
  }

  lemma TotalAppended(charges: seq<Charge>, c: Charge, id: Id)
    ensures Total(charges + [c], id)
         == if c.leaseId == id then Plus(Total(charges, id), CostOf(c.consumption)) else Total(charges, id)
  {
  }

  /** A decision that is not BLOCK puts the action inside the lease it names. */
  lemma DecidedInside(l: Ledger, now: int, a: Action, env: Env, m: Meaning)
    requires Inv(l, env, m) && m == MeaningOf(env) && !Evaluate(a, LeaseOf(l, a), now, env).Block?
    ensures InsideLease(l, a, m)
  {
    if a.leaseId.Some? && a.leaseId.value in l.leases {
      UnobjectedIff(a, l.leases[a.leaseId.value], now, env);
    }
  }

  lemma DecideChanges(l: Ledger, t: Ledger)
    requires t == l.(actions := t.actions, decisions := t.decisions, authorizations := t.authorizations)
    ensures SameTerms(l, t) && LeasesKept(l, t) && ChargesKept(l, t) && GrantsKept(l, t) && LiveKept(l, t)
  {
  }

  lemma DecideKeeps(l: Ledger, a: Action, d: Decision, env: Env, m: Meaning)
    requires Inv(l, env, m) && d.actionId == a.id && !d.human
    requires !d.verdict.Block? ==> InsideLease(l, a, m)
    ensures Inv(l.(actions := l.actions[a.id := a], decisions := l.decisions + [d]), env, m)
  {
    var t := l.(actions := l.actions[a.id := a], decisions := l.decisions + [d]);
    DecideChanges(l, t);
    forall id | id in t.actions ensures ActionOk(t, id, m) {
      LatestAppended(l.decisions, d, id);
      if id != a.id { assert ActionOk(l, id, m); }
    }
    LeasesFrame(l, t, env, m);
    ChargesFrame(l, t, m);
    GrantsFrame(l, t);
    LiveFrame(l, t);
  }

  lemma EvaluateKeeps(l: Ledger, now: int, a: Action, env: Env, m: Meaning)
    requires Inv(l, env, m) && l.clock <= now
    requires var r := RefreshFor(l, a, now);
             !Evaluate(a, LeaseOf(r, a), now, env).Block? ==> InsideLease(r, a, m)
    ensures Inv(EvaluateAction(l, now, a, env), env, m)
  {
    var r := RefreshFor(l, a, now);
    RefreshForKeeps(l, a, now, env, m);
    DecideKeeps(r, a, Decision(a.id, Evaluate(a, LeaseOf(r, a), now, env), false), env, m);
  }

  lemma AuthorizeKeeps(l: Ledger, id: Id, reviewer: bool, allow: bool, reason: string, env: Env, m: Meaning)
    requires Inv(l, env, m)
    ensures Inv(Authorize(l, id, reviewer, allow, reason).ledger, env, m)
  {
    var t := Authorize(l, id, reviewer, allow, reason).ledger;
    if t != l {
      DecideChanges(l, t);
      forall a | a in t.actions ensures ActionOk(t, a, m) {
        LatestAppended(l.decisions, Decision(id, if allow then Allow else Block, true), a);
        assert ActionOk(l, a, m);
      }
      LeasesFrame(l, t, env, m);
      ChargesFrame(l, t, m);
      GrantsFrame(l, t);
      LiveFrame(l, t);
    }
  }

  lemma ChargeAddsUp(l: Ledger, id: Id, leaseId: Id, c: Consumption, env: Env, m: Meaning)
    requires LeasesOk(l, env, m) && id in l.actions && leaseId in l.leases
    requires WithinBudget(Plus(l.leases[leaseId].spent, CostOf(c)), l.leases[leaseId].terms.scope)
    ensures LeasesOk(ChargeLease(l, l.actions[id], leaseId, c), env, m)
  {
    var t := ChargeLease(l, l.actions[id], leaseId, c);
    forall k | k in t.leases
      ensures k in t.origins && LeaseOk(k, t.leases[k], t.origins[k], t.charges, t.clock, env, m)
    {
      TotalAppended(l.charges, Charge(l.actions[id], leaseId, c), k);
      assert LeaseOk(k, l.leases[k], l.origins[k], l.charges, l.clock, env, m);
    }
  }

  lemma ChargeIsNew(l: Ledger, id: Id, leaseId: Id, c: Consumption, m: Meaning)
    requires ActionsOk(l, m) && ChargesOk(l, m) && id in l.actions && id !in l.consumptions
    requires leaseId in l.leases && l.actions[id].leaseId == Some(leaseId)
    requires m.inside(l.actions[id], l.leases[leaseId].terms.scope)
    ensures ChargesOk(ChargeLease(l, l.actions[id], leaseId, c), m)
  {
  }

  lemma ChargeChanges(l: Ledger, id: Id, leaseId: Id, c: Consumption)
    requires id in l.actions && leaseId in l.leases
    ensures var t := ChargeLease(l, l.actions[id], leaseId, c);
            SameTerms(l, t) && ActionsKept(l, t) && GrantsKept(l, t) && LiveKept(l, t)
  {
  }

  lemma ChargeKeeps(l: Ledger, id: Id, leaseId: Id, c: Consumption, env: Env, m: Meaning)
    requires Inv(l, env, m) && id in l.actions && id !in l.consumptions
    requires leaseId in l.leases && l.actions[id].leaseId == Some(leaseId)
    requires m.inside(l.actions[id], l.leases[leaseId].terms.scope)
    requires WithinBudget(Plus(l.leases[leaseId].spent, CostOf(c)), l.leases[leaseId].terms.scope)
    ensures Inv(ChargeLease(l, l.actions[id], leaseId, c), env, m)
  {
    var t := ChargeLease(l, l.actions[id], leaseId, c);
    ChargeChanges(l, id, leaseId, c);
    ActionsFrame(l, t, m);
    GrantsFrame(l, t);
    LiveFrame(l, t);
    ChargeAddsUp(l, id, leaseId, c, env, m);
    ChargeIsNew(l, id, leaseId, c, m);
  }

  /** A consumption leaves the ledger alone, refreshes the lease, or charges it within its budget. */
  lemma ConsumeOutcomes(l: Ledger, now: int, id: Id, c: Consumption)
    ensures var next := Consume(l, now, id, c);
            if id !in l.actions || LeaseOf(l, l.actions[id]).None? then next.ledger == l
            else
              var leaseId := l.actions[id].leaseId.value;
              var r := Refresh(l, leaseId, now);
              if next.reply.Done? && id !in l.consumptions then
                && next.ledger == ChargeLease(r, l.actions[id], leaseId, c)
                && WithinBudget(Plus(r.leases[leaseId].spent, CostOf(c)), r.leases[leaseId].terms.scope)
                && Latest(l.decisions, id).Some? && Latest(l.decisions, id).value.verdict.Allow?
              else next.ledger == l || next.ledger == r
  {
  }

  /** An action that is effectively allowed is inside the lease it names. */
  lemma ConsumedInside(l: Ledger, id: Id, m: Meaning)
    requires ActionsOk(l, m) && id in l.actions && LeaseOf(l, l.actions[id]).Some?
    requires Latest(l.decisions, id).Some? && Latest(l.decisions, id).value.verdict.Allow?
    ensures m.inside(l.actions[id], l.leases[l.actions[id].leaseId.value].terms.scope)
  {
  }

  lemma ConsumeKeeps(l: Ledger, now: int, id: Id, c: Consumption, env: Env, m: Meaning)
    requires Inv(l, env, m) && l.clock <= now
    ensures Inv(Consume(l, now, id, c).ledger, env, m)
  {
    ConsumeOutcomes(l, now, id, c);
    if id in l.actions && LeaseOf(l, l.actions[id]).Some? {
      var leaseId := l.actions[id].leaseId.value;
      RefreshKeeps(l, leaseId, now, env, m);
      if Consume(l, now, id, c).reply.Done? && id !in l.consumptions {
        ConsumedInside(l, id, m);
        ChargeKeeps(Refresh(l, leaseId, now), id, leaseId, c, env, m);
      }
    }
  }

  lemma RevokeInEnds(leases: map<Id, Lease>, id: Id, now: int)
    requires id in leases
    ensures Ended(leases, RevokeIn(leases, id, now))
    ensures forall k :: k in leases && RevokeIn(leases, id, now)[k].status.Revoked? ==>
              leases[k].status.Revoked? || (k == id && Live(leases[id], now))
  {
  }

  lemma RevokeChanges(l: Ledger, now: int, id: Id)
    requires id in l.leases && l.clock <= now
    ensures var t := RevokeLease(l, now, id).ledger;
            SameTerms(l, t) && LeasesKept(l, t) && ActionsKept(l, t) && ChargesKept(l, t) && LiveKept(l, t)
  {
    var t := RevokeLease(l, now, id).ledger;
    RevokeInEnds(l.leases, id, now);
    Changes(l, RevokeIn(l.leases, id, now), now, l.attestations, t.grants);
  }

  /** Every grant of the revoked lease is revoked with it. */
  lemma RevokedGrantsOk(l: Ledger, now: int, id: Id)
    requires GrantsOk(l) && id in l.leases
    ensures GrantsOk(RevokeLease(l, now, id).ledger)
  {
  }

  lemma RevokeKeeps(l: Ledger, now: int, id: Id, env: Env, m: Meaning)
    requires Inv(l, env, m) && l.clock <= now
    ensures Inv(RevokeLease(l, now, id).ledger, env, m)
  {
    if id in l.leases {
      var t := RevokeLease(l, now, id).ledger;
      RevokeChanges(l, now, id);
      LeasesFrame(l, t, env, m);
      ActionsFrame(l, t, m);
      ChargesFrame(l, t, m);
      LiveFrame(l, t);
      RevokedGrantsOk(l, now, id);
    }
  }

  lemma GrantChanges(l: Ledger, now: int, id: Id, leaseId: Id, internal: bool, audience: string, scope: seq<string>,
                     seconds: nat)
    requires leaseId in l.leases && l.clock <= now
    ensures var t := IssueGrant(l, now, id, leaseId, internal, audience, scope, seconds).ledger;
            SameTerms(l, t) && LeasesKept(l, t) && ActionsKept(l, t) && ChargesKept(l, t) && LiveKept(l, t)
  {
    var t := IssueGrant(l, now, id, leaseId, internal, audience, scope, seconds).ledger;
    Changes(l, t.leases, now, l.attestations, t.grants);
  }

  /** Rounded down to whole seconds, what is left of the lease bounds the life of the grant. */
  lemma IssuedGrantOk(l: Ledger, now: int, id: Id, leaseId: Id, internal: bool, audience: string, scope: seq<string>,
                      seconds: nat)
    requires GrantsOk(l) && leaseId in l.leases
    ensures GrantsOk(IssueGrant(l, now, id, leaseId, internal, audience, scope, seconds).ledger)
  {
  }

  lemma GrantKeeps(l: Ledger, now: int, id: Id, leaseId: Id, internal: bool, audience: string, scope: seq<string>,
                   seconds: nat, env: Env, m: Meaning)
    requires Inv(l, env, m) && l.clock <= now
    ensures Inv(IssueGrant(l, now, id, leaseId, internal, audience, scope, seconds).ledger, env, m)
  {
    if leaseId in l.leases {
      var t := IssueGrant(l, now, id, leaseId, internal, audience, scope, seconds).ledger;
      GrantChanges(l, now, id, leaseId, internal, audience, scope, seconds);
      LeasesFrame(l, t, env, m);
      ActionsFrame(l, t, m);
      ChargesFrame(l, t, m);
      LiveFrame(l, t);
      IssuedGrantOk(l, now, id, leaseId, internal, audience, scope, seconds);
    }
  }

  lemma RevokeGrantChanges(l: Ledger, id: Id)
    requires GrantsOk(l)
    ensures GrantsOk(RevokeGrant(l, id).ledger)
  {
  }

  lemma RevokeGrantKeeps(l: Ledger, id: Id, env: Env, m: Meaning)
    requires Inv(l, env, m)
    ensures Inv(RevokeGrant(l, id).ledger, env, m)
  {
    var t := RevokeGrant(l, id).ledger;
    Changes(l, l.leases, l.clock, l.attestations, t.grants);
    RevokeGrantChanges(l, id);
    LeasesFrame(l, t, env, m);
    ActionsFrame(l, t, m);
    ChargesFrame(l, t, m);
    LiveFrame(l, t);
  }

  lemma AttestOnlyAttests(l: Ledger, approval: Option<Approval>, user: Name, opinion: Opinion)
    ensures var t := Attest(l, approval, user, opinion).ledger; t == l.(attestations := t.attestations)
  {
  }

  lemma AttestChanges(l: Ledger, approval: Option<Approval>, user: Name, opinion: Opinion)
    ensures StatusChange(l, Attest(l, approval, user, opinion).ledger)
  {
    AttestOnlyAttests(l, approval, user, opinion);
    Changes(l, l.leases, l.clock, Attest(l, approval, user, opinion).ledger.attestations, l.grants);
  }

  lemma AttestKeeps(l: Ledger, approval: Option<Approval>, user: Name, opinion: Opinion, env: Env, m: Meaning)
    requires Inv(l, env, m)
    ensures Inv(Attest(l, approval, user, opinion).ledger, env, m)
  {
    AttestChanges(l, approval, user, opinion);
    StatusKeeps(l, Attest(l, approval, user, opinion).ledger, env, m);
  }

  /** No lease that was never issued has been charged. */
  lemma {:induction false} UnissuedIsUncharged(charges: seq<Charge>, id: Id)
    requires forall i :: 0 <= i < |charges| ==> charges[i].leaseId != id
    ensures Total(charges, id) == NOTHING
  {
    if charges != [] { UnissuedIsUncharged(charges[..|charges| - 1], id); }
  }

  lemma IssuedLeaseOk(l: Ledger, now: int, id: Id, r: Request, approval: Approval, task: Task, env: Env, m: Meaning)
    requires LeasesOk(l, env, m) && ChargesOk(l, m) && l.clock <= now && id !in l.leases
    requires approval.id == r.approvalId && Quorum(l, r, approval)
    requires m.granted(r.scope.(fingerprint := env.fingerprint(r)), approval, task)
    ensures LeasesOk(AddLease(l, id, r, approval, task, now, env), env, m)
  {
    var t := AddLease(l, id, r, approval, task, now, env);
    forall i | 0 <= i < |l.charges| ensures l.charges[i].leaseId != id {
      assert ChargeOk(l, l.charges[i], m);
    }
    UnissuedIsUncharged(l.charges, id);
    forall k | k in l.leases
      ensures k in t.origins && LeaseOk(k, t.leases[k], t.origins[k], t.charges, t.clock, env, m)
    {
      assert LeaseOk(k, l.leases[k], l.origins[k], l.charges, l.clock, env, m);
    }
  }

  lemma IssuedIsOnlyLive(l: Ledger, now: int, id: Id, r: Request, approval: Approval, task: Task, env: Env)
    requires OneLive(l) && l.clock <= now && id !in l.leases && approval.payloadHash.Some?
    requires !exists other :: LiveFor(l, other, r.approvalId, r.agent, now)
    ensures OneLive(AddLease(l, id, r, approval, task, now, env))
  {
    forall x | x in l.leases && Live(l.leases[x], now) && l.leases[x].terms.approvalId == r.approvalId
               && l.leases[x].terms.agent == r.agent
      ensures false
    {
      assert LiveFor(l, x, r.approvalId, r.agent, now);
    }
  }

  lemma IssueChanges(l: Ledger, now: int, id: Id, r: Request, approval: Approval, task: Task, env: Env)
    requires approval.payloadHash.Some? && id !in l.leases
    requires forall a :: a in l.actions ==> l.actions[a].leaseId != Some(id)
    ensures var t := AddLease(l, id, r, approval, task, now, env);
            SameTerms(l, t) && ActionsKept(l, t) && ChargesKept(l, t) && GrantsKept(l, t)
  {
  }

  lemma IssueKeeps(l: Ledger, now: int, id: Id, r: Request, approval: Approval, task: Task, env: Env, m: Meaning)
    requires Inv(l, env, m) && l.clock <= now && id !in l.leases
    requires forall a :: a in l.actions ==> l.actions[a].leaseId != Some(id)
    requires approval.id == r.approvalId && Quorum(l, r, approval)
    requires m.granted(r.scope.(fingerprint := env.fingerprint(r)), approval, task)
    requires !exists other :: LiveFor(l, other, r.approvalId, r.agent, now)
    ensures Inv(AddLease(l, id, r, approval, task, now, env), env, m)
  {
    var t := AddLease(l, id, r, approval, task, now, env);
    IssueChanges(l, now, id, r, approval, task, env);
    IssuedLeaseOk(l, now, id, r, approval, task, env, m);
    ActionsFrame(l, t, m);
    ChargesFrame(l, t, m);
    GrantsFrame(l, t);
    IssuedIsOnlyLive(l, now, id, r, approval, task, env);
  }

  lemma ScopeUnchanged(s: Scope, fingerprint: Digest, approval: Approval, task: Task)
    ensures Validated(s) ==> Validated(s.(fingerprint := fingerprint))
    ensures ScopeWithin(s, approval, task) ==> ScopeWithin(s.(fingerprint := fingerprint), approval, task)
  {
  }

  lemma EvaluationKeeps(l: Ledger, now: int, a: Action, env: Env, m: Meaning)
    requires Inv(l, env, m) && m == MeaningOf(env) && l.clock <= now
    ensures Inv(EvaluateAction(l, now, a, env), env, m)
  {
    RefreshForKeeps(l, a, now, env, m);
    var r := RefreshFor(l, a, now);
    if !Evaluate(a, LeaseOf(r, a), now, env).Block? { DecidedInside(r, now, a, env, m); }
    EvaluateKeeps(l, now, a, env, m);
  }

  lemma ApplyKeeps(l: Ledger, c: Command, env: Env, m: Meaning)
    requires Inv(l, env, m) && m == MeaningOf(env) && Admissible(l, c)
    ensures Inv(Apply(l, c, env).ledger, env, m)
  {
    match c
    case CAttest(approval, user, opinion) => AttestKeeps(l, approval, user, opinion, env, m);
    case CIssue(now, id, r, approval, task, known) =>
      ClockKeeps(l, now, env, m);
      var t := Apply(l, c, env).ledger;
      if t != l && t != l.(clock := now) {
        ScopeUnchanged(r.scope, env.fingerprint(r), approval.value, task.value);
        IssueKeeps(l, now, id, r, approval.value, task.value, env, m);
      }
    case CRevoke(now, id) => RevokeKeeps(l, now, id, env, m);
    case CEvaluate(now, a) => EvaluationKeeps(l, now, a, env, m);
    case CAuthorize(id, reviewer, allow, reason) => AuthorizeKeeps(l, id, reviewer, allow, reason, env, m);
    case CConsume(now, id, consumption) => ConsumeKeeps(l, now, id, consumption, env, m);
    case CGrant(now, id, leaseId, internal, audience, scope, seconds) =>
      GrantKeeps(l, now, id, leaseId, internal, audience, scope, seconds, env, m);
    case CRevokeGrant(id) => RevokeGrantKeeps(l, id, env, m);
  }

  lemma {:induction false} ReplayKeeps(l: Ledger, history: seq<Command>, env: Env, m: Meaning)
    requires Inv(l, env, m) && m == MeaningOf(env) && AdmissibleRun(l, history, env)
    ensures Inv(Replay(l, history, env), env, m)
  {
    if history != [] {
      var earlier := history[..|history| - 1];
      ShorterRun(l, history, |history| - 1, env);
      ReplayKeeps(l, earlier, env, m);
      ApplyKeeps(Replay(l, earlier, env), history[|history| - 1], env, m);
    }
  }

  lemma ShorterRun(l: Ledger, history: seq<Command>, n: nat, env: Env)
    requires AdmissibleRun(l, history, env) && n <= |history|
    ensures AdmissibleRun(l, history[..n], env)
  {
    forall i | 0 <= i < n ensures Admissible(Replay(l, history[..n][..i], env), history[..n][i]) {
      assert history[..n][..i] == history[..i];
    }
  }
}
