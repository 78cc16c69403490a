/**
 From the authorization of a run step to the settlement of its actions: whether the
 charge of a step that has passed can still be refused.
 */
module TrustedSettlement {
  import opened Options
  import opened RunStates
  import opened TrustPolicy
  import L = TrustLedger
  import T = TrustInvariants
  import opened StepSettlement
  import opened TrustedRun
  import opened TrustedRunInvariants
  import TrustedRunTheorems

  predicate SameBudget(before: Lease, after: Lease) { after.spent == before.spent && after.terms == before.terms }

  /** Every lease is there with its terms and has spent what it had spent. */
  predicate NothingSpent(before: map<Id, Lease>, after: map<Id, Lease>) {
    forall id :: id in before ==> id in after && SameBudget(before[id], after[id])
  }

  lemma LapseSpendsNothing(leases: map<Id, Lease>, id: Id, instant: int)
    ensures NothingSpent(leases, L.Lapse(leases, id, instant))
  {
  }

  lemma EvaluationSpendsNothing(l: L.Ledger, instant: int, a: Action, env: Env)
    ensures NothingSpent(l.leases, L.EvaluateAction(l, instant, a, env).leases)
  {
    if a.leaseId.Some? { LapseSpendsNothing(l.leases, a.leaseId.value, instant); }
  }

  lemma NothingSpentComposes(a: map<Id, Lease>, b: map<Id, Lease>, c: map<Id, Lease>)
    requires NothingSpent(a, b) && NothingSpent(b, c)
    ensures NothingSpent(a, c)
  {
  }

  lemma {:induction false} ClearingSpendsNothing(l: L.Ledger, instant: int, actions: seq<Action>, env: Env, k: nat)
    requires k <= |actions|
    ensures NothingSpent(l.leases, ClearFirst(l, instant, actions, env, k).ledger.leases)
  {
    if k > 0 {
      ClearingSpendsNothing(l, instant, actions, env, k - 1);
      var earlier := ClearFirst(l, instant, actions, env, k - 1).ledger;
      ClearOneLedger(earlier, instant, actions[k - 1], env);
      EvaluationSpendsNothing(earlier, instant, actions[k - 1], env);
      NothingSpentComposes(l.leases, earlier.leases, ClearFirst(l, instant, actions, env, k).ledger.leases);
    }
  }

  /** An authorization that succeeds leaves a lease with room for all the actions it has cleared. */
  lemma AuthorizedHasRoom(s: TrustedState, instant: int, timeout: nat, f: Facts, env: Env)
    requires Enforceable(f, s.run) && SideEffect(DEFAULT_STEPS[s.run.current])
    requires s.leaseId.Some? && s.leaseId.value in s.ledger.leases
    ensures var a := Authorize(s, instant, timeout, f, env);
            a.reply.Done? ==>
              && s.leaseId.value in a.state.ledger.leases
              && Preflight(a.state.ledger.leases[s.leaseId.value], ActionsOf(s, timeout, f))
  {
    var r, actions := L.Refresh(s.ledger, s.leaseId.value, instant), ActionsOf(s, timeout, f);
    AuthorizeOutcomes(s, instant, timeout, f, env);
    ClearingSpendsNothing(r, instant, actions, env, |actions|);
  }

  // ----- from the authorization to the settlement -----

  /** The action, its latest decision and its human authorization are those it had, and it is not consumed. */
  predicate Stands(l: L.Ledger, t: L.Ledger, a: Action) {
    && a.id in t.actions && t.actions[a.id] == a && a.id !in t.consumptions
    && L.Latest(t.decisions, a.id) == L.Latest(l.decisions, a.id)
    && (a.id in l.authorizations ==> a.id in t.authorizations && t.authorizations[a.id] == l.authorizations[a.id])
  }

  /** Between `l` and `t` nobody has charged, ended or changed the lease, nor touched the actions. */
  predicate Untouched(l: L.Ledger, t: L.Ledger, leaseId: Id, actions: seq<Action>) {
    && leaseId in l.leases && leaseId in t.leases && t.leases[leaseId] == l.leases[leaseId]
    && forall i :: 0 <= i < |actions| ==> Stands(l, t, actions[i])
  }

  lemma AllowedIsPrimed(l: L.Ledger, t: L.Ledger, a: Action, leaseId: Id, m: T.Meaning)
    requires leaseId in l.leases && Allowed(l, a, leaseId, m) && Stands(l, t, a) && a.leaseId == Some(leaseId)
    ensures Primed(t, a.id, leaseId)
  {
  }

  lemma AllowedArePrimed(l: L.Ledger, t: L.Ledger, actions: seq<Action>, leaseId: Id, m: T.Meaning)
    requires leaseId in l.leases && AllAllowed(l, actions, leaseId, m) && NameLease(actions, leaseId)
    requires Untouched(l, t, leaseId, actions)
    ensures AllPrimed(t, IdsOf(actions), 0, leaseId)
  {
    forall i | 0 <= i < |actions| ensures Primed(t, IdsOf(actions)[i], leaseId) {
      AllowedIsPrimed(l, t, actions[i], leaseId, m);
    }
  }

  lemma IdsAreDistinct(f: Facts, leaseId: Id, step: nat, attempts: nat, timeout: nat)
    requires TrustedRunTheorems.DistinctIds(f) && step < STEP_COUNT && |f.stepKeys| == STEP_COUNT
    ensures Distinct(IdsOf(StepActions(f, leaseId, step, attempts, timeout)))
  {
    var actions := StepActions(f, leaseId, step, attempts, timeout);
    forall i, j | 0 <= i < j < |actions| ensures actions[i].id != actions[j].id {
      if actions[i].id == actions[j].id {
        TrustedRunTheorems.AttemptsShareNoAction(f, leaseId, step, attempts, timeout, i,
                                                 leaseId, step, attempts, timeout, j);
      }
    }
  }

  /** The step that finished is the attempt that was authorized, and took no longer than its actions estimated. */
  predicate Finished(s: TrustedState, step: FinishedStep, actions: seq<Action>)
    requires s.run.current < STEP_COUNT && s.run.current < |s.run.steps|
  {
    && step.attempts == s.run.steps[s.run.current].attempts + 1 && Seconds(step) <= TotalRuntime(actions)
    && (step.opensPullRequest <==> DEFAULT_STEPS[s.run.current].CreatePullRequest?)
  }

  lemma FinishedIsEstimated(s: TrustedState, step: FinishedStep, leaseId: Id, timeout: nat, f: Facts)
    requires Enforceable(f, s.run)
    requires Finished(s, step, StepActions(f, leaseId, s.run.current, Current(s.run).attempts, timeout))
    ensures Estimated(StepActions(f, leaseId, s.run.current, Current(s.run).attempts, timeout), step)
  {
  }

  /** All that a settlement of the actions looks for in the store. */
  predicate Chargeable(t: L.Ledger, actions: seq<Action>, leaseId: Id) {
    && actions != [] && Distinct(IdsOf(actions)) && AllPrimed(t, IdsOf(actions), 0, leaseId)
    && leaseId in t.leases && Preflight(t.leases[leaseId], actions)
    && t.leases[leaseId].spent.retries <= t.leases[leaseId].terms.scope.maxRetries
  }

  lemma UntouchedIsChargeable(l: L.Ledger, t: L.Ledger, actions: seq<Action>, leaseId: Id, env: Env, m: T.Meaning)
    requires T.Inv(l, env, m) && leaseId in l.leases && AllAllowed(l, actions, leaseId, m)
    requires actions != [] && NameLease(actions, leaseId) && Distinct(IdsOf(actions))
    requires Preflight(l.leases[leaseId], actions) && Untouched(l, t, leaseId, actions)
    ensures Chargeable(t, actions, leaseId)
  {
    AllowedArePrimed(l, t, actions, leaseId, m);
  }

  /** A side-effect step is only reached under the scope contract, so validation has something to validate. */
  lemma StepHasActions(s: TrustedState, timeout: nat, f: Facts)
    requires RunOk(s.run, f) && SideEffect(DEFAULT_STEPS[s.run.current]) && s.leaseId.Some?
    ensures ActionsOf(s, timeout, f) != []
  {
  }

  lemma AuthorizedActions(s: TrustedState, instant: int, timeout: nat, f: Facts, env: Env, m: T.Meaning)
    requires TInv(s, f, env, m) && m == T.MeaningOf(env) && s.ledger.clock <= instant
    requires SideEffect(DEFAULT_STEPS[s.run.current]) && s.leaseId.Some?
    ensures var a, actions := Authorize(s, instant, timeout, f, env), ActionsOf(s, timeout, f);
            a.reply.Done? ==>
              && T.Inv(a.state.ledger, env, m) && s.leaseId.value in a.state.ledger.leases
              && AllAllowed(a.state.ledger, actions, s.leaseId.value, m)
              && Preflight(a.state.ledger.leases[s.leaseId.value], actions)
  {
    AuthorizedMeansAllowed(s, instant, timeout, f, env, m);
    AuthorizedLease(s, instant, timeout, f, env);
    AuthorizedHasRoom(s, instant, timeout, f, env);
    AuthorizedLedger(s, instant, timeout, f, env, m);
  }

  lemma AuthorizedIsChargeable(s: TrustedState, instant: int, timeout: nat, f: Facts, env: Env, m: T.Meaning,
                               t: L.Ledger)
    requires TInv(s, f, env, m) && m == T.MeaningOf(env) && s.ledger.clock <= instant
    requires TrustedRunTheorems.DistinctIds(f) && SideEffect(DEFAULT_STEPS[s.run.current]) && s.leaseId.Some?
    ensures var a, actions := Authorize(s, instant, timeout, f, env), ActionsOf(s, timeout, f);
            a.reply.Done? && Untouched(a.state.ledger, t, s.leaseId.value, actions) ==>
              Chargeable(t, actions, s.leaseId.value)
  {
    var a, leaseId, actions := Authorize(s, instant, timeout, f, env), s.leaseId.value, ActionsOf(s, timeout, f);
    if a.reply.Done? && Untouched(a.state.ledger, t, leaseId, actions) {
      AuthorizedActions(s, instant, timeout, f, env, m);
      StepHasActions(s, timeout, f);
      StepActionsNameLease(f, leaseId, s.run.current, Current(s.run).attempts, timeout);
      IdsAreDistinct(f, leaseId, s.run.current, Current(s.run).attempts, timeout);
      UntouchedIsChargeable(a.state.ledger, t, actions, leaseId, env, m);
    }
  }

  /**
   A side-effect step that was authorized, and whose lease and actions nobody touches
   until it has passed within its estimates, is charged in full if and only if this was
   its first attempt or the lease has a retry left. So the settlement of an authorized
   retry can fail for want of a retry and for nothing else; it then charges nothing.
   */
  lemma AuthorizedStepSettlesIff(s: TrustedState, instant: int, timeout: nat, f: Facts, env: Env, m: T.Meaning,
                                 t: L.Ledger, now: int, step: FinishedStep)
    requires TInv(s, f, env, m) && m == T.MeaningOf(env) && s.ledger.clock <= instant
    requires TrustedRunTheorems.DistinctIds(f)
    requires SideEffect(DEFAULT_STEPS[s.run.current]) && s.leaseId.Some?
    ensures var a, leaseId := Authorize(s, instant, timeout, f, env), s.leaseId.value;
            var actions := ActionsOf(s, timeout, f);
            a.reply.Done? && Untouched(a.state.ledger, t, leaseId, actions) && Finished(s, step, actions)
            && L.Live(t.leases[leaseId], now) ==>
              var settled, lease := Settle(t, now, IdsOf(actions), step, |actions|), t.leases[leaseId];
              && (settled.reply.Done? <==>
                  Current(s.run).attempts == 0 || lease.spent.retries < lease.terms.scope.maxRetries)
              && (!settled.reply.Done? ==> settled.ledger.charges == t.charges)
              && (settled.reply.Done? ==>
                    leaseId in settled.ledger.leases
                    && settled.ledger.leases[leaseId].spent.runtime == lease.spent.runtime + Seconds(step))
  {
    var a, leaseId, actions := Authorize(s, instant, timeout, f, env), s.leaseId.value, ActionsOf(s, timeout, f);
    if a.reply.Done? && Untouched(a.state.ledger, t, leaseId, actions) && Finished(s, step, actions)
       && L.Live(t.leases[leaseId], now) {
      AuthorizedIsChargeable(s, instant, timeout, f, env, m, t);
      FinishedIsEstimated(s, step, leaseId, timeout, f);
      SettlesIffRetryBudget(t, now, actions, leaseId, step);
    }
  }
}
