/**
 What every history of commands on a run and on the trust store keeps under trust
 enforcement.
 */
module TrustedRunInvariants {
  import opened Options
  import opened RunStates
  import M = MissionControl
  import opened RunInvariants
  import opened TrustPolicy
  import L = TrustLedger
  import T = TrustInvariants
  import TT = TrustTheorems
  import opened TrustedRun

  // ----- clearing the actions of a step -----

  lemma EvaluateKeeps(l: L.Ledger, instant: int, a: Action, env: Env, m: T.Meaning)
    requires T.Inv(l, env, m) && m == T.MeaningOf(env) && l.clock <= instant
    ensures var r := L.EvaluateAction(l, instant, a, env);
            T.Inv(r, env, m) && r.clock == instant && TT.LeaseEdges(l.leases, r.leases)
  {
    T.EvaluationKeeps(l, instant, a, env, m);
    TT.EvaluateKeepsBooks(l, instant, a, env);
  }

  lemma ClearOneLedger(l: L.Ledger, instant: int, a: Action, env: Env)
    ensures var r := ClearOne(l, instant, a, env).ledger; r == l || r == L.EvaluateAction(l, instant, a, env)
  {
  }

  lemma ClearOneKeeps(l: L.Ledger, instant: int, a: Action, env: Env, m: T.Meaning)
    requires T.Inv(l, env, m) && m == T.MeaningOf(env) && l.clock <= instant
    ensures var r := ClearOne(l, instant, a, env).ledger;
            T.Inv(r, env, m) && r.clock <= instant && TT.LeaseEdges(l.leases, r.leases)
  {
    ClearOneLedger(l, instant, a, env);
    EvaluateKeeps(l, instant, a, env, m);
  }

  lemma {:induction false} ClearFirstKeeps(l: L.Ledger, instant: int, actions: seq<Action>, env: Env, k: nat,
                                           m: T.Meaning)
    requires T.Inv(l, env, m) && m == T.MeaningOf(env) && l.clock <= instant && k <= |actions|
    ensures var r := ClearFirst(l, instant, actions, env, k).ledger;
            T.Inv(r, env, m) && r.clock <= instant && TT.LeaseEdges(l.leases, r.leases)
  {
    if k > 0 {
      ClearFirstKeeps(l, instant, actions, env, k - 1, m);
      var earlier := ClearFirst(l, instant, actions, env, k - 1);
      var after := ClearOne(earlier.ledger, instant, actions[k - 1], env).ledger;
      ClearOneKeeps(earlier.ledger, instant, actions[k - 1], env, m);
      TT.EdgesCompose(l.leases, earlier.ledger.leases, after.leases);
    }
  }

  /** The action stands in the store as proposed, and its latest decision is ALLOW. */
  predicate Effective(l: L.Ledger, a: Action) {
    && a.id in l.actions && l.actions[a.id] == a
    && var latest := L.Latest(l.decisions, a.id);
    latest.Some? && latest.value.verdict.Allow?
  }

  lemma ClearOneMeans(l: L.Ledger, instant: int, a: Action, env: Env, other: Action)
    requires ClearOne(l, instant, a, env).clearance.Cleared?
    ensures Effective(ClearOne(l, instant, a, env).ledger, a)
    ensures Effective(l, other) ==> Effective(ClearOne(l, instant, a, env).ledger, other)
  {
    if !(a.id in l.actions) {
      var r := L.RefreshFor(l, a, instant);
      var d := L.Decision(a.id, Evaluate(a, L.LeaseOf(r, a), instant, env), false);
      T.LatestAppended(l.decisions, d, other.id);
      T.LatestAppended(l.decisions, d, a.id);
      assert L.EvaluateAction(l, instant, a, env).decisions == l.decisions + [d];
    }
  }

  lemma {:induction false} ClearFirstMeans(l: L.Ledger, instant: int, actions: seq<Action>, env: Env, k: nat, i: nat)
    requires i < k <= |actions| && ClearFirst(l, instant, actions, env, k).clearance.Cleared?
    ensures Effective(ClearFirst(l, instant, actions, env, k).ledger, actions[i])
  {
    var earlier := ClearFirst(l, instant, actions, env, k - 1);
    if i < k - 1 { ClearFirstMeans(l, instant, actions, env, k - 1, i); }
    ClearOneMeans(earlier.ledger, instant, actions[k - 1], env, actions[i]);
  }

  /** An effective action under a lease of the store respects the scope of that lease. */
  lemma EffectiveIsInside(l: L.Ledger, a: Action, leaseId: Id, env: Env, m: T.Meaning)
    requires T.Inv(l, env, m) && Effective(l, a) && a.leaseId == Some(leaseId) && leaseId in l.leases
    ensures m.inside(a, l.leases[leaseId].terms.scope)
    ensures L.Latest(l.decisions, a.id).value.human ==> L.HumanAllows(l, a.id)
  {
  }

  // ----- parking and unparking -----

  predicate SameAttempts(s: M.RunState, t: M.RunState) {
    && |s.steps| == |t.steps| == STEP_COUNT && t.maxAttempts == s.maxAttempts
    && forall i :: 0 <= i < STEP_COUNT ==> t.steps[i].attempts == s.steps[i].attempts
  }

  /** At most the frontier and the run status have moved, and the frontier has not passed. */
  predicate Shifts(s: M.RunState, t: M.RunState)
    requires M.WellFormed(s)
  {
    && M.WellFormed(t) && SameAttempts(s, t) && t.current == s.current && t.flight == s.flight
    && t.finalHash == s.finalHash && (t == s || FrontierMove(s, t))
  }

  lemma ParkShifts(s: M.RunState, block: bool)
    requires Core(s) && !M.StepInFlight(s)
    ensures var t := if block then Park(s, StepStatus.Blocked, RunStatus.Blocked)
                     else Park(s, StepStatus.NeedsHuman, RunStatus.NeedsHuman);
            Shifts(s, t) && Core(t)
  {
    var decision := if block then M.BlockPolicy else M.AskHuman;
    var t := if block then Park(s, StepStatus.Blocked, RunStatus.Blocked)
             else Park(s, StepStatus.NeedsHuman, RunStatus.NeedsHuman);
    if Frontier(s).status.Succeeded? {
      assert t == s;
    } else {
      VerdictKeepsPair(s.status, Frontier(s), s.maxAttempts, decision, 0);
      VerdictTakesEdges(s.status, Frontier(s), s.maxAttempts, decision, 0);
      FrontierMoveKeeps(s, t);
    }
  }

  /** Only the frontier ever waits for a human, so only it can be moved by a decision. */
  lemma DurableShifts(s: M.RunState, k: nat, allow: bool)
    requires Core(s) && k < STEP_COUNT
    ensures Shifts(s, Durable(s, k, allow)) && Core(Durable(s, k, allow))
  {
    assert s.steps[k].status.NeedsHuman? ==> k == s.current;
    var t := Durable(s, k, allow);
    if t != s {
      assert Frontier(s).status.NeedsHuman?;
      FrontierMoveKeeps(s, t);
    }
  }

  lemma ShiftKeeps(s: M.RunState, t: M.RunState, f: Facts)
    requires RunOk(s, f) && Shifts(s, t) && Core(t)
    ensures RunOk(t, f)
  {
    if t != s { FrontierMoveSeals(s, t, f.hash); }
  }

  lemma RunKeepsAttempts(s: M.RunState, hash: M.Hash, c: M.Command)
    requires Core(s) && !c.Begin?
    ensures SameAttempts(s, M.Apply(s, hash, c).state)
  {
    ApplyEffect(s, hash, c);
  }

  // ----- the invariant -----

  /**
   The attempt limit is as before, a lease once attached still is the lease of the
   run, and the leases of the store have taken edges only.
   */
  predicate SameBinding(s: TrustedState, t: TrustedState) {
    && t.run.maxAttempts == s.run.maxAttempts && (s.leaseId.Some? ==> t.leaseId == s.leaseId)
    && TT.LeaseEdges(s.ledger.leases, t.ledger.leases)
  }

  /** A run moves on from its first step only by a PASS. */
  lemma ScopedStays(s: M.RunState, c: M.Command, f: Facts)
    requires RunOk(s, f) && (c.Perform? ==> Works(s, c.work, f))
    ensures Scoped(M.Apply(s, f.hash, c).state, f)
  {
  }

  lemma RunCommandOk(s: M.RunState, c: M.Command, f: Facts)
    requires RunOk(s, f) && (c.Perform? ==> Works(s, c.work, f))
    ensures RunOk(M.Apply(s, f.hash, c).state, f)
  {
    RunInvariants.ApplyKeeps(s, f.hash, c);
    ScopedStays(s, c, f);
  }

  lemma BoundedFrame(s: TrustedState, t: TrustedState, f: Facts)
    requires Enforceable(f, s.run) && Enforceable(f, t.run) && AttemptsBounded(s, f)
    requires t.leaseId == s.leaseId && SameAttempts(s.run, t.run) && TT.LeaseEdges(s.ledger.leases, t.ledger.leases)
    ensures AttemptsBounded(t, f)
  {
  }

  lemma StateKeeps(s: TrustedState, ledger: L.Ledger, run: M.RunState, f: Facts, env: Env, m: T.Meaning)
    requires TInv(s, f, env, m) && T.Inv(ledger, env, m) && TT.LeaseEdges(s.ledger.leases, ledger.leases)
    requires RunOk(run, f) && SameAttempts(s.run, run)
    ensures var t := s.(ledger := ledger, run := run); TInv(t, f, env, m) && SameBinding(s, t)
  {
    BoundedFrame(s, s.(ledger := ledger, run := run), f);
  }

  /** The run as it was, parked or unparked. */
  predicate RunOutcome(s: M.RunState, t: M.RunState)
    requires M.WellFormed(s)
  {
    t == s || t == Unpark(s, s.current) || t == Park(s, StepStatus.Blocked, RunStatus.Blocked)
    || t == Park(s, StepStatus.NeedsHuman, RunStatus.NeedsHuman)
  }

  /** The actions of the next attempt of the current step. */
  function ActionsOf(s: TrustedState, timeout: nat, f: Facts): seq<Action>
    requires Enforceable(f, s.run) && s.leaseId.Some?
  {
    StepActions(f, s.leaseId.value, s.run.current, Current(s.run).attempts, timeout)
  }

  lemma ConclusionIs(s: TrustedState, cleared: Cleared)
    requires M.WellFormed(s.run)
    ensures var a := Conclude(s, cleared);
            && a.state.leaseId == s.leaseId && RunOutcome(s.run, a.state.run) && a.state.ledger == cleared.ledger
            && (a.reply.Done? ==> cleared == Result(a.state.ledger, Clearance.Cleared))
            && (a.reply.Done? ==> a.state.run == Unpark(s.run, s.run.current))
  {
  }

  /** What an authorization under a refreshed lease leaves, and what its success means. */
  lemma OutcomesUnder(s: TrustedState, leaseId: Id, instant: int, timeout: nat, f: Facts, env: Env)
    requires Enforceable(f, s.run) && s.leaseId == Some(leaseId) && leaseId in s.ledger.leases
    ensures var a, actions := AuthorizeUnder(s, leaseId, instant, timeout, f, env), ActionsOf(s, timeout, f);
            var cleared := ClearFirst(s.ledger, instant, actions, env, |actions|);
            && a.state.leaseId == s.leaseId && RunOutcome(s.run, a.state.run)
            && (a.state.ledger == s.ledger || a.state.ledger == cleared.ledger)
            && (a.reply.Done? ==> cleared == Result(a.state.ledger, Clearance.Cleared))
            && (a.reply.Done? ==> a.state.run == Unpark(s.run, s.run.current))
            && (a.reply.Done? ==> Preflight(s.ledger.leases[leaseId], actions))
  {
    var actions := ActionsOf(s, timeout, f);
    ConclusionIs(s, ClearFirst(s.ledger, instant, actions, env, |actions|));
  }

  lemma AuthorizeOutcomes(s: TrustedState, instant: int, timeout: nat, f: Facts, env: Env)
    requires Enforceable(f, s.run) && SideEffect(DEFAULT_STEPS[s.run.current])
    requires s.leaseId.Some? && s.leaseId.value in s.ledger.leases
    ensures var a, actions := Authorize(s, instant, timeout, f, env), ActionsOf(s, timeout, f);
            var r := L.Refresh(s.ledger, s.leaseId.value, instant);
            var cleared := ClearFirst(r, instant, actions, env, |actions|);
            && a.state.leaseId == s.leaseId && RunOutcome(s.run, a.state.run)
            && (a.state.ledger == r || a.state.ledger == cleared.ledger)
            && (a.reply.Done? ==> cleared == Result(a.state.ledger, Clearance.Cleared))
            && (a.reply.Done? ==> a.state.run == Unpark(s.run, s.run.current))
            && (a.reply.Done? ==> Preflight(r.leases[s.leaseId.value], actions))
  {
    var refreshed := s.(ledger := L.Refresh(s.ledger, s.leaseId.value, instant));
    OutcomesUnder(refreshed, s.leaseId.value, instant, timeout, f, env);
  }

  lemma AuthorizedLedger(s: TrustedState, instant: int, timeout: nat, f: Facts, env: Env, m: T.Meaning)
    requires T.Inv(s.ledger, env, m) && m == T.MeaningOf(env) && s.ledger.clock <= instant
    requires Enforceable(f, s.run) && SideEffect(DEFAULT_STEPS[s.run.current])
    requires s.leaseId.Some? && s.leaseId.value in s.ledger.leases
    ensures var t := Authorize(s, instant, timeout, f, env).state.ledger;
            T.Inv(t, env, m) && TT.LeaseEdges(s.ledger.leases, t.leases)
  {
    var r, leaseId := L.Refresh(s.ledger, s.leaseId.value, instant), s.leaseId.value;
    var actions := StepActions(f, leaseId, s.run.current, Current(s.run).attempts, timeout);
    AuthorizeOutcomes(s, instant, timeout, f, env);
    T.RefreshKeeps(s.ledger, leaseId, instant, env, m);
    TT.LapseTakesEdges(s.ledger.leases, leaseId, instant);
    ClearFirstKeeps(r, instant, actions, env, |actions|, m);
    TT.EdgesCompose(s.ledger.leases, r.leases, ClearFirst(r, instant, actions, env, |actions|).ledger.leases);
  }

  lemma OutcomeShifts(s: M.RunState, t: M.RunState)
    requires Core(s) && !M.StepInFlight(s) && RunOutcome(s, t)
    ensures Shifts(s, t) && Core(t)
  {
    ParkShifts(s, true);
    ParkShifts(s, false);
    DurableShifts(s, s.current, true);
  }

  lemma AuthorizedRun(s: TrustedState, instant: int, timeout: nat, f: Facts, env: Env)
    requires Core(s.run) && !M.StepInFlight(s.run) && Enforceable(f, s.run)
    ensures var t := Authorize(s, instant, timeout, f, env).state.run; Shifts(s.run, t) && Core(t)
  {
    if SideEffect(DEFAULT_STEPS[s.run.current]) && s.leaseId.Some? && s.leaseId.value in s.ledger.leases {
      AuthorizeOutcomes(s, instant, timeout, f, env);
      OutcomeShifts(s.run, Authorize(s, instant, timeout, f, env).state.run);
    }
  }

  lemma MoveKeeps(s: TrustedState, t: TrustedState, f: Facts, env: Env, m: T.Meaning)
    requires TInv(s, f, env, m) && t.leaseId == s.leaseId && Shifts(s.run, t.run) && Core(t.run)
    requires T.Inv(t.ledger, env, m) && TT.LeaseEdges(s.ledger.leases, t.ledger.leases)
    ensures TInv(t, f, env, m) && SameBinding(s, t)
  {
    ShiftKeeps(s.run, t.run, f);
    StateKeeps(s, t.ledger, t.run, f, env, m);
  }

  lemma AuthorizedLease(s: TrustedState, instant: int, timeout: nat, f: Facts, env: Env)
    requires Enforceable(f, s.run)
    ensures var t := Authorize(s, instant, timeout, f, env).state;
            t.leaseId == s.leaseId
            && (!SideEffect(DEFAULT_STEPS[s.run.current]) || s.leaseId.None? || s.leaseId.value !in s.ledger.leases
                ==> t == s)
  {
    if SideEffect(DEFAULT_STEPS[s.run.current]) && s.leaseId.Some? && s.leaseId.value in s.ledger.leases {
      AuthorizeOutcomes(s, instant, timeout, f, env);
    }
  }

  lemma LedgerAfterAuthorize(s: TrustedState, instant: int, timeout: nat, f: Facts, env: Env, m: T.Meaning)
    requires T.Inv(s.ledger, env, m) && m == T.MeaningOf(env) && s.ledger.clock <= instant && Enforceable(f, s.run)
    ensures var t := Authorize(s, instant, timeout, f, env).state.ledger;
            T.Inv(t, env, m) && TT.LeaseEdges(s.ledger.leases, t.leases)
  {
    if SideEffect(DEFAULT_STEPS[s.run.current]) && s.leaseId.Some? && s.leaseId.value in s.ledger.leases {
      AuthorizedLedger(s, instant, timeout, f, env, m);
    } else {
      AuthorizedLease(s, instant, timeout, f, env);
    }
  }

  lemma AuthorizeKeeps(s: TrustedState, instant: int, timeout: nat, f: Facts, env: Env, m: T.Meaning)
    requires TInv(s, f, env, m) && m == T.MeaningOf(env) && s.ledger.clock <= instant && !M.StepInFlight(s.run)
    ensures var t := Authorize(s, instant, timeout, f, env).state;
            TInv(t, f, env, m) && SameBinding(s, t) && Shifts(s.run, t.run) && t.leaseId == s.leaseId
  {
    AuthorizedLease(s, instant, timeout, f, env);
    LedgerAfterAuthorize(s, instant, timeout, f, env, m);
    AuthorizedRun(s, instant, timeout, f, env);
    MoveKeeps(s, Authorize(s, instant, timeout, f, env).state, f, env, m);
  }

  lemma BindingComposes(s: TrustedState, t: TrustedState, u: TrustedState)
    requires SameBinding(s, t) && SameBinding(t, u)
    ensures SameBinding(s, u)
  {
    TT.EdgesCompose(s.ledger.leases, t.ledger.leases, u.ledger.leases);
  }

  // ----- starting a step -----

  /** Every action derived for the attempt is effective, unforged and inside the lease of the run. */
  ghost predicate FullyAllowed(t: TrustedState, step: nat, attempts: nat, timeout: nat, f: Facts, m: T.Meaning)
    requires step < STEP_COUNT && step < |f.stepKeys|
  {
    && t.leaseId.Some? && t.leaseId.value in t.ledger.leases
    && AllAllowed(t.ledger, StepActions(f, t.leaseId.value, step, attempts, timeout), t.leaseId.value, m)
  }

  ghost predicate AllAllowed(l: L.Ledger, actions: seq<Action>, leaseId: Id, m: T.Meaning)
    requires leaseId in l.leases
  {
    forall i :: 0 <= i < |actions| ==> Allowed(l, actions[i], leaseId, m)
  }

  ghost predicate Allowed(l: L.Ledger, a: Action, leaseId: Id, m: T.Meaning)
    requires leaseId in l.leases
  {
    && Effective(l, a) && m.inside(a, l.leases[leaseId].terms.scope)
    && (L.Latest(l.decisions, a.id).value.human ==> L.HumanAllows(l, a.id))
  }

  lemma AuthorizedMeansAllowed(s: TrustedState, instant: int, timeout: nat, f: Facts, env: Env, m: T.Meaning)
    requires TInv(s, f, env, m) && m == T.MeaningOf(env) && s.ledger.clock <= instant
    requires SideEffect(DEFAULT_STEPS[s.run.current])
    ensures var a := Authorize(s, instant, timeout, f, env);
            a.reply.Done? ==> FullyAllowed(a.state, s.run.current, Current(s.run).attempts, timeout, f, m)
  {
    var a := Authorize(s, instant, timeout, f, env);
    if a.reply.Done? && s.leaseId.Some? {
      AuthorizeOutcomes(s, instant, timeout, f, env);
      AuthorizedLedger(s, instant, timeout, f, env, m);
      OutcomeIsAllowed(s.leaseId.value, L.Refresh(s.ledger, s.leaseId.value, instant), instant, s.run.current,
                       Current(s.run).attempts, timeout, f, env, m, a.state);
    }
  }

  lemma OutcomeIsAllowed(leaseId: Id, l: L.Ledger, instant: int, step: nat, attempts: nat, timeout: nat, f: Facts,
                         env: Env, m: T.Meaning, t: TrustedState)
    requires step < STEP_COUNT && step < |f.stepKeys| && t.leaseId == Some(leaseId)
    requires T.Inv(t.ledger, env, m) && leaseId in t.ledger.leases
    ensures var actions := StepActions(f, leaseId, step, attempts, timeout);
            ClearFirst(l, instant, actions, env, |actions|) == Result(t.ledger, Clearance.Cleared) ==>
              FullyAllowed(t, step, attempts, timeout, f, m)
  {
    StepActionsNameLease(f, leaseId, step, attempts, timeout);
    ClearedIsAllowed(l, instant, StepActions(f, leaseId, step, attempts, timeout), leaseId, env, m, t.ledger);
  }

  lemma ClearedIsAllowed(l: L.Ledger, instant: int, actions: seq<Action>, leaseId: Id, env: Env, m: T.Meaning,
                         t: L.Ledger)
    requires T.Inv(t, env, m) && leaseId in t.leases && NameLease(actions, leaseId)
    ensures ClearFirst(l, instant, actions, env, |actions|) == Result(t, Clearance.Cleared) ==>
              AllAllowed(t, actions, leaseId, m)
  {
    if ClearFirst(l, instant, actions, env, |actions|) == Result(t, Clearance.Cleared) {
      forall i | 0 <= i < |actions| ensures Allowed(t, actions[i], leaseId, m) {
        ClearFirstMeans(l, instant, actions, env, |actions|, i);
        EffectiveIsInside(t, actions[i], leaseId, env, m);
      }
    }
  }

  predicate NameLease(actions: seq<Action>, leaseId: Id) {
    forall i :: 0 <= i < |actions| ==> actions[i].leaseId == Some(leaseId)
  }

  lemma StepActionsNameLease(f: Facts, leaseId: Id, step: nat, attempts: nat, timeout: nat)
    requires step < STEP_COUNT && step < |f.stepKeys|
    ensures NameLease(StepActions(f, leaseId, step, attempts, timeout), leaseId)
  {
  }

  /** An allowed attempt is within the retries of the lease. */
  lemma AllowedIsBounded(t: TrustedState, step: nat, attempts: nat, timeout: nat, f: Facts, env: Env, m: T.Meaning)
    requires step < STEP_COUNT && |f.stepKeys| == STEP_COUNT && SideEffect(DEFAULT_STEPS[step]) && m == T.MeaningOf(env)
    requires DEFAULT_STEPS[step].RunValidation? ==> f.testPlan != []
    requires FullyAllowed(t, step, attempts, timeout, f, m)
    ensures attempts <= t.ledger.leases[t.leaseId.value].terms.scope.maxRetries
  {
    var actions := StepActions(f, t.leaseId.value, step, attempts, timeout);
    assert actions != [] && actions[0].retryNumber == attempts;
    assert Allowed(t.ledger, actions[0], t.leaseId.value, m);
  }

  /** One more attempt of step k, which the lease permits if the step has side effects. */
  lemma OneMoreAttempt(s: TrustedState, t: TrustedState, k: nat, f: Facts)
    requires Enforceable(f, s.run) && Enforceable(f, t.run) && AttemptsBounded(s, f) && k < STEP_COUNT
    requires t.leaseId == s.leaseId && t.ledger == s.ledger && t.run.maxAttempts == s.run.maxAttempts
    requires forall i :: 0 <= i < STEP_COUNT && i != k ==> t.run.steps[i].attempts == s.run.steps[i].attempts
    requires t.run.steps[k].attempts <= s.run.steps[k].attempts + 1
    requires SideEffect(DEFAULT_STEPS[k]) ==>
               s.leaseId.Some? && s.run.steps[k].attempts <= s.ledger.leases[s.leaseId.value].terms.scope.maxRetries
    ensures AttemptsBounded(t, f)
  {
  }

  /** Starting the frontier adds one attempt to it and to nothing else. */
  lemma StartKeeps(a: TrustedState, now: int, worker: string, token: string, seconds: nat, f: Facts, env: Env,
                   m: T.Meaning)
    requires TInv(a, f, env, m)
    requires SideEffect(DEFAULT_STEPS[a.run.current]) ==>
               a.leaseId.Some?
               && Current(a.run).attempts <= a.ledger.leases[a.leaseId.value].terms.scope.maxRetries
    ensures var t := a.(run := M.BeginExecution(a.run, now, worker, token, seconds).state);
            TInv(t, f, env, m) && SameBinding(a, t)
  {
    RunCommandOk(a.run, M.Begin(now, worker, token, seconds), f);
    StartAttempts(a.run, now, worker, token, seconds);
    OneMoreAttempt(a, a.(run := M.BeginExecution(a.run, now, worker, token, seconds).state), a.run.current, f);
  }

  lemma StartAttempts(s: M.RunState, now: int, worker: string, token: string, seconds: nat)
    requires Core(s)
    ensures var t := M.BeginExecution(s, now, worker, token, seconds).state;
            && M.WellFormed(t) && t.maxAttempts == s.maxAttempts
            && t.steps[s.current].attempts <= s.steps[s.current].attempts + 1
            && forall i :: 0 <= i < STEP_COUNT && i != s.current ==> t.steps[i].attempts == s.steps[i].attempts
  {
    BeginEffect(s, now, worker, token, seconds);
  }

  lemma AuthorizedIsBounded(s: TrustedState, instant: int, timeout: nat, f: Facts, env: Env, m: T.Meaning)
    requires TInv(s, f, env, m) && m == T.MeaningOf(env) && s.ledger.clock <= instant
    requires SideEffect(DEFAULT_STEPS[s.run.current])
    ensures var a := Authorize(s, instant, timeout, f, env);
            a.reply.Done? ==>
              && a.state.leaseId.Some? && a.state.leaseId.value in a.state.ledger.leases
              && Current(s.run).attempts <= a.state.ledger.leases[a.state.leaseId.value].terms.scope.maxRetries
  {
    AuthorizedMeansAllowed(s, instant, timeout, f, env, m);
    var a := Authorize(s, instant, timeout, f, env);
    if a.reply.Done? {
      AllowedIsBounded(a.state, s.run.current, Current(s.run).attempts, timeout, f, env, m);
    }
  }

  lemma BeginKeeps(s: TrustedState, now: int, instant: int, worker: string, token: string, seconds: nat, timeout: nat,
                   f: Facts, env: Env, m: T.Meaning)
    requires TInv(s, f, env, m) && m == T.MeaningOf(env) && s.ledger.clock <= instant
    ensures var t := Begin(s, now, instant, worker, token, seconds, timeout, f, env).state;
            TInv(t, f, env, m) && SameBinding(s, t)
  {
    if s.run.flight.None? && !M.StepInFlight(s.run) {
      var a := Authorize(s, instant, timeout, f, env);
      AuthorizeKeeps(s, instant, timeout, f, env, m);
      if a.reply.Done? {
        if SideEffect(DEFAULT_STEPS[s.run.current]) { AuthorizedIsBounded(s, instant, timeout, f, env, m); }
        StartKeeps(a.state, now, worker, token, seconds, f, env, m);
        BindingComposes(s, a.state, a.state.(run := M.BeginExecution(a.state.run, now, worker, token, seconds).state));
      }
    }
  }

  lemma AttachOutcomes(s: TrustedState, instant: int, leaseId: Id, f: Facts)
    requires Enforceable(f, s.run)
    ensures var a, r := Attach(s, instant, leaseId, f).state, L.Refresh(s.ledger, leaseId, instant);
            a == s || a == s.(ledger := r)
            || (a == s.(ledger := r, leaseId := Some(leaseId)) && s.leaseId.None? && !SideEffectAttempted(s.run)
                && leaseId in r.leases && TermsFit(r.leases[leaseId].terms, f, s.run.maxAttempts))
  {
  }

  /** A run without side-effect attempts may be given a lease that fits it. */
  lemma BoundKeeps(s: TrustedState, leaseId: Id, f: Facts, env: Env, m: T.Meaning)
    requires TInv(s, f, env, m) && s.leaseId.None? && !SideEffectAttempted(s.run)
    requires leaseId in s.ledger.leases && TermsFit(s.ledger.leases[leaseId].terms, f, s.run.maxAttempts)
    ensures TInv(s.(leaseId := Some(leaseId)), f, env, m)
  {
  }

  lemma AttachKeeps(s: TrustedState, instant: int, leaseId: Id, f: Facts, env: Env, m: T.Meaning)
    requires TInv(s, f, env, m) && s.ledger.clock <= instant
    ensures var t := Attach(s, instant, leaseId, f).state; TInv(t, f, env, m) && SameBinding(s, t)
  {
    var r := L.Refresh(s.ledger, leaseId, instant);
    T.RefreshKeeps(s.ledger, leaseId, instant, env, m);
    TT.LapseTakesEdges(s.ledger.leases, leaseId, instant);
    StateKeeps(s, r, s.run, f, env, m);
    AttachOutcomes(s, instant, leaseId, f);
    if Attach(s, instant, leaseId, f).state == s.(ledger := r, leaseId := Some(leaseId)) && s.leaseId.None? {
      BoundKeeps(s.(ledger := r), leaseId, f, env, m);
    }
  }

  lemma DecideOutcomes(s: TrustedState, id: Id, reviewer: bool, allow: bool, reason: string, f: Facts)
    requires Enforceable(f, s.run)
    ensures var t, decided := Decide(s, id, reviewer, allow, reason, f).state,
                              L.Authorize(s.ledger, id, reviewer, allow, reason).ledger;
            && t.ledger == decided && t.leaseId == s.leaseId
            && (t.run == s.run || exists k, verdict :: 0 <= k < STEP_COUNT && t.run == Durable(s.run, k, verdict))
  {
  }

  lemma DecideKeeps(s: TrustedState, id: Id, reviewer: bool, allow: bool, reason: string, f: Facts, env: Env,
                    m: T.Meaning)
    requires TInv(s, f, env, m)
    ensures var t := Decide(s, id, reviewer, allow, reason, f).state; TInv(t, f, env, m) && SameBinding(s, t)
  {
    var t := Decide(s, id, reviewer, allow, reason, f).state;
    T.AuthorizeKeeps(s.ledger, id, reviewer, allow, reason, env, m);
    DecideOutcomes(s, id, reviewer, allow, reason, f);
    DecisionShifts(s.run, t.run, f);
    StateKeeps(s, t.ledger, t.run, f, env, m);
  }

  lemma DecisionShifts(s: M.RunState, t: M.RunState, f: Facts)
    requires RunOk(s, f)
    requires t == s || exists k, verdict :: 0 <= k < STEP_COUNT && t == Durable(s, k, verdict)
    ensures RunOk(t, f) && Shifts(s, t)
  {
    if t != s {
      var k, verdict :| 0 <= k < STEP_COUNT && t == Durable(s, k, verdict);
      DurableShifts(s, k, verdict);
      ShiftKeeps(s, t, f);
    }
  }

  lemma RunCommandKeeps(s: TrustedState, c: M.Command, f: Facts, env: Env, m: T.Meaning)
    requires TInv(s, f, env, m) && !c.Begin? && (c.Perform? ==> Works(s.run, c.work, f))
    ensures var t := s.(run := M.Apply(s.run, f.hash, c).state); TInv(t, f, env, m) && SameBinding(s, t)
  {
    RunCommandOk(s.run, c, f);
    RunKeepsAttempts(s.run, f.hash, c);
    StateKeeps(s, s.ledger, M.Apply(s.run, f.hash, c).state, f, env, m);
  }

  lemma LedgerCommandKeeps(s: TrustedState, c: L.Command, f: Facts, env: Env, m: T.Meaning)
    requires TInv(s, f, env, m) && m == T.MeaningOf(env) && L.Admissible(s.ledger, c)
    ensures var t := s.(ledger := L.Apply(s.ledger, c, env).ledger); TInv(t, f, env, m) && SameBinding(s, t)
  {
    T.ApplyKeeps(s.ledger, c, env, m);
    TT.ApplyTakesEdges(s.ledger, c, env);
    StateKeeps(s, L.Apply(s.ledger, c, env).ledger, s.run, f, env, m);
  }

  lemma ApplyKeeps(s: TrustedState, c: Command, f: Facts, env: Env, m: T.Meaning)
    requires TInv(s, f, env, m) && m == T.MeaningOf(env) && Admissible(s, c, f)
    ensures var t := Apply(s, c, f, env).state; TInv(t, f, env, m) && SameBinding(s, t)
  {
    match c
    case TBegin(now, instant, worker, token, seconds, timeout) =>
      BeginKeeps(s, now, instant, worker, token, seconds, timeout, f, env, m);
    case TRun(run) => RunCommandKeeps(s, run, f, env, m);
    case TLedger(ledger) => LedgerCommandKeeps(s, ledger, f, env, m);
    case TAttach(instant, leaseId) => AttachKeeps(s, instant, leaseId, f, env, m);
    case TDecide(id, reviewer, allow, reason) => DecideKeeps(s, id, reviewer, allow, reason, f, env, m);
  }

  // ----- histories -----

  ghost function Replay(maxAttempts: nat, history: seq<Command>, f: Facts, env: Env): (s: TrustedState)
    requires |f.stepKeys| == STEP_COUNT
    ensures Enforceable(f, s.run)
  {
    if history == [] then TrustedState(M.Create(maxAttempts), L.EMPTY, None)
    else
      Apply(Replay(maxAttempts, history[..|history| - 1], f, env), history[|history| - 1], f, env).state
  }

  ghost predicate AdmissibleRun(maxAttempts: nat, history: seq<Command>, f: Facts, env: Env)
    requires |f.stepKeys| == STEP_COUNT
  {
    forall i :: 0 <= i < |history| ==> Admissible(Replay(maxAttempts, history[..i], f, env), history[i], f)
  }

  lemma EarlierIsAdmissible(maxAttempts: nat, history: seq<Command>, f: Facts, env: Env)
    requires |f.stepKeys| == STEP_COUNT && AdmissibleRun(maxAttempts, history, f, env) && history != []
    ensures AdmissibleRun(maxAttempts, history[..|history| - 1], f, env)
  {
    var earlier := history[..|history| - 1];
    forall i | 0 <= i < |earlier| ensures Admissible(Replay(maxAttempts, earlier[..i], f, env), earlier[i], f) {
      assert earlier[..i] == history[..i];
    }
  }

  lemma {:induction false} HistoryKeeps(maxAttempts: nat, history: seq<Command>, f: Facts, env: Env)
    requires 1 <= maxAttempts && |f.stepKeys| == STEP_COUNT && AdmissibleRun(maxAttempts, history, f, env)
    ensures TInv(Replay(maxAttempts, history, f, env), f, env, T.MeaningOf(env))
  {
    if history == [] {
      CreateEstablishes(maxAttempts, f.hash);
      TT.EmptyIsSound(env, T.MeaningOf(env));
    } else {
      var earlier := history[..|history| - 1];
      EarlierIsAdmissible(maxAttempts, history, f, env);
      HistoryKeeps(maxAttempts, earlier, f, env);
      ApplyKeeps(Replay(maxAttempts, earlier, f, env), history[|history| - 1], f, env, T.MeaningOf(env));
    }
  }
}
