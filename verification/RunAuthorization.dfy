/**
 The authorization of a run step and the human decision on an action, as they
 update the run and the trust store in place.
 */
module RunAuthorization {
  import opened Options
  import opened RunStates
  import M = MissionControl
  import S = Supervisor
  import opened TrustPolicy
  import L = TrustLedger
  import opened TrustStore
  import opened TrustedRun

  /** A known action must be the very one proposed; an unknown one is evaluated. */
  method ClearAction(store: Store, instant: int, a: Action) returns (clearance: Clearance)
    modifies store
    ensures Result(store.State(), clearance) == ClearOne(old(store.State()), instant, a, store.env)
  {
    if a.id in store.actions {
      if store.actions[a.id] != a { return MustBlock; }
    } else {
      var _ := store.EvaluateGatewayAction(instant, a);
    }
    var latest := store.LatestDecision(a.id);
    if latest.None? || latest.value.verdict.Block? { return MustBlock; }
    if latest.value.verdict.RequireApproval? { return MustAsk; }
    clearance := Cleared;
  }

  method ClearActions(store: Store, instant: int, actions: seq<Action>) returns (clearance: Clearance)
    modifies store
    ensures Result(store.State(), clearance) == ClearFirst(old(store.State()), instant, actions, store.env, |actions|)
  {
    ghost var l := store.State();
    clearance := Cleared;
    var k := 0;
    while k < |actions|
      invariant 0 <= k <= |actions| && clearance.Cleared?
      invariant Result(store.State(), clearance) == ClearFirst(l, instant, actions, store.env, k)
    {
      ClearOneMore(l, store.State(), instant, actions, store.env, k);
      clearance := ClearAction(store, instant, actions[k]);
      k := k + 1;
      if !clearance.Cleared? {
        ClearStops(l, instant, actions, store.env, k, |actions|);
        return;
      }
    }
  }

  lemma ClearOneMore(l: L.Ledger, t: L.Ledger, instant: int, actions: seq<Action>, env: Env, k: nat)
    requires k < |actions| && ClearFirst(l, instant, actions, env, k) == Result(t, Clearance.Cleared)
    ensures ClearFirst(l, instant, actions, env, k + 1) == ClearOne(t, instant, actions[k], env)
  {
  }

  lemma {:induction false} ClearStops(l: L.Ledger, instant: int, actions: seq<Action>, env: Env, k: nat, n: nat)
    requires k <= n <= |actions| && !ClearFirst(l, instant, actions, env, k).clearance.Cleared?
    ensures ClearFirst(l, instant, actions, env, n) == ClearFirst(l, instant, actions, env, k)
    decreases n
  {
    if k < n { ClearStops(l, instant, actions, env, k, n - 1); }
  }

  /** Moves the current step, then the run; at a step boundary no worker lease is lost by it. */
  method ParkRun(run: S.AgentRun, step: StepStatus, target: RunStatus)
    requires run.Valid() && run.lease.None? && !step.Running?
    modifies run
    ensures run.Valid() && run.State() == Park(old(run.State()), step, target)
  {
    var _ := run.SettlePair(run.current, step, target);
  }

  method UnparkRun(run: S.AgentRun, k: nat)
    requires run.Valid() && k < STEP_COUNT
    modifies run
    ensures run.Valid() && run.State() == Unpark(old(run.State()), k)
  {
    if run.steps[k].status.NeedsHuman? {
      var _ := run.MoveStep(k, StepStatus.Ready);
    }
    if run.status.NeedsHuman? {
      var _ := run.MoveRun(RunStatus.Scheduled);
    }
  }

  method DenyRun(run: S.AgentRun, k: nat)
    requires run.Valid() && k < STEP_COUNT
    modifies run
    ensures run.Valid() && run.State() == Durable(old(run.State()), k, false)
  {
    if run.steps[k].status.NeedsHuman? {
      var _ := run.MoveStep(k, StepStatus.Blocked);
    }
    if run.status.NeedsHuman? {
      var _ := run.MoveRun(RunStatus.Blocked);
    }
  }

  /** The step and the store after an authorization; true when the step may start. */
  method AuthorizeRunStep(run: S.AgentRun, store: Store, leaseId: Option<Id>, instant: int, timeout: nat, f: Facts)
      returns (reply: M.Reply)
    requires run.Valid() && run.lease.None? && |f.stepKeys| == STEP_COUNT
    modifies run, store
    ensures run.Valid()
    ensures Next(TrustedState(run.State(), store.State(), leaseId), reply)
         == Authorize(TrustedState(old(run.State()), old(store.State()), leaseId), instant, timeout, f, store.env)
  {
    if !SideEffect(DEFAULT_STEPS[run.current]) { return M.Done; }
    if leaseId.None? || leaseId.value !in store.leases { return M.Conflict; }
    reply := AuthorizeUnder(run, store, leaseId.value, instant, timeout, f);
  }

  method AuthorizeUnder(run: S.AgentRun, store: Store, leaseId: Id, instant: int, timeout: nat, f: Facts)
      returns (reply: M.Reply)
    requires run.Valid() && run.lease.None? && |f.stepKeys| == STEP_COUNT
    requires SideEffect(DEFAULT_STEPS[run.current]) && leaseId in store.leases
    modifies run, store
    ensures run.Valid()
    ensures Next(TrustedState(run.State(), store.State(), Some(leaseId)), reply)
         == Authorize(TrustedState(old(run.State()), old(store.State()), Some(leaseId)), instant, timeout, f, store.env)
  {
    store.RefreshLease(leaseId, instant);
    if !LeaseFits(store.leases[leaseId], f, run.maxAttempts) {
      ParkRun(run, StepStatus.Blocked, RunStatus.Blocked);
      return M.Conflict;
    }
    var attempts := run.steps[run.current].attempts;
    var actions := StepActions(f, leaseId, run.current, attempts, timeout);
    if actions != [] && attempts > MAX_RETRY_NUMBER { return M.Illegal; }
    if !Preflight(store.leases[leaseId], actions) {
      ParkRun(run, StepStatus.Blocked, RunStatus.Blocked);
      return M.Conflict;
    }
    var clearance := ClearActions(store, instant, actions);
    match clearance
    case MustBlock =>
      ParkRun(run, StepStatus.Blocked, RunStatus.Blocked);
      reply := M.Conflict;
    case MustAsk =>
      ParkRun(run, StepStatus.NeedsHuman, RunStatus.NeedsHuman);
      reply := M.Conflict;
    case Cleared =>
      UnparkRun(run, run.current);
      reply := M.Done;
  }

  /** Some side-effect step has been attempted. */
  method AnySideEffectAttempted(run: S.AgentRun) returns (found: bool)
    requires run.Valid()
    ensures found <==> SideEffectAttempted(run.State())
  {
    var i := 0;
    while i < STEP_COUNT
      invariant 0 <= i <= STEP_COUNT
      invariant forall j :: 0 <= j < i ==> !(SideEffect(DEFAULT_STEPS[j]) && run.steps[j].attempts > 0)
    {
      if SideEffect(DEFAULT_STEPS[i]) && run.steps[i].attempts > 0 { return true; }
      i := i + 1;
    }
    found := false;
  }

  /** A run, the store it shares with others, and the lease it is bound to. */
  class GovernedRun {
    const run: S.AgentRun
    const store: Store
    const facts: Facts
    var leaseId: Option<Id>

    ghost function State(): TrustedState
      reads this, run, store
    {
      TrustedState(run.State(), store.State(), leaseId)
    }

    ghost predicate Valid()
      reads this, run
    {
      run.Valid() && |facts.stepKeys| == STEP_COUNT
    }

    constructor (run: S.AgentRun, store: Store, facts: Facts)
      requires run.Valid() && |facts.stepKeys| == STEP_COUNT
      ensures Valid() && this.run == run && this.store == store && this.facts == facts
      ensures State() == TrustedState(run.State(), store.State(), None)
    {
      this.run, this.store, this.facts, leaseId := run, store, facts, None;
    }

    method AttachCapabilityLease(instant: int, id: Id) returns (reply: M.Reply)
      requires Valid()
      modifies this, store
      ensures Valid() && Next(State(), reply) == Attach(old(State()), instant, id, facts)
    {
      if leaseId.Some? { return if leaseId.value == id then M.Done else M.Conflict; }
      if TerminalRun(run.status) || run.status.Evaluating? || run.lease.Some? { return M.Conflict; }
      if run.steps[run.current].status.Running? { return M.Conflict; }
      var attempted := AnySideEffectAttempted(run);
      if attempted || id !in store.leases { return M.Conflict; }
      store.RefreshLease(id, instant);
      if !LeaseFits(store.leases[id], facts, run.maxAttempts) { return M.Conflict; }
      leaseId := Some(id);
      reply := M.Done;
    }

    /** An execution request up to the worker, under the per-run lock. */
    method ExecuteNextStep(now: int, instant: int, worker: string, token: string, seconds: nat, timeout: nat)
        returns (reply: M.Reply)
      requires Valid()
      modifies run, store
      ensures Valid()
      ensures Next(State(), reply)
           == Begin(old(State()), now, instant, worker, token, seconds, timeout, facts, store.env)
    {
      if run.flight.Some? || run.steps[run.current].status.Running? || run.lease.Some? { return M.Conflict; }
      reply := AuthorizeRunStep(run, store, leaseId, instant, timeout, facts);
      if reply.Done? {
        reply := run.BeginStep(now, worker, token, seconds);
      }
    }

    /** Records the decision, then moves the run of the action if it is this one. */
    method DecideAction(id: Id, reviewer: bool, allow: bool, reason: string) returns (reply: M.Reply)
      requires Valid()
      modifies run, store
      ensures Valid() && Next(State(), reply) == Decide(old(State()), id, reviewer, allow, reason, facts)
    {
      var recorded := store.RecordActionAuthorization(id, reviewer, allow, reason);
      if !recorded.Done? { return M.Conflict; }
      reply := M.Done;
      if id !in store.actions || id !in store.authorizations { return; }
      var target := StepOf(facts, store.actions[id], 0);
      if store.actions[id].runId != Some(facts.runId) || target.None? || target.value >= STEP_COUNT { return; }
      if store.authorizations[id].allow {
        UnparkRun(run, target.value);
      } else {
        DenyRun(run, target.value);
      }
    }
  }
}
