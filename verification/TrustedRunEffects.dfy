/**
 What authorization, a lease and a human decision do to a run under trust
 enforcement, said of the run and the store before and after.
 */
module TrustedRunEffects {
  import opened Options
  import opened RunStates
  import M = MissionControl
  import opened RunInvariants
  import RunTheorems
  import opened TrustPolicy
  import L = TrustLedger
  import T = TrustInvariants
  import opened TrustEffects
  import opened TrustedRun
  import opened TrustedRunInvariants

  // ----- the actions of an attempt -----

  /** One action for the branch, the files and the pull request; one for every approved test. */
  function ActionCount(step: nat, f: Facts): nat
    requires step < STEP_COUNT
  {
    if step == 3 then |f.testPlan| else if step == 1 || step == 2 || step == 4 then 1 else 0
  }

  /** Every field of the i-th action of an attempt. */
  lemma ActionIs(f: Facts, leaseId: Id, step: nat, attempts: nat, timeout: nat, i: nat)
    requires step < STEP_COUNT && |f.stepKeys| == STEP_COUNT && i < ActionCount(step, f)
    ensures |StepActions(f, leaseId, step, attempts, timeout)| == ActionCount(step, f)
    ensures var a := StepActions(f, leaseId, step, attempts, timeout)[i];
            && a.id == f.actionId(step, attempts + 1, leaseId, i) && a.leaseId == Some(leaseId)
            && a.provider == f.provider && a.agent == f.agent
            && a.runId == Some(f.runId) && a.taskId == Some(f.taskId) && a.metadata == f.stepKeys[step]
            && a.repository == Some(f.repository) && a.branch == Some(f.branch) && !a.autoMerge
            && a.runtime == timeout && a.cost == 0.0 && a.retryNumber == attempts && a.domains == []
            && a.paths == (if step == 2 then f.paths else [])
            && a.command == (if step == 3 then Some(f.testPlan[i]) else None)
            && a.actionType == (if step == 1 then ActionType.CreateBranch else if step == 2 then ModifyFiles
                                else if step == 3 then RunCommand else ActionType.CreatePullRequest)
  {
  }

  lemma SideEffectSteps(step: nat)
    requires step < STEP_COUNT
    ensures SideEffect(DEFAULT_STEPS[step]) <==> 1 <= step <= 4
  {
  }

  // ----- lease and preflight in order -----

  /** The lease is in force and was issued for this approval, this agent and as many attempts as the run may make. */
  predicate InOrder(lease: Lease, instant: int, f: Facts, maxAttempts: nat) {
    var t := lease.terms;
    && lease.status.Active? && instant < t.expiresAt
    && t.approvalId == f.approvalId && t.payloadHash == f.payloadHash
    && t.scope.repository == f.repository && t.scope.branch == f.branch && maxAttempts <= t.scope.maxRetries + 1
    && t.provider == f.provider && (t.agent.None? || t.agent.value == "" || t.agent == f.agent)
  }

  /** What the lease has left covers the timeouts of all actions of the step and its pull request. */
  predicate Roomy(lease: Lease, step: nat, timeout: nat, f: Facts)
    requires step < STEP_COUNT
  {
    var spent, scope := lease.spent, lease.terms.scope;
    && spent.runtime + ActionCount(step, f) * timeout <= scope.maxRuntime
    && spent.cost <= scope.maxCost
    && spent.pullRequests + (if step == 4 then 1 else 0) <= scope.maxPullRequests
  }

  predicate Uniform(actions: seq<Action>, timeout: nat, pullRequest: bool) {
    forall i :: 0 <= i < |actions| ==>
      && actions[i].runtime == timeout && actions[i].cost == 0.0
      && (actions[i].actionType.CreatePullRequest? <==> pullRequest)
  }

  lemma {:induction false} TotalsOf(actions: seq<Action>, timeout: nat, pullRequest: bool)
    requires Uniform(actions, timeout, pullRequest)
    ensures TotalRuntime(actions) == |actions| * timeout && TotalCost(actions) == 0.0
    ensures TotalPullRequests(actions) == if pullRequest then |actions| else 0
  {
    if actions != [] { TotalsOf(actions[..|actions| - 1], timeout, pullRequest); }
  }

  lemma PreflightIff(lease: Lease, f: Facts, leaseId: Id, step: nat, attempts: nat, timeout: nat)
    requires 1 <= step <= 4 && |f.stepKeys| == STEP_COUNT
    ensures Preflight(lease, StepActions(f, leaseId, step, attempts, timeout)) <==> Roomy(lease, step, timeout, f)
  {
    var actions := StepActions(f, leaseId, step, attempts, timeout);
    forall i | 0 <= i < |actions|
      ensures && actions[i].runtime == timeout && actions[i].cost == 0.0
              && (actions[i].actionType.CreatePullRequest? <==> step == 4)
    {
      ActionIs(f, leaseId, step, attempts, timeout, i);
    }
    TotalsOf(actions, timeout, step == 4);
  }

  lemma FitsIffInOrder(lease: Lease, aged: Lease, instant: int, f: Facts, maxAttempts: nat)
    requires Aged(lease, aged, instant)
    ensures LeaseFits(aged, f, maxAttempts) <==> InOrder(lease, instant, f, maxAttempts)
  {
  }

  // ----- where the loop over the actions stops -----

  /** The action stands in the store as proposed, and a human is asked about it. */
  predicate Awaits(l: L.Ledger, a: Action) {
    && a.id in l.actions && l.actions[a.id] == a
    && var latest := L.Latest(l.decisions, a.id);
    latest.Some? && latest.value.verdict.RequireApproval?
  }

  /** All of the first n actions are allowed. */
  predicate Passed(l: L.Ledger, actions: seq<Action>, n: nat)
    requires n <= |actions|
  {
    forall i :: 0 <= i < n ==> Effective(l, actions[i])
  }

  /** Action k is the first that is not allowed. */
  predicate Hurdle(l: L.Ledger, actions: seq<Action>, k: nat) {
    k < |actions| && !Effective(l, actions[k]) && Passed(l, actions, k)
  }

  lemma ClearOneStops(l: L.Ledger, instant: int, a: Action, env: Env, other: Action)
    ensures var r := ClearOne(l, instant, a, env);
            && (r.clearance.Cleared? <==> Effective(r.ledger, a))
            && (r.clearance.MustAsk? <==> Awaits(r.ledger, a))
            && (Effective(l, other) ==> Effective(r.ledger, other))
  {
    if a.id !in l.actions {
      var lease := EvaluateEffect(l, instant, a, env);
      var d := L.Decision(a.id, Evaluate(a, lease, instant, env), false);
      T.LatestAppended(l.decisions, d, other.id);
      T.LatestAppended(l.decisions, d, a.id);
    }
  }

  lemma PassedStays(l: L.Ledger, instant: int, actions: seq<Action>, env: Env, k: nat)
    requires k < |actions| && Passed(l, actions, k)
    ensures Passed(ClearOne(l, instant, actions[k], env).ledger, actions, k)
  {
    forall i | 0 <= i < k ensures Effective(ClearOne(l, instant, actions[k], env).ledger, actions[i]) {
      ClearOneStops(l, instant, actions[k], env, actions[i]);
    }
  }

  /** The loop goes through with all actions allowed, or stops at the first that is not. */
  predicate Stops(r: Cleared, actions: seq<Action>, n: nat, k: nat)
    requires n <= |actions|
  {
    if r.clearance.Cleared? then k == n && Passed(r.ledger, actions, n)
    else k < n && Hurdle(r.ledger, actions, k) && (r.clearance.MustAsk? <==> Awaits(r.ledger, actions[k]))
  }

  lemma StopsNow(l: L.Ledger, instant: int, actions: seq<Action>, env: Env, n: nat) returns (k: nat)
    requires n < |actions| && Passed(l, actions, n)
    ensures Stops(ClearOne(l, instant, actions[n], env), actions, n + 1, k)
    ensures n <= k
  {
    PassedStays(l, instant, actions, env, n);
    ClearOneStops(l, instant, actions[n], env, actions[n]);
    k := if ClearOne(l, instant, actions[n], env).clearance.Cleared? then n + 1 else n;
  }

  // ----- what the loop leaves in the store -----

  /** What was known is as it was: the action and the latest decision on it. */
  predicate Kept(l: L.Ledger, t: L.Ledger, id: Id) {
    id in l.actions ==>
      && id in t.actions && t.actions[id] == l.actions[id]
      && L.Latest(t.decisions, id) == L.Latest(l.decisions, id)
  }

  /** The i-th action is known; if it was not before, it was evaluated now. */
  predicate Reached(l: L.Ledger, t: L.Ledger, actions: seq<Action>, i: nat, lease: Lease, instant: int, env: Env)
    requires i < |actions|
  {
    var id := actions[i].id;
    && id in t.actions
    && (id !in l.actions ==>
          L.Latest(t.decisions, id)
          == Some(L.Decision(id, Evaluate(t.actions[id], Some(lease), instant, env), false)))
  }

  /** Whatever has come into the store is one of the first m actions. */
  predicate CameIn(l: L.Ledger, t: L.Ledger, actions: seq<Action>, m: nat, id: Id)
    requires m <= |actions|
  {
    id in t.actions && id !in l.actions ==> t.actions[id].id == id && t.actions[id] in actions[..m]
  }

  /** From `l` to `t` the first m actions, and no others, have been looked up or evaluated. */
  ghost predicate Looked(l: L.Ledger, t: L.Ledger, actions: seq<Action>, m: nat, lease: Lease, instant: int, env: Env)
    requires m <= |actions|
  {
    && t == l.(actions := t.actions, decisions := t.decisions)
    && (forall id :: Kept(l, t, id))
    && (forall i :: 0 <= i < m ==> Reached(l, t, actions, i, lease, instant, env))
    && (forall id :: CameIn(l, t, actions, m, id))
  }

  /** Time has done to the lease what it does at this instant. */
  predicate UpToDate(l: L.Ledger, leaseId: Id, instant: int) {
    && l.clock == instant && leaseId in l.leases
    && (l.leases[leaseId].status.Active? ==> instant < l.leases[leaseId].terms.expiresAt)
  }

  lemma ClearOneLedgerIs(l: L.Ledger, instant: int, a: Action, env: Env, leaseId: Id)
    requires UpToDate(l, leaseId, instant) && a.leaseId == Some(leaseId)
    ensures ClearOne(l, instant, a, env).ledger
         == if a.id in l.actions then l
            else l.(actions := l.actions[a.id := a],
                    decisions := l.decisions
                                 + [L.Decision(a.id, Evaluate(a, Some(l.leases[leaseId]), instant, env), false)])
  {
    if a.id !in l.actions {
      var lease := EvaluateEffect(l, instant, a, env);
      assert l.leases[leaseId := l.leases[leaseId]] == l.leases;
    }
  }

  /** Action m is new to the store, and is evaluated. */
  predicate Adds(earlier: L.Ledger, t: L.Ledger, actions: seq<Action>, m: nat, lease: Lease, instant: int, env: Env)
    requires m < |actions|
  {
    var a := actions[m];
    && a.id !in earlier.actions
    && t == earlier.(actions := earlier.actions[a.id := a],
                     decisions := earlier.decisions
                                  + [L.Decision(a.id, Evaluate(a, Some(lease), instant, env), false)])
  }

  lemma AddedKeeps(l: L.Ledger, earlier: L.Ledger, t: L.Ledger, actions: seq<Action>, m: nat, lease: Lease,
                   instant: int, env: Env, id: Id)
    requires m < |actions| && Adds(earlier, t, actions, m, lease, instant, env)
    requires Kept(l, earlier, id) && CameIn(l, earlier, actions, m, id)
    ensures Kept(l, t, id) && CameIn(l, t, actions, m + 1, id)
  {
    var d := L.Decision(actions[m].id, Evaluate(actions[m], Some(lease), instant, env), false);
    T.LatestAppended(earlier.decisions, d, id);
    assert actions[..m + 1] == actions[..m] + [actions[m]];
  }

  lemma AddedReaches(l: L.Ledger, earlier: L.Ledger, t: L.Ledger, actions: seq<Action>, m: nat, lease: Lease,
                     instant: int, env: Env, i: nat)
    requires m < |actions| && Adds(earlier, t, actions, m, lease, instant, env) && i <= m
    requires i < m ==> Reached(l, earlier, actions, i, lease, instant, env)
    ensures Reached(l, t, actions, i, lease, instant, env)
  {
    var d := L.Decision(actions[m].id, Evaluate(actions[m], Some(lease), instant, env), false);
    T.LatestAppended(earlier.decisions, d, actions[i].id);
  }

  lemma KnownLooks(l: L.Ledger, t: L.Ledger, actions: seq<Action>, m: nat, lease: Lease, instant: int, env: Env)
    requires m < |actions| && actions[m].id in t.actions && Looked(l, t, actions, m, lease, instant, env)
    ensures Looked(l, t, actions, m + 1, lease, instant, env)
  {
    var n := m + 1;
    forall id ensures CameIn(l, t, actions, n, id) {
      assert CameIn(l, t, actions, m, id);
      assert actions[..m + 1] == actions[..m] + [actions[m]];
    }
    assert CameIn(l, t, actions, m, actions[m].id);
    if actions[m].id !in l.actions {
      var i :| 0 <= i < m && actions[i] == t.actions[actions[m].id];
      assert Reached(l, t, actions, i, lease, instant, env);
    }
  }

  lemma ClearOneLooks(l: L.Ledger, earlier: L.Ledger, instant: int, actions: seq<Action>, env: Env, m: nat,
                      leaseId: Id)
    requires UpToDate(l, leaseId, instant) && NameLease(actions, leaseId) && m < |actions|
    requires Looked(l, earlier, actions, m, l.leases[leaseId], instant, env)
    ensures Looked(l, ClearOne(earlier, instant, actions[m], env).ledger, actions, m + 1, l.leases[leaseId], instant,
                   env)
  {
    var t, lease := ClearOne(earlier, instant, actions[m], env).ledger, l.leases[leaseId];
    ClearOneLedgerIs(earlier, instant, actions[m], env, leaseId);
    if actions[m].id in earlier.actions {
      KnownLooks(l, earlier, actions, m, lease, instant, env);
    } else {
      var n := m + 1;
      forall id ensures Kept(l, t, id) {
        assert Kept(l, earlier, id) && CameIn(l, earlier, actions, m, id);
        AddedKeeps(l, earlier, t, actions, m, lease, instant, env, id);
      }
      forall id ensures CameIn(l, t, actions, n, id) {
        assert Kept(l, earlier, id) && CameIn(l, earlier, actions, m, id);
        AddedKeeps(l, earlier, t, actions, m, lease, instant, env, id);
      }
      forall i | 0 <= i < n ensures Reached(l, t, actions, i, lease, instant, env) {
        AddedReaches(l, earlier, t, actions, m, lease, instant, env, i);
      }
    }
  }

  lemma LooksNowhere(l: L.Ledger, actions: seq<Action>, lease: Lease, instant: int, env: Env)
    ensures Looked(l, l, actions, 0, lease, instant, env)
  {
  }

  predicate Follows(earlier: Cleared, r: Cleared, instant: int, a: Action, env: Env) {
    r == if earlier.clearance.Cleared? then ClearOne(earlier.ledger, instant, a, env) else earlier
  }

  /** How the loop over the first n actions ends at action k, and what it leaves. */
  ghost predicate Ends(l: L.Ledger, r: Cleared, actions: seq<Action>, n: nat, k: nat, lease: Lease, instant: int,
                       env: Env)
    requires n <= |actions|
  {
    Stops(r, actions, n, k) && k <= n && Looked(l, r.ledger, actions, if k < n then k + 1 else n, lease, instant, env)
  }

  ghost predicate EndsSomewhere(l: L.Ledger, r: Cleared, actions: seq<Action>, n: nat, lease: Lease, instant: int,
                                env: Env)
    requires n <= |actions|
  {
    exists k :: 0 <= k <= n && Ends(l, r, actions, n, k, lease, instant, env)
  }

  lemma EndsAtOnce(l: L.Ledger, actions: seq<Action>, lease: Lease, instant: int, env: Env)
    ensures EndsSomewhere(l, Result(l, Clearance.Cleared), actions, 0, lease, instant, env)
  {
    LooksNowhere(l, actions, lease, instant, env);
    assert Ends(l, Result(l, Clearance.Cleared), actions, 0, 0, lease, instant, env);
  }

  lemma EndsOneLater(l: L.Ledger, earlier: Cleared, r: Cleared, instant: int, actions: seq<Action>, env: Env, n: nat,
                     leaseId: Id)
    requires n < |actions| && UpToDate(l, leaseId, instant) && NameLease(actions, leaseId)
    requires EndsSomewhere(l, earlier, actions, n, l.leases[leaseId], instant, env)
    requires Follows(earlier, r, instant, actions[n], env)
    ensures EndsSomewhere(l, r, actions, n + 1, l.leases[leaseId], instant, env)
  {
    var k :| 0 <= k <= n && Ends(l, earlier, actions, n, k, l.leases[leaseId], instant, env);
    if earlier.clearance.Cleared? {
      ClearOneLooks(l, earlier.ledger, instant, actions, env, n, leaseId);
      k := StopsNow(earlier.ledger, instant, actions, env, n);
    }
    assert Ends(l, r, actions, n + 1, k, l.leases[leaseId], instant, env);
  }

  lemma ClearFirstFollows(l: L.Ledger, instant: int, actions: seq<Action>, env: Env, n: nat)
    requires n < |actions|
    ensures Follows(ClearFirst(l, instant, actions, env, n), ClearFirst(l, instant, actions, env, n + 1), instant,
                    actions[n], env)
  {
  }

  lemma {:induction false} ClearFirstEnds(l: L.Ledger, instant: int, actions: seq<Action>, env: Env, n: nat,
                                          leaseId: Id)
    requires n <= |actions| && UpToDate(l, leaseId, instant) && NameLease(actions, leaseId)
    ensures EndsSomewhere(l, ClearFirst(l, instant, actions, env, n), actions, n, l.leases[leaseId], instant, env)
  {
    if n == 0 {
      EndsAtOnce(l, actions, l.leases[leaseId], instant, env);
    } else {
      ClearFirstEnds(l, instant, actions, env, n - 1, leaseId);
      ClearFirstFollows(l, instant, actions, env, n - 1);
      EndsOneLater(l, ClearFirst(l, instant, actions, env, n - 1), ClearFirst(l, instant, actions, env, n), instant,
                   actions, env, n - 1, leaseId);
    }
  }

  // ----- authorization -----

  /** Step, then run, where the tables let them; nothing else of the run moves. */
  predicate Lands(s: M.RunState, t: M.RunState, step: StepStatus, run: RunStatus)
    requires M.WellFormed(s)
  {
    var legal := CanTransitionStep(Frontier(s).status, step);
    t == s.(steps := s.steps[s.current := Frontier(s).(status := if legal then step else Frontier(s).status)],
            status := if legal && CanTransitionRun(s.status, run) then run else s.status)
  }

  /** What waited for a human goes back to the scheduler. */
  predicate Released(s: M.RunState, t: M.RunState)
    requires M.WellFormed(s)
  {
    var step := Frontier(s);
    t == s.(steps := s.steps[s.current := if step.status.NeedsHuman? then step.(status := StepStatus.Ready) else step],
            status := if s.status.NeedsHuman? then RunStatus.Scheduled else s.status)
  }

  lemma ParkLands(s: M.RunState, step: StepStatus, run: RunStatus)
    requires Core(s) && !M.StepInFlight(s) && !step.Running?
    ensures Lands(s, Park(s, step, run), step, run)
  {
  }

  lemma UnparkReleases(s: M.RunState)
    requires Core(s)
    ensures Released(s, Unpark(s, s.current))
  {
  }

  /** The store before any action is looked at: the lease has lapsed if its time is over. */
  predicate OnlyAged(l: L.Ledger, t: L.Ledger, leaseId: Id, instant: int)
    requires leaseId in l.leases
  {
    && leaseId in t.leases && Aged(l.leases[leaseId], t.leases[leaseId], instant)
    && t == l.(leases := l.leases[leaseId := t.leases[leaseId]], clock := instant)
  }

  /** How the authorization of a bound side-effect step ends once lease and preflight are in order. */
  predicate Judged(s: TrustedState, next: Next, actions: seq<Action>, k: nat)
    requires M.WellFormed(s.run)
  {
    if k == |actions| then
      next.reply.Done? && Passed(next.state.ledger, actions, k) && Released(s.run, next.state.run)
    else
      && next.reply.Conflict? && Hurdle(next.state.ledger, actions, k)
      && if Awaits(next.state.ledger, actions[k]) then
           Lands(s.run, next.state.run, StepStatus.NeedsHuman, RunStatus.NeedsHuman)
         else Lands(s.run, next.state.run, StepStatus.Blocked, RunStatus.Blocked)
  }

  lemma ConclusionIsJudged(s: TrustedState, r: Cleared, actions: seq<Action>, k: nat)
    requires Core(s.run) && !M.StepInFlight(s.run) && Stops(r, actions, |actions|, k)
    ensures Judged(s, Conclude(s, r), actions, k)
  {
    ParkLands(s.run, StepStatus.Blocked, RunStatus.Blocked);
    ParkLands(s.run, StepStatus.NeedsHuman, RunStatus.NeedsHuman);
    UnparkReleases(s.run);
  }

  /** Nothing in the store but the clock has moved when the lease is in force. */
  lemma InForceStays(l: L.Ledger, leaseId: Id, instant: int)
    requires leaseId in l.leases && l.leases[leaseId].status.Active? && instant < l.leases[leaseId].terms.expiresAt
    ensures L.Refresh(l, leaseId, instant) == l.(clock := instant)
    ensures UpToDate(L.Refresh(l, leaseId, instant), leaseId, instant)
  {
    RefreshEffect(l, leaseId, instant);
    assert l.leases[leaseId := l.leases[leaseId]] == l.leases;
  }

  /** Of n actions, those the loop looks at before it ends at action k. */
  function LookedAt(k: nat, n: nat): nat { if k < n then k + 1 else n }

  /** What an authorization leaves of run and store when the lease is in order. */
  ghost predicate OrderlyEffect(s: TrustedState, next: Next, instant: int, timeout: nat, f: Facts, env: Env, k: nat)
    requires Enforceable(f, s.run) && s.leaseId.Some? && s.leaseId.value in s.ledger.leases
  {
    var lease, actions, now := s.ledger.leases[s.leaseId.value], ActionsOf(s, timeout, f), s.ledger.(clock := instant);
    if actions != [] && Frontier(s.run).attempts > 3 then
      next.reply.Illegal? && next.state == s.(ledger := now)
    else if !Roomy(lease, s.run.current, timeout, f) then
      && next.reply.Conflict? && next.state == s.(ledger := now, run := next.state.run)
      && Lands(s.run, next.state.run, StepStatus.Blocked, RunStatus.Blocked)
    else
      && k <= |actions| && Judged(s, next, actions, k) && next.state.leaseId == s.leaseId
      && Looked(now, next.state.ledger, actions, LookedAt(k, |actions|), lease, instant, env)
  }

  /** The reply when the lease is in order and the loop over the actions ends with `r`. */
  predicate Staged(s: TrustedState, next: Next, r: Cleared, instant: int, timeout: nat, f: Facts)
    requires Enforceable(f, s.run) && s.leaseId.Some? && s.leaseId.value in s.ledger.leases
  {
    var actions, now := ActionsOf(s, timeout, f), s.ledger.(clock := instant);
    next == if actions != [] && Current(s.run).attempts > MAX_RETRY_NUMBER then Next(s.(ledger := now), M.Illegal)
            else if !Roomy(now.leases[s.leaseId.value], s.run.current, timeout, f) then
              Next(s.(ledger := now, run := Park(s.run, StepStatus.Blocked, RunStatus.Blocked)), M.Conflict)
            else Conclude(s.(ledger := now), r)
  }

  lemma OrderlyIs(s: TrustedState, next: Next, r: Cleared, instant: int, timeout: nat, f: Facts, env: Env, k: nat)
    requires Core(s.run) && Enforceable(f, s.run) && !M.StepInFlight(s.run)
    requires s.leaseId.Some? && s.leaseId.value in s.ledger.leases && Staged(s, next, r, instant, timeout, f)
    requires var actions, now := ActionsOf(s, timeout, f), s.ledger.(clock := instant);
             Ends(now, r, actions, |actions|, k, now.leases[s.leaseId.value], instant, env)
    ensures OrderlyEffect(s, next, instant, timeout, f, env, k)
  {
    ParkLands(s.run, StepStatus.Blocked, RunStatus.Blocked);
    ConclusionIsJudged(s.(ledger := s.ledger.(clock := instant)), r, ActionsOf(s, timeout, f), k);
  }

  lemma AuthorizeIsStaged(s: TrustedState, instant: int, timeout: nat, f: Facts, env: Env)
    requires Enforceable(f, s.run) && 1 <= s.run.current <= 4
    requires s.leaseId.Some? && s.leaseId.value in s.ledger.leases
    requires InOrder(s.ledger.leases[s.leaseId.value], instant, f, s.run.maxAttempts)
    ensures var actions := ActionsOf(s, timeout, f);
            Staged(s, Authorize(s, instant, timeout, f, env),
                   ClearFirst(s.ledger.(clock := instant), instant, actions, env, |actions|), instant, timeout, f)
  {
    var leaseId := s.leaseId.value;
    InForceStays(s.ledger, leaseId, instant);
    PreflightIff(s.ledger.leases[leaseId], f, leaseId, s.run.current, Current(s.run).attempts, timeout);
  }

  lemma AuthorizeInOrder(s: TrustedState, instant: int, timeout: nat, f: Facts, env: Env) returns (k: nat)
    requires Core(s.run) && Enforceable(f, s.run) && !M.StepInFlight(s.run) && 1 <= s.run.current <= 4
    requires s.leaseId.Some? && s.leaseId.value in s.ledger.leases
    requires InOrder(s.ledger.leases[s.leaseId.value], instant, f, s.run.maxAttempts)
    ensures OrderlyEffect(s, Authorize(s, instant, timeout, f, env), instant, timeout, f, env, k)
  {
    var leaseId, actions, now := s.leaseId.value, ActionsOf(s, timeout, f), s.ledger.(clock := instant);
    StepActionsNameLease(f, leaseId, s.run.current, Current(s.run).attempts, timeout);
    ClearFirstEnds(now, instant, actions, env, |actions|, leaseId);
    var r := ClearFirst(now, instant, actions, env, |actions|);
    k :| 0 <= k <= |actions| && Ends(now, r, actions, |actions|, k, now.leases[leaseId], instant, env);
    AuthorizeIsStaged(s, instant, timeout, f, env);
    OrderlyIs(s, Authorize(s, instant, timeout, f, env), r, instant, timeout, f, env, k);
  }

  /**
   The authorization of a side-effect step at a step boundary. A lease that is not in
   order, or has no room for the step, blocks; so does the first action that is not
   allowed, unless a human is to be asked about it.
   */
  lemma AuthorizeEffect(s: TrustedState, instant: int, timeout: nat, f: Facts, env: Env) returns (k: nat)
    requires Core(s.run) && Enforceable(f, s.run) && !M.StepInFlight(s.run) && 1 <= s.run.current <= 4
    ensures var next := Authorize(s, instant, timeout, f, env);
            if s.leaseId.None? || s.leaseId.value !in s.ledger.leases then next == Next(s, M.Conflict)
            else if InOrder(s.ledger.leases[s.leaseId.value], instant, f, s.run.maxAttempts) then
              OrderlyEffect(s, next, instant, timeout, f, env, k)
            else
              && next.reply.Conflict? && next.state.leaseId == s.leaseId
              && OnlyAged(s.ledger, next.state.ledger, s.leaseId.value, instant)
              && Lands(s.run, next.state.run, StepStatus.Blocked, RunStatus.Blocked)
  {
    SideEffectSteps(s.run.current);
    k := 0;
    if s.leaseId.Some? && s.leaseId.value in s.ledger.leases {
      var leaseId := s.leaseId.value;
      if InOrder(s.ledger.leases[leaseId], instant, f, s.run.maxAttempts) {
        k := AuthorizeInOrder(s, instant, timeout, f, env);
      } else {
        RefreshEffect(s.ledger, leaseId, instant);
        FitsIffInOrder(s.ledger.leases[leaseId], L.Refresh(s.ledger, leaseId, instant).leases[leaseId], instant, f,
                       s.run.maxAttempts);
        ParkLands(s.run, StepStatus.Blocked, RunStatus.Blocked);
      }
    }
  }

  lemma NoSideEffect(s: TrustedState, instant: int, timeout: nat, f: Facts, env: Env)
    requires Enforceable(f, s.run) && !(1 <= s.run.current <= 4)
    ensures Authorize(s, instant, timeout, f, env) == Next(s, M.Done)
  {
    SideEffectSteps(s.run.current);
  }

  // ----- the three outcomes -----

  predicate BothAre(s: M.RunState, step: StepStatus, run: RunStatus)
    requires M.WellFormed(s)
  {
    Frontier(s).status == step && s.status == run
  }

  /** The run is neither over nor paused, and its frontier is open. */
  predicate Open(s: M.RunState)
    requires M.WellFormed(s)
  {
    !TerminalRun(s.status) && !s.status.Paused? && !TerminalStep(Frontier(s).status)
  }

  /** Lease and preflight are in order. */
  predicate Sound(s: TrustedState, instant: int, timeout: nat, f: Facts)
    requires Enforceable(f, s.run) && s.leaseId.Some? && s.leaseId.value in s.ledger.leases
  {
    var lease := s.ledger.leases[s.leaseId.value];
    InOrder(lease, instant, f, s.run.maxAttempts) && Roomy(lease, s.run.current, timeout, f)
  }

  /** The lease is in order but the step has been attempted more often than an action may say. */
  predicate Exhausted(s: TrustedState, instant: int, timeout: nat, f: Facts)
    requires Enforceable(f, s.run) && s.leaseId.Some? && s.leaseId.value in s.ledger.leases
  {
    && InOrder(s.ledger.leases[s.leaseId.value], instant, f, s.run.maxAttempts)
    && ActionsOf(s, timeout, f) != [] && Frontier(s.run).attempts > 3
  }

  lemma LandsOpen(s: M.RunState, t: M.RunState, step: StepStatus, run: RunStatus)
    requires Core(s) && Open(s) && !M.StepInFlight(s) && Lands(s, t, step, run)
    requires (step.Blocked? && run.Blocked?) || (step.NeedsHuman? && run.NeedsHuman?)
    ensures M.WellFormed(t) && BothAre(t, step, run)
  {
  }

  lemma ReleasedOpen(s: M.RunState, t: M.RunState)
    requires Core(s) && Open(s) && Released(s, t)
    ensures M.WellFormed(t) && !t.status.NeedsHuman? && !TerminalRun(t.status) && !t.status.Paused?
    ensures !Frontier(t).status.NeedsHuman?
  {
  }

  /** A human is asked about the first action that is not allowed. */
  predicate AsksFirst(l: L.Ledger, actions: seq<Action>) {
    exists k :: 0 <= k < |actions| && Hurdle(l, actions, k) && Awaits(l, actions[k])
  }

  /** The first action that is not allowed was altered, is undecided, or is blocked. */
  predicate BlocksFirst(l: L.Ledger, actions: seq<Action>) {
    exists k :: 0 <= k < |actions| && Hurdle(l, actions, k) && !Awaits(l, actions[k])
  }

  lemma HurdleIsFirst(l: L.Ledger, actions: seq<Action>, k: nat)
    requires k <= |actions| && (if k == |actions| then Passed(l, actions, k) else Hurdle(l, actions, k))
    ensures Passed(l, actions, |actions|) <==> k == |actions|
    ensures AsksFirst(l, actions) <==> k < |actions| && Awaits(l, actions[k])
    ensures BlocksFirst(l, actions) <==> k < |actions| && !Awaits(l, actions[k])
  {
    forall j: nat | Hurdle(l, actions, j) ensures j == k {
    }
  }

  lemma AuthorizationEnds(s: TrustedState, instant: int, timeout: nat, f: Facts, env: Env)
    requires Core(s.run) && Open(s.run) && Enforceable(f, s.run) && !M.StepInFlight(s.run)
    requires 1 <= s.run.current <= 4 && s.leaseId.Some? && s.leaseId.value in s.ledger.leases
    requires !Exhausted(s, instant, timeout, f)
    ensures var next, actions := Authorize(s, instant, timeout, f, env), ActionsOf(s, timeout, f);
            if !Sound(s, instant, timeout, f) || BlocksFirst(next.state.ledger, actions) then
              !next.reply.Done? && BothAre(next.state.run, StepStatus.Blocked, RunStatus.Blocked)
            else if AsksFirst(next.state.ledger, actions) then
              !next.reply.Done? && BothAre(next.state.run, StepStatus.NeedsHuman, RunStatus.NeedsHuman)
            else
              && next.reply.Done? && Released(s.run, next.state.run)
              && Passed(next.state.ledger, actions, |actions|)
  {
    var next, actions := Authorize(s, instant, timeout, f, env), ActionsOf(s, timeout, f);
    var k := AuthorizeEffect(s, instant, timeout, f, env);
    if !Sound(s, instant, timeout, f) {
      LandsOpen(s.run, next.state.run, StepStatus.Blocked, RunStatus.Blocked);
    } else {
      HurdleIsFirst(next.state.ledger, actions, k);
      if k == |actions| {
      } else if Awaits(next.state.ledger, actions[k]) {
        LandsOpen(s.run, next.state.run, StepStatus.NeedsHuman, RunStatus.NeedsHuman);
      } else {
        LandsOpen(s.run, next.state.run, StepStatus.Blocked, RunStatus.Blocked);
      }
    }
  }

  lemma NotPassed(l: L.Ledger, actions: seq<Action>)
    ensures AsksFirst(l, actions) || BlocksFirst(l, actions) ==> !Passed(l, actions, |actions|)
    ensures !(AsksFirst(l, actions) && BlocksFirst(l, actions))
  {
    if k: nat :| Hurdle(l, actions, k) { HurdleIsFirst(l, actions, k); }
  }

  /**
   At a step boundary of an open run the step waits for a human exactly when lease and
   preflight are in order and a human is asked about the first action that is not
   allowed; it is blocked exactly when the lease is not in order, has no room, or that
   action was altered, is undecided or is blocked; and it may start exactly when
   lease and preflight are in order and every action is allowed. Only a fifth or later
   attempt under a lease that is in order is refused without a trace.
   */
  lemma AuthorizationIff(s: TrustedState, instant: int, timeout: nat, f: Facts, env: Env)
    requires Core(s.run) && Open(s.run) && Enforceable(f, s.run) && !M.StepInFlight(s.run)
    requires 1 <= s.run.current <= 4 && s.leaseId.Some? && s.leaseId.value in s.ledger.leases
    ensures var next, actions := Authorize(s, instant, timeout, f, env), ActionsOf(s, timeout, f);
            var t, sound := next.state, Sound(s, instant, timeout, f);
            if Exhausted(s, instant, timeout, f) then next.reply.Illegal? && t.run == s.run
            else
              && (BothAre(t.run, StepStatus.NeedsHuman, RunStatus.NeedsHuman) <==>
                  sound && AsksFirst(t.ledger, actions))
              && (BothAre(t.run, StepStatus.Blocked, RunStatus.Blocked) <==> !sound || BlocksFirst(t.ledger, actions))
              && (next.reply.Done? <==> sound && Passed(t.ledger, actions, |actions|))
              && (next.reply.Done? ==> Open(t.run) && !t.run.status.NeedsHuman? && !Frontier(t.run).status.NeedsHuman?)
  {
    var next, actions := Authorize(s, instant, timeout, f, env), ActionsOf(s, timeout, f);
    if Exhausted(s, instant, timeout, f) {
      var k := AuthorizeEffect(s, instant, timeout, f, env);
    } else {
      AuthorizationEnds(s, instant, timeout, f, env);
      NotPassed(next.state.ledger, actions);
      if next.reply.Done? { ReleasedOpen(s.run, next.state.run); }
    }
  }

  // ----- starting -----

  /** A step without side effects starts as the run says; any other only through its authorization. */
  lemma BeginEffect(s: TrustedState, now: int, instant: int, worker: string, token: string, seconds: nat,
                    timeout: nat, f: Facts, env: Env)
    requires Core(s.run) && Enforceable(f, s.run)
    ensures var next := Begin(s, now, instant, worker, token, seconds, timeout, f, env);
            var a, start := Authorize(s, instant, timeout, f, env), M.Begin(now, worker, token, seconds);
            if s.run.flight.Some? || M.StepInFlight(s.run) then next == Next(s, M.Conflict)
            else if 1 <= s.run.current <= 4 && !a.reply.Done? then next == a
            else
              var begun := M.Apply(a.state.run, f.hash, start);
              && next.state == a.state.(run := begun.state) && next.reply == begun.reply
              && (!(1 <= s.run.current <= 4) ==> a == Next(s, M.Done))
  {
    SideEffectSteps(s.run.current);
  }

  /**
   A bound side-effect step of an open run starts exactly when nothing runs, no pause is
   asked for, lease and preflight are in order, every action is allowed, and a backoff,
   if there is one, is over.
   */
  lemma StartIff(s: TrustedState, now: int, instant: int, worker: string, token: string, seconds: nat,
                 timeout: nat, f: Facts, env: Env)
    requires Core(s.run) && Open(s.run) && Enforceable(f, s.run)
    requires 1 <= s.run.current <= 4 && s.leaseId.Some? && s.leaseId.value in s.ledger.leases
    ensures var next := Begin(s, now, instant, worker, token, seconds, timeout, f, env);
            var actions, step := ActionsOf(s, timeout, f), Frontier(s.run);
            next.reply.Done? <==>
              && s.run.flight.None? && !step.status.Running? && s.run.lease.None? && !s.run.pauseRequested
              && Sound(s, instant, timeout, f) && !Exhausted(s, instant, timeout, f)
              && Passed(next.state.ledger, actions, |actions|)
              && (step.status.RetryWait? ==> step.nextRetryAt.Some? && step.nextRetryAt.value <= now)
  {
    if s.run.flight.None? && !M.StepInFlight(s.run) {
      var a := Authorize(s, instant, timeout, f, env);
      AuthorizationIff(s, instant, timeout, f, env);
      BeginEffect(s, now, instant, worker, token, seconds, timeout, f, env);
      if a.reply.Done? {
        AuthorizationEnds(s, instant, timeout, f, env);
        ReleasedStarts(s.run, a.state.run, now, worker, token, seconds);
      }
    }
  }

  lemma ReleasedStarts(s: M.RunState, t: M.RunState, now: int, worker: string, token: string, seconds: nat)
    requires Core(s) && Open(s) && !M.StepInFlight(s) && s.flight.None? && Released(s, t)
    ensures M.BeginExecution(t, now, worker, token, seconds).reply.Done? <==>
            !s.pauseRequested && (Frontier(s).status.RetryWait? ==> M.Elapsed(Frontier(s), now))
  {
    UnparkReleases(s);
    DurableShifts(s, s.current, true);
    RunTheorems.BeginStartsIff(t, now, worker, token, seconds);
  }

  // ----- attaching -----

  /** No side-effect step has been attempted. */
  predicate Unattempted(s: M.RunState)
    requires M.WellFormed(s)
  {
    s.steps[1].attempts == 0 && s.steps[2].attempts == 0 && s.steps[3].attempts == 0 && s.steps[4].attempts == 0
  }

  lemma UnattemptedIff(s: M.RunState)
    requires M.WellFormed(s)
    ensures SideEffectAttempted(s) <==> !Unattempted(s)
  {
    SideEffectSteps(1);
    SideEffectSteps(2);
    SideEffectSteps(3);
    SideEffectSteps(4);
    if SideEffectAttempted(s) {
      var i :| 0 <= i < STEP_COUNT && SideEffect(DEFAULT_STEPS[i]) && s.steps[i].attempts > 0;
      SideEffectSteps(i);
    }
  }

  /** A run is bound once, before its first side effect, to a lease that is in order; the run itself stays. */
  lemma AttachEffect(s: TrustedState, instant: int, leaseId: Id, f: Facts)
    requires Enforceable(f, s.run)
    ensures var next := Attach(s, instant, leaseId, f);
            var t := next.state;
            var bindable := !TerminalRun(s.run.status) && !s.run.status.Evaluating? && !M.StepInFlight(s.run)
                            && Unattempted(s.run) && leaseId in s.ledger.leases;
            && t.run == s.run && (next.reply.Done? || next.reply.Conflict?)
            && if s.leaseId.Some? then t == s && (next.reply.Done? <==> s.leaseId.value == leaseId)
               else if !bindable then next == Next(s, M.Conflict)
               else
                 && OnlyAged(s.ledger, t.ledger, leaseId, instant)
                 && (next.reply.Done? <==> InOrder(s.ledger.leases[leaseId], instant, f, s.run.maxAttempts))
                 && t.leaseId == if next.reply.Done? then Some(leaseId) else None
  {
    UnattemptedIff(s.run);
    RefreshEffect(s.ledger, leaseId, instant);
    if leaseId in s.ledger.leases {
      FitsIffInOrder(s.ledger.leases[leaseId], L.Refresh(s.ledger, leaseId, instant).leases[leaseId], instant, f,
                     s.run.maxAttempts);
    }
  }

  // ----- human decisions -----

  /** The first step with the key the action carries. */
  predicate StepOfAction(f: Facts, a: Action, k: nat) {
    k < |f.stepKeys| && f.stepKeys[k] == a.metadata && forall i :: 0 <= i < k ==> f.stepKeys[i] != a.metadata
  }

  lemma {:induction false} StepOfIs(f: Facts, a: Action, i: nat)
    requires i <= |f.stepKeys| && forall j :: 0 <= j < i ==> f.stepKeys[j] != a.metadata
    ensures StepOf(f, a, i).Some? ==> StepOfAction(f, a, StepOf(f, a, i).value)
    ensures StepOf(f, a, i).None? ==> forall k :: 0 <= k < |f.stepKeys| ==> f.stepKeys[k] != a.metadata
    decreases |f.stepKeys| - i
  {
    if i < |f.stepKeys| && f.stepKeys[i] != a.metadata { StepOfIs(f, a, i + 1); }
  }

  /** The step the decision names has moved if it waited for a human, and so has the run. */
  predicate DecidedOn(s: M.RunState, t: M.RunState, k: nat, allow: bool)
    requires M.WellFormed(s) && k < STEP_COUNT
  {
    var step := s.steps[k];
    t == s.(steps := s.steps[k := if !step.status.NeedsHuman? then step
                                  else if allow then step.(status := StepStatus.Ready)
                                  else step.(status := StepStatus.Blocked, lease := None)],
            status := if !s.status.NeedsHuman? then s.status
                      else if allow then RunStatus.Scheduled else RunStatus.Blocked,
            lease := if s.status.NeedsHuman? && !allow then None else s.lease)
  }

  lemma DurableIs(s: M.RunState, k: nat, allow: bool)
    requires M.WellFormed(s) && k < STEP_COUNT
    ensures DecidedOn(s, Durable(s, k, allow), k, allow)
  {
    assert s.steps[k := s.steps[k]] == s.steps;
  }

  /**
   The decision goes on record in the store; a recorded one, new or repeated, then moves
   the step its action was proposed for, and the run, if that is the run of the action.
   */
  lemma DecideEffect(s: TrustedState, id: Id, reviewer: bool, allow: bool, reason: string, f: Facts)
    requires Enforceable(f, s.run)
    ensures var next, recorded := Decide(s, id, reviewer, allow, reason, f),
                                  L.Authorize(s.ledger, id, reviewer, allow, reason);
            var t := next.state;
            && t.ledger == recorded.ledger && t.leaseId == s.leaseId
            && next.reply == (if recorded.reply.Done? then M.Done else M.Conflict)
            && if !recorded.reply.Done? then t.run == s.run
               else
                 && id in t.ledger.actions && id in t.ledger.authorizations
                 && var a := t.ledger.actions[id];
                 if a.runId != Some(f.runId) then t.run == s.run
                 else
                   && (forall k :: 0 <= k < STEP_COUNT && StepOfAction(f, a, k) ==>
                         DecidedOn(s.run, t.run, k, t.ledger.authorizations[id].allow))
                   && ((forall k :: 0 <= k < STEP_COUNT ==> f.stepKeys[k] != a.metadata) ==> t.run == s.run)
  {
    var recorded := L.Authorize(s.ledger, id, reviewer, allow, reason);
    RecordedIsFound(s.ledger, id, reviewer, allow, reason);
    if recorded.reply.Done? {
      var a := recorded.ledger.actions[id];
      StepOfIs(f, a, 0);
      if StepOf(f, a, 0).Some? {
        DurableIs(s.run, StepOf(f, a, 0).value, recorded.ledger.authorizations[id].allow);
      }
    }
  }

  lemma RecordedIsFound(l: L.Ledger, id: Id, reviewer: bool, allow: bool, reason: string)
    ensures var recorded := L.Authorize(l, id, reviewer, allow, reason);
            recorded.reply.Done? ==> id in recorded.ledger.actions && id in recorded.ledger.authorizations
  {
  }
}
