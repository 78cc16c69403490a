/**
 What trust enforcement guarantees of a run, over every history of its commands
 and of the trust store they share.
 */
module TrustedRunTheorems {
  import opened Options
  import opened RunStates
  import M = MissionControl
  import opened RunInvariants
  import opened RunTheorems
  import opened TrustPolicy
  import L = TrustLedger
  import T = TrustInvariants
  import opened TrustedRun
  import opened TrustedRunInvariants

  // ----- starting a step -----

  /**
   A side-effect step starts its next attempt only if every action derived for this
   run, step, attempt and lease has an effective ALLOW; and the step that was
   authorized is the step that starts.
   */
  lemma NoStartWithoutAllow(s: TrustedState, now: int, instant: int, worker: string, token: string, seconds: nat,
                            timeout: nat, f: Facts, env: Env, m: T.Meaning)
    requires TInv(s, f, env, m) && m == T.MeaningOf(env) && s.ledger.clock <= instant
    requires SideEffect(DEFAULT_STEPS[s.run.current])
    ensures var next := Begin(s, now, instant, worker, token, seconds, timeout, f, env);
            next.reply.Done? ==>
              && FullyAllowed(next.state, s.run.current, Current(s.run).attempts, timeout, f, m)
              && next.state.run.current == s.run.current
              && Current(next.state.run).status.Running?
              && Current(next.state.run).attempts == Current(s.run).attempts + 1
  {
    var a := Authorize(s, instant, timeout, f, env);
    if Begin(s, now, instant, worker, token, seconds, timeout, f, env).reply.Done? {
      AuthorizedMeansAllowed(s, instant, timeout, f, env, m);
      AuthorizeKeeps(s, instant, timeout, f, env, m);
      StartedIs(a.state, now, worker, token, seconds, s.run.current, Current(s.run).attempts);
    }
  }

  lemma StartedIs(a: TrustedState, now: int, worker: string, token: string, seconds: nat, step: nat, attempts: nat)
    requires Core(a.run) && a.run.current == step && Frontier(a.run).attempts == attempts
    requires M.BeginExecution(a.run, now, worker, token, seconds).reply.Done?
    ensures var t := M.BeginExecution(a.run, now, worker, token, seconds).state;
            && M.WellFormed(t) && t.current == step && Current(t).status.Running? && Current(t).attempts == attempts + 1
  {
    BeginStartsIff(a.run, now, worker, token, seconds);
  }

  // ----- the actions of an attempt -----

  /** The actions of a step name everything the sealed approval lets it do, for this run, lease and attempt. */
  lemma ActionsCoverTheStep(f: Facts, leaseId: Id, step: nat, attempts: nat, timeout: nat)
    requires step < STEP_COUNT && step < |f.stepKeys|
    ensures var actions := StepActions(f, leaseId, step, attempts, timeout);
            && (DEFAULT_STEPS[step].ApplyChanges? ==>
                  forall p :: p in f.paths ==> exists i :: 0 <= i < |actions| && p in actions[i].paths)
            && (DEFAULT_STEPS[step].RunValidation? ==>
                  forall c :: c in f.testPlan ==> exists i :: 0 <= i < |actions| && actions[i].command == Some(c))
            && (actions != [] <==>
                SideEffect(DEFAULT_STEPS[step]) && (DEFAULT_STEPS[step].RunValidation? ==> f.testPlan != []))
            && (forall i :: 0 <= i < |actions| ==>
                  && actions[i].leaseId == Some(leaseId) && actions[i].runId == Some(f.runId)
                  && actions[i].retryNumber == attempts && actions[i].metadata == f.stepKeys[step])
  {
    var actions := StepActions(f, leaseId, step, attempts, timeout);
    if DEFAULT_STEPS[step].ApplyChanges? {
      assert actions[0].paths == f.paths;
    } else if DEFAULT_STEPS[step].RunValidation? {
      forall c | c in f.testPlan ensures exists i :: 0 <= i < |actions| && actions[i].command == Some(c) {
        var i :| 0 <= i < |f.testPlan| && f.testPlan[i] == c;
        assert actions[i].command == Some(c);
      }
    }
  }

  ghost predicate DistinctIds(f: Facts) {
    forall s1, a1, l1, i1, s2, a2, l2, i2 :: f.actionId(s1, a1, l1, i1) == f.actionId(s2, a2, l2, i2)
      ==> s1 == s2 && a1 == a2 && l1 == l2 && i1 == i2
  }

  /** A decision is spent on one attempt: no other attempt, step or lease derives an action with its identifier. */
  lemma AttemptsShareNoAction(f: Facts, leaseId: Id, step: nat, attempts: nat, timeout: nat, i: nat,
                              leaseId': Id, step': nat, attempts': nat, timeout': nat, i': nat)
    requires DistinctIds(f) && step < STEP_COUNT && step' < STEP_COUNT && |f.stepKeys| == STEP_COUNT
    requires i < |StepActions(f, leaseId, step, attempts, timeout)|
    requires i' < |StepActions(f, leaseId', step', attempts', timeout')|
    requires StepActions(f, leaseId, step, attempts, timeout)[i].id
          == StepActions(f, leaseId', step', attempts', timeout')[i'].id
    ensures leaseId == leaseId' && step == step' && attempts == attempts' && i == i'
  {
    IdOfAction(f, leaseId, step, attempts, timeout, i);
    IdOfAction(f, leaseId', step', attempts', timeout', i');
  }

  lemma IdOfAction(f: Facts, leaseId: Id, step: nat, attempts: nat, timeout: nat, i: nat)
    requires step < STEP_COUNT && step < |f.stepKeys| && i < |StepActions(f, leaseId, step, attempts, timeout)|
    ensures StepActions(f, leaseId, step, attempts, timeout)[i].id == f.actionId(step, attempts + 1, leaseId, i)
  {
  }

  // ----- edges -----

  /** Parking and unparking take an edge of each table, or move nothing. */
  lemma ParkTakesEdges(s: M.RunState, block: bool)
    requires Core(s)
    ensures var t := if block then Park(s, StepStatus.Blocked, RunStatus.Blocked)
                     else Park(s, StepStatus.NeedsHuman, RunStatus.NeedsHuman);
            |t.steps| == STEP_COUNT && EdgesTaken(s, t, false)
  {
  }

  lemma DurableTakesEdges(s: M.RunState, k: nat, allow: bool)
    requires Core(s) && k < STEP_COUNT
    ensures EdgesTaken(s, Durable(s, k, allow), false)
  {
  }

  lemma OutcomeTakesEdges(s: M.RunState, t: M.RunState)
    requires Core(s) && RunOutcome(s, t)
    ensures |t.steps| == STEP_COUNT && EdgesTaken(s, t, false)
  {
    ParkTakesEdges(s, true);
    ParkTakesEdges(s, false);
    DurableTakesEdges(s, s.current, true);
  }

  lemma AuthorizeTakesEdges(s: TrustedState, instant: int, timeout: nat, f: Facts, env: Env)
    requires Core(s.run) && Enforceable(f, s.run)
    ensures EdgesTaken(s.run, Authorize(s, instant, timeout, f, env).state.run, false)
  {
    if SideEffect(DEFAULT_STEPS[s.run.current]) && s.leaseId.Some? && s.leaseId.value in s.ledger.leases {
      AuthorizeOutcomes(s, instant, timeout, f, env);
      OutcomeTakesEdges(s.run, Authorize(s, instant, timeout, f, env).state.run);
    }
  }

  lemma AuthorizedIsUnparked(s: TrustedState, instant: int, timeout: nat, f: Facts, env: Env)
    requires Enforceable(f, s.run)
    ensures var a := Authorize(s, instant, timeout, f, env);
            a.reply.Done? ==> a.state.run == s.run || a.state.run == Unpark(s.run, s.run.current)
  {
  }

  /** Unparked and started in one request: RUNNING is reached through READY. */
  lemma UnparkedStartTakesEdges(s: M.RunState, now: int, worker: string, token: string, seconds: nat)
    requires Core(s)
    ensures var t := M.BeginExecution(Unpark(s, s.current), now, worker, token, seconds).state;
            M.WellFormed(t) && EdgesTaken(s, t, true)
  {
    var u := Unpark(s, s.current);
    DurableShifts(s, s.current, true);
    EveryStatusWriteIsAnEdge(u, _ => "", M.Begin(now, worker, token, seconds));
  }

  /**
   Every status that any request writes, those of authorization and of human decisions
   included, is an edge of the tables. Only an approval that is found and used in the
   same request takes a step over two of them, from NEEDS_HUMAN through READY to RUNNING.
   */
  lemma EveryTrustedWriteIsAnEdge(s: TrustedState, c: Command, f: Facts, env: Env)
    requires Core(s.run) && Enforceable(f, s.run)
    ensures EdgesTaken(s.run, Apply(s, c, f, env).state.run, c.TBegin?)
  {
    match c
    case TBegin(now, instant, worker, token, seconds, timeout) =>
      AuthorizeTakesEdges(s, instant, timeout, f, env);
      AuthorizedIsUnparked(s, instant, timeout, f, env);
      UnparkedStartTakesEdges(s.run, now, worker, token, seconds);
      EveryStatusWriteIsAnEdge(s.run, f.hash, M.Begin(now, worker, token, seconds));
    case TRun(run) => EveryStatusWriteIsAnEdge(s.run, f.hash, run);
    case TDecide(id, reviewer, allow, reason) =>
      var t := Decide(s, id, reviewer, allow, reason, f).state;
      if t.run != s.run {
        var decided := L.Authorize(s.ledger, id, reviewer, allow, reason).ledger;
        DurableTakesEdges(s.run, StepOf(f, decided.actions[id], 0).value, decided.authorizations[id].allow);
      }
    case _ =>
  }

  // ----- success and its seal -----

  /** The run is SUCCEEDED exactly when all its steps are, and its final hash is then the hash of its steps. */
  lemma TrustedSuccessIsSealed(maxAttempts: nat, history: seq<Command>, f: Facts, env: Env)
    requires 1 <= maxAttempts && |f.stepKeys| == STEP_COUNT && AdmissibleRun(maxAttempts, history, f, env)
    ensures var run := Replay(maxAttempts, history, f, env).run;
            && (run.status.Succeeded? <==> M.AllPassed(run.steps, STEP_COUNT))
            && (run.status.Succeeded? ==> Sealed(run, f.hash))
  {
    TrustedRunInvariants.HistoryKeeps(maxAttempts, history, f, env);
    SucceededIffPassed(Replay(maxAttempts, history, f, env).run);
  }

  lemma TrustedSealNeverRefused(maxAttempts: nat, history: seq<Command>, f: Facts, env: Env, eventCount: nat)
    requires 1 <= maxAttempts && |f.stepKeys| == STEP_COUNT && AdmissibleRun(maxAttempts, history, f, env)
    ensures var run := Replay(maxAttempts, history, f, env).run;
            run.flight.Some? && run.flight.value.step == SEAL_INDEX ==>
              M.SealOutcome(run, f.hash, eventCount).decision.Pass?
  {
    TrustedRunInvariants.HistoryKeeps(maxAttempts, history, f, env);
  }

  /**
   No step after the first is ever attempted unless the repository is named, the branch
   is neither main nor master, and the approved files and tests are not empty.
   */
  lemma NothingRunsOutOfScope(maxAttempts: nat, history: seq<Command>, f: Facts, env: Env, i: nat)
    requires 1 <= maxAttempts && |f.stepKeys| == STEP_COUNT && AdmissibleRun(maxAttempts, history, f, env)
    requires 0 < i < STEP_COUNT
    ensures Replay(maxAttempts, history, f, env).run.steps[i].attempts > 0 ==> ScopeContract(f)
  {
    TrustedRunInvariants.HistoryKeeps(maxAttempts, history, f, env);
  }

  // ----- attempts -----

  lemma {:induction false} MaxAttemptsStay(maxAttempts: nat, history: seq<Command>, f: Facts, env: Env)
    requires 1 <= maxAttempts && |f.stepKeys| == STEP_COUNT && AdmissibleRun(maxAttempts, history, f, env)
    ensures Replay(maxAttempts, history, f, env).run.maxAttempts == maxAttempts
  {
    if history != [] {
      EarlierIsAdmissible(maxAttempts, history, f, env);
      MaxAttemptsStay(maxAttempts, history[..|history| - 1], f, env);
      LastKeepsBinding(maxAttempts, history, f, env);
    }
  }

  lemma LastKeepsBinding(maxAttempts: nat, history: seq<Command>, f: Facts, env: Env)
    requires 1 <= maxAttempts && |f.stepKeys| == STEP_COUNT && AdmissibleRun(maxAttempts, history, f, env)
    requires history != []
    ensures SameBinding(Replay(maxAttempts, history[..|history| - 1], f, env), Replay(maxAttempts, history, f, env))
  {
    var earlier, last := history[..|history| - 1], history[|history| - 1];
    EarlierIsAdmissible(maxAttempts, history, f, env);
    TrustedRunInvariants.HistoryKeeps(maxAttempts, earlier, f, env);
    TrustedRunInvariants.ApplyKeeps(Replay(maxAttempts, earlier, f, env), last, f, env, T.MeaningOf(env));
  }

  /** From any moment of a history on: no other attempt limit, no other lease, no other terms of any lease. */
  lemma {:induction false} BindingStays(maxAttempts: nat, history: seq<Command>, f: Facts, env: Env, n: nat)
    requires 1 <= maxAttempts && |f.stepKeys| == STEP_COUNT && AdmissibleRun(maxAttempts, history, f, env)
    requires n <= |history|
    ensures SameBinding(Replay(maxAttempts, history[..n], f, env), Replay(maxAttempts, history, f, env))
    decreases |history|
  {
    if n == |history| {
      assert history[..n] == history;
    } else {
      var earlier := history[..|history| - 1];
      assert earlier[..n] == history[..n];
      EarlierIsAdmissible(maxAttempts, history, f, env);
      BindingStays(maxAttempts, earlier, f, env, n);
      LastKeepsBinding(maxAttempts, history, f, env);
      BindingComposes(Replay(maxAttempts, history[..n], f, env), Replay(maxAttempts, earlier, f, env),
                      Replay(maxAttempts, history, f, env));
    }
  }

  /**
   Over every history of executions, results, watchdog sweeps, operator commands,
   human decisions, gateway evaluations and lease commands, a side-effect step is
   attempted at most max_retries + 1 times: no resume and no approval buys more.
   The list of steps keeps its shape throughout.
   */
  lemma AttemptsNeverExceedTheLease(maxAttempts: nat, history: seq<Command>, f: Facts, env: Env, i: nat)
    requires 1 <= maxAttempts && |f.stepKeys| == STEP_COUNT && AdmissibleRun(maxAttempts, history, f, env)
    requires i < STEP_COUNT && SideEffect(DEFAULT_STEPS[i])
    ensures var s := Replay(maxAttempts, history, f, env);
            && Shape(s.run)
            && (if s.leaseId.None? then s.run.steps[i].attempts == 0
                else s.leaseId.value in s.ledger.leases
                     && TermsFit(s.ledger.leases[s.leaseId.value].terms, f, maxAttempts)
                     && s.run.steps[i].attempts <= s.ledger.leases[s.leaseId.value].terms.scope.maxRetries + 1)
  {
    TrustedRunInvariants.HistoryKeeps(maxAttempts, history, f, env);
    MaxAttemptsStay(maxAttempts, history, f, env);
  }

  // ----- a pause request that outlives its pause -----

  /**
   Pausing a run that waits for a human fails but leaves the request behind. Once the
   human approves, the run is SCHEDULED and cannot start, resume or retry; a second
   pause goes through and makes it resumable.
   */
  lemma PauseRequestOutlivesApproval(s: M.RunState, now: int, worker: string, token: string, seconds: nat)
    requires Core(s) && s.status.NeedsHuman?
    ensures var stuck := Unpark(M.PauseRun(s).state, s.current);
            && M.PauseRun(s).reply.Illegal? && stuck.status.Scheduled? && Frontier(stuck).status.Ready?
            && M.BeginExecution(stuck, now, worker, token, seconds).reply.Conflict?
            && M.ResumeRun(stuck).reply.Conflict? && M.RetryStep(stuck, s.current).reply.Conflict?
            && M.PauseRun(stuck).reply.Done? && M.ResumeRun(M.PauseRun(stuck).state).reply.Done?
  {
  }
}
