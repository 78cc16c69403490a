/**
 The theorems about Mission Control runs, over every history of commands.
 `Replay(maxAttempts, hash, history)` is the state a history leads to.
 */
module RunTheorems {
  import opened Options
  import opened RunStates
  import opened MissionControl
  import opened RunInvariants

  // ----- success, edges, seal -----

  lemma SucceededIffEveryStepPassed(maxAttempts: nat, hash: Hash, history: seq<Command>)
    requires 1 <= maxAttempts
    ensures var s := Replay(maxAttempts, hash, history);
            s.status.Succeeded? <==> AllPassed(s.steps, STEP_COUNT)
  {
    HistoryKeeps(maxAttempts, hash, history);
    SucceededIffPassed(Replay(maxAttempts, hash, history));
  }

  lemma SucceededIffPassed(s: RunState)
    requires Core(s)
    ensures s.status.Succeeded? <==> AllPassed(s.steps, STEP_COUNT)
  {
  }

  /**
   Every status moves along its table, terminal statuses absorb, and a SUCCEEDED step
   never changes in any field. Where a command may use an approval, a step that waits
   for a human may be readied and started at once.
   */
  predicate EdgesTaken(s: RunState, t: RunState, approval: bool)
    requires |s.steps| == |t.steps| == STEP_COUNT
  {
    && CanTransitionRun(s.status, t.status) && (TerminalRun(s.status) ==> t.status == s.status)
    && forall i :: 0 <= i < STEP_COUNT ==> StepTaken(s.steps[i], t.steps[i], approval)
  }

  predicate StepTaken(before: Step, after: Step, approval: bool) {
    && (StepMoves(before.status, after.status) || (approval && before.status.NeedsHuman? && after.status.Running?))
    && (TerminalStep(before.status) ==> after.status == before.status)
    && (before.status.Succeeded? ==> after == before)
  }

  lemma EveryStatusWriteIsAnEdge(s: RunState, hash: Hash, c: Command)
    requires Core(s)
    ensures EdgesTaken(s, Apply(s, hash, c).state, false)
  {
    ApplyEffect(s, hash, c);
    if Frontier(s).status.Succeeded? { SucceededFrontierIsSealed(s, hash, c); }
    EffectTakesEdges(s, Apply(s, hash, c).state);
  }

  lemma EffectTakesEdges(s: RunState, t: RunState)
    requires Core(s) && WellFormed(t) && Effect(s, t) && (Frontier(s).status.Succeeded? ==> t.steps == s.steps)
    ensures EdgesTaken(s, t, false)
  {
  }

  lemma SucceededFrontierIsSealed(s: RunState, hash: Hash, c: Command)
    requires Core(s) && Frontier(s).status.Succeeded?
    ensures Apply(s, hash, c).state.steps == s.steps
  {
  }

  /** The final hash is recomputable from the six earlier steps and the count the seal recorded. */
  predicate Sealed(s: RunState, hash: Hash)
    requires |s.steps| == STEP_COUNT
  {
    && s.steps[SEAL_INDEX].evidence.Some? && s.steps[SEAL_INDEX].evidence.value.Seal?
    && var count := s.steps[SEAL_INDEX].evidence.value.chain.eventCount;
    s.finalHash == Some(hash(OfChain(Chain(Summaries(s.steps, SEAL_INDEX), count))))
  }

  lemma SealMatchesRun(maxAttempts: nat, hash: Hash, history: seq<Command>)
    requires 1 <= maxAttempts
    ensures var s := Replay(maxAttempts, hash, history); s.status.Succeeded? ==> Sealed(s, hash)
  {
    HistoryKeeps(maxAttempts, hash, history);
  }

  /** The seal step's refusal branch is never taken. */
  lemma SealNeverRefused(maxAttempts: nat, hash: Hash, history: seq<Command>, eventCount: nat)
    requires 1 <= maxAttempts
    ensures var s := Replay(maxAttempts, hash, history);
            s.flight.Some? && s.flight.value.step == SEAL_INDEX ==> SealOutcome(s, hash, eventCount).decision.Pass?
  {
    HistoryKeeps(maxAttempts, hash, history);
  }

  // ----- late results -----

  /** The attempt that holds the lock is no longer the one its step is running. */
  predicate Overtaken(s: RunState) {
    WellFormed(s) && s.flight.Some? && !s.steps[s.flight.value.step].status.Running?
  }

  lemma WatchdogOvertakes(s: RunState, now: int)
    requires Core(s) && s.flight.Some? && s.lease.Some? && s.lease.value.expiresAt <= now
    ensures Overtaken(RecoverStale(s, now).state)
  {
  }

  lemma OvertakenStays(s: RunState, hash: Hash, c: Command)
    requires Core(s) && Overtaken(s) && !c.Finish? && !c.Restart?
    ensures var t := Apply(s, hash, c).state; Overtaken(t) && t.flight.value.step == s.flight.value.step
  {
  }

  lemma {:induction false} OvertakenStaysThrough(s: RunState, hash: Hash, between: seq<Command>)
    requires Inv(s, hash) && Overtaken(s)
    requires forall i :: 0 <= i < |between| ==> !between[i].Finish? && !between[i].Restart?
    ensures var t := ReplayFrom(s, hash, between); Overtaken(t) && t.flight.value.step == s.flight.value.step
  {
    if between != [] {
      var shorter := between[..|between| - 1];
      OvertakenStaysThrough(s, hash, shorter);
      ReplayKeeps(s, hash, shorter);
      OvertakenStays(ReplayFrom(s, hash, shorter), hash, between[|between| - 1]);
    }
  }

  lemma LatePassIsRefused(u: RunState, hash: Hash, now: int)
    requires Core(u) && Overtaken(u) && HasResult(u) && u.flight.value.result.value.decision.Pass?
    ensures var t := FinishExecution(u, hash, now);
            && t.reply.Illegal? && t.state.status == u.status && t.state.current == u.current
            && (forall i :: 0 <= i < STEP_COUNT ==> t.state.steps[i].status == u.steps[i].status)
            && !t.state.steps[u.flight.value.step].status.Succeeded?
  {
  }

  lemma RecoveredStaysOvertaken(s: RunState, hash: Hash, recovery: int, between: seq<Command>)
    requires Inv(s, hash) && s.flight.Some? && s.lease.Some? && s.lease.value.expiresAt <= recovery
    requires forall i :: 0 <= i < |between| ==> !between[i].Finish? && !between[i].Restart?
    ensures var u := ReplayFrom(RecoverStale(s, recovery).state, hash, between);
            Core(u) && Overtaken(u) && u.flight.value.step == s.flight.value.step
  {
    WatchdogOvertakes(s, recovery);
    ApplyKeeps(s, hash, Watchdog(recovery));
    var r := Apply(s, hash, Watchdog(recovery)).state;
    OvertakenStaysThrough(r, hash, between);
    ReplayKeeps(r, hash, between);
  }

  /**
   Once the watchdog has recovered the attempt in flight, then whatever commands
   follow, the PASS that its worker still delivers moves no status at all.
   */
  lemma LatePassMovesNothing(s: RunState, hash: Hash, recovery: int, between: seq<Command>, now: int)
    requires Inv(s, hash) && s.flight.Some? && s.lease.Some? && s.lease.value.expiresAt <= recovery
    requires forall i :: 0 <= i < |between| ==> !between[i].Finish? && !between[i].Restart?
    requires var u := ReplayFrom(RecoverStale(s, recovery).state, hash, between);
             HasResult(u) && u.flight.value.result.value.decision.Pass?
    ensures var u := ReplayFrom(RecoverStale(s, recovery).state, hash, between);
            var t := FinishExecution(u, hash, now);
            && t.reply.Illegal? && t.state.status == u.status && t.state.current == u.current
            && (forall i :: 0 <= i < STEP_COUNT ==> t.state.steps[i].status == u.steps[i].status)
            && !t.state.steps[s.flight.value.step].status.Succeeded?
  {
    RecoveredStaysOvertaken(s, hash, recovery, between);
    LatePassIsRefused(ReplayFrom(RecoverStale(s, recovery).state, hash, between), hash, now);
  }

  // ----- when the run and its frontier agree -----

  predicate InStep(s: RunState)
    requires WellFormed(s)
  {
    Coupled(s.status, s.steps[s.current].status)
  }

  function VerdictTarget(step: Step, maxAttempts: nat, decision: Decision): StepStatus {
    match decision
    case Pass => StepStatus.Succeeded
    case RetryTransient => if step.attempts < maxAttempts then StepStatus.RetryWait else StepStatus.NeedsHuman
    case BlockPolicy => StepStatus.Blocked
    case FailPermanent => StepStatus.Failed
    case _ => StepStatus.NeedsHuman
  }

  /** A result lands on a PAUSED run and asks for a step move that is legal and is not the retry wait. */
  predicate LandsOnPausedRun(s: RunState, c: Command)
    requires WellFormed(s)
  {
    && c.Finish? && HasResult(s) && s.status.Paused?
    && var target := VerdictTarget(Frontier(s), s.maxAttempts, s.flight.value.result.value.decision);
    !target.RetryWait? && CanTransitionStep(Frontier(s).status, target)
  }

  lemma VerdictLeavesTableIff(run: RunStatus, step: Step, maxAttempts: nat, decision: Decision, now: int)
    requires !decision.Pass? && Coupled(run, step.status) && !step.status.Succeeded?
    requires step.status.RetryWait? ==> step.attempts < maxAttempts
    ensures var p := Verdict(run, step, maxAttempts, decision, now);
            var target := VerdictTarget(step, maxAttempts, decision);
            Coupled(p.run, p.step.status)
            <==> !(run.Paused? && !target.RetryWait? && CanTransitionStep(step.status, target))
  {
  }

  lemma ResultLeavesTableIff(s: RunState, hash: Hash, now: int)
    requires Core(s) && InStep(s)
    ensures InStep(FinishExecution(s, hash, now).state) <==> !LandsOnPausedRun(s, Finish(now))
  {
    if HasResult(s) {
      var o := s.flight.value.result.value;
      if !o.decision.Pass? {
        VerdictLeavesTableIff(s.status, Record(Frontier(s), o, hash), s.maxAttempts, o.decision, now);
      } else if s.current < SEAL_INDEX && Frontier(s).status.Running? {
        PendingIsNext(s, hash);
      }
    }
  }

  /** Exactly when a command takes a run out of the status table. */
  lemma TableLostIff(s: RunState, hash: Hash, c: Command)
    requires Core(s) && InStep(s)
    ensures InStep(Apply(s, hash, c).state) <==> !LandsOnPausedRun(s, c)
  {
    match c
    case Begin(now, worker, token, seconds) => ReadyIsFrontier(s, now);
    case Finish(now) => ResultLeavesTableIff(s, hash, now);
    case Retry(target) => RetryKeeps(s, target);
    case _ =>
  }

  /** No result of this history lands on a paused run; the watchdog may have overtaken any number of them. */
  predicate NoResultWhilePaused(maxAttempts: nat, hash: Hash, history: seq<Command>) {
    forall i :: 0 <= i < |history| && history[i].Finish? ==> !Replay(maxAttempts, hash, history[..i]).status.Paused?
  }

  lemma {:induction false} TableOverHistory(maxAttempts: nat, hash: Hash, history: seq<Command>)
    requires 1 <= maxAttempts && NoResultWhilePaused(maxAttempts, hash, history)
    ensures InStep(Replay(maxAttempts, hash, history))
  {
    if history != [] {
      var shorter := history[..|history| - 1];
      forall i | 0 <= i < |shorter| && shorter[i].Finish?
        ensures !Replay(maxAttempts, hash, shorter[..i]).status.Paused?
      {
        assert shorter[..i] == history[..i];
      }
      TableOverHistory(maxAttempts, hash, shorter);
      HistoryKeeps(maxAttempts, hash, shorter);
      TableLostIff(Replay(maxAttempts, hash, shorter), hash, history[|history| - 1]);
    }
  }

  /** Recovered, then paused, then the worker's BLOCK arrives: the step is BLOCKED on a run that is not. */
  lemma LateBlockStrandsPausedRun(hash: Hash) returns (s: RunState)
    ensures s == Apply(Create(3), hash, Begin(0, "w", "t", 10)).state
    ensures var worked := PerformWork(s, hash, Returned(Outcome(BlockPolicy, Report(""), None)), 0).state;
            !InStep(FinishExecution(PauseRun(RecoverStale(worked, 10).state).state, hash, 11).state)
  {
    s := StartedAt(3, hash, Begin(0, "w", "t", 10));
    LateBlockStrands(s, hash, Outcome(BlockPolicy, Report(""), None), 10, 11);
  }

  lemma LateBlockStrands(s: RunState, hash: Hash, block: Outcome, recovery: int, now: int)
    requires Core(s) && Frontier(s).status.Running? && s.flight == Some(Flight(s.current, None))
    requires s.lease.Some? && s.lease.value.expiresAt <= recovery && Frontier(s).attempts < s.maxAttempts
    requires block.decision.BlockPolicy? && s.current < SEAL_INDEX
    ensures var worked := PerformWork(s, hash, Returned(block), 0).state;
            var paused := PauseRun(RecoverStale(worked, recovery).state).state;
            !InStep(FinishExecution(paused, hash, now).state)
  {
    var worked := PerformWork(s, hash, Returned(block), 0).state;
    assert Core(worked);
    var paused := PausedAfterRecovery(worked, recovery);
    BlockOnPausedRun(paused, hash, now);
  }

  /** A running attempt with a result, recovered and then paused. */
  lemma PausedAfterRecovery(worked: RunState, recovery: int) returns (paused: RunState)
    requires Core(worked) && Frontier(worked).status.Running? && HasResult(worked)
    requires worked.lease.value.expiresAt <= recovery && Frontier(worked).attempts < worked.maxAttempts
    ensures paused == PauseRun(RecoverStale(worked, recovery).state).state && Core(paused) && paused.status.Paused?
    ensures Frontier(paused).status.RetryWait? && paused.flight == worked.flight
  {
    WatchdogKeeps(worked, recovery);
    PauseKeeps(RecoverStale(worked, recovery).state);
    paused := PauseRun(RecoverStale(worked, recovery).state).state;
  }

  lemma BlockOnPausedRun(paused: RunState, hash: Hash, now: int)
    requires Core(paused) && paused.status.Paused? && Frontier(paused).status.RetryWait?
    requires HasResult(paused) && paused.flight.value.result.value.decision.BlockPolicy?
    ensures !InStep(FinishExecution(paused, hash, now).state)
  {
    ResultLeavesTableIff(paused, hash, now);
  }

  /** A fresh run after its first execution request. */
  lemma StartedAt(maxAttempts: nat, hash: Hash, c: Command) returns (s: RunState)
    requires 1 <= maxAttempts && c.Begin?
    ensures s == Apply(Create(maxAttempts), hash, c).state && Core(s)
    ensures s.status.Running? && s.current == 0 && Frontier(s).status.Running? && Frontier(s).attempts == 1
    ensures s.maxAttempts == maxAttempts && s.lease == Some(WorkerLease(c.worker, c.token, c.now + c.seconds))
    ensures s.flight == Some(Flight(0, None))
  {
    s := Apply(Create(maxAttempts), hash, c).state;
    CreateEstablishes(maxAttempts, hash);
    ApplyKeepsCore(Create(maxAttempts), hash, c);
    BeginStartsIff(Create(maxAttempts), c.now, c.worker, c.token, c.seconds);
  }

  // ----- the attempt budget -----

  function Spent(steps: seq<Step>, n: nat): nat
    requires n <= |steps|
  {
    if n == 0 then 0 else Spent(steps, n - 1) + steps[n - 1].attempts
  }

  function Quota(maxAttempts: nat, n: nat): nat {
    if n == 0 then 0 else Quota(maxAttempts, n - 1) + maxAttempts
  }

  /** How many commands of the history `counts` and were accepted. */
  function Accepted(maxAttempts: nat, hash: Hash, history: seq<Command>, counts: Command -> bool): nat {
    if history == [] then 0
    else
      var earlier, last := history[..|history| - 1], history[|history| - 1];
      Accepted(maxAttempts, hash, earlier, counts)
      + if counts(last) && Apply(Replay(maxAttempts, hash, earlier), hash, last).reply.Done? then 1 else 0
  }

  function Resumes(maxAttempts: nat, hash: Hash, history: seq<Command>): nat {
    Accepted(maxAttempts, hash, history, (c: Command) => c.Resume?)
  }

  function Starts(maxAttempts: nat, hash: Hash, history: seq<Command>): nat {
    Accepted(maxAttempts, hash, history, (c: Command) => c.Begin?)
  }

  /** Attempts in hand after `resumes` accepted resumes; a READY frontier still has one to spend. */
  predicate Budget(s: RunState, resumes: nat)
    requires Shape(s)
  {
    var f, before := Frontier(s), Spent(s.steps, s.current);
    var spare := if f.status.Ready? then 1 else 0;
    && before <= Quota(s.maxAttempts, s.current) + resumes
    && before + f.attempts + spare <= Quota(s.maxAttempts, s.current + 1) + resumes
    && f.attempts + spare <= s.maxAttempts + resumes
    && (forall i :: 0 <= i < s.current ==> s.steps[i].attempts <= s.maxAttempts + resumes)
  }

  lemma {:induction false} SpentAgrees(steps: seq<Step>, steps': seq<Step>, n: nat)
    requires n <= |steps| && n <= |steps'|
    requires forall i :: 0 <= i < n ==> steps[i].attempts == steps'[i].attempts
    ensures Spent(steps, n) == Spent(steps', n)
  {
    if n > 0 { SpentAgrees(steps, steps', n - 1); }
  }

  /** How the frontier can come to be READY: it was, it is fresh, it was resumed, or it had budget left. */
  lemma ReadyFrontierAfter(s: RunState, hash: Hash, c: Command)
    requires Core(s)
    ensures var next := Apply(s, hash, c); var t := next.state;
            && (t.current != s.current ==> Frontier(t).attempts == 0)
            && (t.current == s.current && Frontier(t).status.Ready? ==>
                  Frontier(s).status.Ready? || (c.Resume? && next.reply.Done?) || Frontier(s).attempts < s.maxAttempts)
            && (c.Begin? && next.reply.Done? ==>
                  && !Frontier(t).status.Ready?
                  && (Frontier(s).status.Ready? || Frontier(s).attempts < s.maxAttempts))
  {
    match c
    case Begin(now, worker, token, seconds) => BeginStartsIff(s, now, worker, token, seconds);
    case Retry(target) => RetryKeeps(s, target);
    case Finish(now) => FinishEffect(s, hash, now);
    case _ =>
  }

  lemma BudgetKeeps(s: RunState, hash: Hash, c: Command, resumes: nat)
    requires Core(s) && Budget(s, resumes)
    ensures var next := Apply(s, hash, c);
            var after := resumes + if c.Resume? && next.reply.Done? then 1 else 0;
            Shape(next.state) && Budget(next.state, after)
  {
    ApplyKeepsCore(s, hash, c);
    ApplyEffect(s, hash, c);
    ReadyFrontierAfter(s, hash, c);
    SpentAgrees(s.steps, Apply(s, hash, c).state.steps, s.current);
  }

  lemma {:induction false} SpentStep(s: RunState, hash: Hash, c: Command, n: nat)
    requires Core(s) && n <= STEP_COUNT
    ensures var next := Apply(s, hash, c);
            var started := if c.Begin? && next.reply.Done? && s.current < n then 1 else 0;
            Spent(next.state.steps, n) == Spent(s.steps, n) + started
  {
    ApplyEffect(s, hash, c);
    if n > 0 { SpentStep(s, hash, c, n - 1); }
  }

  lemma {:induction false} BudgetOverHistory(maxAttempts: nat, hash: Hash, history: seq<Command>)
    requires 1 <= maxAttempts
    ensures var s := Replay(maxAttempts, hash, history);
            Shape(s) && Budget(s, Resumes(maxAttempts, hash, history)) && s.maxAttempts == maxAttempts
            && Spent(s.steps, STEP_COUNT) == Starts(maxAttempts, hash, history)
  {
    if history == [] {
      CreateEstablishes(maxAttempts, hash);
      FreshSpendsNothing(maxAttempts, STEP_COUNT);
    } else {
      var earlier := history[..|history| - 1];
      var s := Replay(maxAttempts, hash, earlier);
      BudgetOverHistory(maxAttempts, hash, earlier);
      HistoryKeeps(maxAttempts, hash, earlier);
      BudgetKeeps(s, hash, history[|history| - 1], Resumes(maxAttempts, hash, earlier));
      SpentStep(s, hash, history[|history| - 1], STEP_COUNT);
      ApplyEffect(s, hash, history[|history| - 1]);
    }
  }

  lemma {:induction false} FreshSpendsNothing(maxAttempts: nat, n: nat)
    requires n <= STEP_COUNT
    ensures Spent(Create(maxAttempts).steps, n) == 0
  {
    if n > 0 { FreshSpendsNothing(maxAttempts, n - 1); }
  }

  lemma {:induction false} TailSpendsNothing(s: RunState, n: nat)
    requires Shape(s) && s.current < n <= STEP_COUNT
    ensures Spent(s.steps, n) == Spent(s.steps, s.current) + Frontier(s).attempts
    ensures Quota(s.maxAttempts, s.current + 1) <= Quota(s.maxAttempts, n)
  {
    if n > s.current + 1 { TailSpendsNothing(s, n - 1); }
  }

  lemma {:induction false} QuotaIsProduct(maxAttempts: nat, n: nat)
    ensures Quota(maxAttempts, n) == n * maxAttempts
  {
    if n > 0 { QuotaIsProduct(maxAttempts, n - 1); }
  }

  /**
   Whatever the scheduler, the watchdog, the operator and the workers do, a step's
   attempts exceed `maxAttempts` by at most the number of accepted resumes, and so
   does the number of executions ever started exceed seven times `maxAttempts`.
   Without resumes a step that may start has budget left.
   */
  lemma ExecutionsAreBounded(maxAttempts: nat, hash: Hash, history: seq<Command>)
    requires 1 <= maxAttempts
    ensures var s := Replay(maxAttempts, hash, history);
            var resumes := Resumes(maxAttempts, hash, history);
            && (forall i :: 0 <= i < STEP_COUNT ==> s.steps[i].attempts <= maxAttempts + resumes)
            && (resumes == 0 && (Frontier(s).status.Ready? || Frontier(s).status.RetryWait?) ==>
                  Frontier(s).attempts < maxAttempts)
            && Starts(maxAttempts, hash, history) <= STEP_COUNT * maxAttempts + resumes
  {
    BudgetOverHistory(maxAttempts, hash, history);
    HistoryKeeps(maxAttempts, hash, history);
    var s := Replay(maxAttempts, hash, history);
    TailSpendsNothing(s, STEP_COUNT);
    QuotaIsProduct(maxAttempts, STEP_COUNT);
  }

  // ----- exactly when the budget is lost -----

  /** No step has more attempts than the budget, and a READY frontier still has one to spend. */
  predicate InBudget(s: RunState)
    requires WellFormed(s)
  {
    && (forall i :: 0 <= i < STEP_COUNT ==> s.steps[i].attempts <= s.maxAttempts)
    && (s.steps[s.current].status.Ready? ==> s.steps[s.current].attempts < s.maxAttempts)
  }

  /** A resume that is accepted on a step that waits for a human with its budget spent. */
  predicate Overspends(s: RunState, c: Command)
    requires WellFormed(s)
  {
    && c.Resume? && (s.status.Paused? || s.status.NeedsHuman? || s.status.RetryWait?)
    && s.steps[s.current].status.NeedsHuman? && s.steps[s.current].attempts == s.maxAttempts
  }

  /** Exactly when a command takes a run out of its attempt budget. */
  lemma BudgetLostIff(s: RunState, hash: Hash, c: Command)
    requires Core(s) && InBudget(s)
    ensures InBudget(Apply(s, hash, c).state) <==> !Overspends(s, c)
  {
    ApplyKeepsCore(s, hash, c);
    ApplyEffect(s, hash, c);
    ReadyFrontierAfter(s, hash, c);
  }

  /** Over whole histories: the budget holds all along if and only if no resume ever overspends it. */
  lemma BudgetThroughoutIff(maxAttempts: nat, hash: Hash, history: seq<Command>)
    requires 1 <= maxAttempts
    ensures (forall i :: 0 <= i <= |history| ==> InBudget(Replay(maxAttempts, hash, history[..i])))
       <==> (forall i :: 0 <= i < |history| ==> !Overspends(Replay(maxAttempts, hash, history[..i]), history[i]))
  {
    if forall i :: 0 <= i <= |history| ==> InBudget(Replay(maxAttempts, hash, history[..i])) {
      forall i | 0 <= i < |history| ensures !Overspends(Replay(maxAttempts, hash, history[..i]), history[i]) {
        BudgetAtStep(maxAttempts, hash, history, i);
      }
    }
    if forall i :: 0 <= i < |history| ==> !Overspends(Replay(maxAttempts, hash, history[..i]), history[i]) {
      forall i | 0 <= i <= |history| ensures InBudget(Replay(maxAttempts, hash, history[..i])) {
        BudgetUpTo(maxAttempts, hash, history, i);
      }
    }
  }

  lemma BudgetAtStep(maxAttempts: nat, hash: Hash, history: seq<Command>, i: nat)
    requires 1 <= maxAttempts && i < |history| && InBudget(Replay(maxAttempts, hash, history[..i]))
    ensures InBudget(Replay(maxAttempts, hash, history[..i + 1]))
       <==> !Overspends(Replay(maxAttempts, hash, history[..i]), history[i])
  {
    assert history[..i + 1][..i] == history[..i];
    HistoryKeeps(maxAttempts, hash, history[..i]);
    BudgetLostIff(Replay(maxAttempts, hash, history[..i]), hash, history[i]);
  }

  lemma {:induction false} BudgetUpTo(maxAttempts: nat, hash: Hash, history: seq<Command>, n: nat)
    requires 1 <= maxAttempts && n <= |history|
    requires forall i :: 0 <= i < |history| ==> !Overspends(Replay(maxAttempts, hash, history[..i]), history[i])
    ensures InBudget(Replay(maxAttempts, hash, history[..n]))
  {
    if n > 0 {
      BudgetUpTo(maxAttempts, hash, history, n - 1);
      BudgetAtStep(maxAttempts, hash, history, n - 1);
    }
  }

  /** The excess is real: resume never looks at the budget, so one resume buys an attempt beyond it. */
  lemma ResumeBuysAnAttempt(hash: Hash) returns (s: RunState)
    ensures s == Apply(Create(1), hash, Begin(0, "w", "t", 10)).state
    ensures var worked := PerformWork(s, hash, Returned(Outcome(AskHuman, Report(""), None)), 0).state;
            var resumed := ResumeRun(FinishExecution(worked, hash, 1).state).state;
            BeginExecution(resumed, 2, "w", "u", 10).state.steps[0].attempts == 2
  {
    s := StartedAt(1, hash, Begin(0, "w", "t", 10));
    ResumedStartsAgain(s, hash, Outcome(AskHuman, Report(""), None), 1, 2, "w", "u", 10);
  }

  lemma ResumedStartsAgain(s: RunState, hash: Hash, ask: Outcome, done: int, now: int, worker: string,
                           token: string, seconds: nat)
    requires Core(s) && Frontier(s).status.Running? && s.flight == Some(Flight(s.current, None))
    requires ask.decision.AskHuman? && s.current < SEAL_INDEX
    ensures var asked := FinishExecution(PerformWork(s, hash, Returned(ask), 0).state, hash, done).state;
            var again := BeginExecution(ResumeRun(asked).state, now, worker, token, seconds).state;
            again.steps[s.current].attempts == Frontier(s).attempts + 1
  {
    var worked := PerformWork(s, hash, Returned(ask), 0).state;
    assert Core(worked);
    FinishVerdictKeeps(worked, hash, done);
    var asked := FinishExecution(worked, hash, done).state;
    assert asked.status.NeedsHuman?;
    ResumeKeeps(asked);
    BeginStartsIff(ResumeRun(asked).state, now, worker, token, seconds);
  }

  // ----- pausing -----

  /**
   A pause goes through, changes nothing, or, exactly on a run that waits for a human,
   fails and leaves its request behind.
   */
  lemma PauseLeavesRequestIff(s: RunState)
    requires Core(s) && !s.pauseRequested
    ensures (PauseRun(s).reply.Done? || PauseRun(s).state == s) <==> !s.status.NeedsHuman?
    ensures s.status.NeedsHuman? ==> PauseRun(s) == Next(s.(pauseRequested := true), Illegal)
  {
  }

  // ----- progress -----

  /** Exactly when an execution request starts an attempt; it is then the frontier that runs, under its lease. */
  lemma BeginStartsIff(s: RunState, now: int, worker: string, token: string, seconds: nat)
    requires Core(s)
    ensures var next := BeginExecution(s, now, worker, token, seconds);
            && (next.reply.Done? <==>
                s.flight.None? && !s.pauseRequested && !s.status.Paused? && !TerminalRun(s.status)
                && (Frontier(s).status.Ready? || Elapsed(Frontier(s), now)))
            && (next.reply.Done? ==>
                && next.state.current == s.current && next.state.status.Running?
                && Frontier(next.state).status.Running? && Frontier(next.state).attempts == Frontier(s).attempts + 1
                && next.state.lease == Some(WorkerLease(worker, token, now + seconds))
                && next.state.flight == Some(Flight(s.current, None)))
            && (!next.reply.Done? ==> next.state == s)
  {
    ReadyIsFrontier(s, now);
  }
}
