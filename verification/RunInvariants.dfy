/**
 What every history of commands keeps, whatever the worker returns and however
 the watchdog and the operator interleave with it.
 */
module RunInvariants {
  import opened Options
  import opened RunStates
  import opened MissionControl

  // ----- the invariant -----

  /** Steps after the frontier have never been started. */
  predicate Untouched(step: Step, run: RunStatus) {
    step.attempts == 0 && step.lease.None?
    && step.status == (if run.Cancelled? then StepStatus.Cancelled else StepStatus.Pending)
  }

  /** SUCCEEDED*, one frontier step named by `current`, then PENDING* (CANCELLED* after a cancel). */
  predicate Shape(s: RunState) {
    && WellFormed(s)
    && 1 <= s.maxAttempts
    && (forall i :: 0 <= i < s.current ==> s.steps[i].status.Succeeded? && s.steps[i].lease.None?)
    && (forall j :: s.current < j < STEP_COUNT ==> Untouched(s.steps[j], s.status))
    && (s.steps[s.current].status.Succeeded? ==> s.current == SEAL_INDEX)
  }

  /** The fixed table between the run status and the frontier status. */
  predicate Coupled(run: RunStatus, frontier: StepStatus) {
    match run
    case Scheduled => frontier.Ready?
    case Running => frontier.Ready? || frontier.Running?
    case Evaluating => false
    case RetryWait => frontier.RetryWait?
    case Paused => frontier.Ready? || frontier.RetryWait?
    case NeedsHuman => frontier.NeedsHuman?
    case Blocked => frontier.Blocked?
    case Succeeded => frontier.Succeeded?
    case Failed => frontier.Failed?
    case Cancelled => frontier.Cancelled?
  }

  /**
   What always holds between the run status and the frontier status, also where a
   late result or a human decision has taken the pair out of the table.
   */
  predicate Loose(run: RunStatus, frontier: StepStatus) {
    && !run.Evaluating? && !frontier.Pending? && !frontier.Paused? && !frontier.Skipped?
    && (run.NeedsHuman? ==> frontier.NeedsHuman?) && (run.RetryWait? ==> frontier.RetryWait?)
    && (frontier.Running? ==> run.Running?)
    && (run.Succeeded? <==> frontier.Succeeded?)
    && (run.Cancelled? ==> frontier.Cancelled? || frontier.Blocked? || frontier.Failed?)
    && (frontier.Cancelled? ==> run.Cancelled?)
  }

  function Frontier(s: RunState): Step
    requires WellFormed(s)
  {
    s.steps[s.current]
  }

  predicate Statuses(s: RunState)
    requires Shape(s)
  {
    var f := Frontier(s);
    && Loose(s.status, f.status)
    && (s.cancelRequested <==> s.status.Cancelled?)
    && (f.status.RetryWait? ==> f.attempts < s.maxAttempts && f.nextRetryAt.Some?)
    && (s.lease.Some? <==> f.status.Running?)
    && f.lease == s.lease
    && (s.flight.Some? ==> s.flight.value.step == s.current && !f.status.Succeeded?)
  }

  /** `evidence` is the seal of the six earlier steps and its hash is the run's. */
  predicate SealOf(s: RunState, hash: Hash, evidence: Evidence)
    requires WellFormed(s)
  {
    && evidence.Seal?
    && evidence.chain.steps == Summaries(s.steps, SEAL_INDEX)
    && evidence.finalHash == hash(OfChain(evidence.chain))
    && s.finalHash == Some(evidence.finalHash)
  }

  predicate Sealing(s: RunState, hash: Hash)
    requires Shape(s)
  {
    && (s.flight.Some? && s.flight.value.step == SEAL_INDEX && s.flight.value.result.Some?
        && s.flight.value.result.value.decision.Pass?
        ==> SealOf(s, hash, s.flight.value.result.value.evidence))
    && (Frontier(s).status.Succeeded? ==>
          var e := Frontier(s).evidence;
          e.Some? && SealOf(s, hash, e.value) && Frontier(s).evidenceHash == Some(hash(OfEvidence(e.value))))
  }

  predicate Core(s: RunState) {
    Shape(s) && Statuses(s)
  }

  predicate Inv(s: RunState, hash: Hash) {
    Core(s) && Sealing(s, hash)
  }

  // ----- preservation -----

  lemma {:induction false} ReadyFromPrefix(s: RunState, i: nat, now: int)
    requires Shape(s) && i <= s.current
    ensures ReadyFrom(s.steps, i, now) == ReadyFrom(s.steps, s.current, now)
    decreases s.current - i
  {
    if i < s.current { ReadyFromPrefix(s, i + 1, now); }
  }

  /** The only step that can start is the frontier, so the current step is the step that is executed. */
  lemma ReadyIsFrontier(s: RunState, now: int)
    requires Shape(s)
    ensures ReadyFrom(s.steps, 0, now)
         == if Frontier(s).status.Ready? || Elapsed(Frontier(s), now) then Some(s.current) else None
  {
    ReadyFromPrefix(s, 0, now);
    if Frontier(s).status.Succeeded? {
      assert ReadyFrom(s.steps, s.current + 1, now) == None;
    }
  }

  lemma SummariesAgree(steps: seq<Step>, steps': seq<Step>, n: nat)
    requires n <= |steps| && n <= |steps'| && n <= STEP_COUNT
    requires forall i :: 0 <= i < n ==> steps[i] == steps'[i]
    ensures Summaries(steps, n) == Summaries(steps', n)
  {
  }

  lemma PendingIsNext(s: RunState, hash: Hash)
    requires Core(s) && HasResult(s) && s.current < SEAL_INDEX && !s.status.Cancelled?
    ensures var recorded := s.steps[s.current := Record(Frontier(s), s.flight.value.result.value, hash)];
            PendingFrom(recorded, s.current + 1) == Some(s.current + 1)
  {
  }

  lemma CreateEstablishes(maxAttempts: nat, hash: Hash)
    requires 1 <= maxAttempts
    ensures Inv(Create(maxAttempts), hash)
  {
  }

  /** `t` differs from `s` in the frontier, the run status, the leases and the pause flag; its flight may have ended. */
  predicate FrontierMove(s: RunState, t: RunState)
    requires WellFormed(s) && WellFormed(t)
  {
    && t.steps == s.steps[s.current := Frontier(t)]
    && t.current == s.current && t.maxAttempts == s.maxAttempts
    && t.cancelRequested == s.cancelRequested && (t.flight.None? || t.flight == s.flight)
    && (t.status.Cancelled? <==> s.status.Cancelled?)
    && !Frontier(t).status.Succeeded?
  }

  lemma FrontierMoveKeeps(s: RunState, t: RunState)
    requires Core(s) && WellFormed(t) && FrontierMove(s, t)
    requires Loose(t.status, Frontier(t).status)
    requires Frontier(t).status.RetryWait? ==> Frontier(t).attempts < t.maxAttempts && Frontier(t).nextRetryAt.Some?
    requires (t.lease.Some? <==> Frontier(t).status.Running?) && Frontier(t).lease == t.lease
    ensures Core(t)
  {
  }

  lemma BeginKeeps(s: RunState, now: int, worker: string, token: string, seconds: nat)
    requires Core(s)
    ensures Core(BeginExecution(s, now, worker, token, seconds).state)
  {
    ReadyIsFrontier(s, now);
  }

  lemma FinishPassKeeps(s: RunState, hash: Hash, now: int)
    requires Core(s) && HasResult(s) && s.flight.value.result.value.decision.Pass?
    ensures Core(FinishExecution(s, hash, now).state)
  {
    var t := FinishExecution(s, hash, now).state;
    if !Frontier(s).status.Running? {
      FrontierMoveKeeps(s, t);
    } else if s.current < SEAL_INDEX {
      PendingIsNext(s, hash);
    }
  }

  /** Which pairs a verdict other than PASS can leave, when it lands on the frontier of a run. */
  lemma VerdictKeepsPair(run: RunStatus, step: Step, maxAttempts: nat, decision: Decision, now: int)
    requires !decision.Pass? && !step.status.Succeeded?
    requires Loose(run, step.status)
    requires step.status.RetryWait? ==> step.attempts < maxAttempts && step.nextRetryAt.Some?
    ensures var p := Verdict(run, step, maxAttempts, decision, now);
            && Loose(p.run, p.step.status)
            && (p.step.status.RetryWait? ==> p.step.attempts < maxAttempts && p.step.nextRetryAt.Some?)
            && !p.step.status.Running? && !p.step.status.Succeeded?
            && (p.run.Cancelled? <==> run.Cancelled?)
            && (p.reply.Illegal? ==> !step.status.Running?) && (step.lease.None? ==> p.step.lease.None?)
  {
  }

  lemma FinishVerdictKeeps(s: RunState, hash: Hash, now: int)
    requires Core(s) && HasResult(s) && !s.flight.value.result.value.decision.Pass?
    ensures Core(FinishExecution(s, hash, now).state)
  {
    var o := s.flight.value.result.value;
    VerdictKeepsPair(s.status, Record(Frontier(s), o, hash), s.maxAttempts, o.decision, now);
    FrontierMoveKeeps(s, FinishExecution(s, hash, now).state);
  }

  lemma CancelKeeps(s: RunState)
    requires Core(s)
    ensures Core(CancelAtBoundary(s).state)
  {
  }

  lemma HeartbeatKeeps(s: RunState, now: int, worker: string, token: string, seconds: nat)
    requires Core(s)
    ensures Core(RenewLeases(s, now, worker, token, seconds).state)
  {
  }

  lemma WatchdogKeeps(s: RunState, now: int)
    requires Core(s)
    ensures Core(RecoverStale(s, now).state)
  {
    if s.lease.Some? { FrontierMoveKeeps(s, RecoverStale(s, now).state); }
  }

  lemma PauseKeeps(s: RunState)
    requires Core(s)
    ensures Core(PauseRun(s).state)
  {
  }

  lemma ResumeKeeps(s: RunState)
    requires Core(s)
    ensures Core(ResumeRun(s).state)
  {
  }

  /** Only the frontier is ever eligible for a retry, whichever step the operator names. */
  lemma RetryKeeps(s: RunState, target: int)
    requires Core(s)
    ensures var t := RetryStep(s, target).state; Core(t) && (t != s ==> target == s.current)
  {
  }

  lemma ApplyKeepsCore(s: RunState, hash: Hash, c: Command)
    requires Core(s)
    ensures Core(Apply(s, hash, c).state)
  {
    match c
    case Begin(now, worker, token, seconds) => BeginKeeps(s, now, worker, token, seconds);
    case Perform(work, eventCount) =>
    case Finish(now) =>
      if HasResult(s) {
        if s.flight.value.result.value.decision.Pass? {
          FinishPassKeeps(s, hash, now);
        } else {
          FinishVerdictKeeps(s, hash, now);
        }
      }
    case Cancel => CancelKeeps(s);
    case Pause => PauseKeeps(s);
    case Resume => ResumeKeeps(s);
    case Retry(target) => RetryKeeps(s, target);
    case Heartbeat(now, worker, token, seconds) => HeartbeatKeeps(s, now, worker, token, seconds);
    case Watchdog(now) => WatchdogKeeps(s, now);
    case Restart =>
  }

  // ----- what one command changes -----

  /** One command may move a waiting step twice: READY when its backoff has elapsed, then RUNNING. */
  predicate StepMoves(before: StepStatus, after: StepStatus) {
    CanTransitionStep(before, after) || (before.RetryWait? && after.Running?)
  }

  /** Steps before the frontier never change; the frontier takes an edge; later steps are readied or cancelled. */
  predicate Effect(s: RunState, t: RunState)
    requires WellFormed(s) && WellFormed(t)
  {
    && t.maxAttempts == s.maxAttempts
    && CanTransitionRun(s.status, t.status)
    && (forall i :: 0 <= i < s.current ==> t.steps[i] == s.steps[i])
    && StepMoves(Frontier(s).status, t.steps[s.current].status)
    && (t.current == s.current
        || (t.current == s.current + 1 && Frontier(s).status.Running? && t.steps[s.current].status.Succeeded?))
    && (forall j :: s.current < j < STEP_COUNT ==>
          t.steps[j] == s.steps[j] || t.steps[j] == s.steps[j].(status := StepStatus.Cancelled)
          || (t.current == j && t.steps[j] == s.steps[j].(status := StepStatus.Ready)))
  }

  lemma VerdictTakesEdges(run: RunStatus, step: Step, maxAttempts: nat, decision: Decision, now: int)
    requires !decision.Pass?
    ensures var p := Verdict(run, step, maxAttempts, decision, now);
            && CanTransitionRun(run, p.run) && CanTransitionStep(step.status, p.step.status)
            && p.step.attempts == step.attempts && (p.step.status.Ready? ==> step.status.Ready?)
  {
  }

  lemma PassEffect(s: RunState, hash: Hash, now: int)
    requires Core(s) && HasResult(s) && s.flight.value.result.value.decision.Pass?
    ensures var t := FinishExecution(s, hash, now).state;
            Effect(s, t) && t.steps[s.current].attempts == Frontier(s).attempts
            && (t.steps[s.current].status.Ready? ==> Frontier(s).status.Ready?)
  {
  }

  lemma FinishEffect(s: RunState, hash: Hash, now: int)
    requires Core(s)
    ensures var t := FinishExecution(s, hash, now).state;
            Effect(s, t) && t.steps[s.current].attempts == Frontier(s).attempts
            && (t.steps[s.current].status.Ready? ==> Frontier(s).status.Ready?)
  {
    if HasResult(s) && s.flight.value.result.value.decision.Pass? {
      PassEffect(s, hash, now);
    } else if HasResult(s) {
      var o := s.flight.value.result.value;
      VerdictTakesEdges(s.status, Record(Frontier(s), o, hash), s.maxAttempts, o.decision, now);
    }
  }

  lemma BeginEffect(s: RunState, now: int, worker: string, token: string, seconds: nat)
    requires Core(s)
    ensures var next := BeginExecution(s, now, worker, token, seconds);
            Effect(s, next.state)
            && next.state.steps[s.current].attempts == Frontier(s).attempts + if next.reply.Done? then 1 else 0
  {
    ReadyIsFrontier(s, now);
  }

  lemma OperatorEffect(s: RunState, hash: Hash, c: Command)
    requires Core(s) && !c.Begin? && !c.Finish?
    ensures var t := Apply(s, hash, c).state;
            Effect(s, t) && t.steps[s.current].attempts == Frontier(s).attempts
  {
    if c.Retry? { RetryKeeps(s, c.target); }
  }

  lemma ApplyEffect(s: RunState, hash: Hash, c: Command)
    requires Core(s)
    ensures var next := Apply(s, hash, c);
            Effect(s, next.state)
            && next.state.steps[s.current].attempts
            == Frontier(s).attempts + if c.Begin? && next.reply.Done? then 1 else 0
  {
    match c
    case Begin(now, worker, token, seconds) => BeginEffect(s, now, worker, token, seconds);
    case Finish(now) => FinishEffect(s, hash, now);
    case _ => OperatorEffect(s, hash, c);
  }

  // ----- the seal -----

  lemma PerformSeals(s: RunState, hash: Hash, work: Work, eventCount: nat)
    requires Inv(s, hash)
    ensures Sealing(PerformWork(s, hash, work, eventCount).state, hash)
  {
  }

  /** A move of the frontier that does not pass it leaves the seal of the six earlier steps as it is. */
  lemma FrontierMoveSeals(s: RunState, t: RunState, hash: Hash)
    requires Inv(s, hash) && Core(t) && FrontierMove(s, t) && t.finalHash == s.finalHash
    ensures Inv(t, hash)
  {
  }

  lemma FinishVerdictSeals(s: RunState, hash: Hash, now: int)
    requires Inv(s, hash) && HasResult(s) && !s.flight.value.result.value.decision.Pass?
    ensures Inv(FinishExecution(s, hash, now).state, hash)
  {
    var o := s.flight.value.result.value;
    FinishVerdictKeeps(s, hash, now);
    VerdictKeepsPair(s.status, Record(Frontier(s), o, hash), s.maxAttempts, o.decision, now);
    FrontierMoveSeals(s, FinishExecution(s, hash, now).state, hash);
  }

  lemma FinishPassSeals(s: RunState, hash: Hash, now: int)
    requires Inv(s, hash) && HasResult(s) && s.flight.value.result.value.decision.Pass?
    ensures Inv(FinishExecution(s, hash, now).state, hash)
  {
    var t := FinishExecution(s, hash, now).state;
    FinishPassKeeps(s, hash, now);
    if !Frontier(s).status.Running? {
      FrontierMoveSeals(s, t, hash);
    } else if s.current < SEAL_INDEX {
      PendingIsNext(s, hash);
    } else {
      SummariesAgree(s.steps, t.steps, SEAL_INDEX);
    }
  }

  lemma FinishSeals(s: RunState, hash: Hash, now: int)
    requires Inv(s, hash)
    ensures Inv(FinishExecution(s, hash, now).state, hash)
  {
    if HasResult(s) {
      if s.flight.value.result.value.decision.Pass? {
        FinishPassSeals(s, hash, now);
      } else {
        FinishVerdictSeals(s, hash, now);
      }
    }
  }

  lemma OthersSeal(s: RunState, hash: Hash, c: Command)
    requires Inv(s, hash) && !c.Perform? && !c.Finish?
    ensures Core(Apply(s, hash, c).state) && Sealing(Apply(s, hash, c).state, hash)
  {
    var t := Apply(s, hash, c).state;
    ApplyKeepsCore(s, hash, c);
    ApplyEffect(s, hash, c);
    SummariesAgree(s.steps, t.steps, s.current);
  }

  lemma ApplyKeeps(s: RunState, hash: Hash, c: Command)
    requires Inv(s, hash)
    ensures Inv(Apply(s, hash, c).state, hash)
  {
    ApplyKeepsCore(s, hash, c);
    match c
    case Perform(work, eventCount) => PerformSeals(s, hash, work, eventCount);
    case Finish(now) => FinishSeals(s, hash, now);
    case _ => OthersSeal(s, hash, c);
  }

  lemma {:induction false} ReplayKeeps(s: RunState, hash: Hash, history: seq<Command>)
    requires Inv(s, hash)
    ensures Inv(ReplayFrom(s, hash, history), hash)
  {
    if history != [] {
      ReplayKeeps(s, hash, history[..|history| - 1]);
      ApplyKeeps(ReplayFrom(s, hash, history[..|history| - 1]), hash, history[|history| - 1]);
    }
  }

  lemma HistoryKeeps(maxAttempts: nat, hash: Hash, history: seq<Command>)
    requires 1 <= maxAttempts
    ensures Inv(Replay(maxAttempts, hash, history), hash)
  {
    CreateEstablishes(maxAttempts, hash);
    ReplayKeeps(Create(maxAttempts), hash, history);
  }
}
