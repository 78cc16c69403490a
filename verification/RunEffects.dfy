/**
 What every command on a run does, said of the run before and after it: where the
 statuses end, what happens to leases, backoff and flags, and what stays as it is.
 */
module RunEffects {
  import opened Options
  import opened RunStates
  import opened MissionControl
  import opened RunInvariants
  import opened RunTheorems

  // ----- the tables, read from the target -----

  /** From where each run status is reached by an edge. */
  lemma RunSources(a: RunStatus, b: RunStatus)
    ensures RunEdge(a, b) <==>
            match b
            case Scheduled => a.Running? || a.RetryWait? || a.Paused? || a.NeedsHuman?
            case Running => a.Scheduled? || a.Evaluating? || a.RetryWait? || a.Paused? || a.NeedsHuman?
            case Evaluating => a.Running?
            case RetryWait => a.Running? || a.Evaluating?
            case Paused => a.Scheduled? || a.Running? || a.RetryWait?
            case NeedsHuman => a.Scheduled? || a.Running? || a.Evaluating? || a.RetryWait?
            case Succeeded => a.Running? || a.Evaluating?
            case Cancelled => !TerminalRun(a)
            case Blocked => !TerminalRun(a) && !a.Paused?
            case Failed => !TerminalRun(a) && !a.Paused?
  {
  }

  /** From where each step status is reached by an edge. */
  lemma StepSources(a: StepStatus, b: StepStatus)
    ensures StepEdge(a, b) <==>
            match b
            case Pending => false
            case Ready => a.Pending? || a.RetryWait? || a.Paused? || a.NeedsHuman?
            case Running => a.Ready?
            case RetryWait => a.Running?
            case Paused => a.Pending? || a.Ready?
            case NeedsHuman => a.Pending? || a.Ready? || a.Running? || a.RetryWait?
            case Succeeded => a.Running?
            case Skipped => a.Pending? || a.Ready?
            case Cancelled => !TerminalStep(a)
            case Blocked => !TerminalStep(a) && !a.Paused?
            case Failed => a.Running? || a.RetryWait? || a.NeedsHuman?
  {
  }

  lemma TerminalStatuses(run: RunStatus, step: StepStatus)
    ensures TerminalRun(run) <==> forall other :: !RunEdge(run, other)
    ensures TerminalStep(step) <==> forall other :: !StepEdge(step, other)
  {
    if !TerminalRun(run) { assert RunEdge(run, RunStatus.Cancelled); }
    if !TerminalStep(step) { assert StepEdge(step, StepStatus.Cancelled); }
  }

  // ----- frames -----

  /** A step that has never been started. */
  predicate Blank(step: Step) {
    && step.attempts == 0 && step.lease.None? && step.nextRetryAt.None? && step.decision.None?
    && step.evidence.None? && step.evidenceHash.None? && step.outputReference.None?
  }

  /** All that the worker left on the step is as before. */
  predicate SameRecord(before: Step, after: Step) {
    && after.decision == before.decision && after.evidence == before.evidence
    && after.evidenceHash == before.evidenceHash && after.outputReference == before.outputReference
  }

  /** Every step but the frontier is as before, and so is the limit of attempts. */
  predicate OthersStay(s: RunState, t: RunState)
    requires WellFormed(s) && WellFormed(t)
  {
    t.maxAttempts == s.maxAttempts && forall i :: 0 <= i < STEP_COUNT && i != s.current ==> t.steps[i] == s.steps[i]
  }

  /** The run has the same pointer, flags, final hash and execution under way. */
  predicate SameRun(s: RunState, t: RunState) {
    && t.current == s.current && t.pauseRequested == s.pauseRequested && t.cancelRequested == s.cancelRequested
    && t.finalHash == s.finalHash && t.flight == s.flight
  }

  // ----- creation -----

  lemma FreshRun(maxAttempts: nat)
    ensures var s := Create(maxAttempts);
            && s.status.Scheduled? && s.current == 0 && s.maxAttempts == maxAttempts && |s.steps| == 7
            && !s.pauseRequested && !s.cancelRequested && s.lease.None? && s.finalHash.None? && s.flight.None?
            && s.steps[0].status.Ready? && (forall i :: 1 <= i < 7 ==> s.steps[i].status.Pending?)
            && forall i :: 0 <= i < 7 ==> Blank(s.steps[i])
  {
  }

  // ----- starting -----

  /** Only another worker's live lease refuses; a worker keeps its own live lease, and otherwise gets a new one. */
  lemma LeaseIsExclusive(s: RunState, now: int, worker: string, token: string, seconds: nat)
    ensures var granted := Acquire(s, now, worker, token, seconds);
            var live := s.lease.Some? && now < s.lease.value.expiresAt;
            && (granted.None? <==> live && s.lease.value.owner != worker)
            && (granted.Some? ==>
                  && granted.value == s.(lease := granted.value.lease)
                  && granted.value.lease == if live then s.lease else Some(WorkerLease(worker, token, now + seconds)))
  {
  }

  /** What a started execution leaves alone, and which refusal is told apart from the others. */
  lemma StartEffect(s: RunState, hash: Hash, now: int, worker: string, token: string, seconds: nat)
    requires Core(s)
    ensures var next := Apply(s, hash, Begin(now, worker, token, seconds));
            var t := next.state;
            && (next.reply.Done? ==>
                  && OthersStay(s, t) && t.pauseRequested == s.pauseRequested
                  && t.cancelRequested == s.cancelRequested && t.finalHash == s.finalHash
                  && SameRecord(Frontier(s), Frontier(t)) && Frontier(t).nextRetryAt == Frontier(s).nextRetryAt
                  && Frontier(t).lease == t.lease)
            && (next.reply.NotElapsed? <==>
                s.flight.None? && !s.pauseRequested && s.status.RetryWait?
                && !(Frontier(s).nextRetryAt.Some? && Frontier(s).nextRetryAt.value <= now))
            && !next.reply.Illegal?
  {
    ReadyIsFrontier(s, now);
  }

  // ----- working -----

  /** What the seal says: the six earlier steps in order, field by field, and the number of events. */
  predicate Summarises(chain: Chain, s: RunState, eventCount: nat)
    requires WellFormed(s)
  {
    && |chain.steps| == 6 && chain.eventCount == eventCount
    && forall i :: 0 <= i < 6 ==> SummaryIs(chain.steps[i], i, s.steps[i])
  }

  predicate SummaryIs(summary: StepSummary, i: nat, step: Step)
    requires i < STEP_COUNT
  {
    && summary.sequence == i && summary.stepType == DEFAULT_STEPS[i] && summary.status == step.status
    && summary.decision == step.decision && summary.attempts == step.attempts
    && summary.evidenceHash == step.evidenceHash && summary.outputReference == step.outputReference
  }

  /** The worker's outcome is kept for the finish; the seal makes its own and writes the final hash. */
  lemma WorkEffect(s: RunState, hash: Hash, work: Work, eventCount: nat)
    requires WellFormed(s)
    ensures var next := Apply(s, hash, Perform(work, eventCount));
            var t := next.state;
            if s.flight.None? || s.flight.value.result.Some? then next == Next(s, Conflict)
            else
              && next.reply.Done? && t.flight.Some? && t.flight.value.step == s.flight.value.step
              && t == s.(flight := t.flight, finalHash := t.finalHash) && t.flight.value.result.Some?
              && var o := t.flight.value.result.value;
              if work.Raised? then o == work.failure && t.finalHash == s.finalHash
              else if s.flight.value.step != 6 then o == work.outcome && t.finalHash == s.finalHash
              else
                && o.evidence.Seal? && Summarises(o.evidence.chain, s, eventCount) && o.outputReference.None?
                && t.finalHash == Some(hash(OfChain(o.evidence.chain))) == Some(o.evidence.finalHash)
                && o.decision == if forall i :: 0 <= i < 6 ==> s.steps[i].status.Succeeded? then Pass else FailPermanent
  {
  }

  // ----- finishing -----

  /** The outcome is on record. */
  predicate Recorded(step: Step, o: Outcome, hash: Hash) {
    && step.decision == Some(o.decision) && step.evidence == Some(o.evidence)
    && step.evidenceHash == Some(hash(OfEvidence(o.evidence))) && step.outputReference == o.outputReference
  }

  lemma NothingToFinish(s: RunState, hash: Hash, now: int)
    requires WellFormed(s) && !(s.flight.Some? && s.flight.value.result.Some?)
    ensures Apply(s, hash, Finish(now)) == Next(s, Conflict)
  {
  }

  /** A PASS on the running frontier: it has succeeded, and the next step is ready or the run is over. */
  lemma PassAdvances(s: RunState, hash: Hash, now: int)
    requires Core(s) && HasResult(s) && s.flight.value.result.value.decision.Pass? && Frontier(s).status.Running?
    ensures var next, o := Apply(s, hash, Finish(now)), s.flight.value.result.value;
            var t, passed := next.state, next.state.steps[s.current];
            && next.reply.Done? && t.flight.None? && t.lease.None? && t.finalHash == s.finalHash
            && t.maxAttempts == s.maxAttempts
            && t.pauseRequested == s.pauseRequested && t.cancelRequested == s.cancelRequested
            && passed.status.Succeeded? && passed.lease.None? && Recorded(passed, o, hash)
            && passed.attempts == Frontier(s).attempts && passed.nextRetryAt == Frontier(s).nextRetryAt
            && (if s.current < 6 then
                  && t.status.Running? && t.current == s.current + 1
                  && t.steps[s.current + 1] == s.steps[s.current + 1].(status := StepStatus.Ready)
                  && forall i :: 0 <= i < 7 && i != s.current && i != s.current + 1 ==> t.steps[i] == s.steps[i]
                else t.status.Succeeded? && t.current == s.current && OthersStay(s, t))
  {
    if s.current < SEAL_INDEX { PendingIsNext(s, hash); }
  }

  /** A PASS on a step that is not running is illegal and moves nothing; it stays on record. */
  lemma LatePassIsRecorded(s: RunState, hash: Hash, now: int)
    requires Core(s) && HasResult(s) && s.flight.value.result.value.decision.Pass? && !Frontier(s).status.Running?
    ensures var next, o := Apply(s, hash, Finish(now)), s.flight.value.result.value;
            var t := next.state;
            && next.reply.Illegal? && OthersStay(s, t) && Recorded(Frontier(t), o, hash)
            && t == s.(flight := None, steps := t.steps)
            && Frontier(t).status == Frontier(s).status && Frontier(t).attempts == Frontier(s).attempts
            && Frontier(t).lease == Frontier(s).lease && Frontier(t).nextRetryAt == Frontier(s).nextRetryAt
  {
  }

  /** The status of the run that goes with the status a verdict puts the step in. */
  function RunTarget(step: StepStatus): RunStatus {
    match step
    case RetryWait => RunStatus.RetryWait
    case Blocked => RunStatus.Blocked
    case Failed => RunStatus.Failed
    case _ => RunStatus.NeedsHuman
  }

  /** The seconds until the next attempt: doubling from 2, and 300 at most. */
  function Delay(attempts: nat): nat {
    if attempts >= 9 then 300 else [2, 2, 4, 8, 16, 32, 64, 128, 256][attempts]
  }

  lemma BackoffIsDelay(attempts: nat)
    ensures Backoff(attempts) == Delay(attempts)
  {
    assert PowerOfTwo(8) == 256;
    if attempts >= 9 { PowerAtLeast(attempts); }
  }

  lemma {:induction false} PowerAtLeast(n: nat)
    requires n >= 9
    ensures PowerOfTwo(n) >= 512
  {
    if n == 9 {
      assert PowerOfTwo(8) == 256;
    } else {
      PowerAtLeast(n - 1);
    }
  }

  /** Where a verdict puts step and run: each moves if its edge exists, and the run only after the step. */
  predicate VerdictLands(run: RunStatus, before: Step, maxAttempts: nat, decision: Decision, now: int, after: Step,
                         to: RunStatus, reply: Reply)
  {
    var target := VerdictTarget(before, maxAttempts, decision);
    var legal := CanTransitionStep(before.status, target);
    && after.status == (if legal then target else before.status)
    && to == (if legal && CanTransitionRun(run, RunTarget(target)) then RunTarget(target) else run)
    && reply == (if legal && CanTransitionRun(run, RunTarget(target)) then Done else Illegal)
    && after.attempts == before.attempts
    && after.nextRetryAt == (if legal && target.RetryWait? then Some(now + Delay(before.attempts))
                             else before.nextRetryAt)
  }

  lemma SettleLands(run: RunStatus, step: Step, target: StepStatus, runTarget: RunStatus)
    requires !target.Running?
    ensures var p, legal := Settle(run, step, target, runTarget), CanTransitionStep(step.status, target);
            && p.step.status == (if legal then target else step.status)
            && p.run == (if legal && CanTransitionRun(run, runTarget) then runTarget else run)
            && p.reply == (if legal && CanTransitionRun(run, runTarget) then Done else Illegal)
            && p.step.attempts == step.attempts && p.step.nextRetryAt == step.nextRetryAt && SameRecord(step, p.step)
  {
  }

  lemma VerdictLanding(run: RunStatus, step: Step, maxAttempts: nat, decision: Decision, now: int)
    requires !decision.Pass?
    ensures var p := Verdict(run, step, maxAttempts, decision, now);
            VerdictLands(run, step, maxAttempts, decision, now, p.step, p.run, p.reply) && SameRecord(step, p.step)
  {
    var target := VerdictTarget(step, maxAttempts, decision);
    if target.RetryWait? {
      BackoffIsDelay(step.attempts);
    } else {
      SettleLands(run, step, target, RunTarget(target));
    }
  }

  /** Any other verdict, on any frontier: also late, on a step that has been taken back meanwhile. */
  lemma VerdictEffect(s: RunState, hash: Hash, now: int)
    requires Core(s) && HasResult(s) && !s.flight.value.result.value.decision.Pass?
    ensures var next, o := Apply(s, hash, Finish(now)), s.flight.value.result.value;
            var t := next.state;
            && VerdictLands(s.status, Frontier(s), s.maxAttempts, o.decision, now, Frontier(t), t.status, next.reply)
            && Recorded(Frontier(t), o, hash) && OthersStay(s, t) && t.current == s.current && t.flight.None?
            && t.finalHash == s.finalHash
            && t.pauseRequested == s.pauseRequested && t.cancelRequested == s.cancelRequested
            && (next.reply.Done? ==> t.lease.None? && Frontier(t).lease.None?)
  {
    var o := s.flight.value.result.value;
    VerdictLanding(s.status, Record(Frontier(s), o, hash), s.maxAttempts, o.decision, now);
  }

  /**
   On the running frontier every verdict is legal: a retry with attempts left waits
   2, 4, 8, ... and at most 300 seconds; BLOCK blocks and FAIL fails step and run; a
   retry without attempts left, a revision and a question go to a human. Both leases
   are gone.
   */
  lemma VerdictOnRunningStep(s: RunState, hash: Hash, now: int)
    requires Core(s) && HasResult(s) && !s.flight.value.result.value.decision.Pass? && Frontier(s).status.Running?
    ensures var next, d := Apply(s, hash, Finish(now)), s.flight.value.result.value.decision;
            var t, step := next.state, Frontier(next.state);
            && next.reply.Done? && t.lease.None? && step.lease.None? && step.attempts == Frontier(s).attempts
            && match d {
                 case RetryTransient =>
                   if Frontier(s).attempts < s.maxAttempts then
                     t.status.RetryWait? && step.status.RetryWait?
                     && step.nextRetryAt == Some(now + Delay(Frontier(s).attempts))
                   else t.status.NeedsHuman? && step.status.NeedsHuman?
                 case NeedsRevision => t.status.NeedsHuman? && step.status.NeedsHuman?
                 case AskHuman => t.status.NeedsHuman? && step.status.NeedsHuman?
                 case BlockPolicy => t.status.Blocked? && step.status.Blocked?
                 case FailPermanent => t.status.Failed? && step.status.Failed?
               }
  {
    VerdictEffect(s, hash, now);
  }

  // ----- leases -----

  lemma HeartbeatEffect(s: RunState, hash: Hash, now: int, worker: string, token: string, seconds: nat)
    requires Core(s)
    ensures var next := Apply(s, hash, Heartbeat(now, worker, token, seconds));
            var t := next.state;
            && (next.reply.Done? <==> s.lease.Some? && s.lease.value.owner == worker && s.lease.value.token == token)
            && (!next.reply.Done? ==> next == Next(s, Conflict))
            && (next.reply.Done? ==>
                  && t.lease == Some(WorkerLease(worker, token, now + seconds)) && SameRun(s, t) && OthersStay(s, t)
                  && t.status == s.status && Frontier(t) == Frontier(s).(lease := t.lease))
  {
  }

  /** An expired lease is taken from the run and its step, which waits for a retry at once, or for a human. */
  lemma WatchdogEffect(s: RunState, hash: Hash, now: int)
    requires Core(s)
    ensures var t := Apply(s, hash, Watchdog(now)).state;
            if s.lease.None? || now < s.lease.value.expiresAt then t == s
            else
              && t.lease.None? && Frontier(t).lease.None? && SameRun(s, t) && OthersStay(s, t)
              && SameRecord(Frontier(s), Frontier(t)) && Frontier(t).attempts == Frontier(s).attempts
              && if Frontier(s).attempts < s.maxAttempts then
                   t.status.RetryWait? && Frontier(t).status.RetryWait? && Frontier(t).nextRetryAt == Some(now)
                 else
                   && t.status.NeedsHuman? && Frontier(t).status.NeedsHuman?
                   && Frontier(t).nextRetryAt == Frontier(s).nextRetryAt
  {
  }

  // ----- operator commands -----

  lemma PauseEffect(s: RunState, hash: Hash)
    requires Core(s)
    ensures var next := Apply(s, hash, Pause);
            if Frontier(s).status.Running? || TerminalRun(s.status) then next == Next(s, Conflict)
            else if s.status.NeedsHuman? then next == Next(s.(pauseRequested := true), Illegal)
            else next == Next(s.(pauseRequested := true, status := RunStatus.Paused), Done)
  {
  }

  lemma ResumeEffect(s: RunState, hash: Hash)
    requires Core(s)
    ensures var next := Apply(s, hash, Resume);
            var t := next.state;
            && (next.reply.Done? <==> s.status.Paused? || s.status.NeedsHuman? || s.status.RetryWait?)
            && (!next.reply.Done? ==> next == Next(s, Conflict))
            && (next.reply.Done? ==>
                  && t.status.Scheduled? && !t.pauseRequested && OthersStay(s, t)
                  && SameRun(s, t.(pauseRequested := s.pauseRequested)) && t.lease == s.lease
                  && if Frontier(s).status.NeedsHuman? || Frontier(s).status.RetryWait? then
                       Frontier(t) == Frontier(s).(status := StepStatus.Ready, nextRetryAt := None)
                     else Frontier(t) == Frontier(s))
  {
  }

  /** Every step that is not terminal is cancelled, and so is the run; what was terminal stays. */
  lemma CancelEffect(s: RunState, hash: Hash)
    requires Core(s)
    ensures var next := Apply(s, hash, Cancel);
            var t := next.state;
            if Frontier(s).status.Running? || (TerminalRun(s.status) && !s.status.Cancelled?) then
              next == Next(s, Conflict)
            else if s.status.Cancelled? then next == Next(s, Done)
            else
              && next.reply.Done? && t.status.Cancelled? && t.cancelRequested && t.lease.None?
              && t.current == s.current && t.maxAttempts == s.maxAttempts && t.pauseRequested == s.pauseRequested
              && t.finalHash == s.finalHash && t.flight == s.flight && |t.steps| == 7
              && forall i :: 0 <= i < 7 ==>
                   t.steps[i] == if TerminalStep(s.steps[i].status) then s.steps[i]
                                 else s.steps[i].(status := StepStatus.Cancelled, lease := None)
  {
  }

  /** Only a waiting or parked frontier of an open run with attempts left can be retried. */
  lemma RetryEffect(s: RunState, hash: Hash, target: int)
    requires Core(s)
    ensures var next := Apply(s, hash, Retry(target));
            var t := next.state;
            && (next.reply.Done? <==>
                && target == s.current && !TerminalRun(s.status) && Frontier(s).attempts < s.maxAttempts
                && (Frontier(s).status.RetryWait? || Frontier(s).status.NeedsHuman?))
            && (!next.reply.Done? ==> next == Next(s, Conflict))
            && (next.reply.Done? ==>
                  && Frontier(t) == Frontier(s).(status := StepStatus.Ready, nextRetryAt := None)
                  && OthersStay(s, t) && !t.pauseRequested && SameRun(s, t.(pauseRequested := s.pauseRequested))
                  && t.lease == s.lease
                  && t.status == if s.status.NeedsHuman? || s.status.RetryWait? then RunStatus.Scheduled else s.status)
  {
  }

  lemma RestartEffect(s: RunState, hash: Hash)
    requires WellFormed(s)
    ensures Apply(s, hash, Restart) == Next(s.(flight := None), Done)
  {
  }
}
