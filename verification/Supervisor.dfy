/**
 The durable run as the supervisor updates it in place. Every command leaves
 exactly the state that the corresponding function of MissionControl describes,
 so the theorems of RunTheorems hold of every sequence of these calls.
 */
module Supervisor {
  import opened Options
  import opened RunStates
  import opened MissionControl

  class AgentRun {
    const maxAttempts: nat
    const hash: Hash
    var status: RunStatus
    var current: nat
    var pauseRequested: bool
    var cancelRequested: bool
    var lease: Option<WorkerLease>
    var finalHash: Option<Digest>
    var steps: seq<Step>
    var flight: Option<Flight>

    function State(): RunState
      reads this
    {
      RunState(status, current, maxAttempts, pauseRequested, cancelRequested, lease, finalHash, steps, flight)
    }

    predicate Valid()
      reads this
    {
      WellFormed(State())
    }

    constructor (maxAttempts: nat, hash: Hash)
      ensures Valid() && State() == Create(maxAttempts) && this.hash == hash
    {
      this.maxAttempts, this.hash := maxAttempts, hash;
      status, current, pauseRequested, cancelRequested := RunStatus.Scheduled, 0, false, false;
      lease, finalHash, flight := None, None, None;
      steps := [];
      new;
      var index := 0;
      while index < STEP_COUNT
        invariant 0 <= index <= STEP_COUNT && |steps| == index
        invariant forall i :: 0 <= i < index ==> steps[i] == Create(maxAttempts).steps[i]
        invariant State() == Create(maxAttempts).(steps := steps)
      {
        steps := steps + [if index == 0 then FRESH_STEP.(status := StepStatus.Ready) else FRESH_STEP];
        index := index + 1;
      }
      assert steps == Create(maxAttempts).steps;
    }

    /** False is the illegal-transition exception. */
    method MoveRun(target: RunStatus) returns (legal: bool)
      modifies this`status, this`lease
      ensures legal <==> CanTransitionRun(old(status), target)
      ensures legal ==> Some(State()) == TransitionRun(old(State()), target)
      ensures !legal ==> State() == old(State())
    {
      if target == status { return true; }
      if !CanTransitionRun(status, target) { return false; }
      status := target;
      if TerminalRun(target) { lease := None; }
      legal := true;
    }

    method MoveStep(k: nat, target: StepStatus) returns (legal: bool)
      requires k < |steps|
      modifies this`steps
      ensures legal <==> TransitionStep(old(steps[k]), target).Some?
      ensures legal ==> steps == old(steps)[k := TransitionStep(old(steps[k]), target).value]
      ensures !legal ==> steps == old(steps)
    {
      var step := steps[k];
      if target == step.status { return true; }
      if !CanTransitionStep(step.status, target) { return false; }
      step := step.(status := target);
      if target.Running? { step := step.(attempts := step.attempts + 1); }
      if TerminalStep(target) { step := step.(lease := None); }
      steps := steps[k := step];
      legal := true;
    }

    method AcquireLease(now: int, worker: string, token: string, seconds: nat) returns (granted: bool)
      modifies this`lease
      ensures granted <==> Acquire(old(State()), now, worker, token, seconds).Some?
      ensures granted ==> Some(State()) == Acquire(old(State()), now, worker, token, seconds)
      ensures !granted ==> State() == old(State())
    {
      if lease.Some? && lease.value.expiresAt > now { return lease.value.owner == worker; }
      lease := Some(WorkerLease(worker, token, now + seconds));
      granted := true;
    }

    /** Walks the steps; the one it returns is READY, moved there if its backoff has elapsed. */
    method ReadyStep(now: int) returns (found: Option<nat>)
      modifies this`steps
      ensures found == ReadyFrom(old(steps), 0, now)
      ensures steps == match found
                       case None => old(steps)
                       case Some(i) => old(steps)[i := old(steps)[i].(status := StepStatus.Ready)]
    {
      var i := 0;
      while i < |steps|
        invariant 0 <= i <= |steps| && steps == old(steps)
        invariant ReadyFrom(steps, 0, now) == ReadyFrom(steps, i, now)
      {
        if Elapsed(steps[i], now) {
          var _ := MoveStep(i, StepStatus.Ready);
        }
        if steps[i].status.Ready? { return Some(i); }
        if !(steps[i].status.Succeeded? || steps[i].status.Skipped?) { return None; }
        i := i + 1;
      }
      found := None;
    }

    /** An execution request up to the point where the worker takes over. */
    method BeginStep(now: int, worker: string, token: string, seconds: nat) returns (reply: Reply)
      requires Valid()
      modifies this
      ensures Valid() && Next(State(), reply) == BeginExecution(old(State()), now, worker, token, seconds)
    {
      if flight.Some? || steps[current].status.Running? || lease.Some? { return Conflict; }
      if TerminalRun(status) || pauseRequested || status.Paused? { return Conflict; }
      if cancelRequested {
        var _ := CancelWork();
        return Conflict;
      }
      reply := StartReadyStep(now, worker, token, seconds);
    }

    /** The last part of an execution request: the lease, then the step it is for. */
    method StartReadyStep(now: int, worker: string, token: string, seconds: nat) returns (reply: Reply)
      requires Valid() && lease.None? && flight.None? && !steps[current].status.Running?
      requires !TerminalRun(status) && !pauseRequested && !status.Paused? && !cancelRequested
      modifies this
      ensures Valid() && Next(State(), reply) == BeginExecution(old(State()), now, worker, token, seconds)
    {
      var granted := AcquireLease(now, worker, token, seconds);
      if !granted { return Conflict; }
      var found := ReadyStep(now);
      if found.None? {
        lease := None;
        return if status.RetryWait? then NotElapsed else Conflict;
      }
      StartStep(found.value, old(steps));
      reply := Done;
    }

    method StartStep(i: nat, ghost before: seq<Step>)
      requires Valid() && i < STEP_COUNT == |before| && steps == before[i := before[i].(status := StepStatus.Ready)]
      modifies this
      ensures Valid() && State() == Start(old(State()).(steps := before), i)
    {
      var _ := MoveStep(i, StepStatus.Running);
      steps := steps[i := steps[i].(lease := lease)];
      current := i;
      if status.Scheduled? || status.RetryWait? {
        var _ := MoveRun(RunStatus.Running);
      }
      flight := Some(Flight(i, None));
    }

    method Perform(work: Work, eventCount: nat) returns (reply: Reply)
      requires Valid()
      modifies this`finalHash, this`flight
      ensures Valid() && Next(State(), reply) == PerformWork(old(State()), hash, work, eventCount)
    {
      if flight.None? || flight.value.result.Some? { return Conflict; }
      var outcome := if work.Returned? then work.outcome else work.failure;
      if work.Returned? && flight.value.step == SEAL_INDEX {
        outcome := SealChain(eventCount);
        finalHash := Some(outcome.evidence.finalHash);
      }
      flight := Some(Flight(flight.value.step, Some(outcome)));
      reply := Done;
    }

    method SealChain(eventCount: nat) returns (outcome: Outcome)
      requires Valid()
      ensures outcome == SealOutcome(State(), hash, eventCount)
    {
      var summaries: seq<StepSummary>, passed, i := [], true, 0;
      while i < SEAL_INDEX
        invariant 0 <= i <= SEAL_INDEX && summaries == Summaries(steps, i)
        invariant passed <==> AllPassed(steps, i)
      {
        summaries := summaries + [Summary(steps[i], i)];
        passed := passed && steps[i].status.Succeeded?;
        i := i + 1;
      }
      var chain := Chain(summaries, eventCount);
      outcome := Outcome(if passed then Pass else FailPermanent, Seal(chain, hash(OfChain(chain))), None);
    }

    /** Readies the first pending step after `k`, if there is one. */
    method NextPendingStep(k: nat) returns (found: bool)
      requires k < |steps|
      modifies this`steps, this`current
      ensures found <==> PendingFrom(old(steps), k + 1).Some?
      ensures found ==> var j := PendingFrom(old(steps), k + 1).value;
                        current == j && steps == old(steps)[j := old(steps)[j].(status := StepStatus.Ready)]
      ensures !found ==> steps == old(steps) && current == old(current)
    {
      var j := k + 1;
      while j < |steps|
        invariant k < j <= |steps| && steps == old(steps) && current == old(current)
        invariant PendingFrom(steps, k + 1) == PendingFrom(steps, j)
      {
        if steps[j].status.Pending? {
          var _ := MoveStep(j, StepStatus.Ready);
          current := j;
          return true;
        }
        j := j + 1;
      }
      found := false;
    }

    method SettlePair(k: nat, stepTarget: StepStatus, runTarget: RunStatus) returns (reply: Reply)
      requires k < |steps| && !stepTarget.Running?
      modifies this`steps, this`status, this`lease
      ensures var p := Settle(old(status), old(steps[k]), stepTarget, runTarget);
              steps == old(steps)[k := p.step] && status == p.run && reply == p.reply
      ensures lease == old(lease) || (lease.None? && !reply.Illegal?)
    {
      var legal := MoveStep(k, stepTarget);
      if legal { legal := MoveRun(runTarget); }
      reply := if legal then Done else Illegal;
    }

    method ApplyVerdict(k: nat, decision: Decision, now: int) returns (reply: Reply)
      requires k < |steps| && !decision.Pass?
      modifies this`steps, this`status, this`lease
      ensures var p := Verdict(old(status), old(steps[k]), maxAttempts, decision, now);
              steps == old(steps)[k := p.step] && status == p.run && reply == p.reply
      ensures reply.Illegal? ==> lease == old(lease)
    {
      if decision.RetryTransient? && steps[k].attempts < maxAttempts {
        var legal := MoveStep(k, StepStatus.RetryWait);
        if !legal { return Illegal; }
        steps := steps[k := steps[k].(nextRetryAt := Some(now + Backoff(steps[k].attempts)))];
        legal := MoveRun(RunStatus.RetryWait);
        reply := if legal then Done else Illegal;
      } else if decision.BlockPolicy? {
        reply := SettlePair(k, StepStatus.Blocked, RunStatus.Blocked);
      } else if decision.FailPermanent? {
        reply := SettlePair(k, StepStatus.Failed, RunStatus.Failed);
      } else {
        reply := SettlePair(k, StepStatus.NeedsHuman, RunStatus.NeedsHuman);
      }
    }

    method FinishPass(k: nat) returns (reply: Reply)
      requires Valid() && k < |steps|
      modifies this
      ensures Valid() && Next(State(), reply) == PassStep(old(State()), k)
    {
      ghost var before := steps;
      var legal := MoveStep(k, StepStatus.Succeeded);
      if !legal { return Illegal; }
      PendingAfterIgnores(before, steps, k + 1);
      reply := Advance(before, k);
    }

    /** The step after `k` is readied, or the run is over. */
    method Advance(ghost before: seq<Step>, k: nat) returns (reply: Reply)
      requires Valid() && k < |steps| == |before| && TransitionStep(before[k], StepStatus.Succeeded).Some?
      requires steps == before[k := TransitionStep(before[k], StepStatus.Succeeded).value]
      requires PendingFrom(before, k + 1) == PendingFrom(steps, k + 1)
      modifies this
      ensures Valid() && Next(State(), reply) == PassStep(old(State()).(steps := before), k)
    {
      ghost var passed := steps[k];
      var found := NextPendingStep(k);
      if found {
        status := RunStatus.Running;
        ReadiedAndReleased(before, k, passed, current);
      } else {
        var legal := MoveRun(RunStatus.Succeeded);
        if !legal { return Illegal; }
      }
      steps := steps[k := steps[k].(lease := None)];
      lease := None;
      reply := Done;
    }

    method FinishParked(k: nat, decision: Decision, now: int) returns (reply: Reply)
      requires Valid() && k < |steps| && !decision.Pass?
      modifies this
      ensures Valid() && Next(State(), reply) == ParkStep(old(State()), k, decision, now)
    {
      reply := ApplyVerdict(k, decision, now);
      if reply.Illegal? { return; }
      steps := steps[k := steps[k].(lease := None)];
      lease := None;
    }

    method FinishStep(now: int) returns (reply: Reply)
      requires Valid()
      modifies this
      ensures Valid() && Next(State(), reply) == FinishExecution(old(State()), hash, now)
    {
      if flight.None? || flight.value.result.None? { return Conflict; }
      var k, outcome := flight.value.step, flight.value.result.value;
      steps := steps[k := Record(steps[k], outcome, hash)];
      flight := None;
      if outcome.decision.Pass? {
        reply := FinishPass(k);
      } else {
        reply := FinishParked(k, outcome.decision, now);
      }
    }

    /** The process restarts: the lock and the worker's result are gone, the records stay. */
    method Restart()
      modifies this`flight
      ensures State() == old(State()).(flight := None)
    {
      flight := None;
    }

    method HeartbeatLease(now: int, worker: string, token: string, seconds: nat) returns (reply: Reply)
      requires Valid()
      modifies this`lease, this`steps
      ensures Valid() && Next(State(), reply) == RenewLeases(old(State()), now, worker, token, seconds)
    {
      if lease.None? || lease.value.owner != worker || lease.value.token != token { return Conflict; }
      lease := Some(WorkerLease(worker, token, now + seconds));
      var step := steps[current];
      if step.lease.Some? && step.lease.value.owner == worker && step.lease.value.token == token {
        steps := steps[current := step.(lease := lease)];
      }
      reply := Done;
    }

    method RecoverStaleLease(now: int)
      requires Valid()
      modifies this`lease, this`steps, this`status
      ensures Valid() && State() == RecoverStale(old(State()), now).state
    {
      if lease.None? || lease.value.expiresAt > now { return; }
      lease := None;
      if steps[current].status.Running? {
        ReleaseStaleStep(now);
      }
    }

    method ReleaseStaleStep(now: int)
      requires Valid() && lease.None? && steps[current].status.Running?
      modifies this`lease, this`steps, this`status
      ensures Valid() && State() == ReleaseStale(old(State()), now)
    {
      steps := steps[current := steps[current].(lease := None)];
      if steps[current].attempts < maxAttempts {
        var _ := MoveStep(current, StepStatus.RetryWait);
        steps := steps[current := steps[current].(nextRetryAt := Some(now))];
        if status.Running? {
          var _ := MoveRun(RunStatus.RetryWait);
        }
      } else {
        var _ := MoveStep(current, StepStatus.NeedsHuman);
        if status.Running? || status.RetryWait? {
          var _ := MoveRun(RunStatus.NeedsHuman);
        }
      }
    }

    method PauseWork() returns (reply: Reply)
      requires Valid()
      modifies this
      ensures Valid() && Next(State(), reply) == PauseRun(old(State()))
    {
      if steps[current].status.Running? || lease.Some? || TerminalRun(status) { return Conflict; }
      pauseRequested := true;
      var legal := MoveRun(RunStatus.Paused);
      reply := if legal then Done else Illegal;
    }

    method ResumeWork() returns (reply: Reply)
      requires Valid()
      modifies this
      ensures Valid() && Next(State(), reply) == ResumeRun(old(State()))
    {
      if !(status.Paused? || status.NeedsHuman? || status.RetryWait?) { return Conflict; }
      pauseRequested := false;
      if Parked(steps[current].status) {
        var _ := MoveStep(current, StepStatus.Ready);
        steps := steps[current := steps[current].(nextRetryAt := None)];
      }
      var _ := MoveRun(RunStatus.Scheduled);
      reply := Done;
    }

    method CancelWork() returns (reply: Reply)
      modifies this
      ensures Next(State(), reply) == CancelRun(old(State()))
    {
      if status.Cancelled? { return Done; }
      if TerminalRun(status) { return Conflict; }
      cancelRequested := true;
      var i := 0;
      while i < |steps|
        invariant 0 <= i <= |steps| == |old(steps)|
        invariant State() == old(State()).(cancelRequested := true, steps := steps)
        invariant forall j :: 0 <= j < i ==> steps[j] == CancelStep(old(steps)[j])
        invariant forall j :: i <= j < |steps| ==> steps[j] == old(steps)[j]
      {
        if !TerminalStep(steps[i].status) {
          var _ := MoveStep(i, StepStatus.Cancelled);
        }
        i := i + 1;
      }
      assert steps == CancelSteps(old(steps));
      var _ := MoveRun(RunStatus.Cancelled);
      reply := Done;
    }

    method CancelAtStepBoundary() returns (reply: Reply)
      requires Valid()
      modifies this
      ensures Valid() && Next(State(), reply) == CancelAtBoundary(old(State()))
    {
      if steps[current].status.Running? || lease.Some? { return Conflict; }
      reply := CancelWork();
    }

    method RetryWork(target: int) returns (reply: Reply)
      requires Valid()
      modifies this
      ensures Valid() && Next(State(), reply) == RetryStep(old(State()), target)
    {
      if TerminalRun(status) || !(0 <= target < |steps|) { return Conflict; }
      if !(steps[target].status.RetryWait? || steps[target].status.NeedsHuman?) { return Conflict; }
      if steps[target].attempts >= maxAttempts { return Conflict; }
      var _ := MoveStep(target, StepStatus.Ready);
      steps := steps[target := steps[target].(nextRetryAt := None)];
      current := target;
      pauseRequested := false;
      if status.NeedsHuman? || status.RetryWait? {
        var _ := MoveRun(RunStatus.Scheduled);
      }
      reply := Done;
    }
  }

  lemma ReadiedAndReleased(steps: seq<Step>, k: nat, passed: Step, j: nat)
    requires k < j < |steps|
    ensures var readied := steps[k := passed][j := steps[j].(status := StepStatus.Ready)];
            readied[k] == passed
            && readied[k := passed.(lease := None)]
            == steps[k := passed.(lease := None)][j := steps[j].(status := StepStatus.Ready)]
  {
  }

  /** The search for a pending step looks only at the steps from `i` on. */
  lemma {:induction false} PendingAfterIgnores(steps: seq<Step>, steps': seq<Step>, i: nat)
    requires i <= |steps| == |steps'| && steps[i..] == steps'[i..]
    ensures PendingFrom(steps, i) == PendingFrom(steps', i)
    decreases |steps| - i
  {
    if i < |steps| {
      assert steps[i] == steps[i..][0] && steps'[i] == steps'[i..][0];
      assert steps[i + 1..] == steps[i..][1..] && steps'[i + 1..] == steps'[i..][1..];
      PendingAfterIgnores(steps, steps', i + 1);
    }
  }
}
