/**
 What every command does to a run, as functions from state to state. Each
 command reads the clock once. An execution is split in three (begin, work,
 finish), so that the watchdog and the operator can act in between, as they can
 while the worker is outside the process.
 */
module MissionControl {
  import opened Options
  import opened RunStates

  datatype Decision = Pass | RetryTransient | NeedsRevision | AskHuman | BlockPolicy | FailPermanent

  type Digest = string

  datatype WorkerLease = WorkerLease(owner: string, token: string, expiresAt: int)

  /** What the evidence seal records of one earlier step. */
  datatype StepSummary = StepSummary(
    sequence: nat, stepType: StepType, status: StepStatus, decision: Option<Decision>, attempts: nat,
    evidenceHash: Option<Digest>, outputReference: Option<string>)

  datatype Chain = Chain(steps: seq<StepSummary>, eventCount: nat)

  datatype Evidence = Report(body: string) | Seal(chain: Chain, finalHash: Digest)

  /** Everything that is ever hashed; the hash itself is a parameter. */
  datatype Material = OfEvidence(evidence: Evidence) | OfChain(chain: Chain)

  type Hash = Material -> Digest

  datatype Outcome = Outcome(decision: Decision, evidence: Evidence, outputReference: Option<string>)

  /** An injected fault or a worker exception is classified, and never as PASS. */
  type Failure = o: Outcome | !o.decision.Pass? witness Outcome(FailPermanent, Report(""), None)

  datatype Work = Returned(outcome: Outcome) | Raised(failure: Failure)

  datatype Step = Step(
    status: StepStatus, attempts: nat, lease: Option<WorkerLease>, nextRetryAt: Option<int>,
    decision: Option<Decision>, evidence: Option<Evidence>, evidenceHash: Option<Digest>,
    outputReference: Option<string>)

  /** The execution request that holds the per-run lock, and what its worker returned. */
  datatype Flight = Flight(step: nat, result: Option<Outcome>)

  datatype RunState = RunState(
    status: RunStatus, current: nat, maxAttempts: nat, pauseRequested: bool, cancelRequested: bool,
    lease: Option<WorkerLease>, finalHash: Option<Digest>, steps: seq<Step>, flight: Option<Flight>)

  datatype Reply = Done | NotElapsed | Conflict | Illegal

  datatype Next = Next(state: RunState, reply: Reply)

  datatype Command =
    | Begin(now: int, worker: string, token: string, seconds: nat)
    | Perform(work: Work, eventCount: nat)
    | Finish(now: int)
    | Restart
    | Heartbeat(now: int, worker: string, token: string, seconds: nat)
    | Watchdog(now: int)
    | Pause
    | Resume
    | Cancel
    | Retry(target: int)

  const FRESH_STEP := Step(StepStatus.Pending, 0, None, None, None, None, None, None)

  function Create(maxAttempts: nat): RunState {
    RunState(RunStatus.Scheduled, 0, maxAttempts, false, false, None, None,
             seq(STEP_COUNT, i => if i == 0 then FRESH_STEP.(status := StepStatus.Ready) else FRESH_STEP), None)
  }

  // ----- the two transition primitives; None is the illegal-transition exception -----

  function TransitionStep(step: Step, target: StepStatus): Option<Step> {
    if target == step.status then Some(step)
    else if !CanTransitionStep(step.status, target) then None
    else
      var moved := step.(status := target);
      var counted := if target.Running? then moved.(attempts := step.attempts + 1) else moved;
      Some(if TerminalStep(target) then counted.(lease := None) else counted)
  }

  function TransitionRun(s: RunState, target: RunStatus): Option<RunState> {
    if target == s.status then Some(s)
    else if !CanTransitionRun(s.status, target) then None
    else Some(s.(status := target, lease := if TerminalRun(target) then None else s.lease))
  }

  predicate WellFormed(s: RunState) {
    |s.steps| == STEP_COUNT && s.current < STEP_COUNT && (s.flight.Some? ==> s.flight.value.step < STEP_COUNT)
  }

  predicate StepInFlight(s: RunState)
    requires s.current < |s.steps|
  {
    s.steps[s.current].status.Running? || s.lease.Some?
  }

  // ----- execution -----

  predicate Elapsed(step: Step, now: int) {
    step.status.RetryWait? && step.nextRetryAt.Some? && step.nextRetryAt.value <= now
  }

  /** The step the scheduler would start: the first that has not passed, if it may start now. */
  function ReadyFrom(steps: seq<Step>, i: nat, now: int): (r: Option<nat>)
    requires i <= |steps|
    ensures r.Some? ==> i <= r.value < |steps|
    decreases |steps| - i
  {
    if i == |steps| then None
    else if steps[i].status.Ready? || Elapsed(steps[i], now) then Some(i)
    else if steps[i].status.Succeeded? || steps[i].status.Skipped? then ReadyFrom(steps, i + 1, now)
    else None
  }

  function PendingFrom(steps: seq<Step>, i: nat): (r: Option<nat>)
    requires i <= |steps|
    ensures r.Some? ==> i <= r.value < |steps| && steps[r.value].status.Pending?
    decreases |steps| - i
  {
    if i == |steps| then None
    else if steps[i].status.Pending? then Some(i)
    else PendingFrom(steps, i + 1)
  }

  /** A live lease of another worker refuses; a live lease of the same worker is kept. */
  function Acquire(s: RunState, now: int, worker: string, token: string, seconds: nat): Option<RunState> {
    if s.lease.Some? && s.lease.value.expiresAt > now then
      if s.lease.value.owner == worker then Some(s) else None
    else Some(s.(lease := Some(WorkerLease(worker, token, now + seconds))))
  }

  function Start(s: RunState, i: nat): RunState
    requires i < |s.steps|
  {
    var started := s.steps[i].(status := StepStatus.Running, attempts := s.steps[i].attempts + 1, lease := s.lease);
    s.(steps := s.steps[i := started], current := i,
       status := if s.status.Scheduled? || s.status.RetryWait? then RunStatus.Running else s.status,
       flight := Some(Flight(i, None)))
  }

  function BeginExecution(s: RunState, now: int, worker: string, token: string, seconds: nat): Next
    requires s.current < |s.steps|
  {
    if s.flight.Some? || StepInFlight(s) then Next(s, Conflict)
    else if TerminalRun(s.status) || s.pauseRequested || s.status.Paused? then Next(s, Conflict)
    else if s.cancelRequested then Next(CancelRun(s).state, Conflict)
    else
      match Acquire(s, now, worker, token, seconds)
      case None => Next(s, Conflict)
      case Some(leased) =>
        match ReadyFrom(s.steps, 0, now)
        case Some(i) => Next(Start(leased, i), Done)
        case None => Next(s.(lease := None), if s.status.RetryWait? then NotElapsed else Conflict)
  }

  function Summary(step: Step, i: nat): StepSummary
    requires i < STEP_COUNT
  {
    StepSummary(i, DEFAULT_STEPS[i], step.status, step.decision, step.attempts, step.evidenceHash,
                step.outputReference)
  }

  function Summaries(steps: seq<Step>, n: nat): seq<StepSummary>
    requires n <= |steps| && n <= STEP_COUNT
  {
    seq(n, i requires 0 <= i < n => Summary(steps[i], i))
  }

  predicate AllPassed(steps: seq<Step>, n: nat)
    requires n <= |steps|
  {
    forall i :: 0 <= i < n ==> steps[i].status.Succeeded?
  }

  function SealOutcome(s: RunState, hash: Hash, eventCount: nat): Outcome
    requires |s.steps| == STEP_COUNT
  {
    var chain := Chain(Summaries(s.steps, SEAL_INDEX), eventCount);
    Outcome(if AllPassed(s.steps, SEAL_INDEX) then Pass else FailPermanent, Seal(chain, hash(OfChain(chain))), None)
  }

  /** The worker's part. Only the seal writes to the run while it works. */
  function PerformWork(s: RunState, hash: Hash, work: Work, eventCount: nat): Next
    requires |s.steps| == STEP_COUNT
  {
    if s.flight.None? || s.flight.value.result.Some? then Next(s, Conflict)
    else if work.Returned? && s.flight.value.step == SEAL_INDEX then
      var outcome := SealOutcome(s, hash, eventCount);
      Next(s.(finalHash := Some(outcome.evidence.finalHash),
              flight := Some(s.flight.value.(result := Some(outcome)))), Done)
    else
      var outcome := if work.Returned? then work.outcome else work.failure;
      Next(s.(flight := Some(s.flight.value.(result := Some(outcome)))), Done)
  }

  function PowerOfTwo(n: nat): nat { if n == 0 then 1 else 2 * PowerOfTwo(n - 1) }

  function Backoff(attempts: nat): nat {
    var delay := PowerOfTwo(if attempts < 1 then 1 else attempts);
    if delay < 300 then delay else 300
  }

  /** A run status and one of its steps after a pair of moves; `Illegal` when the second move raised. */
  datatype Pair = Pair(run: RunStatus, step: Step, reply: Reply)

  /** Moves the step, then the run; an illegal run move leaves the step moved. */
  function Settle(run: RunStatus, step: Step, stepTarget: StepStatus, runTarget: RunStatus): Pair {
    match TransitionStep(step, stepTarget)
    case None => Pair(run, step, Illegal)
    case Some(moved) =>
      if CanTransitionRun(run, runTarget) then Pair(runTarget, moved, Done) else Pair(run, moved, Illegal)
  }

  /** Every verdict but PASS concerns the run and the one step. */
  function Verdict(run: RunStatus, step: Step, maxAttempts: nat, decision: Decision, now: int): Pair
    requires !decision.Pass?
  {
    match decision
    case RetryTransient =>
      if step.attempts < maxAttempts then
        match TransitionStep(step, StepStatus.RetryWait)
        case None => Pair(run, step, Illegal)
        case Some(moved) =>
          var waiting := moved.(nextRetryAt := Some(now + Backoff(moved.attempts)));
          if CanTransitionRun(run, RunStatus.RetryWait) then Pair(RunStatus.RetryWait, waiting, Done)
          else Pair(run, waiting, Illegal)
      else Settle(run, step, StepStatus.NeedsHuman, RunStatus.NeedsHuman)
    case BlockPolicy => Settle(run, step, StepStatus.Blocked, RunStatus.Blocked)
    case FailPermanent => Settle(run, step, StepStatus.Failed, RunStatus.Failed)
    case _ => Settle(run, step, StepStatus.NeedsHuman, RunStatus.NeedsHuman)
  }

  function Record(step: Step, o: Outcome, hash: Hash): Step {
    step.(decision := Some(o.decision), evidence := Some(o.evidence),
          evidenceHash := Some(hash(OfEvidence(o.evidence))), outputReference := o.outputReference)
  }

  /** PASS: the step succeeds and the next pending step is readied, or the run succeeds. */
  function PassStep(s: RunState, k: nat): (next: Next)
    requires WellFormed(s) && k < |s.steps|
    ensures WellFormed(next.state)
  {
    match TransitionStep(s.steps[k], StepStatus.Succeeded)
    case None => Next(s, Illegal)
    case Some(passed) =>
      match PendingFrom(s.steps, k + 1)
      case None =>
        if CanTransitionRun(s.status, RunStatus.Succeeded) then
          Next(s.(steps := s.steps[k := passed.(lease := None)], lease := None, status := RunStatus.Succeeded), Done)
        else Next(s.(steps := s.steps[k := passed]), Illegal)
      case Some(j) =>
        var ready := s.steps[j].(status := StepStatus.Ready);
        Next(s.(steps := s.steps[k := passed.(lease := None)][j := ready], lease := None, current := j,
                status := RunStatus.Running), Done)
  }

  /** Any other verdict: both moves, then the leases, which an illegal move leaves as they are. */
  function ParkStep(s: RunState, k: nat, decision: Decision, now: int): (next: Next)
    requires WellFormed(s) && k < |s.steps| && !decision.Pass?
    ensures WellFormed(next.state)
  {
    var moved := Verdict(s.status, s.steps[k], s.maxAttempts, decision, now);
    if moved.reply.Illegal? then Next(s.(steps := s.steps[k := moved.step], status := moved.run), Illegal)
    else Next(s.(steps := s.steps[k := moved.step.(lease := None)], status := moved.run, lease := None), Done)
  }

  predicate HasResult(s: RunState) {
    s.flight.Some? && s.flight.value.result.Some?
  }

  /** The result is recorded on the step first; an illegal move escapes before the leases are cleared. */
  function FinishExecution(s: RunState, hash: Hash, now: int): (next: Next)
    requires WellFormed(s)
    ensures WellFormed(next.state)
  {
    if !HasResult(s) then Next(s, Conflict)
    else
      var k, o := s.flight.value.step, s.flight.value.result.value;
      var recorded := s.(steps := s.steps[k := Record(s.steps[k], o, hash)], flight := None);
      if o.decision.Pass? then PassStep(recorded, k) else ParkStep(recorded, k, o.decision, now)
  }

  // ----- leases -----

  function RenewLeases(s: RunState, now: int, worker: string, token: string, seconds: nat): Next
    requires s.current < |s.steps|
  {
    if s.lease.None? || s.lease.value.owner != worker || s.lease.value.token != token then Next(s, Conflict)
    else
      var renewed := WorkerLease(worker, token, now + seconds);
      var step := s.steps[s.current];
      var mine := step.lease.Some? && step.lease.value.owner == worker && step.lease.value.token == token;
      var steps := if mine then s.steps[s.current := step.(lease := Some(renewed))] else s.steps;
      Next(s.(lease := Some(renewed), steps := steps), Done)
  }

  function RecoverStale(s: RunState, now: int): Next
    requires s.current < |s.steps|
  {
    if s.lease.None? || s.lease.value.expiresAt > now then Next(s, Done)
    else if s.steps[s.current].status.Running? then Next(ReleaseStale(s.(lease := None), now), Done)
    else Next(s.(lease := None), Done)
  }

  /** The running step of a run that has lost its lease goes back to waiting, or to a human. */
  function ReleaseStale(s: RunState, now: int): RunState
    requires s.current < |s.steps|
  {
    var step := s.steps[s.current];
    if step.attempts < s.maxAttempts then
      var waiting := step.(status := StepStatus.RetryWait, lease := None, nextRetryAt := Some(now));
      s.(steps := s.steps[s.current := waiting],
         status := if s.status.Running? then RunStatus.RetryWait else s.status)
    else
      var parked := step.(status := StepStatus.NeedsHuman, lease := None);
      s.(steps := s.steps[s.current := parked],
         status := if s.status.Running? || s.status.RetryWait? then RunStatus.NeedsHuman else s.status)
  }

  // ----- operator commands -----

  function PauseRun(s: RunState): Next
    requires s.current < |s.steps|
  {
    if StepInFlight(s) || TerminalRun(s.status) then Next(s, Conflict)
    else
      match TransitionRun(s.(pauseRequested := true), RunStatus.Paused)
      case None => Next(s.(pauseRequested := true), Illegal)
      case Some(paused) => Next(paused, Done)
  }

  predicate Parked(s: StepStatus) { s.Paused? || s.NeedsHuman? || s.RetryWait? }

  function ResumeRun(s: RunState): Next
    requires s.current < |s.steps|
  {
    if !(s.status.Paused? || s.status.NeedsHuman? || s.status.RetryWait?) then Next(s, Conflict)
    else
      var step := s.steps[s.current];
      var steps := if Parked(step.status)
                   then s.steps[s.current := step.(status := StepStatus.Ready, nextRetryAt := None)] else s.steps;
      Next(s.(pauseRequested := false, steps := steps, status := RunStatus.Scheduled), Done)
  }

  function CancelStep(step: Step): Step {
    if TerminalStep(step.status) then step else step.(status := StepStatus.Cancelled, lease := None)
  }

  function CancelSteps(steps: seq<Step>): seq<Step> {
    seq(|steps|, i requires 0 <= i < |steps| => CancelStep(steps[i]))
  }

  function CancelRun(s: RunState): Next {
    if s.status.Cancelled? then Next(s, Done)
    else if TerminalRun(s.status) then Next(s, Conflict)
    else Next(s.(cancelRequested := true, steps := CancelSteps(s.steps), status := RunStatus.Cancelled,
                 lease := None), Done)
  }

  function CancelAtBoundary(s: RunState): Next
    requires s.current < |s.steps|
  {
    if StepInFlight(s) then Next(s, Conflict) else CancelRun(s)
  }

  /** `target` is the position of the named step; any other number is a step of no run or another run. */
  function RetryStep(s: RunState, target: int): Next {
    if TerminalRun(s.status) || !(0 <= target < |s.steps|) then Next(s, Conflict)
    else
      var step := s.steps[target];
      if !(step.status.RetryWait? || step.status.NeedsHuman?) || step.attempts >= s.maxAttempts then Next(s, Conflict)
      else
        Next(s.(steps := s.steps[target := step.(status := StepStatus.Ready, nextRetryAt := None)],
                current := target, pauseRequested := false,
                status := if s.status.NeedsHuman? || s.status.RetryWait? then RunStatus.Scheduled
                          else s.status), Done)
  }

  // ----- histories -----

  /** One command on a run; a restart of the process loses the lock and the worker's result. */
  function Apply(s: RunState, hash: Hash, c: Command): (next: Next)
    requires WellFormed(s)
    ensures WellFormed(next.state)
  {
    match c
    case Begin(now, worker, token, seconds) => BeginExecution(s, now, worker, token, seconds)
    case Perform(work, eventCount) => PerformWork(s, hash, work, eventCount)
    case Finish(now) => FinishExecution(s, hash, now)
    case Restart => Next(s.(flight := None), Done)
    case Heartbeat(now, worker, token, seconds) => RenewLeases(s, now, worker, token, seconds)
    case Watchdog(now) => RecoverStale(s, now)
    case Pause => PauseRun(s)
    case Resume => ResumeRun(s)
    case Cancel => CancelAtBoundary(s)
    case Retry(target) => RetryStep(s, target)
  }

  function ReplayFrom(s: RunState, hash: Hash, history: seq<Command>): (t: RunState)
    requires WellFormed(s)
    ensures WellFormed(t)
  {
    if history == [] then s
    else Apply(ReplayFrom(s, hash, history[..|history| - 1]), hash, history[|history| - 1]).state
  }

  function Replay(maxAttempts: nat, hash: Hash, history: seq<Command>): (s: RunState)
    ensures WellFormed(s)
  {
    ReplayFrom(Create(maxAttempts), hash, history)
  }
}
