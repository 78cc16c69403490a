/**
 The two coupled status machines of a Mission Control run: the statuses, the
 transition tables, and the seven step types a run always owns.
 */
module RunStates {

  datatype RunStatus =
    | Scheduled | Running | Evaluating | RetryWait | Paused
    | NeedsHuman | Blocked | Succeeded | Failed | Cancelled

  datatype StepStatus =
    | Pending | Ready | Running | RetryWait | Paused
    | NeedsHuman | Blocked | Succeeded | Failed | Cancelled | Skipped

  datatype StepType =
    | ValidateScope | CreateBranch | ApplyChanges | RunValidation
    | CreatePullRequest | VerifyResult | SealEvidence

  const DEFAULT_STEPS: seq<StepType> :=
    [ValidateScope, CreateBranch, ApplyChanges, RunValidation, CreatePullRequest, VerifyResult, SealEvidence]

  const STEP_COUNT: nat := 7
  const SEAL_INDEX: nat := 6

  predicate TerminalRun(s: RunStatus) {
    s.Blocked? || s.Succeeded? || s.Failed? || s.Cancelled?
  }

  predicate TerminalStep(s: StepStatus) {
    s.Blocked? || s.Succeeded? || s.Failed? || s.Cancelled? || s.Skipped?
  }

  /** The run transition table. */
  predicate RunEdge(current: RunStatus, target: RunStatus) {
    match current
    case Scheduled =>
      target.Running? || target.Paused? || target.NeedsHuman? || target.Cancelled? || target.Blocked?
      || target.Failed?
    case Running =>
      target.Scheduled? || target.Evaluating? || target.RetryWait? || target.Paused? || target.NeedsHuman?
      || target.Blocked? || target.Succeeded? || target.Failed? || target.Cancelled?
    case Evaluating =>
      target.Running? || target.RetryWait? || target.NeedsHuman? || target.Blocked? || target.Succeeded?
      || target.Failed? || target.Cancelled?
    case RetryWait =>
      target.Scheduled? || target.Running? || target.Paused? || target.NeedsHuman? || target.Blocked?
      || target.Failed? || target.Cancelled?
    case Paused => target.Scheduled? || target.Running? || target.Cancelled?
    case NeedsHuman =>
      target.Scheduled? || target.Running? || target.Blocked? || target.Failed? || target.Cancelled?
    case _ => false
  }

  /** The step transition table. */
  predicate StepEdge(current: StepStatus, target: StepStatus) {
    match current
    case Pending =>
      target.Ready? || target.Paused? || target.NeedsHuman? || target.Blocked? || target.Cancelled?
      || target.Skipped?
    case Ready =>
      target.Running? || target.Paused? || target.NeedsHuman? || target.Blocked? || target.Cancelled?
      || target.Skipped?
    case Running =>
      target.Succeeded? || target.RetryWait? || target.NeedsHuman? || target.Blocked? || target.Failed?
      || target.Cancelled?
    case RetryWait =>
      target.Ready? || target.NeedsHuman? || target.Blocked? || target.Failed? || target.Cancelled?
    case Paused => target.Ready? || target.Cancelled?
    case NeedsHuman => target.Ready? || target.Blocked? || target.Failed? || target.Cancelled?
    case _ => false
  }

  predicate CanTransitionRun(current: RunStatus, target: RunStatus) {
    target == current || RunEdge(current, target)
  }

  predicate CanTransitionStep(current: StepStatus, target: StepStatus) {
    target == current || StepEdge(current, target)
  }
}
