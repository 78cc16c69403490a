/**
 The runs of all tasks, in order of creation, and the trust store they share: a task
 has at most one run that is not failed, cancelled or blocked, and every run keeps
 what it guarantees by itself, whatever happens to the others.
 */
module RunRegistry {
  import opened Options
  import opened RunStates
  import M = MissionControl
  import opened RunInvariants
  import opened RunTheorems
  import opened TrustPolicy
  import L = TrustLedger
  import T = TrustInvariants
  import TT = TrustTheorems
  import opened TrustedRun
  import TrustedRunInvariants
  import TrustedRunTheorems

  datatype Enrolled = Enrolled(facts: Facts, run: M.RunState, leaseId: Option<Id>)

  datatype Registry = Registry(ledger: L.Ledger, runs: seq<Enrolled>)

  /** What creation looks up of a task: whether it is APPROVED, and its approval. */
  datatype TaskRecord = TaskRecord(approved: bool, approvalId: Option<Id>)

  // ----- creating a run -----

  /** The run still counts for its task; a succeeded run does. */
  predicate Counts(run: M.RunState) {
    !run.status.Failed? && !run.status.Cancelled? && !run.status.Blocked?
  }

  predicate Holds(runs: seq<Enrolled>, i: nat, task: Name)
    requires i < |runs|
  {
    runs[i].facts.taskId == task && Counts(runs[i].run)
  }

  /** The latest run that counts for a task, among the first n. */
  function Latest(runs: seq<Enrolled>, task: Name, n: nat): (found: Option<nat>)
    requires n <= |runs|
    ensures found.Some? ==> found.value < n && Holds(runs, found.value, task)
    ensures found.None? ==> forall i :: 0 <= i < n ==> !Holds(runs, i, task)
  {
    if n == 0 then None else if Holds(runs, n - 1, task) then Some(n - 1) else Latest(runs, task, n - 1)
  }

  datatype Created = NoTask | Unapproved | Existing(index: nat) | New(approvalId: Id)

  /** `approvals` says of each approval whether it is APPROVED. */
  function Creation(runs: seq<Enrolled>, task: Name, tasks: map<Name, TaskRecord>, approvals: map<Id, bool>): Created {
    if task !in tasks then NoTask
    else if !tasks[task].approved then Unapproved
    else
      match tasks[task].approvalId
      case None => Unapproved
      case Some(id) =>
        if id !in approvals || !approvals[id] then Unapproved
        else match Latest(runs, task, |runs|) case Some(i) => Existing(i) case None => New(id)
  }

  function Enrol(runs: seq<Enrolled>, f: Facts, tasks: map<Name, TaskRecord>, approvals: map<Id, bool>,
                 maxAttempts: nat): seq<Enrolled>
  {
    match Creation(runs, f.taskId, tasks, approvals)
    case New(id) => runs + [Enrolled(f.(approvalId := id), M.Create(maxAttempts), None)]
    case _ => runs
  }

  predicate Over(status: RunStatus) { status.Failed? || status.Cancelled? || status.Blocked? }

  /** The run at `i` is the latest of the task that is not over. */
  predicate IsLatest(runs: seq<Enrolled>, task: Name, i: nat) {
    && i < |runs| && runs[i].facts.taskId == task && !Over(runs[i].run.status)
    && forall j :: i < j < |runs| && runs[j].facts.taskId == task ==> Over(runs[j].run.status)
  }

  lemma {:induction false} LatestIs(runs: seq<Enrolled>, task: Name, n: nat)
    requires n <= |runs| && forall j :: n <= j < |runs| && runs[j].facts.taskId == task ==> Over(runs[j].run.status)
    ensures match Latest(runs, task, n)
            case Some(i) => IsLatest(runs, task, i)
            case None => forall j :: 0 <= j < |runs| && runs[j].facts.taskId == task ==> Over(runs[j].run.status)
  {
    if n > 0 && !Holds(runs, n - 1, task) { LatestIs(runs, task, n - 1); }
  }

  predicate Approved(task: TaskRecord, approvals: map<Id, bool>) {
    && task.approved && task.approvalId.Some?
    && task.approvalId.value in approvals && approvals[task.approvalId.value]
  }

  /** What a request for a run answers and adds: only for an approved task whose earlier runs are all over, a run. */
  lemma CreationEffect(runs: seq<Enrolled>, f: Facts, tasks: map<Name, TaskRecord>, approvals: map<Id, bool>,
                       maxAttempts: nat)
    ensures var created, after := Creation(runs, f.taskId, tasks, approvals),
                                  Enrol(runs, f, tasks, approvals, maxAttempts);
            if f.taskId !in tasks then created == NoTask && after == runs
            else if !Approved(tasks[f.taskId], approvals) then created == Unapproved && after == runs
            else if created.Existing? then IsLatest(runs, f.taskId, created.index) && after == runs
            else
              && (forall j :: 0 <= j < |runs| && runs[j].facts.taskId == f.taskId ==> Over(runs[j].run.status))
              && created == New(tasks[f.taskId].approvalId.value)
              && |after| == |runs| + 1 && after[..|runs|] == runs
              && var e := after[|runs|];
              && e.facts == f.(approvalId := tasks[f.taskId].approvalId.value) && e.leaseId.None?
              && e.run.status.Scheduled? && e.run.maxAttempts == maxAttempts && e.run == M.Create(maxAttempts)
  {
    LatestIs(runs, f.taskId, |runs|);
  }

  // ----- commands -----

  datatype Command =
    | Create(facts: Facts, tasks: map<Name, TaskRecord>, approvals: map<Id, bool>, maxAttempts: nat)
    | OnRun(index: nat, command: TrustedRun.Command)
    | OnLedger(ledger: L.Command)
    | Decide(id: Id, reviewer: bool, allow: bool, reason: string)

  predicate WellFormed(r: Registry) {
    forall i :: 0 <= i < |r.runs| ==> Enforceable(r.runs[i].facts, r.runs[i].run)
  }

  function At(r: Registry, i: nat): TrustedState
    requires i < |r.runs|
  {
    TrustedState(r.runs[i].run, r.ledger, r.runs[i].leaseId)
  }

  function Put(r: Registry, i: nat, t: TrustedState): Registry
    requires i < |r.runs|
  {
    Registry(t.ledger, r.runs[i := r.runs[i].(run := t.run, leaseId := t.leaseId)])
  }

  /** The run an action was proposed for, among the first n. */
  function RunOf(runs: seq<Enrolled>, a: Action, n: nat): (found: Option<nat>)
    requires n <= |runs|
    ensures found.Some? ==> found.value < n && a.runId == Some(runs[found.value].facts.runId)
  {
    if n == 0 then None
    else if a.runId == Some(runs[n - 1].facts.runId) then Some(n - 1)
    else RunOf(runs, a, n - 1)
  }

  /** The run that a decision on action `id` may move. */
  function Target(r: Registry, id: Id): (found: Option<nat>)
    ensures found.Some? ==> found.value < |r.runs|
  {
    if id in r.ledger.actions then RunOf(r.runs, r.ledger.actions[id], |r.runs|) else None
  }

  ghost function Apply(r: Registry, c: Command, env: Env): Registry
    requires WellFormed(r) && Admissible(r, c)
  {
    match c
    case Create(f, tasks, approvals, maxAttempts) => r.(runs := Enrol(r.runs, f, tasks, approvals, maxAttempts))
    case OnRun(i, command) => Put(r, i, TrustedRun.Apply(At(r, i), command, r.runs[i].facts, env).state)
    case OnLedger(ledger) => r.(ledger := L.Apply(r.ledger, ledger, env).ledger)
    case Decide(id, reviewer, allow, reason) =>
      match Target(r, id)
      case Some(i) => Put(r, i, TrustedRun.Decide(At(r, i), id, reviewer, allow, reason, r.runs[i].facts).state)
      case None => r.(ledger := L.Authorize(r.ledger, id, reviewer, allow, reason).ledger)
  }

  predicate Admissible(r: Registry, c: Command) {
    match c
    case Create(f, _, _, maxAttempts) => 1 <= maxAttempts && |f.stepKeys| == STEP_COUNT
    case OnRun(i, command) =>
      i < |r.runs| && !command.TDecide? && !command.TLedger?
      && TrustedRun.Admissible(At(r, i), command, r.runs[i].facts)
    case OnLedger(ledger) => L.Admissible(r.ledger, ledger) && !ledger.CAuthorize?
    case Decide(_, _, _, _) => true
  }

  /** The latest run the action names. */
  lemma {:induction false} RunOfIs(runs: seq<Enrolled>, a: Action, n: nat)
    requires n <= |runs|
    ensures match RunOf(runs, a, n)
            case Some(i) => forall j :: i < j < n ==> a.runId != Some(runs[j].facts.runId)
            case None => forall j :: 0 <= j < n ==> a.runId != Some(runs[j].facts.runId)
  {
    if n > 0 && a.runId != Some(runs[n - 1].facts.runId) { RunOfIs(runs, a, n - 1); }
  }

  /** The run a command is about, if it is about one: for a decision, the run its action was proposed for. */
  predicate Concerns(r: Registry, c: Command, i: nat)
    requires i < |r.runs|
  {
    match c
    case OnRun(k, _) => k == i
    case Decide(id, _, _, _) => id in r.ledger.actions && r.ledger.actions[id].runId == Some(r.runs[i].facts.runId)
    case _ => false
  }

  /** No command moves a run it is not about, and none changes what a run was created with. */
  lemma OthersStay(r: Registry, c: Command, env: Env, i: nat)
    requires WellFormed(r) && Admissible(r, c) && i < |r.runs|
    ensures var after := Apply(r, c, env);
            && i < |after.runs| && after.runs[i].facts == r.runs[i].facts
            && (!Concerns(r, c, i) ==> after.runs[i] == r.runs[i])
  {
  }

  // ----- what every history keeps -----

  predicate OnePerTask(runs: seq<Enrolled>) {
    forall i, j :: 0 <= i < j < |runs| && runs[i].facts.taskId == runs[j].facts.taskId ==>
      !(Counts(runs[i].run) && Counts(runs[j].run))
  }

  ghost predicate Trusted(r: Registry, i: nat, env: Env, m: T.Meaning)
    requires i < |r.runs|
  {
    TInv(At(r, i), r.runs[i].facts, env, m)
  }

  ghost predicate Sound(r: Registry, env: Env, m: T.Meaning) {
    T.Inv(r.ledger, env, m) && OnePerTask(r.runs) && forall i :: 0 <= i < |r.runs| ==> Trusted(r, i, env, m)
  }

  /** A run that no longer counts never counts again: its status is terminal. */
  lemma StaysOut(s: M.RunState, t: M.RunState, approval: bool)
    requires |s.steps| == |t.steps| == STEP_COUNT && EdgesTaken(s, t, approval)
    ensures Counts(t) ==> Counts(s)
  {
  }

  lemma PutKeepsOnePerTask(runs: seq<Enrolled>, i: nat, e: Enrolled)
    requires OnePerTask(runs) && i < |runs| && e.facts == runs[i].facts && (Counts(e.run) ==> Counts(runs[i].run))
    ensures OnePerTask(runs[i := e])
  {
  }

  lemma LedgerMoves(r: Registry, j: nat, ledger: L.Ledger, env: Env, m: T.Meaning)
    requires j < |r.runs| && Trusted(r, j, env, m)
    requires T.Inv(ledger, env, m) && TT.LeaseEdges(r.ledger.leases, ledger.leases)
    ensures TInv(At(r, j).(ledger := ledger), r.runs[j].facts, env, m)
  {
    TrustedRunInvariants.StateKeeps(At(r, j), ledger, r.runs[j].run, r.runs[j].facts, env, m);
  }

  /** A command on one run moves the shared store along its edges, so every other run stays as trusted as it was. */
  lemma PutKeepsSound(r: Registry, i: nat, t: TrustedState, env: Env, m: T.Meaning)
    requires Sound(r, env, m) && i < |r.runs|
    requires TInv(t, r.runs[i].facts, env, m) && TrustedRunInvariants.SameBinding(At(r, i), t)
    requires Counts(t.run) ==> Counts(r.runs[i].run)
    ensures Sound(Put(r, i, t), env, m)
  {
    var after := Put(r, i, t);
    PutKeepsOnePerTask(r.runs, i, after.runs[i]);
    forall j | 0 <= j < |after.runs| ensures Trusted(after, j, env, m) {
      if j == i {
        assert At(after, j) == t;
      } else {
        LedgerMoves(r, j, t.ledger, env, m);
        assert At(after, j) == At(r, j).(ledger := t.ledger);
      }
    }
  }

  lemma LedgerKeepsSound(r: Registry, ledger: L.Ledger, env: Env, m: T.Meaning)
    requires Sound(r, env, m) && T.Inv(ledger, env, m) && TT.LeaseEdges(r.ledger.leases, ledger.leases)
    ensures Sound(r.(ledger := ledger), env, m)
  {
    var after := r.(ledger := ledger);
    forall j | 0 <= j < |after.runs| ensures Trusted(after, j, env, m) {
      LedgerMoves(r, j, ledger, env, m);
      assert At(after, j) == At(r, j).(ledger := ledger);
    }
  }

  lemma FreshRunIsTrusted(maxAttempts: nat, f: Facts, ledger: L.Ledger, env: Env, m: T.Meaning)
    requires 1 <= maxAttempts && |f.stepKeys| == STEP_COUNT && T.Inv(ledger, env, m)
    ensures TInv(TrustedState(M.Create(maxAttempts), ledger, None), f, env, m)
  {
  }

  lemma CreateKeepsSound(r: Registry, e: Enrolled, env: Env, m: T.Meaning)
    requires Sound(r, env, m) && Latest(r.runs, e.facts.taskId, |r.runs|).None?
    requires TInv(TrustedState(e.run, r.ledger, e.leaseId), e.facts, env, m)
    ensures Sound(r.(runs := r.runs + [e]), env, m)
  {
    var after := r.(runs := r.runs + [e]);
    assert forall i :: 0 <= i < |r.runs| ==> after.runs[i] == r.runs[i] && !Holds(r.runs, i, e.facts.taskId);
    forall j | 0 <= j < |after.runs| ensures Trusted(after, j, env, m) {
      if j < |r.runs| { assert At(after, j) == At(r, j) && Trusted(r, j, env, m); }
    }
  }

  lemma CommandKeepsSound(r: Registry, i: nat, c: TrustedRun.Command, env: Env, m: T.Meaning)
    requires Sound(r, env, m) && m == T.MeaningOf(env) && i < |r.runs|
    requires Enforceable(r.runs[i].facts, r.runs[i].run) && TrustedRun.Admissible(At(r, i), c, r.runs[i].facts)
    ensures Sound(Put(r, i, TrustedRun.Apply(At(r, i), c, r.runs[i].facts, env).state), env, m)
  {
    var s, f := At(r, i), r.runs[i].facts;
    var t := TrustedRun.Apply(s, c, f, env).state;
    assert Trusted(r, i, env, m);
    TrustedRunInvariants.ApplyKeeps(s, c, f, env, m);
    TrustedRunTheorems.EveryTrustedWriteIsAnEdge(s, c, f, env);
    StaysOut(s.run, t.run, c.TBegin?);
    PutKeepsSound(r, i, t, env, m);
  }

  lemma EnrolKeepsSound(r: Registry, f: Facts, tasks: map<Name, TaskRecord>, approvals: map<Id, bool>,
                        maxAttempts: nat, env: Env, m: T.Meaning)
    requires Sound(r, env, m) && 1 <= maxAttempts && |f.stepKeys| == STEP_COUNT
    ensures Sound(r.(runs := Enrol(r.runs, f, tasks, approvals, maxAttempts)), env, m)
  {
    match Creation(r.runs, f.taskId, tasks, approvals)
    case New(id) =>
      FreshRunIsTrusted(maxAttempts, f.(approvalId := id), r.ledger, env, m);
      CreateKeepsSound(r, Enrolled(f.(approvalId := id), M.Create(maxAttempts), None), env, m);
    case _ =>
  }

  lemma StoreCommandKeepsSound(r: Registry, c: L.Command, env: Env, m: T.Meaning)
    requires Sound(r, env, m) && m == T.MeaningOf(env) && L.Admissible(r.ledger, c)
    ensures Sound(r.(ledger := L.Apply(r.ledger, c, env).ledger), env, m)
  {
    T.ApplyKeeps(r.ledger, c, env, m);
    TT.ApplyTakesEdges(r.ledger, c, env);
    LedgerKeepsSound(r, L.Apply(r.ledger, c, env).ledger, env, m);
  }

  lemma ApplyKeepsSound(r: Registry, c: Command, env: Env, m: T.Meaning)
    requires Sound(r, env, m) && m == T.MeaningOf(env) && WellFormed(r) && Admissible(r, c)
    ensures Sound(Apply(r, c, env), env, m)
  {
    match c
    case Create(f, tasks, approvals, maxAttempts) => EnrolKeepsSound(r, f, tasks, approvals, maxAttempts, env, m);
    case OnRun(i, command) => CommandKeepsSound(r, i, command, env, m);
    case OnLedger(ledger) => StoreCommandKeepsSound(r, ledger, env, m);
    case Decide(id, reviewer, allow, reason) =>
      match Target(r, id) {
        case Some(i) => CommandKeepsSound(r, i, TDecide(id, reviewer, allow, reason), env, m);
        case None => StoreCommandKeepsSound(r, L.CAuthorize(id, reviewer, allow, reason), env, m);
      }
  }

  lemma SoundIsWellFormed(r: Registry, env: Env, m: T.Meaning)
    requires Sound(r, env, m)
    ensures WellFormed(r)
  {
    forall i | 0 <= i < |r.runs| ensures Enforceable(r.runs[i].facts, r.runs[i].run) {
      assert Trusted(r, i, env, m);
    }
  }

  // ----- histories -----

  /** The states that a history of admissible commands goes through, from the empty registry on. */
  ghost predicate Trace(states: seq<Registry>, history: seq<Command>, env: Env) {
    && |states| == |history| + 1 && states[0] == Registry(L.EMPTY, [])
    && forall i :: 0 <= i < |history| ==> Steps(states[i], history[i], env, states[i + 1])
  }

  ghost predicate Steps(before: Registry, c: Command, env: Env, after: Registry) {
    WellFormed(before) && Admissible(before, c) && after == Apply(before, c, env)
  }

  lemma {:induction false} TraceIsSound(states: seq<Registry>, history: seq<Command>, env: Env, n: nat)
    requires Trace(states, history, env) && n < |states|
    ensures Sound(states[n], env, T.MeaningOf(env)) && WellFormed(states[n])
  {
    if n == 0 {
      TT.EmptyIsSound(env, T.MeaningOf(env));
    } else {
      TraceIsSound(states, history, env, n - 1);
      assert Steps(states[n - 1], history[n - 1], env, states[n]);
      ApplyKeepsSound(states[n - 1], history[n - 1], env, T.MeaningOf(env));
      SoundIsWellFormed(states[n], env, T.MeaningOf(env));
    }
  }

  /** At every moment of every history, a task has at most one run outside FAILED, CANCELLED and BLOCKED. */
  lemma AtMostOneRunPerTask(states: seq<Registry>, history: seq<Command>, env: Env, n: nat, i: nat, j: nat)
    requires Trace(states, history, env) && n < |states|
    requires i < j < |states[n].runs| && states[n].runs[i].facts.taskId == states[n].runs[j].facts.taskId
    ensures Over(states[n].runs[i].run.status) || Over(states[n].runs[j].run.status)
  {
    TraceIsSound(states, history, env, n);
  }

  /**
   At every moment of every history of all runs and of the store they share, each run
   is SUCCEEDED exactly when its steps are, then carries the seal of its steps, and has
   attempted a side-effect step only in scope and only as often as its own lease permits.
   */
  lemma EveryRunIsGoverned(states: seq<Registry>, history: seq<Command>, env: Env, n: nat, i: nat)
    requires Trace(states, history, env) && n < |states| && i < |states[n].runs|
    ensures var run, f := states[n].runs[i].run, states[n].runs[i].facts;
            && Core(run) && (run.status.Succeeded? <==> M.AllPassed(run.steps, STEP_COUNT))
            && (run.status.Succeeded? ==> Sealed(run, f.hash))
            && Enforceable(f, run) && AttemptsBounded(At(states[n], i), f)
            && forall k :: 0 < k < STEP_COUNT && run.steps[k].attempts > 0 ==> ScopeContract(f)
  {
    TraceIsSound(states, history, env, n);
    assert Trusted(states[n], i, env, T.MeaningOf(env));
    SucceededIffPassed(states[n].runs[i].run);
  }

  /** The store of runs. */
  class RunStore {
    var runs: seq<Enrolled>

    constructor ()
      ensures runs == []
    {
      runs := [];
    }

    /** The latest run that counts for the task, or a new one; none when task or approval is missing or not APPROVED. */
    method CreateAgentRun(f: Facts, tasks: map<Name, TaskRecord>, approvals: map<Id, bool>, maxAttempts: nat)
        returns (created: Created)
      modifies this
      ensures created == Creation(old(runs), f.taskId, tasks, approvals)
      ensures runs == Enrol(old(runs), f, tasks, approvals, maxAttempts)
      ensures created.New? ==> Holds(runs, |runs| - 1, f.taskId)
    {
      if f.taskId !in tasks { return NoTask; }
      var task := tasks[f.taskId];
      if !task.approved { return Unapproved; }
      if task.approvalId.None? || task.approvalId.value !in approvals || !approvals[task.approvalId.value] {
        return Unapproved;
      }
      var found: Option<nat>, i := None, 0;
      while i < |runs|
        invariant 0 <= i <= |runs| && found == Latest(runs, f.taskId, i)
      {
        var run := runs[i].run;
        if runs[i].facts.taskId == f.taskId && !run.status.Failed? && !run.status.Cancelled? && !run.status.Blocked? {
          found := Some(i);
        }
        i := i + 1;
      }
      if found.Some? { return Existing(found.value); }
      runs := runs + [Enrolled(f.(approvalId := task.approvalId.value), M.Create(maxAttempts), None)];
      created := New(task.approvalId.value);
    }
  }
}
