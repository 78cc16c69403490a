/**
 The scheduler loop over all runs, with trust enforcement switched off: one round
 recovers stale leases and starts the first run that can start. Between rounds, and
 while an execution is under way, everybody else may act on any run.
 */
module Scheduler {
  import opened Options
  import opened RunStates
  import opened MissionControl
  import opened RunInvariants
  import opened RunTheorems
  import opened RunEffects

  /** A run with all its steps, as every command leaves it. */
  type Run = s: RunState | WellFormed(s) witness Create(1)

  // ----- one round -----

  /** The statuses the scheduler asks for. */
  predicate Polled(s: RunStatus) { s.Scheduled? || s.Running? || s.RetryWait? }

  /** A run that waits for a retry is a candidate once its current step no longer has to wait. */
  predicate Eligible(s: Run, now: int) {
    && Polled(s.status)
    && (s.status.RetryWait? ==>
          s.steps[s.current].nextRetryAt.None? || s.steps[s.current].nextRetryAt.value <= now)
  }

  datatype Request = Request(now: int, worker: string, token: string, seconds: nat)

  function Sweep(runs: seq<Run>, now: int): (swept: seq<Run>)
    ensures |swept| == |runs|
  {
    seq(|runs|, i requires 0 <= i < |runs| => RecoverStale(runs[i], now).state)
  }

  predicate CanStart(s: Run, r: Request) {
    BeginExecution(s, r.now, r.worker, r.token, r.seconds).reply.Done?
  }

  /** The first candidate, from position i on, whose execution request is not refused. */
  function FirstStart(runs: seq<Run>, i: nat, r: Request): (found: Option<nat>)
    requires i <= |runs|
    ensures found.Some? ==> i <= found.value < |runs| && CanStart(runs[found.value], r)
    decreases |runs| - i
  {
    if i == |runs| then None
    else if Eligible(runs[i], r.now) && CanStart(runs[i], r) then Some(i)
    else FirstStart(runs, i + 1, r)
  }

  /** The run after an execution request. */
  function Requested(s: Run, r: Request): (t: Run)
    ensures t == BeginExecution(s, r.now, r.worker, r.token, r.seconds).state
  {
    Apply(s, _ => "", Begin(r.now, r.worker, r.token, r.seconds)).state
  }

  function StartAt(runs: seq<Run>, i: nat, r: Request): (after: seq<Run>)
    requires i < |runs|
    ensures |after| == |runs|
  {
    runs[i := Requested(runs[i], r)]
  }

  /** The runs after a round up to the worker of the run it started. */
  function Round(runs: seq<Run>, r: Request): (after: seq<Run>)
    ensures |after| == |runs|
  {
    var swept := Sweep(runs, r.now);
    match FirstStart(swept, 0, r)
    case None => swept
    case Some(i) => StartAt(swept, i, r)
  }

  predicate Productive(runs: seq<Run>, r: Request) {
    FirstStart(Sweep(runs, r.now), 0, r).Some?
  }

  // ----- candidates and sweeps -----

  lemma EligibleIff(s: Run, now: int)
    requires Core(s)
    ensures Eligible(s, now) <==>
            || s.status.Scheduled? || s.status.Running?
            || (s.status.RetryWait? && Frontier(s).nextRetryAt.Some? && Frontier(s).nextRetryAt.value <= now)
  {
  }

  /** After a sweep no lease has expired, and a run without an expired lease is as it was. */
  lemma SweepEffect(runs: seq<Run>, now: int, k: nat)
    requires k < |runs| && Core(runs[k])
    ensures var before, after := runs[k], Sweep(runs, now)[k];
            && (after.lease.Some? ==> now < after.lease.value.expiresAt)
            && (before.lease.None? || now < before.lease.value.expiresAt ==> after == before)
            && after == Apply(before, _ => "", Watchdog(now)).state
  {
    WatchdogEffect(runs[k], _ => "", now);
  }

  // ----- a round overlooks nothing -----

  /** Only a candidate ever starts a step. */
  lemma OnlyEligibleRunsStart(s: Run, r: Request)
    requires Core(s) && CanStart(s, r)
    ensures Eligible(s, r.now)
  {
    BeginStartsIff(s, r.now, r.worker, r.token, r.seconds);
  }

  lemma {:induction false} FirstStartIsFirst(runs: seq<Run>, i: nat, r: Request)
    requires i <= |runs| && forall k :: 0 <= k < |runs| ==> Core(runs[k])
    ensures var found := FirstStart(runs, i, r);
            forall k :: i <= k < |runs| && CanStart(runs[k], r) ==> found.Some? && found.value <= k
    decreases |runs| - i
  {
    if i < |runs| {
      FirstStartIsFirst(runs, i + 1, r);
      if CanStart(runs[i], r) { OnlyEligibleRunsStart(runs[i], r); }
    }
  }

  lemma SweepKeepsCore(runs: seq<Run>, now: int)
    requires forall k :: 0 <= k < |runs| ==> Core(runs[k])
    ensures forall k :: 0 <= k < |runs| ==> Core(Sweep(runs, now)[k])
  {
    forall k | 0 <= k < |runs| ensures Core(Sweep(runs, now)[k]) { WatchdogKeeps(runs[k], now); }
  }

  /**
   A round starts a run if and only if some run can start once stale leases are
   recovered: the statuses it polls and the retry filter lose none. It starts the
   earliest created, and all other runs are only swept.
   */
  lemma RoundStartsTheFirst(runs: seq<Run>, r: Request)
    requires forall k :: 0 <= k < |runs| ==> Core(runs[k])
    ensures var swept, after := Sweep(runs, r.now), Round(runs, r);
            if Productive(runs, r) then
              exists i :: 0 <= i < |runs| && CanStart(swept[i], r) && Frontier(after[i]).status.Running?
                          && (forall k :: 0 <= k < i ==> !CanStart(swept[k], r))
                          && forall k :: 0 <= k < |runs| && k != i ==> after[k] == swept[k]
            else after == swept && forall k :: 0 <= k < |runs| ==> !CanStart(swept[k], r)
  {
    var swept := Sweep(runs, r.now);
    SweepKeepsCore(runs, r.now);
    FirstStartIsFirst(swept, 0, r);
    if Productive(runs, r) {
      var i := FirstStart(swept, 0, r).value;
      BeginStartsIff(swept[i], r.now, r.worker, r.token, r.seconds);
    }
  }

  // ----- coming to rest -----

  /** A run and, for the theorems, how many resumes it has accepted. */
  datatype Member = Member(run: Run, resumes: nat)

  datatype Event = Enrol(maxAttempts: nat) | Poll(request: Request) | Act(index: nat, command: Command)

  /** All runs, and how many rounds have started one. */
  datatype World = World(members: seq<Member>, productive: nat)

  function Runs(members: seq<Member>): (runs: seq<Run>)
    ensures |runs| == |members|
  {
    seq(|members|, i requires 0 <= i < |members| => members[i].run)
  }

  function WithRuns(members: seq<Member>, runs: seq<Run>): (after: seq<Member>)
    requires |runs| == |members|
    ensures |after| == |members|
  {
    seq(|members|, i requires 0 <= i < |members| => members[i].(run := runs[i]))
  }

  function Acted(m: Member, hash: Hash, c: Command): Member {
    var next := Apply(m.run, hash, c);
    Member(next.state, m.resumes + if c.Resume? && next.reply.Done? then 1 else 0)
  }

  function Happen(w: World, e: Event, hash: Hash): World {
    match e
    case Enrol(maxAttempts) => w.(members := w.members + [Member(Create(maxAttempts), 0)])
    case Poll(r) =>
      var runs := Runs(w.members);
      World(WithRuns(w.members, Round(runs, r)), w.productive + if Productive(runs, r) then 1 else 0)
    case Act(i, c) => if i < |w.members| then w.(members := w.members[i := Acted(w.members[i], hash, c)]) else w
  }

  /** All executions that were ever started. */
  function Started(members: seq<Member>, n: nat): nat
    requires n <= |members|
  {
    if n == 0 then 0 else Started(members, n - 1) + Spent(members[n - 1].run.steps, STEP_COUNT)
  }

  function Allowance(members: seq<Member>, n: nat): nat
    requires n <= |members|
  {
    if n == 0 then 0
    else Allowance(members, n - 1) + STEP_COUNT * members[n - 1].run.maxAttempts + members[n - 1].resumes
  }

  predicate MemberOk(m: Member) {
    Core(m.run) && Budget(m.run, m.resumes)
  }

  predicate AllOk(members: seq<Member>) {
    forall i :: 0 <= i < |members| ==> MemberOk(members[i])
  }

  predicate WorldOk(w: World) {
    AllOk(w.members) && w.productive <= Started(w.members, |w.members|)
  }

  /** One command on a member keeps it, and takes back none of its executions. */
  lemma ActedKeeps(m: Member, hash: Hash, c: Command)
    requires MemberOk(m)
    ensures var t := Acted(m, hash, c);
            && MemberOk(t) && t.run.maxAttempts == m.run.maxAttempts
            && Spent(t.run.steps, STEP_COUNT)
            == Spent(m.run.steps, STEP_COUNT) + if c.Begin? && Apply(m.run, hash, c).reply.Done? then 1 else 0
  {
    ApplyKeepsCore(m.run, hash, c);
    ApplyEffect(m.run, hash, c);
    BudgetKeeps(m.run, hash, c, m.resumes);
    SpentStep(m.run, hash, c, STEP_COUNT);
  }

  predicate NoneTakenBack(before: Member, after: Member) {
    Spent(before.run.steps, STEP_COUNT) <= Spent(after.run.steps, STEP_COUNT)
  }

  lemma {:induction false} StartedGrows(before: seq<Member>, after: seq<Member>, n: nat)
    requires n <= |before| == |after| && forall i :: 0 <= i < n ==> NoneTakenBack(before[i], after[i])
    ensures Started(before, n) <= Started(after, n)
  {
    if n > 0 { StartedGrows(before, after, n - 1); }
  }

  /** One more execution of one member is one more in all. */
  lemma {:induction false} OneMoreStarted(before: seq<Member>, after: seq<Member>, i: nat, n: nat)
    requires i < n <= |before| == |after| && forall k :: 0 <= k < n ==> NoneTakenBack(before[k], after[k])
    requires Spent(before[i].run.steps, STEP_COUNT) < Spent(after[i].run.steps, STEP_COUNT)
    ensures Started(before, n) < Started(after, n)
  {
    if n == i + 1 { StartedGrows(before, after, i); } else { OneMoreStarted(before, after, i, n - 1); }
  }

  lemma ActKeeps(w: World, i: nat, c: Command, hash: Hash)
    requires WorldOk(w) && i < |w.members|
    ensures WorldOk(w.(members := w.members[i := Acted(w.members[i], hash, c)]))
  {
    var after := w.members[i := Acted(w.members[i], hash, c)];
    assert MemberOk(w.members[i]);
    ActedKeeps(w.members[i], hash, c);
    forall k | 0 <= k < |after| ensures MemberOk(after[k]) && NoneTakenBack(w.members[k], after[k]) {
      assert MemberOk(w.members[k]);
    }
    StartedGrows(w.members, after, |after|);
  }

  lemma EnrolKeeps(w: World, maxAttempts: nat)
    requires WorldOk(w) && 1 <= maxAttempts
    ensures WorldOk(w.(members := w.members + [Member(Create(maxAttempts), 0)]))
  {
    var newcomer := Member(Create(maxAttempts), 0);
    CreateEstablishes(maxAttempts, _ => "");
    FreshSpendsNothing(maxAttempts, STEP_COUNT);
    assert MemberOk(newcomer);
    StartedAgrees(w.members, w.members + [newcomer], |w.members|);
  }

  lemma {:induction false} StartedAgrees(before: seq<Member>, after: seq<Member>, n: nat)
    requires n <= |before| && n <= |after| && forall i :: 0 <= i < n ==> before[i] == after[i]
    ensures Started(before, n) == Started(after, n)
  {
    if n > 0 { StartedAgrees(before, after, n - 1); }
  }

  /** A member after a round: swept, and started if it is the one. */
  lemma PolledMember(members: seq<Member>, r: Request, k: nat)
    requires k < |members| && AllOk(members)
    ensures var after := WithRuns(members, Round(Runs(members), r));
            && MemberOk(after[k]) && NoneTakenBack(members[k], after[k])
            && (FirstStart(Sweep(Runs(members), r.now), 0, r) == Some(k) ==>
                  Spent(members[k].run.steps, STEP_COUNT) < Spent(after[k].run.steps, STEP_COUNT))
  {
    var m, begin := members[k], Begin(r.now, r.worker, r.token, r.seconds);
    assert MemberOk(m);
    ActedKeeps(m, _ => "", Watchdog(r.now));
    var swept := Acted(m, _ => "", Watchdog(r.now));
    assert Sweep(Runs(members), r.now)[k] == swept.run && swept.resumes == m.resumes;
    ActedKeeps(swept, _ => "", begin);
    var after := WithRuns(members, Round(Runs(members), r))[k];
    if FirstStart(Sweep(Runs(members), r.now), 0, r) == Some(k) {
      assert after == Acted(swept, _ => "", begin);
    } else {
      assert after == swept;
    }
  }

  lemma PollKeeps(w: World, r: Request)
    requires WorldOk(w)
    ensures WorldOk(Happen(w, Poll(r), _ => ""))
  {
    var after := WithRuns(w.members, Round(Runs(w.members), r));
    forall k | 0 <= k < |after|
      ensures MemberOk(after[k]) && NoneTakenBack(w.members[k], after[k])
    {
      PolledMember(w.members, r, k);
    }
    StartedGrows(w.members, after, |after|);
    var found := FirstStart(Sweep(Runs(w.members), r.now), 0, r);
    if found.Some? {
      PolledMember(w.members, r, found.value);
      OneMoreStarted(w.members, after, found.value, |after|);
    }
  }

  function Replay(history: seq<Event>, hash: Hash): (w: World)
    requires Admissible(history)
  {
    if history == [] then World([], 0) else Happen(Replay(history[..|history| - 1], hash), history[|history| - 1], hash)
  }

  predicate Admissible(history: seq<Event>) {
    forall i :: 0 <= i < |history| && history[i].Enrol? ==> 1 <= history[i].maxAttempts
  }

  lemma {:induction false} HistoryKeepsWorld(history: seq<Event>, hash: Hash)
    requires Admissible(history)
    ensures WorldOk(Replay(history, hash))
  {
    if history != [] {
      var w := Replay(history[..|history| - 1], hash);
      HistoryKeepsWorld(history[..|history| - 1], hash);
      match history[|history| - 1]
      case Enrol(maxAttempts) => EnrolKeeps(w, maxAttempts);
      case Poll(r) => PollKeeps(w, r);
      case Act(i, c) => if i < |w.members| { ActKeeps(w, i, c, hash); }
    }
  }

  lemma MemberWithinAllowance(m: Member)
    requires MemberOk(m)
    ensures Spent(m.run.steps, STEP_COUNT) <= STEP_COUNT * m.run.maxAttempts + m.resumes
  {
    TailSpendsNothing(m.run, STEP_COUNT);
    QuotaIsProduct(m.run.maxAttempts, STEP_COUNT);
  }

  lemma {:induction false} StartedWithinAllowance(members: seq<Member>, n: nat)
    requires n <= |members| && AllOk(members)
    ensures Started(members, n) <= Allowance(members, n)
  {
    if n > 0 {
      StartedWithinAllowance(members, n - 1);
      assert MemberOk(members[n - 1]);
      MemberWithinAllowance(members[n - 1]);
    }
  }

  /**
   The scheduler comes to rest: whatever is enrolled, done and polled, in any order, at
   most 7 * max_attempts rounds per run plus one per accepted resume start anything.
   Every other round starts nothing, and by RoundStartsTheFirst there is then nothing
   to start.
   */
  lemma SchedulerComesToRest(history: seq<Event>, hash: Hash)
    requires Admissible(history)
    ensures var w := Replay(history, hash); w.productive <= Allowance(w.members, |w.members|)
  {
    HistoryKeepsWorld(history, hash);
    var w := Replay(history, hash);
    StartedWithinAllowance(w.members, |w.members|);
  }

  // ----- the loop -----

  /** The positions below n whose runs are eligible, in order. */
  predicate Candidates(runs: seq<Run>, n: nat, candidates: seq<nat>, now: int)
    requires n <= |runs|
  {
    && (forall j :: 0 <= j < |candidates| ==> candidates[j] < n && Eligible(runs[candidates[j]], now))
    && (forall i, j :: 0 <= i < j < |candidates| ==> candidates[i] < candidates[j])
    && (forall k: nat :: k < n && Eligible(runs[k], now) ==> k in candidates)
  }

  lemma {:induction false} SkipIneligible(runs: seq<Run>, i: nat, c: nat, r: Request)
    requires i <= c <= |runs| && forall k :: i <= k < c ==> !Eligible(runs[k], r.now)
    ensures FirstStart(runs, i, r) == FirstStart(runs, c, r)
    decreases c - i
  {
    if i < c { SkipIneligible(runs, i + 1, c, r); }
  }

  /** Where the search goes on after i candidates have refused. */
  function After(candidates: seq<nat>, i: nat): nat
    requires i <= |candidates|
  {
    if i == 0 then 0 else candidates[i - 1] + 1
  }

  /** Between two candidates that follow each other nothing is eligible. */
  lemma IneligibleBetween(runs: seq<Run>, candidates: seq<nat>, i: nat, k: nat, now: int)
    requires Candidates(runs, |runs|, candidates, now) && i <= |candidates| && k < |runs|
    requires After(candidates, i) <= k && (i < |candidates| ==> k < candidates[i])
    ensures !Eligible(runs[k], now)
  {
  }

  lemma SkipToNext(runs: seq<Run>, candidates: seq<nat>, i: nat, r: Request)
    requires Candidates(runs, |runs|, candidates, r.now) && i <= |candidates|
    ensures After(candidates, i) <= |runs|
    ensures FirstStart(runs, After(candidates, i), r)
         == FirstStart(runs, if i < |candidates| then candidates[i] else |runs|, r)
  {
    var next := if i < |candidates| then candidates[i] else |runs|;
    forall k | After(candidates, i) <= k < next ensures !Eligible(runs[k], r.now) {
      IneligibleBetween(runs, candidates, i, k, r.now);
    }
    SkipIneligible(runs, After(candidates, i), next, r);
  }

  class Worker {
    var runs: seq<Run>

    constructor ()
      ensures runs == []
    {
      runs := [];
    }

    method RecoverStaleLeases(now: int)
        modifies this
      ensures runs == Sweep(old(runs), now)
    {
      var i := 0;
      while i < |runs|
        invariant 0 <= i <= |runs| == |old(runs)|
        invariant forall k :: 0 <= k < i ==> runs[k] == Sweep(old(runs), now)[k]
        invariant forall k :: i <= k < |runs| ==> runs[k] == old(runs)[k]
      {
        runs := runs[i := RecoverStale(runs[i], now).state];
        i := i + 1;
      }
      assert runs == Sweep(old(runs), now);
    }

    /** The candidates, by position in order of creation. */
    method EligibleRuns(now: int) returns (candidates: seq<nat>)
      ensures Candidates(runs, |runs|, candidates, now)
    {
      candidates := [];
      var i := 0;
      while i < |runs|
        invariant 0 <= i <= |runs| && Candidates(runs, i, candidates, now)
      {
        if Eligible(runs[i], now) { candidates := candidates + [i]; }
        i := i + 1;
      }
    }

    /** Asks one candidate after the other, until one starts. */
    method StartFirst(candidates: seq<nat>, r: Request) returns (processed: nat)
      requires Candidates(runs, |runs|, candidates, r.now)
      modifies this
      ensures match FirstStart(old(runs), 0, r)
              case None => processed == 0 && runs == old(runs)
              case Some(i) => processed == 1 && runs == StartAt(old(runs), i, r)
    {
      var i := 0;
      while i < |candidates|
        invariant 0 <= i <= |candidates| && runs == old(runs) && After(candidates, i) <= |runs|
        invariant FirstStart(runs, 0, r) == FirstStart(runs, After(candidates, i), r)
      {
        SkipToNext(runs, candidates, i, r);
        var c := candidates[i];
        var next := BeginExecution(runs[c], r.now, r.worker, r.token, r.seconds);
        if next.reply.Done? {
          assert next.state == Requested(runs[c], r);
          runs := runs[c := next.state];
          return 1;
        }
        i := i + 1;
      }
      SkipToNext(runs, candidates, i, r);
      processed := 0;
    }

    /** One round; tells how many runs it started. */
    method RunOnce(r: Request) returns (processed: nat)
      modifies this
      ensures runs == Round(old(runs), r)
      ensures processed == if Productive(old(runs), r) then 1 else 0
    {
      RecoverStaleLeases(r.now);
      var candidates := EligibleRuns(r.now);
      processed := StartFirst(candidates, r);
    }
  }
}
