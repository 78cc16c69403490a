/**
 Charging a finished run step: how its duration is shared among its actions, and
 whether the charge that follows a preflight can still be refused.
 */
module StepSettlement {
  import opened Options
  import opened TrustPolicy
  import opened TrustLedger
  import opened TrustStore

  datatype FinishedStep = FinishedStep(
    succeeded: bool, durationMs: Option<nat>, attempts: nat, opensPullRequest: bool, output: Option<string>,
    evidence: string)

  function Seconds(step: FinishedStep): nat {
    if step.durationMs.Some? then step.durationMs.value / 1000 else 0
  }

  /** The seconds left over when each of n actions has its whole share. */
  function Remainder(seconds: nat, n: nat): (r: nat)
    requires 0 < n
    ensures r < n
  {
    seconds - seconds / n * n
  }

  /** The i-th of n shares of a number of seconds; the first shares take the remainder. */
  function Share(seconds: nat, n: nat, i: nat): nat
    requires 0 < n
  {
    seconds / n + if i < Remainder(seconds, n) then 1 else 0
  }

  function ShareSum(seconds: nat, n: nat, k: nat): nat
    requires 0 < n
  {
    if k == 0 then 0 else ShareSum(seconds, n, k - 1) + Share(seconds, n, k - 1)
  }

  lemma {:induction false} ShareSumIs(seconds: nat, n: nat, k: nat)
    requires 0 < n
    ensures var rest := Remainder(seconds, n);
            ShareSum(seconds, n, k) == seconds / n * k + if k < rest then k else rest
  {
    if k > 0 {
      ShareSumIs(seconds, n, k - 1);
      assert seconds / n * k == seconds / n * (k - 1) + seconds / n;
    }
  }

  /** However many actions there are, their shares add up to the whole duration. */
  lemma SharesAddUp(seconds: nat, n: nat)
    requires 0 < n
    ensures ShareSum(seconds, n, n) == seconds
  {
    ShareSumIs(seconds, n, n);
  }

  /** No two shares differ by more than a second, and no later share is larger. */
  lemma SharesAreEven(seconds: nat, n: nat, i: nat, j: nat)
    requires i <= j < n
    ensures Share(seconds, n, j) <= Share(seconds, n, i) <= Share(seconds, n, j) + 1
    ensures Share(seconds, n, i) == seconds / n + if i < seconds % n then 1 else 0
  {
  }

  /** Milliseconds are cut off, and a step without a duration took none. */
  lemma SecondsAre(step: FinishedStep)
    ensures step.durationMs.Some? ==> 1000 * Seconds(step) <= step.durationMs.value < 1000 * Seconds(step) + 1000
    ensures step.durationMs.None? ==> Seconds(step) == 0
  {
  }

  lemma {:induction false} ShareSumGrows(seconds: nat, n: nat, k: nat)
    requires 0 < n && k <= n
    ensures ShareSum(seconds, n, k) <= seconds
    decreases n - k
  {
    if k == n {
      SharesAddUp(seconds, n);
    } else {
      ShareSumGrows(seconds, n, k + 1);
    }
  }

  function ConsumptionOf(step: FinishedStep, n: nat, i: nat): Consumption
    requires 0 < n
  {
    Consumption(Share(Seconds(step), n, i), 0.0, if step.opensPullRequest then 1 else 0,
                step.attempts > 1 && i == 0, step.output, step.evidence)
  }

  /** The first k of the charges of a step; the first refusal ends the loop and leaves the earlier charges. */
  function Settle(l: Ledger, now: int, ids: seq<Id>, step: FinishedStep, k: nat): Next
    requires k <= |ids|
  {
    if k == 0 then Next(l, Done)
    else
      var earlier := Settle(l, now, ids, step, k - 1);
      if !earlier.reply.Done? then earlier
      else Consume(earlier.ledger, now, ids[k - 1], ConsumptionOf(step, |ids|, k - 1))
  }

  // ----- when it succeeds -----

  /** The action is effectively allowed under the lease and has not been consumed. */
  predicate Primed(l: Ledger, id: Id, leaseId: Id) {
    && id in l.actions && l.actions[id].id == id && l.actions[id].leaseId == Some(leaseId) && id !in l.consumptions
    && var latest := Latest(l.decisions, id);
    latest.Some? && latest.value.verdict.Allow? && (latest.value.human ==> HumanAllows(l, id))
  }

  predicate AllPrimed(l: Ledger, ids: seq<Id>, k: nat, leaseId: Id)
    requires k <= |ids|
  {
    forall i :: k <= i < |ids| ==> Primed(l, ids[i], leaseId)
  }

  /** The lease has room for the duration of the step and the pull requests of its n charges. */
  predicate Room(lease: Lease, step: FinishedStep, n: nat) {
    && lease.spent.runtime + Seconds(step) <= lease.terms.scope.maxRuntime
    && lease.spent.cost <= lease.terms.scope.maxCost
    && lease.spent.pullRequests + (if step.opensPullRequest then n else 0) <= lease.terms.scope.maxPullRequests
    && lease.spent.retries <= lease.terms.scope.maxRetries
  }

  predicate RetryLeft(lease: Lease, step: FinishedStep) {
    step.attempts <= 1 || lease.spent.retries < lease.terms.scope.maxRetries
  }

  /** The lease after k of the charges. */
  function SpentAfter(spent: Spent, step: FinishedStep, n: nat, k: nat): Spent
    requires 0 < n
  {
    Spent(spent.runtime + ShareSum(Seconds(step), n, k), spent.cost,
          spent.pullRequests + (if step.opensPullRequest then k else 0),
          spent.retries + if step.attempts > 1 && k > 0 then 1 else 0)
  }

  lemma SpentStep(spent: Spent, step: FinishedStep, n: nat, k: nat)
    requires k < n
    ensures SpentAfter(spent, step, n, k + 1) == Plus(SpentAfter(spent, step, n, k), CostOf(ConsumptionOf(step, n, k)))
  {
  }

  lemma SpentFits(lease: Lease, step: FinishedStep, n: nat, k: nat)
    requires 0 < k <= n && Room(lease, step, n)
    ensures WithinBudget(SpentAfter(lease.spent, step, n, k), lease.terms.scope) <==> RetryLeft(lease, step)
  {
    ShareSumGrows(Seconds(step), n, k);
  }

  /** An effective action of a live lease is refused only for its budget. */
  lemma PrimedConsume(l: Ledger, now: int, id: Id, leaseId: Id, c: Consumption)
    requires Primed(l, id, leaseId) && leaseId in l.leases && Live(l.leases[leaseId], now)
    ensures var lease := l.leases[leaseId];
            Consume(l, now, id, c)
            == if WithinBudget(Plus(lease.spent, CostOf(c)), lease.terms.scope)
               then Next(ChargeLease(Refresh(l, leaseId, now), l.actions[id], leaseId, c), Done)
               else Next(Refresh(l, leaseId, now), Conflict)
  {
  }

  predicate Distinct(ids: seq<Id>) { forall i, j :: 0 <= i < j < |ids| ==> ids[i] != ids[j] }

  /** After k charges: the rest is still primed, and the lease is live and has paid exactly k shares. */
  predicate Progress(l: Ledger, t: Ledger, now: int, ids: seq<Id>, leaseId: Id, step: FinishedStep, k: nat)
    requires k <= |ids| && 0 < |ids| && leaseId in l.leases
  {
    && AllPrimed(t, ids, k, leaseId)
    && leaseId in t.leases && Live(t.leases[leaseId], now) && t.leases[leaseId].terms == l.leases[leaseId].terms
    && t.leases[leaseId].spent == SpentAfter(l.leases[leaseId].spent, step, |ids|, k)
  }

  lemma StartProgress(l: Ledger, now: int, ids: seq<Id>, leaseId: Id, step: FinishedStep)
    requires 0 < |ids| && AllPrimed(l, ids, 0, leaseId) && leaseId in l.leases && Live(l.leases[leaseId], now)
    ensures Settle(l, now, ids, step, 0) == Next(l, Done) && Progress(l, l, now, ids, leaseId, step, 0)
  {
  }

  lemma ChargeProgress(l: Ledger, t: Ledger, now: int, ids: seq<Id>, leaseId: Id, step: FinishedStep, k: nat)
    requires k < |ids| && leaseId in l.leases && Distinct(ids) && Progress(l, t, now, ids, leaseId, step, k)
    ensures var c := ConsumptionOf(step, |ids|, k);
            var charged := ChargeLease(Refresh(t, leaseId, now), t.actions[ids[k]], leaseId, c);
            Progress(l, charged, now, ids, leaseId, step, k + 1)
  {
  }

  lemma NextCharge(l: Ledger, t: Ledger, now: int, ids: seq<Id>, leaseId: Id, step: FinishedStep, k: nat)
    requires k < |ids| && Distinct(ids) && leaseId in l.leases && Progress(l, t, now, ids, leaseId, step, k)
    requires Room(l.leases[leaseId], step, |ids|)
    ensures var next := Consume(t, now, ids[k], ConsumptionOf(step, |ids|, k));
            && (next.reply.Done? <==> RetryLeft(l.leases[leaseId], step))
            && (next.reply.Done? ==> Progress(l, next.ledger, now, ids, leaseId, step, k + 1))
            && (!next.reply.Done? ==> next.ledger.charges == t.charges)
  {
    var lease := l.leases[leaseId];
    assert Primed(t, ids[k], leaseId);
    PrimedConsume(t, now, ids[k], leaseId, ConsumptionOf(step, |ids|, k));
    SpentStep(lease.spent, step, |ids|, k);
    SpentFits(lease, step, |ids|, k + 1);
    ChargeProgress(l, t, now, ids, leaseId, step, k);
  }

  /** The first k charges complete exactly when there are none or a retry is left, and then make progress. */
  predicate SettlesTo(l: Ledger, now: int, ids: seq<Id>, leaseId: Id, step: FinishedStep, k: nat)
    requires 0 < |ids| && k <= |ids| && leaseId in l.leases
  {
    var next := Settle(l, now, ids, step, k);
    && (next.reply.Done? <==> k == 0 || RetryLeft(l.leases[leaseId], step))
    && (next.reply.Done? ==> Progress(l, next.ledger, now, ids, leaseId, step, k))
  }

  lemma NextSettle(l: Ledger, now: int, ids: seq<Id>, leaseId: Id, step: FinishedStep, k: nat)
    requires k < |ids| && Distinct(ids) && leaseId in l.leases && SettlesTo(l, now, ids, leaseId, step, k)
    requires Room(l.leases[leaseId], step, |ids|)
    ensures SettlesTo(l, now, ids, leaseId, step, k + 1)
  {
    var earlier := Settle(l, now, ids, step, k);
    if earlier.reply.Done? {
      SettleOneMore(l, earlier.ledger, now, ids, step, k);
      NextCharge(l, earlier.ledger, now, ids, leaseId, step, k);
    } else {
      SettleStops(l, now, ids, step, k, k + 1);
    }
  }

  lemma SettleProgress(l: Ledger, now: int, ids: seq<Id>, leaseId: Id, step: FinishedStep)
    requires 0 < |ids| && Distinct(ids) && AllPrimed(l, ids, 0, leaseId)
    requires leaseId in l.leases && Live(l.leases[leaseId], now) && Room(l.leases[leaseId], step, |ids|)
    ensures SettlesTo(l, now, ids, leaseId, step, |ids|)
  {
    var k := 0;
    StartProgress(l, now, ids, leaseId, step);
    while k < |ids|
      invariant 0 <= k <= |ids| && SettlesTo(l, now, ids, leaseId, step, k)
    {
      NextSettle(l, now, ids, leaseId, step, k);
      k := k + 1;
    }
  }

  /** The only charge that can be refused is the first, which carries the retry. */
  lemma RefusalIsFirst(l: Ledger, now: int, ids: seq<Id>, leaseId: Id, step: FinishedStep)
    requires 0 < |ids| && Distinct(ids) && AllPrimed(l, ids, 0, leaseId)
    requires leaseId in l.leases && Live(l.leases[leaseId], now) && Room(l.leases[leaseId], step, |ids|)
    requires !RetryLeft(l.leases[leaseId], step)
    ensures Settle(l, now, ids, step, |ids|).ledger.charges == l.charges
  {
    SettleOneMore(l, l, now, ids, step, 0);
    NextCharge(l, l, now, ids, leaseId, step, 0);
    SettleStops(l, now, ids, step, 1, |ids|);
  }

  lemma {:induction false} SettlesWithRoomIff(l: Ledger, now: int, ids: seq<Id>, leaseId: Id, step: FinishedStep)
    requires 0 < |ids| && Distinct(ids) && AllPrimed(l, ids, 0, leaseId)
    requires leaseId in l.leases && Live(l.leases[leaseId], now) && Room(l.leases[leaseId], step, |ids|)
    ensures var next, lease := Settle(l, now, ids, step, |ids|), l.leases[leaseId];
            && (next.reply.Done? <==> RetryLeft(lease, step))
            && (!next.reply.Done? ==> next.ledger.charges == l.charges)
            && (next.reply.Done? ==>
                  leaseId in next.ledger.leases
                  && var spent := next.ledger.leases[leaseId].spent;
                  && spent.runtime == lease.spent.runtime + Seconds(step) && spent.cost == lease.spent.cost
                  && spent.pullRequests == lease.spent.pullRequests + (if step.opensPullRequest then |ids| else 0)
                  && spent.retries == lease.spent.retries + (if step.attempts > 1 then 1 else 0))
  {
    SettleProgress(l, now, ids, leaseId, step);
    SharesAddUp(Seconds(step), |ids|);
    if !RetryLeft(l.leases[leaseId], step) { RefusalIsFirst(l, now, ids, leaseId, step); }
  }

  // ----- what it charges -----

  /** The charge on the i-th of n actions: its share, no cost, the pull request, and the retry only on the first. */
  predicate ChargedFor(charge: Charge, l: Ledger, id: Id, step: FinishedStep, n: nat, i: nat)
    requires i < n
  {
    var c := charge.consumption;
    && id in l.actions && charge.action == l.actions[id] && l.actions[id].leaseId == Some(charge.leaseId)
    && c.runtime == Seconds(step) / n + (if i < Seconds(step) % n then 1 else 0) && c.cost == 0.0
    && c.pullRequests == (if step.opensPullRequest then 1 else 0) && (c.retry <==> i == 0 && step.attempts > 1)
    && c.output == step.output && c.evidence == step.evidence
  }

  predicate Charged(l: Ledger, t: Ledger, ids: seq<Id>, step: FinishedStep, i: nat)
    requires i < |ids|
  {
    |l.charges| + i < |t.charges| && ChargedFor(t.charges[|l.charges| + i], l, ids[i], step, |ids|, i)
  }

  predicate ConsumedSince(l: Ledger, t: Ledger, ids: seq<Id>, k: nat, id: Id)
    requires k <= |ids|
  {
    id in t.consumptions <==> id in l.consumptions || id in ids[..k]
  }

  /** The first k actions, and nothing else, have been charged and are consumed. */
  ghost predicate ChargedFirst(l: Ledger, t: Ledger, ids: seq<Id>, step: FinishedStep, k: nat)
    requires k <= |ids|
  {
    && t.actions == l.actions && |t.charges| == |l.charges| + k && t.charges[..|l.charges|] == l.charges
    && (forall id :: ConsumedSince(l, t, ids, k, id))
    && forall i :: 0 <= i < k ==> Charged(l, t, ids, step, i)
  }

  /** The action is stored under its identifier and not consumed. */
  predicate Unconsumed(l: Ledger, id: Id) { id !in l.consumptions && (id in l.actions ==> l.actions[id].id == id) }

  predicate UnconsumedAt(l: Ledger, ids: seq<Id>, i: nat) { i < |ids| ==> Unconsumed(l, ids[i]) }

  lemma ConsumeCharges(l: Ledger, now: int, id: Id, c: Consumption)
    requires Unconsumed(l, id) && Consume(l, now, id, c).reply.Done?
    ensures var t := Consume(l, now, id, c).ledger;
            && id in l.actions && l.actions[id].leaseId.Some? && t.actions == l.actions
            && t.consumptions == l.consumptions[id := c]
            && t.charges == l.charges + [Charge(l.actions[id], l.actions[id].leaseId.value, c)]
  {
  }

  predicate AllUnconsumed(l: Ledger, ids: seq<Id>) { forall i :: 0 <= i < |ids| ==> UnconsumedAt(l, ids, i) }

  lemma OneMoreCharged(l: Ledger, t: Ledger, u: Ledger, now: int, ids: seq<Id>, step: FinishedStep, k: nat)
    requires k < |ids| && Distinct(ids) && ChargedFirst(l, t, ids, step, k) && AllUnconsumed(l, ids)
    requires Consume(t, now, ids[k], ConsumptionOf(step, |ids|, k)) == Next(u, Done)
    ensures ChargedFirst(l, u, ids, step, k + 1)
  {
    assert UnconsumedAt(l, ids, k) && ConsumedSince(l, t, ids, k, ids[k]);
    ConsumeCharges(t, now, ids[k], ConsumptionOf(step, |ids|, k));
    var n := k + 1;
    forall id ensures ConsumedSince(l, u, ids, n, id) {
      assert ConsumedSince(l, t, ids, k, id) && ids[..n] == ids[..k] + [ids[k]];
    }
    SharesAreEven(Seconds(step), |ids|, k, k);
    forall i | 0 <= i < k + 1 ensures Charged(l, u, ids, step, i) {
      if i < k { assert Charged(l, t, ids, step, i); }
    }
  }

  /** If the first k charges complete, they and nothing else have been made. */
  ghost predicate ChargesFirst(l: Ledger, next: Next, ids: seq<Id>, step: FinishedStep, k: nat)
    requires k <= |ids|
  {
    next.reply.Done? ==> ChargedFirst(l, next.ledger, ids, step, k)
  }

  lemma NothingCharged(l: Ledger, ids: seq<Id>, step: FinishedStep)
    ensures ChargesFirst(l, Next(l, Done), ids, step, 0)
  {
  }

  lemma NextChargesFirst(l: Ledger, now: int, ids: seq<Id>, step: FinishedStep, k: nat, earlier: Next, next: Next)
    requires k < |ids| && Distinct(ids) && AllUnconsumed(l, ids) && ChargesFirst(l, earlier, ids, step, k)
    requires next == if !earlier.reply.Done? then earlier
                     else Consume(earlier.ledger, now, ids[k], ConsumptionOf(step, |ids|, k))
    ensures ChargesFirst(l, next, ids, step, k + 1)
  {
    if next.reply.Done? { OneMoreCharged(l, earlier.ledger, next.ledger, now, ids, step, k); }
  }

  /** A completed settlement of distinct, unconsumed actions charges each of them once, in order. */
  lemma SettlementCharges(l: Ledger, now: int, ids: seq<Id>, step: FinishedStep)
    requires Distinct(ids) && AllUnconsumed(l, ids)
    ensures ChargesFirst(l, Settle(l, now, ids, step, |ids|), ids, step, |ids|)
  {
    var k, next := 0, Next(l, Done);
    NothingCharged(l, ids, step);
    while k < |ids|
      invariant 0 <= k <= |ids| && next == Settle(l, now, ids, step, k) && ChargesFirst(l, next, ids, step, k)
    {
      var later := Settle(l, now, ids, step, k + 1);
      NextChargesFirst(l, now, ids, step, k, next, later);
      k, next := k + 1, later;
    }
  }

  function IdsOf(actions: seq<Action>): seq<Id> {
    seq(|actions|, i requires 0 <= i < |actions| => actions[i].id)
  }

  /** Only a step that opens pull requests charges for them, and then each of its actions estimated one. */
  predicate Estimated(actions: seq<Action>, step: FinishedStep) {
    && Seconds(step) <= TotalRuntime(actions)
    && (step.opensPullRequest ==> forall i :: 0 <= i < |actions| ==> actions[i].actionType.CreatePullRequest?)
  }

  lemma {:induction false} AllOpenPullRequests(actions: seq<Action>)
    requires forall i :: 0 <= i < |actions| ==> actions[i].actionType.CreatePullRequest?
    ensures TotalPullRequests(actions) == |actions|
  {
    if actions != [] { AllOpenPullRequests(actions[..|actions| - 1]); }
  }

  /**
   After a preflight of its actions that passed, with the lease untouched in between
   and the duration within the estimates, no runtime, cost or pull-request check
   refuses a charge. The settlement of the step completes exactly when the step passed
   at its first attempt or the lease has a retry left: the retry budget is not
   preflighted. When it completes, the lease has paid exactly the duration of the step;
   when it is refused, nothing has been charged.
   */
  lemma {:induction false} SettlesIffRetryBudget(l: Ledger, now: int, actions: seq<Action>, leaseId: Id,
                                                 step: FinishedStep)
    requires actions != [] && Distinct(IdsOf(actions)) && AllPrimed(l, IdsOf(actions), 0, leaseId)
    requires leaseId in l.leases && Live(l.leases[leaseId], now)
    requires Preflight(l.leases[leaseId], actions) && Estimated(actions, step)
    requires l.leases[leaseId].spent.retries <= l.leases[leaseId].terms.scope.maxRetries
    ensures var next, lease := Settle(l, now, IdsOf(actions), step, |actions|), l.leases[leaseId];
            && (next.reply.Done? <==> step.attempts <= 1 || lease.spent.retries < lease.terms.scope.maxRetries)
            && (!next.reply.Done? ==> next.ledger.charges == l.charges)
            && (next.reply.Done? ==>
                  leaseId in next.ledger.leases
                  && var spent := next.ledger.leases[leaseId].spent;
                  && spent.runtime == lease.spent.runtime + Seconds(step) && spent.cost == lease.spent.cost
                  && spent.pullRequests == lease.spent.pullRequests + (if step.opensPullRequest then |actions| else 0)
                  && spent.retries == lease.spent.retries + (if step.attempts > 1 then 1 else 0))
  {
    if step.opensPullRequest { AllOpenPullRequests(actions); }
    SettlesWithRoomIff(l, now, IdsOf(actions), leaseId, step);
  }

  method ChargeOne(store: Store, now: int, id: Id, step: FinishedStep, n: nat, index: nat, each: nat, remainder: nat)
      returns (reply: Reply)
    requires index < n && each == Seconds(step) / n && remainder == Remainder(Seconds(step), n)
    requires forall a :: a in store.actions ==> store.actions[a].id == a
    modifies store
    ensures Next(store.State(), reply) == Consume(old(store.State()), now, id, ConsumptionOf(step, n, index))
    ensures store.actions == old(store.actions)
  {
    var consumption := Consumption(each + (if index < remainder then 1 else 0), 0.0,
                                   if step.opensPullRequest then 1 else 0, step.attempts > 1 && index == 0,
                                   step.output, step.evidence);
    assert consumption == ConsumptionOf(step, n, index);
    ConsumeKeepsActions(store.State(), now, id, consumption);
    reply := store.ConsumeEffectiveAction(now, id, consumption);
  }

  method ConsumeRunStepActions(store: Store, now: int, ids: seq<Id>, step: FinishedStep) returns (reply: Reply)
    requires forall id :: id in store.actions ==> store.actions[id].id == id
    modifies store
    ensures Next(store.State(), reply)
         == if ids == [] || !step.succeeded then Next(old(store.State()), Done)
            else Settle(old(store.State()), now, ids, step, |ids|)
  {
    if ids == [] || !step.succeeded { return Done; }
    ghost var l := store.State();
    var each, remainder := Seconds(step) / |ids|, Remainder(Seconds(step), |ids|);
    var index := 0;
    reply := Done;
    while index < |ids|
      invariant 0 <= index <= |ids| && store.actions == old(store.actions) && reply.Done?
      invariant Next(store.State(), reply) == Settle(l, now, ids, step, index)
    {
      SettleOneMore(l, store.State(), now, ids, step, index);
      reply := ChargeOne(store, now, ids[index], step, |ids|, index, each, remainder);
      index := index + 1;
      if !reply.Done? {
        SettleStops(l, now, ids, step, index, |ids|);
        return;
      }
    }
  }

  lemma SettleOneMore(l: Ledger, t: Ledger, now: int, ids: seq<Id>, step: FinishedStep, k: nat)
    requires k < |ids| && Settle(l, now, ids, step, k) == Next(t, Done)
    ensures Settle(l, now, ids, step, k + 1) == Consume(t, now, ids[k], ConsumptionOf(step, |ids|, k))
  {
  }

  lemma ConsumeKeepsActions(l: Ledger, now: int, id: Id, c: Consumption)
    ensures Consume(l, now, id, c).ledger.actions == l.actions
  {
  }

  lemma {:induction false} SettleStops(l: Ledger, now: int, ids: seq<Id>, step: FinishedStep, k: nat, n: nat)
    requires k <= n <= |ids| && !Settle(l, now, ids, step, k).reply.Done?
    ensures Settle(l, now, ids, step, n) == Settle(l, now, ids, step, k)
    decreases n
  {
    if k < n { SettleStops(l, now, ids, step, k, n - 1); }
  }
}
