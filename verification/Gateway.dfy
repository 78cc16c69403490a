/**
 The MCP gateway: mutating tool calls wait in memory and in a persistent pending
 record, and are delivered to the child server once their approval allows it. A
 resolution is split in two, before and after the child answers, so that other
 requests, operators and restarts can come in between.
 */
module Gateway {
  import opened Options

  type Digest = string
  type Payload = string

  const LEASE_SECONDS: int := 30

  datatype Call = Call(
    server: string, tool: string, arguments: string, session: Option<string>, requestedBy: string,
    mutating: Option<bool>)

  /** What the child server is sent. */
  datatype ChildCall = ChildCall(
    server: string, tool: string, arguments: string, session: Option<string>, requestedBy: string)

  function Sent(c: Call): ChildCall { ChildCall(c.server, c.tool, c.arguments, c.session, c.requestedBy) }

  datatype ApprovalStatus = Requested | Approved | Denied | Expired | Other

  /** `approved` remembers the payload whose hash was taken at approval time. */
  datatype Approval = Approval(
    status: ApprovalStatus, payload: Payload, approvedHash: Option<Digest>, approved: Option<Payload>)

  datatype PendingStatus = Waiting | Forwarding | Forwarded | BlockedByDecision | Orphaned | DeadLetter

  datatype Pending = Pending(
    record: ChildCall, status: PendingStatus, attempts: nat, maxAttempts: nat, leaseUntil: Option<int>)

  /** A delivery whose outcome has not been recorded yet. */
  datatype Flight = Flight(sent: ChildCall, openedAt: int)

  /** Everything about one mutating call; `delivered` and `successes` are its history. */
  datatype Entry = Entry(
    approval: Option<Approval>, pending: Pending, cached: Option<Call>, flights: seq<Flight>,
    delivered: seq<ChildCall>, successes: nat)

  type Hash = Payload -> Digest

  predicate Final(s: PendingStatus) { s.Forwarded? || s.BlockedByDecision? || s.Orphaned? || s.DeadLetter? }

  predicate IsMutating(c: Call) {
    if c.mutating.Some? then c.mutating.value
    else c.tool == "write_file" || c.tool == "edit_file" || c.tool == "apply_patch" || c.tool == "github_create_pr"
  }

  function Submitted(c: Call, payload: Payload, maxAttempts: nat): Entry {
    Entry(Some(Approval(Requested, payload, None, None)), Pending(Sent(c), Waiting, 0, maxAttempts, None), Some(c),
          [], [], 0)
  }

  // ----- resolution -----

  predicate Leased(p: Pending, now: int) { p.status.Forwarding? && p.leaseUntil.Some? && p.leaseUntil.value > now }

  /** A lapsed lease is taken back. */
  function Released(p: Pending): Pending {
    if p.status.Forwarding? then p.(status := Waiting, leaseUntil := None) else p
  }

  function Finalised(p: Pending, status: PendingStatus): Pending {
    if Final(p.status) then p else p.(status := status, leaseUntil := if Final(status) then None else p.leaseUntil)
  }

  predicate Sealed(a: Approval, hash: Hash) {
    a.approvedHash.Some? && a.approvedHash.value != "" && hash(a.payload) == a.approvedHash.value
  }

  /** The call to deliver: the cached one, or the one rebuilt from the record. */
  function ToSend(e: Entry): ChildCall {
    if e.cached.Some? then Sent(e.cached.value) else e.pending.record
  }

  function Leasing(p: Pending, now: int): Pending {
    p.(status := Forwarding, attempts := p.attempts + 1, leaseUntil := Some(now + LEASE_SECONDS))
  }

  /** The delivery itself: the cache gives up the call, the record is leased, the call is sent. */
  function Delivering(e: Entry, now: int): Entry {
    e.(cached := None, pending := Leasing(e.pending, now), flights := e.flights + [Flight(ToSend(e), now)],
       delivered := e.delivered + [ToSend(e)])
  }

  /** A resolution up to the delivery; the call is delivered when `sent` is. */
  datatype Opened = Opened(entry: Entry, sent: Option<ChildCall>)

  function Open(e: Entry, now: int, hash: Hash): Opened {
    if Final(e.pending.status) then Opened(e.(cached := None), None)
    else if Leased(e.pending, now) then Opened(e, None)
    else
      var r := e.(pending := Released(e.pending));
      if e.approval.None? then Opened(r.(pending := Finalised(r.pending, Orphaned)), None)
      else if !e.approval.value.status.Approved? then
        Opened(r.(pending := Finalised(r.pending, BlockedByDecision)), None)
      else if !Sealed(e.approval.value, hash) then Opened(r, None)
      else
        Opened(Delivering(r, now), Some(ToSend(r)))
  }

  function Without(flights: seq<Flight>, i: nat): seq<Flight>
    requires i < |flights|
  {
    flights[..i] + flights[i + 1..]
  }

  function Failed(p: Pending): Pending {
    p.(status := if p.attempts >= p.maxAttempts then DeadLetter else Waiting, leaseUntil := None)
  }

  /** The child has answered the i-th open delivery. */
  function Close(e: Entry, i: nat, ok: bool): Entry
    requires i < |e.flights|
  {
    var landed := e.(flights := Without(e.flights, i));
    if ok then landed.(pending := Finalised(e.pending, Forwarded), successes := e.successes + 1)
    else landed.(pending := Failed(e.pending))
  }

  /** The operator's retry; false when it is refused. */
  function Retry(e: Entry, now: int, resetAttempts: bool): (Entry, bool) {
    var p := e.pending;
    if p.status.Forwarded? || p.status.BlockedByDecision? || p.status.Orphaned? || Leased(p, now) then (e, false)
    else
      var attempts := if resetAttempts then 0 else p.attempts;
      (e.(pending := p.(status := Waiting, leaseUntil := None, attempts := attempts)), true)
  }

  // ----- histories -----

  /** What happens to the approval outside the gateway. */
  datatype Change = Approve | Set(status: ApprovalStatus) | Edit(payload: Payload) | Remove

  function Changed(a: Option<Approval>, c: Change, hash: Hash): Option<Approval> {
    if a.None? then None
    else
      match c
      case Approve =>
        var payload := a.value.payload;
        Some(a.value.(status := Approved, approvedHash := Some(hash(payload)), approved := Some(payload)))
      case Set(status) => Some(if status.Approved? then a.value else a.value.(status := status))
      case Edit(payload) => Some(a.value.(payload := payload))
      case Remove => None
  }

  datatype Command =
    | CChange(change: Change)
    | COpen(now: int)
    | CClose(index: nat, ok: bool)
    | CRaise(index: nat)
    | CRetry(now: int, resetAttempts: bool)
    | CRestart

  /** A delivery that raises records nothing; a restart loses the cache and every answer still expected. */
  function Apply(e: Entry, c: Command, hash: Hash): Entry {
    match c
    case CChange(change) => e.(approval := Changed(e.approval, change, hash))
    case COpen(now) => Open(e, now, hash).entry
    case CClose(i, ok) => if i < |e.flights| then Close(e, i, ok) else e
    case CRaise(i) => if i < |e.flights| then e.(flights := Without(e.flights, i)) else e
    case CRetry(now, reset) => Retry(e, now, reset).0
    case CRestart => e.(cached := None, flights := [])
  }

  function Replay(e: Entry, history: seq<Command>, hash: Hash): Entry {
    if history == [] then e
    else Apply(Replay(e, history[..|history| - 1], hash), history[|history| - 1], hash)
  }

  // ----- what is delivered -----

  /** Cached or recorded, the call is the submitted one; and the remembered payload is what the hash was taken of. */
  predicate Genuine(e: Entry, submitted: Call, hash: Hash) {
    && e.pending.record == Sent(submitted) && (e.cached.Some? ==> e.cached.value == submitted)
    && (forall i :: 0 <= i < |e.delivered| ==> e.delivered[i] == Sent(submitted))
    && (e.approval.Some? && e.approval.value.approvedHash.Some? ==>
          e.approval.value.approved.Some?
          && e.approval.value.approvedHash.value == hash(e.approval.value.approved.value))
  }

  lemma ApplyKeepsGenuine(e: Entry, c: Command, submitted: Call, hash: Hash)
    requires Genuine(e, submitted, hash)
    ensures Genuine(Apply(e, c, hash), submitted, hash)
  {
  }

  lemma {:induction false} ReplayIsGenuine(submitted: Call, payload: Payload, maxAttempts: nat, history: seq<Command>,
                                           hash: Hash)
    ensures Genuine(Replay(Submitted(submitted, payload, maxAttempts), history, hash), submitted, hash)
  {
    if history != [] {
      ReplayIsGenuine(submitted, payload, maxAttempts, history[..|history| - 1], hash);
      ApplyKeepsGenuine(Replay(Submitted(submitted, payload, maxAttempts), history[..|history| - 1], hash),
                        history[|history| - 1], submitted, hash);
    }
  }

  ghost predicate Injective(hash: Hash) {
    forall a, b :: hash(a) == hash(b) ==> a == b
  }

  /**
   After any history, a resolution delivers exactly when the call is neither final
   nor under a live lease and its approval is APPROVED with an unchanged hash; what
   it delivers is the submitted call, cached or rebuilt; and the approval then shows
   the very payload that was approved.
   */
  lemma DeliveredIff(submitted: Call, payload: Payload, maxAttempts: nat, history: seq<Command>, now: int, hash: Hash)
    ensures var e := Replay(Submitted(submitted, payload, maxAttempts), history, hash);
            var sent := Open(e, now, hash).sent;
            && (sent.Some? <==>
                !Final(e.pending.status) && !Leased(e.pending, now)
                && e.approval.Some? && e.approval.value.status.Approved? && Sealed(e.approval.value, hash))
            && (sent.Some? ==>
                  sent.value == Sent(submitted)
                  && (Injective(hash) ==> e.approval.value.approved == Some(e.approval.value.payload)))
  {
    ReplayIsGenuine(submitted, payload, maxAttempts, history, hash);
  }

  // ----- what each request does -----

  /** Which calls need an approval: those marked so, and of the unmarked ones the four that write. */
  lemma MutatingCalls(c: Call)
    ensures c.mutating.Some? ==> (IsMutating(c) <==> c.mutating == Some(true))
    ensures c.mutating.None? ==>
              (IsMutating(c) <==> c.tool in {"write_file", "edit_file", "apply_patch", "github_create_pr"})
  {
  }

  lemma SubmittedWaits(c: Call, payload: Payload, maxAttempts: nat)
    ensures var e := Submitted(c, payload, maxAttempts);
            && e.approval.Some? && e.approval.value.status.Requested? && e.approval.value.payload == payload
            && e.approval.value.approvedHash.None? && e.cached == Some(c) && SameCall(e.pending.record, c)
            && e.pending.status.Waiting? && e.pending.attempts == 0 && e.pending.maxAttempts == maxAttempts
            && e.pending.leaseUntil.None? && e.flights == [] && e.delivered == [] && e.successes == 0
  {
  }

  predicate SameCall(sent: ChildCall, c: Call) {
    && sent.server == c.server && sent.tool == c.tool && sent.arguments == c.arguments
    && sent.session == c.session && sent.requestedBy == c.requestedBy
  }

  /** Forwarded, blocked, orphaned or given up. */
  predicate Over(e: Entry) {
    !e.pending.status.Waiting? && !e.pending.status.Forwarding?
  }

  /** A delivery is under way and has its 30 seconds still. */
  predicate Held(e: Entry, now: int) {
    e.pending.status.Forwarding? && e.pending.leaseUntil.Some? && now < e.pending.leaseUntil.value
  }

  predicate Permitted(e: Entry, hash: Hash) {
    && e.approval.Some? && e.approval.value.status.Approved? && e.approval.value.approvedHash.Some?
    && e.approval.value.approvedHash.value != ""
    && hash(e.approval.value.payload) == e.approval.value.approvedHash.value
  }

  /** The delivery: the call is counted and sent under a lease of 30 seconds. */
  predicate Sends(e: Entry, t: Entry, call: ChildCall, now: int) {
    && (if e.cached.Some? then SameCall(call, e.cached.value) else call == e.pending.record)
    && t.approval == e.approval && t.cached.None? && t.successes == e.successes
    && t.flights == e.flights + [Flight(call, now)] && t.delivered == e.delivered + [call]
    && t.pending.record == e.pending.record && t.pending.maxAttempts == e.pending.maxAttempts
    && t.pending.status.Forwarding? && t.pending.attempts == e.pending.attempts + 1
    && t.pending.leaseUntil == Some(now + 30)
  }

  /** Where a resolution ends, for every entry. */
  lemma ResolveEffect(e: Entry, now: int, hash: Hash)
    ensures var r := Open(e, now, hash);
            var t := r.entry;
            if Over(e) then r == Opened(e.(cached := None), None)
            else if Held(e, now) then r == Opened(e, None)
            else if Permitted(e, hash) then r.sent.Some? && Sends(e, t, r.sent.value, now)
            else
              && r.sent.None? && t == e.(pending := t.pending)
              && t.pending == e.pending.(status := t.pending.status, leaseUntil := t.pending.leaseUntil)
              && t.pending.leaseUntil
                 == (if e.pending.status.Waiting? && e.approval.Some? && e.approval.value.status.Approved?
                     then e.pending.leaseUntil else None)
              && t.pending.status == if e.approval.None? then Orphaned
                                     else if !e.approval.value.status.Approved? then BlockedByDecision
                                     else Waiting
  {
  }

  /** Where an answer ends: success forwards a record that is not over; failure never asks whether it is. */
  lemma AnswerEffect(e: Entry, i: nat, ok: bool)
    requires i < |e.flights|
    ensures var t := Close(e, i, ok);
            && t.flights == e.flights[..i] + e.flights[i + 1..] && t.delivered == e.delivered
            && t.approval == e.approval && t.cached == e.cached
            && t.successes == e.successes + (if ok then 1 else 0)
            && t.pending == e.pending.(status := t.pending.status, leaseUntil := t.pending.leaseUntil)
            && (if ok then
                  if Over(e) then t.pending == e.pending
                  else t.pending.status.Forwarded? && t.pending.leaseUntil.None?
                else
                  && t.pending.leaseUntil.None?
                  && t.pending.status == if e.pending.maxAttempts <= e.pending.attempts then DeadLetter else Waiting)
  {
  }

  /** The retry is accepted. */
  predicate Retries(e: Entry, now: int) {
    (e.pending.status.Waiting? || e.pending.status.Forwarding? || e.pending.status.DeadLetter?) && !Held(e, now)
  }

  lemma RetryEffect(e: Entry, now: int, resetAttempts: bool)
    ensures var (t, accepted) := Retry(e, now, resetAttempts);
            && (accepted <==> Retries(e, now)) && (!accepted ==> t == e)
            && (accepted ==>
                  && t == e.(pending := t.pending)
                  && t.pending == e.pending.(status := Waiting, leaseUntil := None, attempts := t.pending.attempts)
                  && t.pending.attempts == if resetAttempts then 0 else e.pending.attempts)
  {
  }

  /** A delivery that raises is only no longer expected; a restart forgets the cache and whatever was expected. */
  lemma DisruptionEffect(e: Entry, i: nat, hash: Hash)
    ensures Apply(e, CRestart, hash) == e.(cached := None, flights := [])
    ensures Apply(e, CRaise(i), hash)
         == if i < |e.flights| then e.(flights := e.flights[..i] + e.flights[i + 1..]) else e
  {
  }

  // ----- attempts and dead letters -----

  /** How many deliveries had been made when an operator last reset the attempts. */
  function CountedFrom(e: Entry, history: seq<Command>, hash: Hash): nat {
    if history == [] then 0
    else
      var earlier, last := history[..|history| - 1], history[|history| - 1];
      var before := Replay(e, earlier, hash);
      if last.CRetry? && last.resetAttempts && Retries(before, last.now) then |before.delivered|
      else CountedFrom(e, earlier, hash)
  }

  lemma OneMoreAttempt(e: Entry, c: Command, hash: Hash)
    ensures var t := Apply(e, c, hash);
            && t.pending.maxAttempts == e.pending.maxAttempts && |e.delivered| <= |t.delivered|
            && if c.CRetry? && c.resetAttempts && Retries(e, c.now) then
                 t.pending.attempts == 0 && t.delivered == e.delivered
               else t.pending.attempts - e.pending.attempts == |t.delivered| - |e.delivered|
  {
    if c.COpen? { ResolveEffect(e, c.now, hash); }
  }

  /** The attempts of a record are its deliveries since the last reset, over every history. */
  lemma {:induction false} AttemptsAreDeliveries(submitted: Call, payload: Payload, maxAttempts: nat,
                                                 history: seq<Command>, hash: Hash)
    ensures var start := Submitted(submitted, payload, maxAttempts);
            var e := Replay(start, history, hash);
            && CountedFrom(start, history, hash) <= |e.delivered| && e.pending.maxAttempts == maxAttempts
            && e.pending.attempts == |e.delivered| - CountedFrom(start, history, hash)
  {
    if history != [] {
      var earlier := history[..|history| - 1];
      AttemptsAreDeliveries(submitted, payload, maxAttempts, earlier, hash);
      OneMoreAttempt(Replay(Submitted(submitted, payload, maxAttempts), earlier, hash), history[|history| - 1], hash);
    }
  }

  /**
   After any history, a failure answered on an open delivery gives the call up if and
   only if the deliveries since the last reset have reached the limit; otherwise the
   call waits to be delivered again.
   */
  lemma FailureGivesUpIff(submitted: Call, payload: Payload, maxAttempts: nat, history: seq<Command>, i: nat,
                          hash: Hash)
    requires i < |Replay(Submitted(submitted, payload, maxAttempts), history, hash).flights|
    ensures var start := Submitted(submitted, payload, maxAttempts);
            var e := Replay(start, history, hash);
            var status := Close(e, i, false).pending.status;
            && (status.DeadLetter? <==> maxAttempts <= |e.delivered| - CountedFrom(start, history, hash))
            && (status.DeadLetter? || status.Waiting?)
  {
    AttemptsAreDeliveries(submitted, payload, maxAttempts, history, hash);
  }

  /** A call that has been given up is delivered again only after an operator's retry. */
  lemma {:induction false} DeadLetterRests(e: Entry, history: seq<Command>, hash: Hash)
    requires e.flights == [] && e.pending.status.DeadLetter?
    requires forall i :: 0 <= i < |history| ==> !history[i].CRetry?
    ensures var t := Replay(e, history, hash);
            t.flights == [] && t.pending == e.pending && t.delivered == e.delivered && t.successes == e.successes
  {
    if history != [] { DeadLetterRests(e, history[..|history| - 1], hash); }
  }

  // ----- at most one success -----

  /** Whenever another resolution or a retry looks at the call, every open delivery is still within its lease. */
  predicate Timely(e: Entry, c: Command) {
    match c
    case COpen(now) => InLease(e, now)
    case CRetry(now, _) => InLease(e, now)
    case _ => true
  }

  predicate InLease(e: Entry, now: int) {
    forall i :: 0 <= i < |e.flights| ==> now < e.flights[i].openedAt + LEASE_SECONDS
  }

  predicate TimelyRun(e: Entry, history: seq<Command>, hash: Hash) {
    forall i :: 0 <= i < |history| ==> Timely(Replay(e, history[..i], hash), history[i])
  }

  /** A success is recorded once, exactly when the record is FORWARDED. */
  predicate RecordLaw(e: Entry) {
    e.successes == if e.pending.status.Forwarded? then 1 else 0
  }

  /** One delivery open at a time, under its own lease, and the record law. */
  predicate Once(e: Entry) {
    && |e.flights| <= 1
    && (e.flights != [] ==> e.pending.status.Forwarding?
                            && e.pending.leaseUntil == Some(e.flights[0].openedAt + LEASE_SECONDS))
    && RecordLaw(e)
  }

  /** Exactly which commands keep at most one open delivery and the record law. */
  lemma OnceIff(e: Entry, c: Command, hash: Hash)
    requires Once(e)
    ensures Once(Apply(e, c, hash)) <==> Timely(e, c)
  {
    if e.flights != [] && (c.COpen? || c.CRetry?) {
      assert Leased(e.pending, c.now) <==> InLease(e, c.now);
    }
  }

  /** The approval is withdrawn, the call is resolved once more, and up to two answers arrive. */
  function Aftermath(now: int): seq<Command> {
    [CChange(Remove), COpen(now), CClose(0, true), CClose(0, true)]
  }

  lemma ReplayAftermath(e: Entry, now: int, hash: Hash)
    ensures var withdrawn := Apply(e, CChange(Remove), hash);
            var resolved := Apply(withdrawn, COpen(now), hash);
            var answered := Apply(resolved, CClose(0, true), hash);
            Replay(e, Aftermath(now), hash) == Apply(answered, CClose(0, true), hash)
  {
    var all := Aftermath(now);
    assert all[..3] == [CChange(Remove), COpen(now), CClose(0, true)];
    assert all[..3][..2] == [CChange(Remove), COpen(now)];
    assert all[..3][..2][..1] == [CChange(Remove)];
    assert all[..3][..2][..1][..0] == [];
    assert Replay(e, all[..3][..2][..1], hash) == Apply(e, CChange(Remove), hash);
    assert Replay(e, all[..3][..2], hash) == Apply(Apply(e, CChange(Remove), hash), COpen(now), hash);
  }

  lemma AftermathOfOnce(e: Entry, now: int, hash: Hash)
    requires Once(e) && (e.flights == [] || Leased(e.pending, now))
    ensures RecordLaw(Replay(e, Aftermath(now), hash))
  {
    ReplayAftermath(e, now, hash);
    var withdrawn := Apply(e, CChange(Remove), hash);
    var resolved := Apply(withdrawn, COpen(now), hash);
    OnceIff(withdrawn, COpen(now), hash);
    OnceIff(resolved, CClose(0, true), hash);
    OnceIff(Apply(resolved, CClose(0, true), hash), CClose(0, true), hash);
  }

  /** An open delivery whose record was taken back or finalised without it. */
  lemma AftermathOfOneLate(e: Entry, now: int, hash: Hash)
    requires |e.flights| == 1 && e.successes == 0
    requires e.pending.status.Waiting? || e.pending.status.BlockedByDecision? || e.pending.status.Orphaned?
    ensures !RecordLaw(Replay(e, Aftermath(now), hash))
  {
    ReplayAftermath(e, now, hash);
  }

  /** Two deliveries, the younger under its lease. */
  lemma AftermathOfTwo(e: Entry, now: int, hash: Hash)
    requires |e.flights| == 2 && e.successes == 0 && Leased(e.pending, now)
    ensures !RecordLaw(Replay(e, Aftermath(now), hash))
  {
    ReplayAftermath(e, now, hash);
  }

  /** Where an untimely command leads: the late delivery is alone and disowned, or beside a second one. */
  lemma UntimelyLeadsTo(e: Entry, c: Command, now: int, hash: Hash)
    requires Once(e) && (c.COpen? || c.CRetry?) && c.now == now
    ensures var x := Apply(e, c, hash);
            if Timely(e, c) then Once(x) && (x.flights == [] || Leased(x.pending, now))
            else
              && x.successes == 0
              && if |x.flights| == 1 then
                   x.pending.status.Waiting? || x.pending.status.BlockedByDecision? || x.pending.status.Orphaned?
                 else |x.flights| == 2 && Leased(x.pending, now)
  {
  }

  /** Right after a resolution or a retry, the aftermath breaks the record law exactly when the command was untimely. */
  lemma AftermathIff(e: Entry, c: Command, now: int, hash: Hash)
    requires Once(e) && (c.COpen? || c.CRetry?) && c.now == now
    ensures RecordLaw(Replay(Apply(e, c, hash), Aftermath(now), hash)) <==> Timely(e, c)
  {
    var x := Apply(e, c, hash);
    UntimelyLeadsTo(e, c, now, hash);
    if Timely(e, c) {
      AftermathOfOnce(x, now, hash);
    } else if |x.flights| == 1 {
      AftermathOfOneLate(x, now, hash);
    } else {
      AftermathOfTwo(x, now, hash);
    }
  }

  lemma {:induction false} TimelyKeepsOnce(e: Entry, history: seq<Command>, hash: Hash)
    requires Once(e) && TimelyRun(e, history, hash)
    ensures Once(Replay(e, history, hash))
  {
    if history != [] {
      EarlierIsTimely(e, history, |history| - 1, hash);
      TimelyKeepsOnce(e, history[..|history| - 1], hash);
      OnceIff(Replay(e, history[..|history| - 1], hash), history[|history| - 1], hash);
    }
  }

  lemma EarlierIsTimely(e: Entry, history: seq<Command>, n: nat, hash: Hash)
    requires TimelyRun(e, history, hash) && n <= |history|
    ensures TimelyRun(e, history[..n], hash)
  {
    forall i | 0 <= i < n ensures Timely(Replay(e, history[..n][..i], hash), history[..n][i]) {
      assert history[..n][..i] == history[..i];
    }
  }

  /** With deliveries answered within their lease, at most one success is recorded, exactly when it is FORWARDED. */
  lemma AtMostOneSuccess(submitted: Call, payload: Payload, maxAttempts: nat, history: seq<Command>, hash: Hash)
    requires TimelyRun(Submitted(submitted, payload, maxAttempts), history, hash)
    ensures Once(Replay(Submitted(submitted, payload, maxAttempts), history, hash))
  {
    TimelyKeepsOnce(Submitted(submitted, payload, maxAttempts), history, hash);
  }

  /**
   Over whole histories: one delivery at a time and the record law hold all along if
   and only if no resolution and no retry ever looks at a delivery beyond its lease.
   */
  lemma OnceThroughoutIff(submitted: Call, payload: Payload, maxAttempts: nat, history: seq<Command>, hash: Hash)
    ensures var start := Submitted(submitted, payload, maxAttempts);
            TimelyRun(start, history, hash) <==>
            forall i :: 0 <= i <= |history| ==> Once(Replay(start, history[..i], hash))
  {
    var start := Submitted(submitted, payload, maxAttempts);
    if TimelyRun(start, history, hash) {
      forall i | 0 <= i <= |history| ensures Once(Replay(start, history[..i], hash)) {
        EarlierIsTimely(start, history, i, hash);
        TimelyKeepsOnce(start, history[..i], hash);
      }
    }
    if forall i :: 0 <= i <= |history| ==> Once(Replay(start, history[..i], hash)) {
      forall i | 0 <= i < |history| ensures Timely(Replay(start, history[..i], hash), history[i]) {
        ReplayOneMore(start, history, i, hash);
        OnceIff(Replay(start, history[..i], hash), history[i], hash);
      }
    }
  }

  lemma ReplayOneMore(e: Entry, history: seq<Command>, i: nat, hash: Hash)
    requires i < |history|
    ensures Replay(e, history[..i + 1], hash) == Apply(Replay(e, history[..i], hash), history[i], hash)
  {
    assert history[..i + 1][..i] == history[..i];
  }

  /**
   A timely history stays recoverable, an untimely command does not: right after it
   there is a course of events that records a success the record does not show, or two.
   */
  lemma UntimelyBreaksTheRecordLaw(submitted: Call, payload: Payload, maxAttempts: nat, history: seq<Command>,
                                   c: Command, now: int, hash: Hash)
    requires TimelyRun(Submitted(submitted, payload, maxAttempts), history, hash)
    requires (c.COpen? || c.CRetry?) && c.now == now
    ensures var e := Replay(Submitted(submitted, payload, maxAttempts), history, hash);
            RecordLaw(Replay(Apply(e, c, hash), Aftermath(now), hash)) <==> Timely(e, c)
  {
    AtMostOneSuccess(submitted, payload, maxAttempts, history, hash);
    AftermathIff(Replay(Submitted(submitted, payload, maxAttempts), history, hash), c, now, hash);
  }

  /**
   Whatever deliveries are open, a resolution opens another exactly when the record
   is neither final nor leased and the approval is in force. With one delivery under
   its own lease that is when the lease has lapsed; after a retry, at once.
   */
  lemma OverlapIff(e: Entry, now: int, hash: Hash)
    requires e.flights != []
    ensures |Open(e, now, hash).entry.flights| == |e.flights| + 1 <==>
            !Final(e.pending.status) && !Leased(e.pending, now)
            && e.approval.Some? && e.approval.value.status.Approved? && Sealed(e.approval.value, hash)
    ensures Once(e) ==> (!Final(e.pending.status) && !Leased(e.pending, now) <==>
                         e.flights[0].openedAt + LEASE_SECONDS <= now)
    ensures Once(e) && e.flights[0].openedAt + LEASE_SECONDS <= now ==>
              Retry(e, now, false).1 && Retry(e, now, false).0.pending.status.Waiting?
  {
  }

  /** The lease is all that keeps a slow child from being called twice: an answer after it can be a second success. */
  lemma SlowChildSucceedsTwice(submitted: Call, payload: Payload, maxAttempts: nat, hash: Hash)
    requires hash(payload) != ""
    ensures var approved := Apply(Submitted(submitted, payload, maxAttempts), CChange(Approve), hash);
            var twice := Open(Open(approved, 0, hash).entry, 30, hash).entry;
            |twice.flights| == 2 && Close(Close(twice, 0, true), 0, true).successes == 2
  {
  }

  /** One slow delivery is enough: resolved after a denial, the record is BLOCKED and the answer still a success. */
  lemma LateAnswerOnBlockedRecord(submitted: Call, payload: Payload, maxAttempts: nat, hash: Hash)
    requires hash(payload) != ""
    ensures var approved := Apply(Submitted(submitted, payload, maxAttempts), CChange(Approve), hash);
            var denied := Apply(Open(approved, 0, hash).entry, CChange(Set(Denied)), hash);
            var blocked := Open(denied, 30, hash).entry;
            && |blocked.flights| == 1
            && var answered := Close(blocked, 0, true);
            answered.successes == 1 && answered.pending.status.BlockedByDecision? && |answered.delivered| == 1
  {
  }

  /** With two deliveries open, a failure answered after a success rewrites FORWARDED. */
  lemma FailureRewritesForwarded(e: Entry)
    requires |e.flights| >= 2 && e.pending.status.Forwarding?
    ensures var forwarded := Close(e, 0, true);
            forwarded.pending.status.Forwarded?
            && Close(forwarded, 0, false).pending.status
               == (if e.pending.attempts >= e.pending.maxAttempts then DeadLetter else Waiting)
            && Close(forwarded, 0, false).successes == e.successes + 1
  {
  }

  // ----- final records -----

  /** Forwarded, blocked or orphaned, and no answer expected: nothing is ever delivered again. */
  predicate Settled(e: Entry) {
    && e.flights == []
    && (e.pending.status.Forwarded? || e.pending.status.BlockedByDecision? || e.pending.status.Orphaned?)
  }

  lemma {:induction false} SettledForever(e: Entry, history: seq<Command>, hash: Hash)
    requires Settled(e)
    ensures var t := Replay(e, history, hash);
            Settled(t) && t.pending == e.pending && t.delivered == e.delivered && t.successes == e.successes
  {
    if history != [] { SettledForever(e, history[..|history| - 1], hash); }
  }

  /** Resolving before the decision is final: the call is blocked for good, even if it is approved later. */
  lemma PrematureResolveBlocks(e: Entry, now: int, later: seq<Command>, hash: Hash)
    requires Once(e) && e.flights == [] && e.pending.status.Waiting?
    requires e.approval.Some? && e.approval.value.status.Requested?
    ensures var t := Replay(Open(e, now, hash).entry, later, hash);
            t.pending.status.BlockedByDecision? && t.delivered == e.delivered
  {
    SettledForever(Open(e, now, hash).entry, later, hash);
  }

  // ----- the gateway -----

  /** The approval layer of one process over the persistent records; `flights` are the requests now at the child. */
  class ApprovalGate {
    const hash: Hash
    var approvals: map<int, Approval>
    var pendings: map<int, Pending>
    var pendingCalls: map<int, Call>
    ghost var flights: map<int, seq<Flight>>
    ghost var delivered: map<int, seq<ChildCall>>
    ghost var successes: map<int, nat>

    /** The entry of one mutating call. */
    ghost function EntryOf(id: int): Entry
      requires Known(id)
      reads this
    {
      Entry(if id in approvals then Some(approvals[id]) else None, pendings[id],
            if id in pendingCalls then Some(pendingCalls[id]) else None, flights[id], delivered[id], successes[id])
    }

    ghost predicate Known(id: int)
      reads this
    {
      id in pendings && id in flights && id in delivered && id in successes
    }

    constructor (hash: Hash)
      ensures this.hash == hash && forall id :: !Known(id)
    {
      this.hash := hash;
      approvals, pendings, pendingCalls := map[], map[], map[];
      flights, delivered, successes := map[], map[], map[];
    }

    /** A mutating call waits under a new approval; any other call goes straight to the child. */
    method Submit(id: int, call: Call, payload: Payload, maxAttempts: nat) returns (sent: Option<ChildCall>)
      requires id !in approvals && id !in pendings
      modifies this
      ensures !IsMutating(call) ==> sent == Some(Sent(call)) && pendings == old(pendings) && approvals == old(approvals)
      ensures IsMutating(call) ==> sent.None? && Known(id) && EntryOf(id) == Submitted(call, payload, maxAttempts)
      ensures forall other :: other != id && old(Known(other)) ==> Known(other) && EntryOf(other) == old(EntryOf(other))
    {
      if !IsMutating(call) { return Some(Sent(call)); }
      approvals := approvals[id := Approval(Requested, payload, None, None)];
      pendings := pendings[id := Pending(Sent(call), Waiting, 0, maxAttempts, None)];
      pendingCalls := pendingCalls[id := call];
      flights, delivered, successes := flights[id := []], delivered[id := []], successes[id := 0];
      sent := None;
    }

    method MarkPending(id: int, status: PendingStatus)
      requires id in pendings
      modifies this`pendings
      ensures pendings == old(pendings)[id := Finalised(old(pendings)[id], status)]
    {
      var p := pendings[id];
      if Final(p.status) { return; }
      p := p.(status := status);
      if Final(status) { p := p.(leaseUntil := None); }
      pendings := pendings[id := p];
    }

    /** True when the lease was granted. */
    method AcquireLease(id: int, now: int) returns (granted: bool)
      requires id in pendings
      modifies this`pendings
      ensures granted <==> (old(pendings)[id].status.Waiting? || old(pendings)[id].status.Forwarding?)
                           && !Leased(old(pendings)[id], now)
      ensures pendings == if granted then old(pendings)[id := Leasing(old(pendings)[id], now)] else old(pendings)
    {
      var p := pendings[id];
      if p.status.Forwarding? && p.leaseUntil.Some? && p.leaseUntil.value > now { return false; }
      if !(p.status.Waiting? || p.status.Forwarding?) { return false; }
      p := p.(status := Forwarding, attempts := p.attempts + 1, leaseUntil := Some(now + LEASE_SECONDS));
      pendings := pendings[id := p];
      granted := true;
    }

    method Resolve(id: int, now: int) returns (sent: Option<ChildCall>)
      requires Known(id)
      modifies this
      ensures Known(id) && Opened(EntryOf(id), sent) == Open(old(EntryOf(id)), now, hash)
      ensures forall other :: other != id && old(Known(other)) ==> Known(other) && EntryOf(other) == old(EntryOf(other))
    {
      sent := None;
      if Final(pendings[id].status) {
        pendingCalls := pendingCalls - {id};
        return;
      }
      if pendings[id].status.Forwarding? {
        if pendings[id].leaseUntil.Some? && pendings[id].leaseUntil.value > now { return; }
        pendings := pendings[id := pendings[id].(status := Waiting, leaseUntil := None)];
      }
      if id !in approvals {
        MarkPending(id, Orphaned);
        return;
      }
      var approval := approvals[id];
      if !approval.status.Approved? {
        MarkPending(id, BlockedByDecision);
        return;
      }
      if approval.approvedHash.None? || approval.approvedHash.value == "" { return; }
      if hash(approval.payload) != approval.approvedHash.value { return; }
      sent := Deliver(id, now);
    }

    /** The cached call, or the one rebuilt from the waiting record, is taken out and sent under a new lease. */
    method Deliver(id: int, now: int) returns (sent: Option<ChildCall>)
      requires Known(id) && pendings[id].status.Waiting?
      modifies this
      ensures sent == Some(ToSend(old(EntryOf(id))))
      ensures Known(id) && EntryOf(id) == Delivering(old(EntryOf(id)), now)
      ensures forall other :: other != id && old(Known(other)) ==> Known(other) && EntryOf(other) == old(EntryOf(other))
    {
      var call := if id in pendingCalls then Sent(pendingCalls[id]) else pendings[id].record;
      pendingCalls := pendingCalls - {id};
      var granted := AcquireLease(id, now);
      assert granted;
      flights := flights[id := flights[id] + [Flight(call, now)]];
      delivered := delivered[id := delivered[id] + [call]];
      sent := Some(call);
    }

    method Answered(id: int, ghost index: nat, ok: bool)
      requires Known(id) && index < |flights[id]|
      modifies this
      ensures Known(id) && EntryOf(id) == Close(old(EntryOf(id)), index, ok)
      ensures forall other :: other != id && old(Known(other)) ==> Known(other) && EntryOf(other) == old(EntryOf(other))
    {
      flights := flights[id := Without(flights[id], index)];
      if ok {
        MarkPending(id, Forwarded);
        successes := successes[id := successes[id] + 1];
      } else {
        var p := pendings[id];
        p := p.(leaseUntil := None, status := if p.attempts >= p.maxAttempts then DeadLetter else Waiting);
        pendings := pendings[id := p];
      }
    }

    /** A new process over the same records: the memory of the old one is gone. */
    method Restart()
      modifies this
      ensures forall id :: old(Known(id)) ==>
                Known(id) && EntryOf(id) == old(EntryOf(id)).(cached := None, flights := [])
    {
      pendingCalls := map[];
      flights := map id | id in flights :: [];
    }

    method RetryPending(id: int, now: int, resetAttempts: bool) returns (accepted: bool)
      requires Known(id)
      modifies this
      ensures Known(id) && (EntryOf(id), accepted) == Retry(old(EntryOf(id)), now, resetAttempts)
      ensures forall other :: other != id && old(Known(other)) ==> Known(other) && EntryOf(other) == old(EntryOf(other))
    {
      var p := pendings[id];
      if p.status.Forwarded? || p.status.BlockedByDecision? || p.status.Orphaned? { return false; }
      if p.status.Forwarding? && p.leaseUntil.Some? && p.leaseUntil.value > now { return false; }
      p := p.(status := Waiting, leaseUntil := None);
      if resetAttempts { p := p.(attempts := 0); }
      pendings := pendings[id := p];
      accepted := true;
    }
  }
}
