/**
 HMAC v1 authentication of connector webhooks: the order of its checks, and the
 nonce history that is pruned by age and truncated by count on every request.
 */
module NonceWindow {
  import opened Options
  import opened Sorting
  import opened Text

  const TOLERANCE: int := 300
  const TTL: int := 600
  const MAX_TRACKED: nat := 200

  datatype Entry = Entry(nonce: string, seenAt: int)

  /** A missing or unparsable timestamp is `None`. */
  datatype Request = Request(
    version: Option<string>, signature: Option<string>, nonce: Option<string>, timestamp: Option<int>, body: string)

  datatype Verdict =
    | Accepted | BadVersion | MissingSignature | BadNonce | BadTimestamp | Stale | BadSignature | Replayed

  /** The HMAC of version, timestamp, nonce and body under the connector's secret. */
  type Signer = (int, string, string) -> string

  function SignatureText(header: string): string {
    var signature := Strip(header);
    if "v1=" <= signature then Strip(signature[3..]) else signature
  }

  // ----- pruning -----

  predicate Alive(e: Entry, now: int) { now - e.seenAt <= TTL }

  function Prune(history: seq<Entry>, now: int): (kept: seq<Entry>)
    ensures |kept| <= |history|
  {
    if history == [] then []
    else
      var earlier, last := Prune(history[..|history| - 1], now), history[|history| - 1];
      if Alive(last, now) then earlier + [last] else earlier
  }

  const SEEN_AT: Entry -> int := (e: Entry) => e.seenAt

  /** Past the limit, the most recently seen entries are kept, in the order of the sort. */
  function Truncate(history: seq<Entry>): seq<Entry> {
    if |history| <= MAX_TRACKED then history else SortBy(history, SEEN_AT)[|history| - MAX_TRACKED..]
  }

  function Clean(history: seq<Entry>, now: int): seq<Entry> {
    Truncate(Prune(history, now))
  }

  predicate Tracked(history: seq<Entry>, nonce: string) {
    exists i :: 0 <= i < |history| && history[i].nonce == nonce
  }

  // ----- one request -----

  function Checks(r: Request, now: int, signer: Signer): Verdict {
    if r.version != Some("v1") then BadVersion
    else if r.signature.None? || r.signature.value == "" then MissingSignature
    else if r.nonce.None? || r.nonce.value == "" || |r.nonce.value| > 128 then BadNonce
    else if r.timestamp.None? then BadTimestamp
    else if now - r.timestamp.value > TOLERANCE || r.timestamp.value - now > TOLERANCE then Stale
    else if SignatureText(r.signature.value) != signer(r.timestamp.value, r.nonce.value, r.body) then BadSignature
    else Accepted
  }

  function Authenticate(history: seq<Entry>, r: Request, now: int, signer: Signer): (seq<Entry>, Verdict) {
    var verdict := Checks(r, now, signer);
    if !verdict.Accepted? then (history, verdict)
    else
      var cleaned := Clean(history, now);
      if Tracked(cleaned, r.nonce.value) then (cleaned, Replayed)
      else (cleaned + [Entry(r.nonce.value, now)], Accepted)
  }

  // ----- histories -----

  /** An accepted request, in the order of acceptance. */
  datatype Receipt = Receipt(nonce: string, timestamp: int, seenAt: int)

  datatype Arrival = Arrival(request: Request, now: int)

  datatype Window = Window(history: seq<Entry>, accepted: seq<Receipt>)

  function Arrive(w: Window, a: Arrival, signer: Signer): Window {
    var (history, verdict) := Authenticate(w.history, a.request, a.now, signer);
    var receipts := if verdict.Accepted? && a.request.nonce.Some? && a.request.timestamp.Some?
                    then [Receipt(a.request.nonce.value, a.request.timestamp.value, a.now)] else [];
    Window(history, w.accepted + receipts)
  }

  function Serve(arrivals: seq<Arrival>, signer: Signer): Window {
    if arrivals == [] then Window([], [])
    else Arrive(Serve(arrivals[..|arrivals| - 1], signer), arrivals[|arrivals| - 1], signer)
  }

  /** The clock never goes back. */
  predicate ClockForward(arrivals: seq<Arrival>) {
    forall i, j :: 0 <= i < j < |arrivals| ==> arrivals[i].now <= arrivals[j].now
  }

  /** The i-th acceptance is too old at `now`, or 200 or more were accepted after it. */
  predicate Forgotten(accepted: seq<Receipt>, i: nat, now: int)
    requires i < |accepted|
  {
    now - accepted[i].seenAt > TTL || |accepted| - i > MAX_TRACKED
  }

  function EntryOf(r: Receipt): Entry { Entry(r.nonce, r.seenAt) }

  /** The history is the last of the acceptances. */
  predicate IsTail(history: seq<Entry>, accepted: seq<Receipt>) {
    && |history| <= |accepted|
    && forall i :: 0 <= i < |history| ==> history[i] == EntryOf(accepted[|accepted| - |history| + i])
  }

  predicate InOrder(accepted: seq<Receipt>, now: int) {
    && (forall i, j :: 0 <= i < j < |accepted| ==> accepted[i].seenAt <= accepted[j].seenAt)
    && (forall i :: 0 <= i < |accepted| ==> accepted[i].seenAt <= now)
  }

  /** The first n acceptances are forgotten. */
  predicate ForgottenFirst(accepted: seq<Receipt>, n: nat, now: int)
    requires n <= |accepted|
  {
    forall i :: 0 <= i < n ==> Forgotten(accepted, i, now)
  }

  /** The history is the tail of the acceptances, and all it leaves out is forgotten. */
  predicate Faithful(w: Window, now: int) {
    && IsTail(w.history, w.accepted) && InOrder(w.accepted, now)
    && ForgottenFirst(w.accepted, |w.accepted| - |w.history|, now)
  }

  /** The first n entries have died or are too many; the rest are alive. */
  predicate Droppable(history: seq<Entry>, n: nat, now: int)
    requires n <= |history|
  {
    && (forall i :: 0 <= i < n ==> !Alive(history[i], now) || |history| - i > MAX_TRACKED)
    && (forall i :: n <= i < |history| ==> Alive(history[i], now))
  }

  predicate Expires(history: seq<Entry>, n: nat, now: int)
    requires n <= |history|
  {
    && (forall i :: 0 <= i < n ==> !Alive(history[i], now))
    && (forall i :: n <= i < |history| ==> Alive(history[i], now))
  }

  lemma PruneOne(front: seq<Entry>, last: Entry, now: int)
    ensures Prune(front + [last], now) == if Alive(last, now) then Prune(front, now) + [last] else Prune(front, now)
  {
  }

  /** The oldest entries of a sorted history expire first. */
  lemma ExpiresExtended(front: seq<Entry>, last: Entry, n: nat, now: int)
    requires n <= |front| && Expires(front, n, now) && SortedBy(front + [last], SEEN_AT)
    ensures if Alive(last, now) then Expires(front + [last], n, now)
            else n == |front| && Expires(front + [last], |front| + 1, now)
  {
    var history := front + [last];
    assert forall i :: 0 <= i < |front| ==> history[i] == front[i] && SEEN_AT(history[i]) <= SEEN_AT(history[|front|]);
    assert n < |front| ==> Alive(front[n], now) && SEEN_AT(front[n]) <= SEEN_AT(last);
  }

  /** Pruning leaves exactly what comes after the first n entries. */
  predicate Drops(history: seq<Entry>, n: nat, now: int) {
    n <= |history| && Prune(history, now) == history[n..] && Expires(history, n, now)
  }

  lemma DropsOneMore(front: seq<Entry>, last: Entry, n: nat, now: int) returns (m: nat)
    requires SortedBy(front + [last], SEEN_AT) && Drops(front, n, now)
    ensures Drops(front + [last], m, now)
  {
    PruneOne(front, last, now);
    ExpiresExtended(front, last, n, now);
    m := if Alive(last, now) then n else |front| + 1;
    assert Alive(last, now) ==> (front + [last])[n..] == front[n..] + [last];
    assert (front + [last])[|front| + 1..] == [];
  }

  lemma FrontIsSorted(front: seq<Entry>, last: Entry)
    requires SortedBy(front + [last], SEEN_AT)
    ensures SortedBy(front, SEEN_AT)
  {
    assert forall i :: 0 <= i < |front| ==> (front + [last])[i] == front[i];
  }

  /** In a history sorted by time, pruning drops a prefix. */
  lemma {:induction false} PruneDropsPrefix(history: seq<Entry>, now: int) returns (n: nat)
    requires SortedBy(history, SEEN_AT)
    ensures Drops(history, n, now)
  {
    n := 0;
    if history != [] {
      var front, last := history[..|history| - 1], history[|history| - 1];
      assert history == front + [last];
      FrontIsSorted(front, last);
      n := PruneDropsPrefix(front, now);
      n := DropsOneMore(front, last, n, now);
    }
  }

  lemma TailIsSorted(history: seq<Entry>, k: nat)
    requires SortedBy(history, SEEN_AT) && k <= |history|
    ensures SortedBy(history[k..], SEEN_AT)
  {
  }

  lemma CleanDropsPrefix(history: seq<Entry>, now: int) returns (n: nat)
    requires SortedBy(history, SEEN_AT)
    ensures n <= |history| && Clean(history, now) == history[n..] && |history| - n <= MAX_TRACKED
    ensures Droppable(history, n, now)
  {
    n := PruneDropsPrefix(history, now);
    TailIsSorted(history, n);
    SortedIsFixed(history[n..], SEEN_AT);
    if |history| - n > MAX_TRACKED {
      var m := |history| - MAX_TRACKED;
      assert history[n..][m - n..] == history[m..];
      n := m;
    }
  }

  lemma FaithfulIsSorted(w: Window, now: int)
    requires Faithful(w, now)
    ensures SortedBy(w.history, SEEN_AT)
  {
  }

  lemma FaithfulLater(w: Window, before: int, now: int)
    requires Faithful(w, before) && before <= now
    ensures Faithful(w, now)
  {
    forall i | 0 <= i < |w.accepted| - |w.history| ensures Forgotten(w.accepted, i, now) {
      assert Forgotten(w.accepted, i, before);
    }
  }

  /** Cleaning a faithful window leaves exactly the acceptances that are not forgotten. */
  lemma CleanForgets(w: Window, before: int, now: int)
    requires Faithful(w, before) && before <= now
    ensures |Clean(w.history, now)| <= |w.history|
    ensures forall i :: 0 <= i < |w.accepted| ==>
              (Forgotten(w.accepted, i, now) <==> i < |w.accepted| - |Clean(w.history, now)|)
  {
    FaithfulIsSorted(w, before);
    var n := CleanDropsPrefix(w.history, now);
    var k := |w.accepted| - |w.history|;
    forall i | 0 <= i < |w.accepted| ensures Forgotten(w.accepted, i, now) <==> i < k + n {
      if k <= i {
        assert w.history[i - k] == EntryOf(w.accepted[k + (i - k)]);
      } else {
        assert Forgotten(w.accepted, i, before);
      }
    }
  }

  lemma TailOfTail(history: seq<Entry>, accepted: seq<Receipt>, n: nat)
    requires IsTail(history, accepted) && n <= |history|
    ensures IsTail(history[n..], accepted)
  {
  }

  lemma CleanIsFaithful(w: Window, before: int, now: int)
    requires Faithful(w, before) && before <= now
    ensures Faithful(w.(history := Clean(w.history, now)), now)
  {
    CleanForgets(w, before, now);
    FaithfulIsSorted(w, before);
    var n := CleanDropsPrefix(w.history, now);
    TailOfTail(w.history, w.accepted, n);
  }

  lemma AcceptIsFaithful(w: Window, now: int, receipt: Receipt)
    requires Faithful(w, now) && receipt.seenAt == now
    ensures Faithful(Window(w.history + [EntryOf(receipt)], w.accepted + [receipt]), now)
  {
    forall i | 0 <= i < |w.accepted| - |w.history| ensures Forgotten(w.accepted + [receipt], i, now) {
      assert Forgotten(w.accepted, i, now);
    }
  }

  lemma ArriveIsFaithful(w: Window, before: int, a: Arrival, signer: Signer)
    requires Faithful(w, before) && before <= a.now
    ensures Faithful(Arrive(w, a, signer), a.now)
  {
    var cleaned := w.(history := Clean(w.history, a.now));
    var next := Arrive(w, a, signer);
    if !Checks(a.request, a.now, signer).Accepted? {
      assert next == w;
      FaithfulLater(w, before, a.now);
    } else {
      CleanIsFaithful(w, before, a.now);
      if Tracked(cleaned.history, a.request.nonce.value) {
        assert next == cleaned;
      } else {
        AcceptIsFaithful(cleaned, a.now, Receipt(a.request.nonce.value, a.request.timestamp.value, a.now));
      }
    }
  }

  lemma {:induction false} ServeIsFaithful(arrivals: seq<Arrival>, signer: Signer, now: int)
    requires ClockForward(arrivals)
    requires forall i :: 0 <= i < |arrivals| ==> arrivals[i].now <= now
    ensures Faithful(Serve(arrivals, signer), now)
  {
    if arrivals != [] {
      var earlier, last := arrivals[..|arrivals| - 1], arrivals[|arrivals| - 1];
      ServeIsFaithful(earlier, signer, last.now);
      ArriveIsFaithful(Serve(earlier, signer), last.now, last, signer);
      FaithfulLater(Serve(arrivals, signer), last.now, now);
    }
  }

  /**
   After any history on a forward clock, a request that passes the other checks is
   refused as a replay exactly when its nonce is among the acceptances of the last
   600 seconds that have fewer than 200 acceptances after them.
   */
  lemma ReplayedIff(arrivals: seq<Arrival>, r: Request, now: int, signer: Signer)
    requires ClockForward(arrivals) && (forall i :: 0 <= i < |arrivals| ==> arrivals[i].now <= now)
    requires Checks(r, now, signer).Accepted?
    ensures var accepted := Serve(arrivals, signer).accepted;
            var verdict := Authenticate(Serve(arrivals, signer).history, r, now, signer).1;
            && (verdict.Replayed? || verdict.Accepted?)
            && (verdict.Replayed? <==>
                exists i :: 0 <= i < |accepted| && accepted[i].nonce == r.nonce.value && !Forgotten(accepted, i, now))
  {
    ServeIsFaithful(arrivals, signer, now);
    TrackedIff(Serve(arrivals, signer), now, r.nonce.value);
  }

  lemma TrackedIff(w: Window, now: int, nonce: string)
    requires Faithful(w, now)
    ensures Tracked(Clean(w.history, now), nonce) <==>
            exists i :: 0 <= i < |w.accepted| && w.accepted[i].nonce == nonce && !Forgotten(w.accepted, i, now)
  {
    CleanForgets(w, now, now);
    CleanIsFaithful(w, now, now);
    var cleaned := Clean(w.history, now);
    var k := |w.accepted| - |cleaned|;
    if i :| 0 <= i < |w.accepted| && w.accepted[i].nonce == nonce && !Forgotten(w.accepted, i, now) {
      assert cleaned[i - k] == EntryOf(w.accepted[k + (i - k)]);
    }
    if i :| 0 <= i < |cleaned| && cleaned[i].nonce == nonce {
      assert cleaned[i] == EntryOf(w.accepted[k + i]);
    }
  }

  // ----- which requests are accepted -----

  /** A v1 request in time, whose signature is the signer's for its timestamp, nonce and body. */
  predicate Signed(r: Request, now: int, signer: Signer) {
    && r.version == Some("v1") && r.nonce.Some? && 1 <= |r.nonce.value| <= 128
    && r.timestamp.Some? && -300 <= now - r.timestamp.value <= 300
    && r.signature.Some? && r.signature.value != ""
    && SignatureText(r.signature.value) == signer(r.timestamp.value, r.nonce.value, r.body)
  }

  /** The signature is the header without the whitespace around it and without an optional "v1=". */
  lemma SignatureIsUnwrapped(before: string, gap: string, s: string, after: string)
    requires AllSpace(before) && AllSpace(gap) && AllSpace(after) && Bare(s) && s != ""
    ensures SignatureText(before + "v1=" + gap + s + after) == s
    ensures !StartsWith(s, "v1=") ==> SignatureText(before + s + after) == s
  {
    var tagged := "v1=" + gap + s;
    assert before + "v1=" + gap + s + after == before + tagged + after;
    StripIs(before, tagged, after);
    assert tagged[3..] == gap + s + "";
    StripIs(gap, s, "");
    StripIs(before, s, after);
  }

  /** A nonce is remembered from its acceptance for 600 seconds, unless 200 acceptances have followed. */
  predicate Remembered(accepted: seq<Receipt>, nonce: string, now: int) {
    exists i :: 0 <= i < |accepted| && accepted[i].nonce == nonce
                && now - accepted[i].seenAt <= 600 && |accepted| - i <= 200
  }

  /**
   After any history on a forward clock a request is accepted if and only if it is
   properly signed and in time and its nonce is not remembered; it is refused as a
   replay if and only if it is so signed and its nonce is.
   */
  lemma {:induction false} AcceptedIff(arrivals: seq<Arrival>, r: Request, now: int, signer: Signer)
    requires ClockForward(arrivals) && (forall i :: 0 <= i < |arrivals| ==> arrivals[i].now <= now)
    ensures var w := Serve(arrivals, signer);
            var verdict := Authenticate(w.history, r, now, signer).1;
            && (verdict.Accepted? <==> Signed(r, now, signer) && !Remembered(w.accepted, r.nonce.value, now))
            && (verdict.Replayed? <==> Signed(r, now, signer) && Remembered(w.accepted, r.nonce.value, now))
  {
    if Signed(r, now, signer) {
      ReplayedIff(arrivals, r, now, signer);
      RememberedIff(Serve(arrivals, signer).accepted, r.nonce.value, now);
    } else {
      RefusalIs(Serve(arrivals, signer).history, r, now, signer);
    }
  }

  lemma {:induction false} RememberedIff(accepted: seq<Receipt>, nonce: string, now: int)
    ensures Remembered(accepted, nonce, now) <==>
            exists i :: 0 <= i < |accepted| && accepted[i].nonce == nonce && !Forgotten(accepted, i, now)
  {
    if i :| 0 <= i < |accepted| && accepted[i].nonce == nonce && !Forgotten(accepted, i, now) {
      assert now - accepted[i].seenAt <= 600 && |accepted| - i <= 200;
    }
    if i :| 0 <= i < |accepted| && accepted[i].nonce == nonce
            && now - accepted[i].seenAt <= 600 && |accepted| - i <= 200 {
      assert !Forgotten(accepted, i, now);
    }
  }

  /** Which refusal a request meets that is not properly signed: the first check it fails; the history stays. */
  lemma RefusalIs(history: seq<Entry>, r: Request, now: int, signer: Signer)
    requires !Signed(r, now, signer)
    ensures var (after, verdict) := Authenticate(history, r, now, signer);
            && after == history
            && verdict == if r.version != Some("v1") then BadVersion
                          else if r.signature.None? || |r.signature.value| == 0 then MissingSignature
                          else if r.nonce.None? || !(1 <= |r.nonce.value| <= 128) then BadNonce
                          else if r.timestamp.None? then BadTimestamp
                          else if !(-300 <= now - r.timestamp.value <= 300) then Stale
                          else BadSignature
  {
  }

  predicate ComesFrom(receipt: Receipt, a: Arrival, signer: Signer) {
    && Signed(a.request, a.now, signer) && receipt.seenAt == a.now
    && a.request.nonce == Some(receipt.nonce) && a.request.timestamp == Some(receipt.timestamp)
  }

  /** Every acceptance of every history comes from an arrival that was properly signed at its time. */
  lemma {:induction false} EveryAcceptanceWasSigned(arrivals: seq<Arrival>, signer: Signer, i: nat)
    requires i < |Serve(arrivals, signer).accepted|
    ensures exists k :: 0 <= k < |arrivals| && ComesFrom(Serve(arrivals, signer).accepted[i], arrivals[k], signer)
  {
    var earlier, last := arrivals[..|arrivals| - 1], arrivals[|arrivals| - 1];
    if i < |Serve(earlier, signer).accepted| {
      EveryAcceptanceWasSigned(earlier, signer, i);
      var k :| 0 <= k < |earlier| && ComesFrom(Serve(earlier, signer).accepted[i], earlier[k], signer);
      assert arrivals[k] == earlier[k];
    } else {
      if !Signed(last.request, last.now, signer) {
        RefusalIs(Serve(earlier, signer).history, last.request, last.now, signer);
      }
      assert ComesFrom(Serve(arrivals, signer).accepted[i], arrivals[|arrivals| - 1], signer);
    }
  }

  // ----- what cleaning keeps -----

  function CountAlive(history: seq<Entry>, now: int): nat {
    if history == [] then 0
    else CountAlive(history[..|history| - 1], now) + if now - history[|history| - 1].seenAt <= 600 then 1 else 0
  }

  lemma {:induction false} PruneKeepsAlive(history: seq<Entry>, now: int, e: Entry)
    ensures |Prune(history, now)| == CountAlive(history, now)
    ensures multiset(Prune(history, now))[e] == if now - e.seenAt <= 600 then multiset(history)[e] else 0
  {
    if history != [] {
      PruneKeepsAlive(history[..|history| - 1], now, e);
      assert history == history[..|history| - 1] + [history[|history| - 1]];
    }
  }

  /**
   Cleaning any history, sorted or not, keeps the entries of the last 600 seconds, or
   the 200 latest of them: what it drops of them was seen no later than what it keeps.
   */
  lemma CleanKeepsLatest(history: seq<Entry>, now: int) returns (dropped: seq<Entry>)
    ensures var cleaned := Clean(history, now);
            && |cleaned| == (if CountAlive(history, now) <= 200 then CountAlive(history, now) else 200)
            && (forall e :: multiset(cleaned)[e] + multiset(dropped)[e]
                            == if now - e.seenAt <= 600 then multiset(history)[e] else 0)
            && (forall d, c :: d in dropped && c in cleaned ==> d.seenAt <= c.seenAt)
  {
    var alive := Prune(history, now);
    dropped := [];
    PruneKeepsAlive(history, now, Entry("", now));
    if |alive| > MAX_TRACKED {
      var sorted, n := SortBy(alive, SEEN_AT), |alive| - MAX_TRACKED;
      SortBySorts(alive, SEEN_AT);
      SortByKeeps(alive, SEEN_AT);
      assert sorted == sorted[..n] + sorted[n..];
      LaterHalf(sorted, n);
      dropped := sorted[..n];
    }
    assert multiset(alive) == multiset(Clean(history, now)) + multiset(dropped);
    forall e
      ensures multiset(Clean(history, now))[e] + multiset(dropped)[e]
           == if now - e.seenAt <= 600 then multiset(history)[e] else 0
    {
      PruneKeepsAlive(history, now, e);
      assert multiset(alive)[e] == multiset(Clean(history, now))[e] + multiset(dropped)[e];
    }
  }

  lemma LaterHalf(sorted: seq<Entry>, n: nat)
    requires SortedBy(sorted, SEEN_AT) && n <= |sorted|
    ensures forall d, c :: d in sorted[..n] && c in sorted[n..] ==> d.seenAt <= c.seenAt
  {
    forall d, c | d in sorted[..n] && c in sorted[n..] ensures d.seenAt <= c.seenAt {
      var i :| 0 <= i < n && sorted[..n][i] == d;
      var j :| 0 <= j < |sorted| - n && sorted[n..][j] == c;
      assert SEEN_AT(sorted[i]) <= SEEN_AT(sorted[n + j]);
    }
  }

  // ----- no pair is accepted twice -----

  predicate Within(r: Receipt) {
    -TOLERANCE <= r.seenAt - r.timestamp <= TOLERANCE
  }

  /** Two acceptances of one nonce are more than 600 seconds apart, or at least 200 others lie between them. */
  predicate Separated(accepted: seq<Receipt>) {
    && (forall i :: 0 <= i < |accepted| ==> Within(accepted[i]))
    && (forall i, j :: 0 <= i < j < |accepted| && accepted[i].nonce == accepted[j].nonce
          ==> accepted[j].seenAt - accepted[i].seenAt > TTL || j - i > MAX_TRACKED)
  }

  lemma {:induction false} ServeSeparates(arrivals: seq<Arrival>, signer: Signer)
    requires ClockForward(arrivals)
    ensures Separated(Serve(arrivals, signer).accepted)
  {
    if arrivals != [] {
      var earlier, last := arrivals[..|arrivals| - 1], arrivals[|arrivals| - 1];
      ServeSeparates(earlier, signer);
      if Checks(last.request, last.now, signer).Accepted? {
        ReplayedIff(earlier, last.request, last.now, signer);
      }
    }
  }

  /**
   The 300-second tolerance on both sides makes the 600-second lifetime exactly
   enough: the same timestamp and nonce are accepted again only after more than 200
   further acceptances, all of them within 600 seconds.
   */
  lemma PairAcceptedTwiceOnlyUnderFlood(arrivals: seq<Arrival>, signer: Signer, i: nat, j: nat)
    requires ClockForward(arrivals)
    requires var accepted := Serve(arrivals, signer).accepted;
             i < j < |accepted| && accepted[i].nonce == accepted[j].nonce
             && accepted[i].timestamp == accepted[j].timestamp
    ensures var accepted := Serve(arrivals, signer).accepted;
            j - i > MAX_TRACKED && accepted[j].seenAt - accepted[i].seenAt <= TTL
  {
    ServeSeparates(arrivals, signer);
  }

  /** At most 200 acceptances in any closed window of 600 seconds. */
  predicate AtMost200PerWindow(accepted: seq<Receipt>) {
    forall i, j :: 0 <= i <= j < |accepted| && accepted[j].seenAt - accepted[i].seenAt <= TTL
      ==> j - i + 1 <= MAX_TRACKED
  }

  lemma NoPairAcceptedTwice(arrivals: seq<Arrival>, signer: Signer)
    requires ClockForward(arrivals) && AtMost200PerWindow(Serve(arrivals, signer).accepted)
    ensures var accepted := Serve(arrivals, signer).accepted;
            forall i, j :: 0 <= i < j < |accepted| && accepted[i].nonce == accepted[j].nonce
              ==> accepted[i].timestamp != accepted[j].timestamp
  {
    var accepted := Serve(arrivals, signer).accepted;
    forall i, j | 0 <= i < j < |accepted| && accepted[i].nonce == accepted[j].nonce
                  && accepted[i].timestamp == accepted[j].timestamp
      ensures false
    {
      PairAcceptedTwiceOnlyUnderFlood(arrivals, signer, i, j);
    }
  }

  /** The limit is sharp: the request accepted 201 acceptances ago is accepted again, however recent it is. */
  lemma FloodLetsReplayIn(arrivals: seq<Arrival>, r: Request, now: int, signer: Signer)
    requires ClockForward(arrivals) && (forall i :: 0 <= i < |arrivals| ==> arrivals[i].now <= now)
    requires Checks(r, now, signer).Accepted?
    requires var accepted := Serve(arrivals, signer).accepted;
             forall i :: |accepted| - MAX_TRACKED <= i < |accepted| && 0 <= i ==> accepted[i].nonce != r.nonce.value
    ensures Authenticate(Serve(arrivals, signer).history, r, now, signer).1.Accepted?
  {
    ReplayedIff(arrivals, r, now, signer);
  }

  // ----- the connector -----

  /** A connector whose configuration holds the nonce history, rewritten on every checked request. */
  class Connector {
    var history: seq<Entry>
    const signer: Signer

    constructor (signer: Signer)
      ensures history == [] && this.signer == signer
    {
      history, this.signer := [], signer;
    }

    method CleanHistory(now: int) returns (cleaned: seq<Entry>)
      ensures cleaned == Clean(history, now)
    {
      cleaned := [];
      var i := 0;
      while i < |history|
        invariant 0 <= i <= |history| && cleaned == Prune(history[..i], now)
      {
        assert history[..i + 1][..i] == history[..i];
        if now - history[i].seenAt <= TTL { cleaned := cleaned + [history[i]]; }
        i := i + 1;
      }
      assert history[..i] == history;
      if |cleaned| > MAX_TRACKED {
        cleaned := SortBy(cleaned, SEEN_AT)[|cleaned| - MAX_TRACKED..];
      }
    }

    method AssertNotReplayed(nonce: string, now: int) returns (isNew: bool)
      modifies this`history
      ensures isNew <==> !Tracked(Clean(old(history), now), nonce)
      ensures var cleaned := Clean(old(history), now);
              history == if isNew then cleaned + [Entry(nonce, now)] else cleaned
    {
      var cleaned := CleanHistory(now);
      var i := 0;
      while i < |cleaned|
        invariant 0 <= i <= |cleaned| && history == old(history)
        invariant forall j :: 0 <= j < i ==> cleaned[j].nonce != nonce
      {
        if cleaned[i].nonce == nonce {
          history := cleaned;
          return false;
        }
        i := i + 1;
      }
      history := cleaned + [Entry(nonce, now)];
      isNew := true;
    }

    method AuthenticateHmac(r: Request, now: int) returns (verdict: Verdict)
      modifies this`history
      ensures (history, verdict) == Authenticate(old(history), r, now, signer)
    {
      if r.version != Some("v1") { return BadVersion; }
      if r.signature.None? || r.signature.value == "" { return MissingSignature; }
      if r.nonce.None? || r.nonce.value == "" || |r.nonce.value| > 128 { return BadNonce; }
      if r.timestamp.None? { return BadTimestamp; }
      var distance := now - r.timestamp.value;
      if (if distance < 0 then -distance else distance) > TOLERANCE { return Stale; }
      var expected := signer(r.timestamp.value, r.nonce.value, r.body);
      if SignatureText(r.signature.value) != expected { return BadSignature; }
      var isNew := AssertNotReplayed(r.nonce.value, now);
      verdict := if isNew then Accepted else Replayed;
    }
  }
}
