/**
 The hash-chained trust event log: appending, verifying, and what a verified log
 with a known last hash says about its whole history.
 */
module FlightRecorder {
  import opened Options
  import opened Sorting

  type Digest = string

  datatype Details = Details(
    eventType: string, entityType: string, entityId: string, actor: string, correlationId: Option<string>,
    payload: string, createdAt: int)

  /** What is hashed of an event: all but its own identifier and hash. */
  datatype Material = Material(sequence: int, details: Details, previousHash: Option<Digest>)

  datatype TrustEvent = TrustEvent(material: Material, eventHash: Digest)

  type Hash = Material -> Digest

  ghost predicate Injective(hash: Hash) {
    forall a, b :: hash(a) == hash(b) ==> a == b
  }

  const SEQUENCE: TrustEvent -> int := (e: TrustEvent) => e.material.sequence

  function Ordered(events: seq<TrustEvent>): (ordered: seq<TrustEvent>)
    ensures |ordered| == |events|
  {
    SortBy(events, SEQUENCE)
  }

  function NextEvent(events: seq<TrustEvent>, details: Details, hash: Hash): TrustEvent {
    var ordered := Ordered(events);
    var material := if ordered == [] then Material(1, details, None)
                    else var last := ordered[|ordered| - 1];
                         Material(last.material.sequence + 1, details, Some(last.eventHash));
    TrustEvent(material, hash(material))
  }

  function AppendAll(events: seq<TrustEvent>, log: seq<Details>, hash: Hash): seq<TrustEvent> {
    if log == [] then events
    else
      var earlier := AppendAll(events, log[..|log| - 1], hash);
      earlier + [NextEvent(earlier, log[|log| - 1], hash)]
  }

  // ----- the chain -----

  datatype Flaw = BadSequence | BadPredecessor | BadHash

  /** The check the i-th event fails, in the order the checks are made. */
  function FlawAt(chain: seq<TrustEvent>, i: nat, hash: Hash): Option<Flaw>
    requires i < |chain|
  {
    var e := chain[i];
    if e.material.sequence != i + 1 then Some(BadSequence)
    else if e.material.previousHash != (if i == 0 then None else Some(chain[i - 1].eventHash)) then
      Some(BadPredecessor)
    else if hash(e.material) != e.eventHash then Some(BadHash)
    else None
  }

  predicate Chained(chain: seq<TrustEvent>, hash: Hash) {
    forall i :: 0 <= i < |chain| ==> FlawAt(chain, i, hash).None?
  }

  predicate Verified(events: seq<TrustEvent>, hash: Hash) {
    Chained(Ordered(events), hash)
  }

  /** The new event has the largest sequence number, so it is ordered last. */
  lemma AppendIsLast(events: seq<TrustEvent>, details: Details, hash: Hash)
    ensures Ordered(events + [NextEvent(events, details, hash)])
         == Ordered(events) + [NextEvent(events, details, hash)]
  {
  }

  lemma AppendKeepsVerified(events: seq<TrustEvent>, details: Details, hash: Hash)
    requires Verified(events, hash)
    ensures Verified(events + [NextEvent(events, details, hash)], hash)
  {
    AppendIsLast(events, details, hash);
    var ordered, next := Ordered(events), NextEvent(events, details, hash);
    forall i | 0 <= i < |ordered + [next]|
      ensures FlawAt(ordered + [next], i, hash).None?
    {
      if i < |ordered| {
        assert FlawAt(ordered, i, hash).None?;
      } else if i > 0 {
        assert FlawAt(ordered, i - 1, hash).None?;
      }
    }
  }

  /** The i-th event carries its number, the hash of its predecessor, and its own hash. */
  predicate Links(chain: seq<TrustEvent>, i: nat, hash: Hash)
    requires i < |chain|
  {
    var m := chain[i].material;
    && m.sequence == i + 1 && chain[i].eventHash == hash(m)
    && m.previousHash == if i == 0 then None else Some(chain[i - 1].eventHash)
  }

  /** Which fault an event is reported for when it has several. */
  lemma FlawIff(chain: seq<TrustEvent>, i: nat, hash: Hash)
    requires i < |chain|
    ensures FlawAt(chain, i, hash).None? <==> Links(chain, i, hash)
    ensures FlawAt(chain, i, hash) == Some(BadSequence) <==> chain[i].material.sequence != i + 1
    ensures FlawAt(chain, i, hash) == Some(BadHash) <==>
            chain[i].eventHash != hash(chain[i].material)
            && Links(chain[i := chain[i].(eventHash := hash(chain[i].material))], i, hash)
  {
  }

  /** One event more, linked to the last; the earlier ones are as they were. */
  lemma AppendLinks(events: seq<TrustEvent>, details: Details, hash: Hash)
    requires Ordered(events) == events && forall i :: 0 <= i < |events| ==> Links(events, i, hash)
    ensures var after := events + [NextEvent(events, details, hash)];
            Ordered(after) == after && forall i :: 0 <= i < |after| ==> Links(after, i, hash)
  {
    var after := events + [NextEvent(events, details, hash)];
    AppendIsLast(events, details, hash);
    forall i | 0 <= i < |after| ensures Links(after, i, hash) {
      if i < |events| {
        assert Links(events, i, hash);
      } else if i > 0 {
        assert Links(events, i - 1, hash);
      }
    }
  }

  /** Any sequence of appends leaves a log that verifies, holding what was appended, in order and linked. */
  lemma {:induction false} AppendsVerify(log: seq<Details>, hash: Hash)
    ensures var events := AppendAll([], log, hash);
            && Verified(events, hash) && Ordered(events) == events && |events| == |log|
            && forall i :: 0 <= i < |log| ==> events[i].material.details == log[i] && Links(events, i, hash)
  {
    if log != [] {
      AppendsVerify(log[..|log| - 1], hash);
      AppendLinks(AppendAll([], log[..|log| - 1], hash), log[|log| - 1], hash);
      AppendKeepsVerified(AppendAll([], log[..|log| - 1], hash), log[|log| - 1], hash);
    }
  }

  /** The last hash of a verified chain determines every event of it, its length included. */
  lemma {:induction false} HeadDeterminesHistory(a: seq<TrustEvent>, b: seq<TrustEvent>, hash: Hash)
    requires Injective(hash) && Chained(a, hash) && Chained(b, hash)
    requires a != [] && b != [] && a[|a| - 1].eventHash == b[|b| - 1].eventHash
    ensures a == b
  {
    var m, n := |a| - 1, |b| - 1;
    assert FlawAt(a, m, hash).None? && FlawAt(b, n, hash).None?;
    assert a[m] == b[n] && m == n;
    if m > 0 {
      ChainPrefix(a, m, hash);
      ChainPrefix(b, m, hash);
      HeadDeterminesHistory(a[..m], b[..m], hash);
    }
    assert a == a[..m] + [a[m]] && b == b[..m] + [b[m]];
  }

  /** A chain cut short still verifies: only the head hash, kept elsewhere, betrays a lost tail. */
  lemma ChainPrefix(chain: seq<TrustEvent>, n: nat, hash: Hash)
    requires Chained(chain, hash) && n <= |chain|
    ensures Chained(chain[..n], hash)
  {
    forall i | 0 <= i < n ensures FlawAt(chain[..n], i, hash).None? {
      assert FlawAt(chain, i, hash).None?;
    }
  }

  /**
   A log that ends in the recorded head hash verifies exactly when it holds the
   recorded history, event for event; so any altered, dropped, added or reordered
   event is reported.
   */
  lemma VerifiesIffUnaltered(recorded: seq<TrustEvent>, found: seq<TrustEvent>, hash: Hash)
    requires Injective(hash) && Verified(recorded, hash) && recorded != [] && found != []
    requires Ordered(found)[|found| - 1].eventHash == Ordered(recorded)[|recorded| - 1].eventHash
    ensures Verified(found, hash) <==> Ordered(found) == Ordered(recorded)
  {
    if Verified(found, hash) {
      HeadDeterminesHistory(Ordered(found), Ordered(recorded), hash);
    }
  }

  // ----- the recorder -----

  datatype Report = Report(valid: bool, eventCount: nat, firstInvalid: Option<int>, flaw: Option<Flaw>)

  /** The report names the i-th event, the first that fails, and the check it fails. */
  predicate FirstFlaw(ordered: seq<TrustEvent>, i: nat, report: Report, hash: Hash)
    requires i < |ordered|
  {
    && Chained(ordered[..i], hash)
    && report.flaw == FlawAt(ordered, i, hash) && report.flaw.Some?
    && report.firstInvalid == Some(ordered[i].material.sequence)
  }

  class Recorder {
    /** The stored events in insertion order. */
    var events: seq<TrustEvent>
    const hash: Hash

    constructor (hash: Hash)
      ensures events == [] && this.hash == hash
    {
      events, this.hash := [], hash;
    }

    method Append(details: Details)
      modifies this
      ensures events == old(events) + [NextEvent(old(events), details, hash)]
      ensures Verified(old(events), hash) ==> Verified(events, hash)
    {
      var ordered := SortBy(events, SEQUENCE);
      var sequence, previousHash := 1, None;
      if ordered != [] {
        var previous := ordered[|ordered| - 1];
        sequence := previous.material.sequence + 1;
        previousHash := Some(previous.eventHash);
      }
      var material := Material(sequence, details, previousHash);
      events := events + [TrustEvent(material, hash(material))];
      if Verified(old(events), hash) { AppendKeepsVerified(old(events), details, hash); }
    }

    method Verify() returns (report: Report)
      ensures report.valid <==> Verified(events, hash)
      ensures report.eventCount == |events|
      ensures report.valid <==> report.firstInvalid.None?
      ensures !report.valid ==> exists i :: 0 <= i < |events| && FirstFlaw(Ordered(events), i, report, hash)
    {
      var ordered := SortBy(events, SEQUENCE);
      var expectedPrevious: Option<Digest>, expectedSequence, i := None, 1, 0;
      while i < |ordered|
        invariant 0 <= i <= |ordered| && expectedSequence == i + 1
        invariant expectedPrevious == if i == 0 then None else Some(ordered[i - 1].eventHash)
        invariant Chained(ordered[..i], hash)
      {
        var e := ordered[i];
        var count := |ordered|;
        if e.material.sequence != expectedSequence {
          assert FlawAt(ordered, i, hash) == Some(BadSequence);
          report := Report(false, count, Some(e.material.sequence), Some(BadSequence));
          assert FirstFlaw(ordered, i, report, hash);
          return;
        }
        if e.material.previousHash != expectedPrevious {
          assert FlawAt(ordered, i, hash) == Some(BadPredecessor);
          report := Report(false, count, Some(e.material.sequence), Some(BadPredecessor));
          assert FirstFlaw(ordered, i, report, hash);
          return;
        }
        if hash(e.material) != e.eventHash {
          assert FlawAt(ordered, i, hash) == Some(BadHash);
          report := Report(false, count, Some(e.material.sequence), Some(BadHash));
          assert FirstFlaw(ordered, i, report, hash);
          return;
        }
        assert FlawAt(ordered, i, hash).None?;
        ExtendChain(ordered, i, hash);
        expectedPrevious := Some(e.eventHash);
        expectedSequence := expectedSequence + 1;
        i := i + 1;
      }
      assert ordered[..i] == ordered;
      report := Report(true, |ordered|, None, None);
    }
  }

  lemma ExtendChain(chain: seq<TrustEvent>, i: nat, hash: Hash)
    requires i < |chain| && Chained(chain[..i], hash) && FlawAt(chain, i, hash).None?
    ensures Chained(chain[..i + 1], hash)
  {
    var longer := chain[..i + 1];
    forall k | 0 <= k < i + 1 ensures FlawAt(longer, k, hash).None? {
      if k < i { assert FlawAt(chain[..i], k, hash).None?; }
    }
  }
}
