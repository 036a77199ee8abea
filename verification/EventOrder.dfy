// Sorting and checking a whole stream of events, and what it means for a
// stream to be a run.
module EventOrder {
  import opened Wrappers
  import opened Protocol
  import opened EventLog

  // What a run's stream is, said of the stream as a whole

  predicate DistinctIds(events: seq<RunEvent>) {
    forall i, j :: 0 <= i < j < |events| ==> events[i].eventId != events[j].eventId
  }

  /** The event at i names no cause, or an earlier event. */
  predicate IsCaused(events: seq<RunEvent>, i: nat)
    requires i < |events|
  {
    events[i].causationId.Some? ==> exists j :: 0 <= j < i && events[j].eventId == events[i].causationId.value
  }

  /** Contiguous, of one run, without duplicates, causally ordered and consistent with its hashes. */
  predicate IsLinked(hash: Hasher, runId: string, events: seq<RunEvent>) {
    && DistinctIds(events)
    && forall i :: 0 <= i < |events| ==>
         && events[i].runId == runId
         && events[i].sequence == i + 1
         && events[i].payloadHash == hash(OfPayload(events[i].payload))
         && IsCaused(events, i)
  }

  predicate IsChain(hash: Hasher, runId: string, events: seq<RunEvent>) {
    && IsLinked(hash, runId, events)
    && forall i :: 0 <= i < |events| ==> !IsBlank(events[i].eventId) && !IsBlank(events[i].runId)
  }

  /** Any prefix of a chain is a chain. */
  lemma ChainPrefix(hash: Hasher, runId: string, events: seq<RunEvent>, n: nat)
    requires n <= |events| && IsChain(hash, runId, events)
    ensures IsChain(hash, runId, events[..n])
  {
    forall i | 0 <= i < n
      ensures IsCaused(events[..n], i)
    {
      assert IsCaused(events, i);
      if events[i].causationId.Some? {
        var j :| 0 <= j < i && events[j].eventId == events[i].causationId.value;
        assert events[..n][j] == events[j];
      }
    }
  }

  // The checks of `orderAndValidateRunEvents`

  function CheckNextEvent(hash: Hasher, runId: string, before: seq<RunEvent>, e: RunEvent): Option<KernelError> {
    if IsBlank(e.eventId) then Some(EmptyEventId)
    else if IsBlank(e.runId) then Some(EmptyRunId)
    else if e.runId != runId then Some(RunIdMismatch)
    else if e.eventId in EventIds(before) then Some(DuplicateEventId)
    else if e.sequence != |before| + 1 then Some(InvalidSequence)
    else if e.payloadHash != hash(OfPayload(e.payload)) then Some(PayloadHashMismatch)
    else if e.causationId.Some? && e.causationId.value !in EventIds(before) then Some(InvalidCausationId)
    else None
  }

  /** The first complaint about the first n events. */
  function FirstFault(hash: Hasher, runId: string, events: seq<RunEvent>, n: nat): Option<KernelError>
    requires n <= |events|
  {
    if n == 0 then None
    else
      var earlier := FirstFault(hash, runId, events, n - 1);
      if earlier.Some? then earlier else CheckNextEvent(hash, runId, events[..n - 1], events[n - 1])
  }

  lemma NextIsCaused(events: seq<RunEvent>, i: nat)
    requires i < |events|
    ensures IsCaused(events, i)
       <==> events[i].causationId.Some? ==> events[i].causationId.value in EventIds(events[..i])
    ensures events[i].eventId in EventIds(events[..i])
       <==> exists j :: 0 <= j < i && events[j].eventId == events[i].eventId
  {
    assert forall j :: 0 <= j < i ==> events[j] == events[..i][j];
  }

  lemma CausedInPrefix(events: seq<RunEvent>, n: nat, i: nat)
    requires i < n <= |events| && IsCaused(events[..n], i)
    ensures IsCaused(events, i)
  {
  }

  /** One more event makes a longer chain exactly when nothing is wrong with it. */
  lemma NextInChain(hash: Hasher, runId: string, before: seq<RunEvent>, e: RunEvent)
    requires IsChain(hash, runId, before)
    ensures IsChain(hash, runId, before + [e]) <==> CheckNextEvent(hash, runId, before, e).None?
  {
    hide IsBlank, IsCaused;
    var now, n := before + [e], |before|;
    assert now[..n] == before && now[n] == e;
    NextIsCaused(now, n);
    if IsChain(hash, runId, now) {
      assert forall j :: 0 <= j < n ==> now[j].eventId != now[n].eventId;
    } else {
      forall i | 0 <= i < n
        ensures IsCaused(now, i)
      {
        CausedInPrefix(now, n, i);
      }
    }
  }

  /** Checking one by one accepts exactly the chains. */
  lemma {:induction false} FaultlessIsChain(hash: Hasher, runId: string, events: seq<RunEvent>, n: nat)
    requires n <= |events|
    ensures FirstFault(hash, runId, events, n).None? <==> IsChain(hash, runId, events[..n])
  {
    hide IsBlank, IsCaused, IsLinked, CheckNextEvent;
    if n == 0 {
      EmptyChain(hash, runId);
    } else {
      FaultlessIsChain(hash, runId, events, n - 1);
      var front := events[..n - 1];
      assert events[..n] == front + [events[n - 1]];
      if IsChain(hash, runId, events[..n]) {
        assert events[..n][..n - 1] == front;
        ChainPrefix(hash, runId, events[..n], n - 1);
      }
      if IsChain(hash, runId, front) {
        NextInChain(hash, runId, front, events[n - 1]);
      }
    }
  }

  lemma EmptyChain(hash: Hasher, runId: string)
    ensures IsChain(hash, runId, [])
  {
  }

  // Sorting

  /** `left` stays in front of `right`: by sequence, ties by the locale's order of ids. */
  predicate InOrder(left: RunEvent, right: RunEvent, localeCompare: (string, string) -> int) {
    if left.sequence == right.sequence then localeCompare(left.eventId, right.eventId) <= 0
    else left.sequence < right.sequence
  }

  function InsertSorted(e: RunEvent, sorted: seq<RunEvent>, localeCompare: (string, string) -> int): seq<RunEvent> {
    if sorted == [] then [e]
    else
      var n := |sorted| - 1;
      if InOrder(sorted[n], e, localeCompare) then sorted + [e]
      else InsertSorted(e, sorted[..n], localeCompare) + [sorted[n]]
  }

  /** `Array.prototype.sort`, which is stable. */
  function Sort(events: seq<RunEvent>, localeCompare: (string, string) -> int): seq<RunEvent> {
    if events == [] then []
    else
      var n := |events| - 1;
      InsertSorted(events[n], Sort(events[..n], localeCompare), localeCompare)
  }

  predicate SequencesAscend(events: seq<RunEvent>) {
    forall i, j :: 0 <= i < j < |events| ==> events[i].sequence <= events[j].sequence
  }

  lemma {:induction false} InsertAddsOne(e: RunEvent, sorted: seq<RunEvent>, localeCompare: (string, string) -> int)
    ensures multiset(InsertSorted(e, sorted, localeCompare)) == multiset(sorted) + multiset{e}
  {
    hide InOrder;
    if sorted != [] {
      var n := |sorted| - 1;
      assert sorted == sorted[..n] + [sorted[n]];
      InsertAddsOne(e, sorted[..n], localeCompare);
    }
  }

  lemma {:induction false} InsertAscends(e: RunEvent, sorted: seq<RunEvent>, localeCompare: (string, string) -> int)
    requires SequencesAscend(sorted)
    ensures SequencesAscend(InsertSorted(e, sorted, localeCompare))
    ensures forall x :: x in InsertSorted(e, sorted, localeCompare) ==> x == e || x in sorted
  {
    if sorted != [] {
      var n := |sorted| - 1;
      if !InOrder(sorted[n], e, localeCompare) {
        InsertAscends(e, sorted[..n], localeCompare);
        assert forall x :: x in sorted[..n] ==> x.sequence <= sorted[n].sequence;
      }
    }
  }

  lemma {:induction false} SortIsSorted(events: seq<RunEvent>, localeCompare: (string, string) -> int)
    ensures SequencesAscend(Sort(events, localeCompare))
    ensures multiset(Sort(events, localeCompare)) == multiset(events)
  {
    hide SequencesAscend, InsertSorted;
    if events == [] {
      NothingAscends();
    } else {
      var n := |events| - 1;
      SortIsSorted(events[..n], localeCompare);
      InsertAscends(events[n], Sort(events[..n], localeCompare), localeCompare);
      InsertAddsOne(events[n], Sort(events[..n], localeCompare), localeCompare);
      assert events == events[..n] + [events[n]];
    }
  }

  lemma NothingAscends()
    ensures SequencesAscend([])
  {
  }

  predicate IsNumbered(events: seq<RunEvent>) {
    forall i :: 0 <= i < |events| ==> events[i].sequence == i + 1
  }

  /** The last of a sorted rearrangement is the last of the numbered sequence. */
  lemma LastIsLast(sorted: seq<RunEvent>, chain: seq<RunEvent>)
    requires chain != [] && |sorted| == |chain| && SequencesAscend(sorted) && IsNumbered(chain)
    requires forall x :: x in sorted <==> x in chain
    ensures sorted[|chain| - 1] == chain[|chain| - 1]
  {
    var n := |chain| - 1;
    assert chain[n] in sorted && sorted[n] in chain;
    var k :| 0 <= k <= n && sorted[k] == chain[n];
    var j :| 0 <= j <= n && chain[j] == sorted[n];
  }

  lemma SameMembers(a: seq<RunEvent>, b: seq<RunEvent>)
    requires multiset(a) == multiset(b)
    ensures |a| == |b| && forall x :: x in a <==> x in b
  {
    assert |a| == |multiset(a)| == |multiset(b)| == |b|;
    forall x
      ensures x in a <==> x in b
    {
      assert x in a <==> x in multiset(a);
      assert x in b <==> x in multiset(b);
    }
  }

  /** A sorted rearrangement of events numbered 1, 2, 3, ... is that very sequence. */
  lemma {:induction false} NumberedOrderIsUnique(sorted: seq<RunEvent>, chain: seq<RunEvent>)
    requires multiset(sorted) == multiset(chain) && SequencesAscend(sorted) && IsNumbered(chain)
    ensures sorted == chain
  {
    SameMembers(sorted, chain);
    if chain != [] {
      var n := |chain| - 1;
      LastIsLast(sorted, chain);
      assert chain == chain[..n] + [chain[n]] && sorted == sorted[..n] + [sorted[n]];
      assert multiset(sorted[..n]) + multiset{sorted[n]} == multiset(chain[..n]) + multiset{chain[n]};
      SamePrefixes(multiset(sorted[..n]), multiset(chain[..n]), chain[n]);
      NumberedOrderIsUnique(sorted[..n], chain[..n]);
    }
  }

  lemma SamePrefixes(a: multiset<RunEvent>, b: multiset<RunEvent>, x: RunEvent)
    requires a + multiset{x} == b + multiset{x}
    ensures a == b
  {
    assert a == (a + multiset{x}) - multiset{x};
    assert b == (b + multiset{x}) - multiset{x};
  }

  // The operation

  /** The run a stream is checked against: the one asked for, or its first event's. */
  function ExpectedRun(ordered: seq<RunEvent>, expectedRunId: Option<string>): Option<string> {
    if expectedRunId.Some? then expectedRunId
    else if ordered == [] then None else Some(ordered[0].runId)
  }

  function OrderAndValidate(hash: Hasher, localeCompare: (string, string) -> int, events: seq<RunEvent>,
                            expectedRunId: Option<string>): Result<seq<RunEvent>, KernelError> {
    var ordered := Sort(events, localeCompare);
    match ExpectedRun(ordered, expectedRunId)
    case None => Ok([])
    case Some(runId) =>
      var fault := FirstFault(hash, runId, ordered, |ordered|);
      if fault.Some? then Err(fault.value) else Ok(ordered)
  }

  /** `orderAndValidateRunEvents`; the seen ids grow with the loop. */
  method OrderAndValidateRunEvents(hash: Hasher, localeCompare: (string, string) -> int, events: seq<RunEvent>,
                                   expectedRunId: Option<string>)
    returns (r: Result<seq<RunEvent>, KernelError>)
    ensures r == OrderAndValidate(hash, localeCompare, events, expectedRunId)
  {
    hide IsBlank, Sort, FirstFault;
    var ordered := Sort(events, localeCompare);
    var run := ExpectedRun(ordered, expectedRunId);
    if run.None? {
      return Ok([]);
    }
    var runId := run.value;
    var seenEventIds: set<string> := {};
    NoFaultYet(hash, runId, ordered);
    for index := 0 to |ordered|
      invariant seenEventIds == EventIds(ordered[..index])
      invariant FirstFault(hash, runId, ordered, index).None?
    {
      var event := ordered[index];
      NextFault(hash, runId, ordered, index);
      FaultStays(hash, runId, ordered, index + 1);
      if IsBlank(event.eventId) {
        return Err(EmptyEventId);
      }
      if IsBlank(event.runId) {
        return Err(EmptyRunId);
      }
      if event.runId != runId {
        return Err(RunIdMismatch);
      }
      if event.eventId in seenEventIds {
        return Err(DuplicateEventId);
      }
      if event.sequence != index + 1 {
        return Err(InvalidSequence);
      }
      if event.payloadHash != hash(OfPayload(event.payload)) {
        return Err(PayloadHashMismatch);
      }
      if event.causationId.Some? && event.causationId.value !in seenEventIds {
        return Err(InvalidCausationId);
      }
      assert ordered[..index + 1] == ordered[..index] + [event];
      seenEventIds := seenEventIds + {event.eventId};
    }
    r := Ok(ordered);
  }

  lemma NoFaultYet(hash: Hasher, runId: string, events: seq<RunEvent>)
    ensures FirstFault(hash, runId, events, 0).None?
  {
  }

  lemma NextFault(hash: Hasher, runId: string, events: seq<RunEvent>, n: nat)
    requires n < |events| && FirstFault(hash, runId, events, n).None?
    ensures FirstFault(hash, runId, events, n + 1) == CheckNextEvent(hash, runId, events[..n], events[n])
  {
    hide CheckNextEvent;
  }

  /** The first fault of a prefix is the first fault of the stream. */
  lemma {:induction false} FaultStaysUpTo(hash: Hasher, runId: string, events: seq<RunEvent>, n: nat, m: nat)
    requires n <= m <= |events| && FirstFault(hash, runId, events, n).Some?
    ensures FirstFault(hash, runId, events, m) == FirstFault(hash, runId, events, n)
    decreases m
  {
    hide CheckNextEvent;
    if n < m {
      FaultStaysUpTo(hash, runId, events, n, m - 1);
    }
  }

  lemma FaultStays(hash: Hasher, runId: string, events: seq<RunEvent>, n: nat)
    requires n <= |events|
    ensures FirstFault(hash, runId, events, n).Some?
        ==> FirstFault(hash, runId, events, |events|) == FirstFault(hash, runId, events, n)
  {
    if FirstFault(hash, runId, events, n).Some? {
      FaultStaysUpTo(hash, runId, events, n, |events|);
    }
  }

  /** Whatever order a run's events arrive in, the run comes back; nothing else is ever accepted. */
  lemma OrderRecoversChain(hash: Hasher, localeCompare: (string, string) -> int, events: seq<RunEvent>,
                           expectedRunId: Option<string>, chain: seq<RunEvent>, runId: string)
    requires expectedRunId == Some(runId) || (expectedRunId.None? && chain != [] && runId == chain[0].runId)
    ensures OrderAndValidate(hash, localeCompare, events, expectedRunId) == Ok(chain)
       <==> multiset(events) == multiset(chain) && IsChain(hash, runId, chain)
  {
    hide CheckNextEvent, IsBlank;
    var sorted := Sort(events, localeCompare);
    SortIsSorted(events, localeCompare);
    assert sorted[..|sorted|] == sorted;
    if multiset(events) == multiset(chain) && IsChain(hash, runId, chain) {
      NumberedOrderIsUnique(sorted, chain);
    }
    FaultlessIsChain(hash, runId, sorted, |sorted|);
  }
}
