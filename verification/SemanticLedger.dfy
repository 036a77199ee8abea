// The in-memory semantic ledger: one growing stream for each run, and the two
// validators that guard it.
module SemanticLedger {
  import opened Wrappers
  import opened Protocol
  import EventLog
  import opened EventOrder

  datatype LedgerError =
    | EmptyEventId | EmptyRunId | InvalidSequence | IntegrityViolation | PayloadHashMismatch | RunIdMismatch
    | DuplicateEventId | DuplicateSequence | NonContiguousSequence | InvalidCausationId
    | RunNotFound | EventNotFound

  datatype AppendResult = AppendResult(runId: string, eventId: string, sequence: nat)

  /** `validateRunEventShape`, for events that already have the right field types. */
  function CheckShape(e: RunEvent): Option<LedgerError> {
    if EventLog.IsBlank(e.eventId) then Some(EmptyEventId)
    else if EventLog.IsBlank(e.runId) then Some(EmptyRunId)
    else if e.sequence < 1 then Some(InvalidSequence)
    else if e.occurredAt.text == "" then Some(IntegrityViolation)
    else None
  }

  predicate HasSequence(events: seq<RunEvent>, sequence: nat) {
    exists e :: e in events && e.sequence == sequence
  }

  function CheckPlace(before: seq<RunEvent>, e: RunEvent): Option<LedgerError> {
    if e.eventId in EventLog.EventIds(before) then Some(DuplicateEventId)
    else if HasSequence(before, e.sequence) then Some(DuplicateSequence)
    else if e.sequence != |before| + 1 then Some(NonContiguousSequence)
    else None
  }

  function CheckCause(before: seq<RunEvent>, e: RunEvent): Option<LedgerError> {
    if e.causationId.Some? && e.causationId.value !in EventLog.EventIds(before) then Some(InvalidCausationId) else None
  }

  function CheckHash(hash: Hasher, e: RunEvent): Option<LedgerError> {
    if e.payloadHash != hash(OfPayload(e.payload)) then Some(PayloadHashMismatch) else None
  }

  function FirstOf(a: Option<LedgerError>, b: Option<LedgerError>): Option<LedgerError> {
    if a.Some? then a else b
  }

  /** What stops `appendAcceptedEventSync` from adding an event to its run. */
  function CheckAppend(hash: Hasher, before: seq<RunEvent>, e: RunEvent): Option<LedgerError> {
    FirstOf(CheckShape(e), FirstOf(CheckHash(hash, e), FirstOf(CheckPlace(before, e), CheckCause(before, e))))
  }

  /** What `validateOrderedRunEvents` has against the next event; it compares the hash later. */
  function CheckOrdered(hash: Hasher, runId: string, before: seq<RunEvent>, e: RunEvent): Option<LedgerError> {
    FirstOf(CheckShape(e),
      if e.runId != runId then Some(RunIdMismatch)
      else FirstOf(CheckPlace(before, e), FirstOf(CheckHash(hash, e), CheckCause(before, e))))
  }

  /** The first complaint of `validateOrderedRunEvents` about the first n events. */
  function OrderFault(hash: Hasher, runId: string, events: seq<RunEvent>, n: nat): Option<LedgerError>
    requires n <= |events|
  {
    if n == 0 then None
    else FirstOf(OrderFault(hash, runId, events, n - 1), CheckOrdered(hash, runId, events[..n - 1], events[n - 1]))
  }

  function ValidateOrdered(hash: Hasher, events: seq<RunEvent>, expectedRunId: Option<string>)
    : Result<seq<RunEvent>, LedgerError>
  {
    if events == [] then Ok([])
    else
      var runId := expectedRunId.GetOr(events[0].runId);
      var fault := if EventLog.IsBlank(runId) then Some(EmptyRunId) else OrderFault(hash, runId, events, |events|);
      if fault.Some? then Err(fault.value) else Ok(events)
  }

  /** The loop, with the ids and sequences it has seen. */
  method ValidateOrderedRunEvents(hash: Hasher, events: seq<RunEvent>, expectedRunId: Option<string>)
    returns (r: Result<seq<RunEvent>, LedgerError>)
    ensures r == ValidateOrdered(hash, events, expectedRunId)
  {
    hide CheckShape, CheckHash, EventLog.IsBlank;
    if |events| == 0 {
      return Ok([]);
    }
    var runId := expectedRunId.GetOr(events[0].runId);
    if EventLog.IsBlank(runId) {
      return Err(EmptyRunId);
    }
    var seenEventIds: set<string>, seenSequences: set<nat> := {}, {};
    for index := 0 to |events|
      invariant seenEventIds == EventLog.EventIds(events[..index])
      invariant forall s :: s in seenSequences <==> HasSequence(events[..index], s)
      invariant OrderFault(hash, runId, events, index).None?
    {
      var event := events[index];
      OrderFaultStays(hash, runId, events, index + 1, |events|);
      var shape := CheckShape(event);
      if shape.Some? {
        return Err(shape.value);
      }
      if event.runId != runId {
        return Err(RunIdMismatch);
      }
      if event.eventId in seenEventIds {
        return Err(DuplicateEventId);
      }
      if event.sequence in seenSequences {
        return Err(DuplicateSequence);
      }
      if event.sequence != index + 1 {
        return Err(NonContiguousSequence);
      }
      var hashed := CheckHash(hash, event);
      if hashed.Some? {
        return Err(hashed.value);
      }
      if event.causationId.Some? && event.causationId.value !in seenEventIds {
        return Err(InvalidCausationId);
      }
      assert events[..index + 1] == events[..index] + [event];
      seenEventIds := seenEventIds + {event.eventId};
      seenSequences := seenSequences + {event.sequence};
    }
    r := Ok(events);
  }

  lemma {:induction false} OrderFaultStays(hash: Hasher, runId: string, events: seq<RunEvent>, n: nat, m: nat)
    requires n <= m <= |events|
    ensures OrderFault(hash, runId, events, n).Some?
        ==> OrderFault(hash, runId, events, m) == OrderFault(hash, runId, events, n)
    decreases m
  {
    hide CheckOrdered;
    if n < m {
      OrderFaultStays(hash, runId, events, n, m - 1);
    }
  }

  // What both validators accept

  /** A run's stream whose events also carry a time text. */
  predicate IsStream(hash: Hasher, runId: string, events: seq<RunEvent>) {
    IsChain(hash, runId, events) && forall e :: e in events ==> e.occurredAt.text != ""
  }

  lemma StreamPrefix(hash: Hasher, runId: string, events: seq<RunEvent>, n: nat)
    requires n <= |events| && IsStream(hash, runId, events)
    ensures IsStream(hash, runId, events[..n])
  {
    hide IsChain;
    ChainPrefix(hash, runId, events, n);
  }

  /** In a stream the next event is acceptable exactly when it makes the stream one longer. */
  lemma NextInStream(hash: Hasher, runId: string, events: seq<RunEvent>, e: RunEvent)
    requires IsStream(hash, runId, events)
    ensures IsStream(hash, runId, events + [e]) <==> CheckAppend(hash, events, e).None? && e.runId == runId
    ensures IsStream(hash, runId, events + [e]) <==> CheckOrdered(hash, runId, events, e).None?
  {
    hide EventLog.IsBlank, IsCaused;
    var now, n := events + [e], |events|;
    assert now[..n] == events && now[n] == e;
    NextIsCaused(now, n);
    assert !HasSequence(events, n + 1);
    if IsChain(hash, runId, now) {
      assert forall i :: 0 <= i < n ==> now[i].eventId != e.eventId;
    } else {
      forall i | 0 <= i < n
        ensures IsCaused(now, i)
      {
        CausedInPrefix(now, n, i);
      }
    }
  }

  lemma {:induction false} OrderedIsStream(hash: Hasher, runId: string, events: seq<RunEvent>, n: nat)
    requires n <= |events|
    ensures OrderFault(hash, runId, events, n).None? <==> IsStream(hash, runId, events[..n])
  {
    hide CheckOrdered, IsChain, CheckAppend;
    if n == 0 {
      EmptyStream(hash, runId);
    } else {
      OrderedIsStream(hash, runId, events, n - 1);
      assert events[..n] == events[..n - 1] + [events[n - 1]];
      assert events[..n][..n - 1] == events[..n - 1];
      if IsStream(hash, runId, events[..n]) {
        StreamPrefix(hash, runId, events[..n], n - 1);
      }
      if IsStream(hash, runId, events[..n - 1]) {
        NextInStream(hash, runId, events[..n - 1], events[n - 1]);
      }
    }
  }

  lemma EmptyStream(hash: Hasher, runId: string)
    ensures IsStream(hash, runId, [])
  {
  }

  /** Successive appends of a whole list; it stops at the first refusal. */
  function AppendAll(hash: Hasher, before: seq<RunEvent>, events: seq<RunEvent>): Result<seq<RunEvent>, LedgerError>
    decreases |events|
  {
    if events == [] then Ok(before)
    else
      var fault := CheckAppend(hash, before, events[0]);
      if fault.Some? then Err(fault.value) else AppendAll(hash, before + [events[0]], events[1..])
  }

  lemma {:induction false} AppendAllIsStream(hash: Hasher, runId: string, before: seq<RunEvent>, events: seq<RunEvent>)
    requires IsStream(hash, runId, before) && forall e :: e in events ==> e.runId == runId
    ensures AppendAll(hash, before, events).Ok? <==> IsStream(hash, runId, before + events)
    ensures AppendAll(hash, before, events).Ok? ==> AppendAll(hash, before, events).value == before + events
    decreases |events|
  {
    hide CheckAppend, IsStream, CheckOrdered;
    if events == [] {
      assert before + events == before;
    } else {
      NextInStream(hash, runId, before, events[0]);
      assert before + events == before + [events[0]] + events[1..];
      if CheckAppend(hash, before, events[0]).None? {
        AppendAllIsStream(hash, runId, before + [events[0]], events[1..]);
      } else if IsStream(hash, runId, before + events) {
        assert (before + events)[..|before| + 1] == before + [events[0]];
        StreamPrefix(hash, runId, before + events, |before| + 1);
      }
    }
  }

  /** One at a time or all at once: the two validators accept the same single-run lists, the runs' streams. */
  lemma ValidatorsAgree(hash: Hasher, runId: string, events: seq<RunEvent>)
    requires forall e :: e in events ==> e.runId == runId
    ensures AppendAll(hash, [], events) == Ok(events) <==> ValidateOrdered(hash, events, None) == Ok(events)
    ensures AppendAll(hash, [], events).Ok? <==> ValidateOrdered(hash, events, Some(runId)).Ok?
    ensures AppendAll(hash, [], events).Ok? <==> IsStream(hash, runId, events)
  {
    hide CheckAppend, CheckOrdered, IsChain;
    EmptyStream(hash, runId);
    AppendAllIsStream(hash, runId, [], events);
    assert [] + events == events && events[..|events|] == events;
    OrderedIsStream(hash, runId, events, |events|);
    if IsStream(hash, runId, events) {
      StreamOfSomeRun(hash, runId, events);
    }
  }

  lemma StreamOfSomeRun(hash: Hasher, runId: string, events: seq<RunEvent>)
    requires IsStream(hash, runId, events)
    ensures events == [] || !EventLog.IsBlank(runId)
  {
    hide EventLog.IsBlank;
    if events != [] {
      assert events[0].runId == runId;
    }
  }

  class InMemorySemanticLedger {
    const hash: Hasher
    var eventsByRun: map<string, seq<RunEvent>>
    var eventIdsByRun: map<string, set<string>>

    function Events(runId: string): seq<RunEvent>
      reads this
    {
      if runId in eventsByRun then eventsByRun[runId] else []
    }

    /** Every run's events are a stream, and its set of ids is theirs. */
    ghost predicate Valid()
      reads this
    {
      && eventsByRun.Keys == eventIdsByRun.Keys
      && forall runId :: runId in eventsByRun ==>
           && IsStream(hash, runId, eventsByRun[runId])
           && eventIdsByRun[runId] == EventLog.EventIds(eventsByRun[runId])
    }

    constructor (hash: Hasher)
      ensures Valid() && eventsByRun == map[] && this.hash == hash
    {
      this.hash := hash;
      eventsByRun, eventIdsByRun := map[], map[];
    }

    method AppendAcceptedEvent(event: RunEvent) returns (r: Result<AppendResult, LedgerError>)
      requires Valid()
      modifies this
      ensures Valid()
      ensures var fault := CheckAppend(hash, old(Events(event.runId)), event);
        if fault.Some? then r == Err(fault.value) && eventsByRun == old(eventsByRun)
        else
          && r == Ok(AppendResult(event.runId, event.eventId, event.sequence))
          && eventsByRun == old(eventsByRun)[event.runId := old(Events(event.runId)) + [event]]
    {
      hide CheckShape, CheckHash, CheckOrdered, IsStream;
      EmptyStream(hash, event.runId);
      var shape := CheckShape(event);
      if shape.Some? {
        return Err(shape.value);
      }
      var hashed := CheckHash(hash, event);
      if hashed.Some? {
        return Err(hashed.value);
      }
      var events := if event.runId in eventsByRun then eventsByRun[event.runId] else [];
      var eventIds := if event.runId in eventIdsByRun then eventIdsByRun[event.runId] else {};
      var expectedSequence := |events| + 1;
      if event.eventId in eventIds {
        return Err(DuplicateEventId);
      }
      if HasSequence(events, event.sequence) {
        return Err(DuplicateSequence);
      }
      if event.sequence != expectedSequence {
        return Err(NonContiguousSequence);
      }
      if event.causationId.Some? && event.causationId.value !in eventIds {
        return Err(InvalidCausationId);
      }
      NextInStream(hash, event.runId, events, event);
      eventsByRun := eventsByRun[event.runId := events + [event]];
      eventIdsByRun := eventIdsByRun[event.runId := eventIds + {event.eventId}];
      r := Ok(AppendResult(event.runId, event.eventId, event.sequence));
    }

    method AppendAcceptedEventToRun(runId: string, event: RunEvent) returns (r: Result<AppendResult, LedgerError>)
      requires Valid()
      modifies this
      ensures Valid()
      ensures var fault := if EventLog.IsBlank(runId) then Some(EmptyRunId)
                           else if event.runId != runId then Some(RunIdMismatch)
                           else CheckAppend(hash, old(Events(runId)), event);
        if fault.Some? then r == Err(fault.value) && eventsByRun == old(eventsByRun)
        else
          && r == Ok(AppendResult(runId, event.eventId, event.sequence))
          && eventsByRun == old(eventsByRun)[runId := old(Events(runId)) + [event]]
    {
      hide CheckAppend, IsStream;
      if EventLog.IsBlank(runId) {
        return Err(EmptyRunId);
      }
      if event.runId != runId {
        return Err(RunIdMismatch);
      }
      r := AppendAcceptedEvent(event);
    }

    /** In every state this ledger can reach, a run it holds passes the integrity check. */
    method VerifyRunIntegrity(runId: string) returns (r: Result<seq<RunEvent>, LedgerError>)
      requires Valid()
      ensures r == if EventLog.IsBlank(runId) then Err(EmptyRunId)
                   else if runId !in eventsByRun then Err(RunNotFound)
                   else Ok(eventsByRun[runId])
    {
      hide IsChain, CheckOrdered;
      if EventLog.IsBlank(runId) {
        return Err(EmptyRunId);
      }
      if runId !in eventsByRun {
        return Err(RunNotFound);
      }
      var events := eventsByRun[runId];
      r := ValidateOrderedRunEvents(hash, events, Some(runId));
      OrderedIsStream(hash, runId, events, |events|);
      assert events[..|events|] == events;
    }
  }
}
