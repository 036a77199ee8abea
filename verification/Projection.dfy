// Rebuilding a run's projection from its accepted events.
module Projection {
  import opened Wrappers
  import opened Protocol
  import opened Contracts
  import opened EventLog
  import opened EventOrder

  datatype ProjectionError =
    | EventInvalid | EmptyEventStream | MissingRunStarted | RunMismatch | InvalidEventOrder | RepeatedEventId
    | HashMismatch | UnknownCause

  datatype ProjectionStatus = OnlyStarted | Running | Concluded(decision: ReleaseStatus)

  datatype RunProjection = RunProjection(
    runId: string, profile: Option<string>, metadata: Option<JsonObject>,
    startedAt: Timestamp, lastEventAt: Timestamp, lastSequence: nat,
    eventIds: seq<string>,
    proposals: seq<Proposal>, effectRequests: seq<EffectRequest>, receipts: seq<EffectReceipt>,
    observations: seq<ExternalStateObservation>, finalCandidates: seq<FinalCandidate>, proofs: seq<ProofObject>,
    mismatches: seq<Mismatch>, releaseDecisions: seq<ReleaseDecision>,
    finalReleased: bool, finalReleasedCandidate: Option<FinalCandidate>)
  {
    /** The status of the summary: the last decision's, or how far the run has come. */
    function Status(): ProjectionStatus {
      if releaseDecisions != [] then Concluded(releaseDecisions[|releaseDecisions| - 1].status)
      else if |eventIds| == 1 then OnlyStarted
      else Running
    }
  }

  // Accepted sequences

  function CheckAccepted(hash: Hasher, runId: string, before: seq<RunEvent>, e: RunEvent): Option<ProjectionError> {
    if !WellFormed(e) then Some(EventInvalid)
    else if e.runId != runId then Some(RunMismatch)
    else if e.sequence != |before| + 1 then Some(InvalidEventOrder)
    else if e.eventId in EventIds(before) then Some(RepeatedEventId)
    else if e.payloadHash != hash(OfPayload(e.payload)) then Some(HashMismatch)
    else if e.causationId.Some? && e.causationId.value !in EventIds(before) then Some(UnknownCause)
    else None
  }

  function AcceptanceFault(hash: Hasher, runId: string, events: seq<RunEvent>, n: nat): Option<ProjectionError>
    requires n <= |events|
  {
    if n == 0 then None
    else
      var earlier := AcceptanceFault(hash, runId, events, n - 1);
      if earlier.Some? then earlier else CheckAccepted(hash, runId, events[..n - 1], events[n - 1])
  }

  lemma {:induction false} FaultRemains(hash: Hasher, runId: string, events: seq<RunEvent>, n: nat, m: nat)
    requires n <= m <= |events|
    ensures AcceptanceFault(hash, runId, events, n).Some?
        ==> AcceptanceFault(hash, runId, events, m) == AcceptanceFault(hash, runId, events, n)
    decreases m
  {
    hide CheckAccepted;
    if n < m {
      FaultRemains(hash, runId, events, n, m - 1);
    }
  }

  predicate IsAccepted(hash: Hasher, runId: string, events: seq<RunEvent>) {
    IsLinked(hash, runId, events) && forall i :: 0 <= i < |events| ==> WellFormed(events[i])
  }

  lemma PrefixIsAccepted(hash: Hasher, runId: string, events: seq<RunEvent>, n: nat)
    requires n <= |events| && IsAccepted(hash, runId, events)
    ensures IsAccepted(hash, runId, events[..n])
  {
    hide WellFormed, IsCaused;
    var front := events[..n];
    forall i | 0 <= i < |front|
      ensures IsCaused(front, i)
    {
      CausedInFront(events, n, i);
    }
  }

  lemma CausedInFront(events: seq<RunEvent>, n: nat, i: nat)
    requires i < n <= |events| && IsCaused(events, i)
    ensures IsCaused(events[..n], i)
  {
    if events[i].causationId.Some? {
      var j :| 0 <= j < i && events[j].eventId == events[i].causationId.value;
      assert events[..n][j] == events[j];
    }
  }

  /** One more event is accepted exactly when nothing is wrong with it. */
  lemma NextIsAccepted(hash: Hasher, runId: string, before: seq<RunEvent>, e: RunEvent)
    requires IsAccepted(hash, runId, before)
    ensures IsAccepted(hash, runId, before + [e]) <==> CheckAccepted(hash, runId, before, e).None?
  {
    hide WellFormed, IsCaused;
    var now, n := before + [e], |before|;
    assert now[..n] == before && now[n] == e;
    NextIsCaused(now, n);
    if IsAccepted(hash, runId, now) {
      assert forall j :: 0 <= j < n ==> now[j].eventId != now[n].eventId;
    } else {
      forall i | 0 <= i < n
        ensures IsCaused(now, i)
      {
        CausedInPrefix(now, n, i);
      }
    }
  }

  /** The checks accept exactly the linked sequences of well-formed events. */
  lemma {:induction false} FaultlessIsAccepted(hash: Hasher, runId: string, events: seq<RunEvent>, n: nat)
    requires n <= |events|
    ensures AcceptanceFault(hash, runId, events, n).None? <==> IsAccepted(hash, runId, events[..n])
  {
    hide WellFormed, IsCaused, IsLinked, CheckAccepted;
    if n == 0 {
      NothingIsAccepted(hash, runId);
    } else {
      FaultlessIsAccepted(hash, runId, events, n - 1);
      var front := events[..n - 1];
      assert events[..n] == front + [events[n - 1]];
      if IsAccepted(hash, runId, events[..n]) {
        assert events[..n][..n - 1] == front;
        PrefixIsAccepted(hash, runId, events[..n], n - 1);
      }
      if IsAccepted(hash, runId, front) {
        NextIsAccepted(hash, runId, front, events[n - 1]);
      }
    }
  }

  lemma NothingIsAccepted(hash: Hasher, runId: string)
    ensures IsAccepted(hash, runId, [])
  {
  }

  method ValidateAcceptedEventSequence(hash: Hasher, events: seq<RunEvent>)
    returns (r: Result<seq<RunEvent>, ProjectionError>)
    ensures r.Ok? <==> events == [] || IsAccepted(hash, events[0].runId, events)
    ensures r.Ok? ==> r.value == events
    ensures r.Err? ==> events != [] && AcceptanceFault(hash, events[0].runId, events, |events|) == Some(r.error)
  {
    hide WellFormed, IsAccepted;
    if |events| == 0 {
      return Ok([]);
    }
    var expectedRunId := events[0].runId;
    var seenEventIds: set<string>, acceptedEvents := {}, [];
    FaultlessIsAccepted(hash, expectedRunId, events, |events|);
    assert events[..|events|] == events;
    for index := 0 to |events|
      invariant seenEventIds == EventIds(events[..index])
      invariant acceptedEvents == events[..index]
      invariant AcceptanceFault(hash, expectedRunId, events, index).None?
    {
      var event := events[index];
      FaultRemains(hash, expectedRunId, events, index + 1, |events|);
      if !WellFormed(event) {
        return Err(EventInvalid);
      }
      if event.runId != expectedRunId {
        return Err(RunMismatch);
      }
      if event.sequence != index + 1 {
        return Err(InvalidEventOrder);
      }
      if event.eventId in seenEventIds {
        return Err(RepeatedEventId);
      }
      if event.payloadHash != hash(OfPayload(event.payload)) {
        return Err(HashMismatch);
      }
      if event.causationId.Some? && event.causationId.value !in seenEventIds {
        return Err(UnknownCause);
      }
      assert events[..index + 1] == events[..index] + [event];
      seenEventIds := seenEventIds + {event.eventId};
      acceptedEvents := acceptedEvents + [event];
    }
    r := Ok(acceptedEvents);
  }

  // The projection

  function Started(e: RunEvent): RunProjection
    requires e.payload.RunStarted?
  {
    RunProjection(e.payload.runId, e.payload.profile, e.payload.metadata, e.occurredAt, e.occurredAt, e.sequence,
                  [e.eventId], [], [], [], [], [], [], [], [], false, None)
  }

  /** Every event leaves its id, place and time. */
  function Noted(p: RunProjection, e: RunEvent): RunProjection {
    p.(eventIds := p.eventIds + [e.eventId], lastSequence := e.sequence, lastEventAt := e.occurredAt)
  }

  function WithPayload(p: RunProjection, payload: Payload): RunProjection {
    match payload
    case ProposalReceived(x) =>
      p.(proposals := p.proposals + [x],
         finalCandidates := if x.FinalProposal? then p.finalCandidates + [x.candidate] else p.finalCandidates)
    case EffectRequested(x) => p.(effectRequests := p.effectRequests + [x])
    case EffectReceiptRecorded(x) => p.(receipts := p.receipts + [x])
    case ExternalStateObserved(x) => p.(observations := p.observations + [x])
    case ProofGenerated(x) => p.(proofs := p.proofs + [x])
    case MismatchDetected(x) => p.(mismatches := p.mismatches + [x])
    case ReleaseDecided(x) => p.(releaseDecisions := p.releaseDecisions + [x])
    case FinalReleased(_, c) => p.(finalReleased := true, finalReleasedCandidate := Some(c))
    case _ => p
  }

  function Applied(p: RunProjection, e: RunEvent): RunProjection {
    WithPayload(Noted(p, e), e.payload)
  }

  /** The first event started the projection; the others were applied to it in order. */
  function Project(events: seq<RunEvent>): RunProjection
    requires events != [] && events[0].payload.RunStarted?
  {
    if |events| == 1 then Started(events[0])
    else Applied(Project(events[..|events| - 1]), events[|events| - 1])
  }

  class MutableRunProjection {
    const runId: string
    const profile: Option<string>
    const metadata: Option<JsonObject>
    const startedAt: Timestamp
    var lastEventAt: Timestamp
    var lastSequence: nat
    var eventIds: seq<string>
    var proposals: seq<Proposal>
    var effectRequests: seq<EffectRequest>
    var receipts: seq<EffectReceipt>
    var observations: seq<ExternalStateObservation>
    var finalCandidates: seq<FinalCandidate>
    var proofs: seq<ProofObject>
    var mismatches: seq<Mismatch>
    var releaseDecisions: seq<ReleaseDecision>
    var finalReleased: bool
    var finalReleasedCandidate: Option<FinalCandidate>

    constructor (event: RunEvent)
      requires event.payload.RunStarted?
      ensures ToProjection() == Started(event)
    {
      runId, profile, metadata := event.payload.runId, event.payload.profile, event.payload.metadata;
      startedAt, lastEventAt, lastSequence := event.occurredAt, event.occurredAt, event.sequence;
      eventIds := [event.eventId];
      proposals, effectRequests, receipts, observations := [], [], [], [];
      finalCandidates, proofs, mismatches, releaseDecisions := [], [], [], [];
      finalReleased, finalReleasedCandidate := false, None;
    }

    function ToProjection(): RunProjection
      reads this
    {
      RunProjection(runId, profile, metadata, startedAt, lastEventAt, lastSequence, eventIds, proposals, effectRequests,
                    receipts, observations, finalCandidates, proofs, mismatches, releaseDecisions, finalReleased,
                    finalReleasedCandidate)
    }

    method Apply(event: RunEvent)
      modifies this
      ensures ToProjection() == Applied(old(ToProjection()), event)
    {
      eventIds := eventIds + [event.eventId];
      lastSequence := event.sequence;
      lastEventAt := event.occurredAt;
      ApplyPayload(event.payload);
    }

    method ApplyPayload(payload: Payload)
      modifies this
      ensures ToProjection() == WithPayload(old(ToProjection()), payload)
    {
      if payload.ProposalReceived? {
        proposals := proposals + [payload.proposal];
        if payload.proposal.FinalProposal? {
          finalCandidates := finalCandidates + [payload.proposal.candidate];
        }
      } else if payload.EffectRequested? {
        effectRequests := effectRequests + [payload.effectRequest];
      } else if payload.EffectReceiptRecorded? {
        receipts := receipts + [payload.receipt];
      } else if payload.ExternalStateObserved? {
        observations := observations + [payload.observation];
      } else if payload.ProofGenerated? {
        proofs := proofs + [payload.proof];
      } else if payload.MismatchDetected? {
        mismatches := mismatches + [payload.mismatch];
      } else if payload.ReleaseDecided? {
        releaseDecisions := releaseDecisions + [payload.decision];
      } else if payload.FinalReleased? {
        finalReleased := true;
        finalReleasedCandidate := Some(payload.released);
      }
    }
  }

  method RebuildRunProjection(hash: Hasher, events: seq<RunEvent>) returns (r: Result<RunProjection, ProjectionError>)
    ensures r.Ok? <==> events != [] && IsAccepted(hash, events[0].runId, events) && events[0].payload.RunStarted?
    ensures r.Ok? ==> r.value == Project(events)
    ensures events == [] ==> r == Err(EmptyEventStream)
  {
    hide IsAccepted, Applied, CheckAccepted;
    var ordered := ValidateAcceptedEventSequence(hash, events);
    if ordered.Err? {
      return Err(ordered.error);
    }
    if |ordered.value| == 0 {
      return Err(EmptyEventStream);
    }
    var startedEvent := ordered.value[0];
    if !startedEvent.payload.RunStarted? {
      return Err(MissingRunStarted);
    }
    var projection := new MutableRunProjection(startedEvent);
    assert events[..1] == [startedEvent];
    for i := 1 to |ordered.value|
      invariant projection.ToProjection() == Project(events[..i])
    {
      assert events[..i + 1][..i] == events[..i];
      projection.Apply(ordered.value[i]);
    }
    assert events[..|events|] == events;
    r := Ok(projection.ToProjection());
  }
}
