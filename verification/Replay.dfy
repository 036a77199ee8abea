// Replaying a stored run: its inputs are given to a new kernel, its last final
// candidate is submitted again, and the outcome is compared with the stored one.
module Replay {
  import opened Wrappers
  import opened Protocol
  import opened Contracts
  import opened EventLog
  import opened EventOrder
  import opened KernelSpec
  import opened RunKernel
  import opened Resubmission

  datatype FailureCode =
    StreamIntegrityFailed | FinalCandidateMissing | ProofEventMissing | ReleaseEventMissing | ReplayDiverged

  datatype Note = TypesChanged | StatusChanged | MismatchTypesChanged | ApprovedIdsChanged

  datatype ReplayResult =
    | ReplayPassed(runId: string, replayedEvents: seq<RunEvent>, replayedDecision: ReleaseDecision,
             storedDecision: ReleaseDecision)
    | ReplayFailed(code: FailureCode, notes: seq<Note>)

  // Finding the parts of a stored run

  predicate IsFinalCandidate(e: RunEvent) {
    e.payload.ProposalReceived? && e.payload.proposal.FinalProposal?
  }

  function LastFinalCandidate(events: seq<RunEvent>): (r: Option<RunEvent>)
    ensures r.Some? ==> r.value in events && IsFinalCandidate(r.value)
  {
    if events == [] then None
    else if IsFinalCandidate(events[|events| - 1]) then Some(events[|events| - 1])
    else LastFinalCandidate(events[..|events| - 1])
  }

  method LastFinalCandidateEvent(events: seq<RunEvent>) returns (r: Option<RunEvent>)
    ensures r == LastFinalCandidate(events)
  {
    r := None;
    for i := 0 to |events|
      invariant r == LastFinalCandidate(events[..i])
    {
      assert events[..i + 1][..i] == events[..i];
      if IsFinalCandidate(events[i]) {
        r := Some(events[i]);
      }
    }
    assert events[..|events|] == events;
  }

  function FirstEventAfter(events: seq<RunEvent>, after: RunEvent, isType: Payload -> bool): (r: Option<RunEvent>)
    ensures r.Some? ==> r.value in events && isType(r.value.payload)
  {
    Find(events, (e: RunEvent) => isType(e.payload) && e.sequence > after.sequence)
  }

  function IsProofGenerated(): Payload -> bool { (p: Payload) => p.ProofGenerated? }

  function IsReleaseDecided(): Payload -> bool { (p: Payload) => p.ReleaseDecided? }

  function IsFinalReleased(): Payload -> bool { (p: Payload) => p.FinalReleased? }

  function MismatchesBetween(events: seq<RunEvent>, first: RunEvent, last: RunEvent): seq<RunEvent> {
    Filter(events, (e: RunEvent) => e.payload.MismatchDetected? && first.sequence < e.sequence < last.sequence)
  }

  predicate ProposesMutation(e: RunEvent, mutationId: string) {
    && e.payload.ProposalReceived? && e.payload.proposal.MutationProposal?
    && e.payload.proposal.mutation.mutationId == mutationId
  }

  /** `mutationProposalBefore`, from index n on. */
  function MutationProposalBefore(events: seq<RunEvent>, n: nat, before: RunEvent, mutationId: string)
    : Option<MutationCommandRequest>
    requires n <= |events|
    decreases |events| - n
  {
    if n == |events| || events[n].sequence >= before.sequence then None
    else if ProposesMutation(events[n], mutationId) then Some(events[n].payload.proposal.mutation)
    else MutationProposalBefore(events, n + 1, before, mutationId)
  }

  // Inputs

  /** What replay does with one stored event. */
  datatype ReplayStep = Repeat(call: Call) | Skip | Refuse

  function StepOf(events: seq<RunEvent>, e: RunEvent): ReplayStep {
    match e.payload
    case RunStarted(_, profile, metadata) => Repeat(StartRun(profile, metadata))
    case ProposalReceived(p) =>
      (match p
       case ToolProposal(t) => Repeat(SubmitToolCommand(t))
       case MutationProposal(m) => Repeat(SubmitMutationCommand(m))
       case FinalProposal(_) => Skip)
    case EffectRequested(x) => Repeat(RecordEffectRequest(x))
    case WritePreflightRequested(x) => Repeat(RecordPreflightRequested(x))
    case WritePreflightDecided(x) => Repeat(RecordPreflightDecided(x))
    case WriteQuarantined(x) => Repeat(RecordQuarantined(x))
    case ApprovalRequested(x) => Repeat(RecordApprovalRequested(x))
    case ApprovalGranted(x) => Repeat(RecordApprovalGranted(x))
    case ApprovalDenied(x) => Repeat(RecordApprovalDenied(x))
    case ApprovalExpired(x) => Repeat(RecordApprovalExpired(x))
    case MutationCommittedEvent(m) =>
      (match MutationProposalBefore(events, 0, e, m.mutationId)
       case Some(c) => Repeat(CommitMutation(c))
       case None => Refuse)
    case EffectReceiptRecorded(x) => Repeat(RecordEffectReceipt(x))
    case ExternalStateObserved(x) => Repeat(RecordObservation(x))
    case ProofGenerated(_) => Refuse
    case MismatchDetected(_) => Refuse
    case ReleaseDecided(_) => Refuse
    case FinalReleased(_, _) => Refuse
  }

  /** The log after one stored event has been replayed into it; None when replay stops. */
  function AfterStep(env: Env, events: seq<RunEvent>, e: RunEvent, log: seq<RunEvent>, at: Timestamp)
    : Option<seq<RunEvent>>
  {
    match StepOf(events, e)
    case Skip => Some(log)
    case Refuse => None
    case Repeat(call) =>
      var out := Record(env, log, call, OptionsFrom(e), at, at);
      if out.result.Ok? then Some(out.log) else None
  }

  /** `replayAcceptedInputsBeforeFinalCandidate`, from event n on. */
  function ReplayInputs(env: Env, events: seq<RunEvent>, n: nat, candidate: RunEvent, log: seq<RunEvent>, at: Timestamp)
    : Option<seq<RunEvent>>
    requires n <= |events|
    decreases |events| - n
  {
    if n == |events| || events[n].sequence >= candidate.sequence then Some(log)
    else
      match AfterStep(env, events, events[n], log, at)
      case None => None
      case Some(next) => ReplayInputs(env, events, n + 1, candidate, next, at)
  }

  // The final submission and the comparison

  function StoredOptions(events: seq<RunEvent>, candidate: RunEvent, proofEvent: RunEvent, releaseEvent: RunEvent)
    : FinalOptions
    requires proofEvent.payload.ProofGenerated?
  {
    var proof := proofEvent.payload.proof;
    var released := FirstEventAfter(events, releaseEvent, IsFinalReleased());
    FinalOptions(OptionsFrom(candidate), Some(proof.generatedAt), Some(proofEvent.eventId), Some(proof.proofId),
                 Some(Map(MismatchesBetween(events, proofEvent, releaseEvent), EventIdOf())),
                 Some(releaseEvent.eventId),
                 if released.Some? then Some(released.value.eventId) else None)
  }

  function Types(events: seq<RunEvent>): seq<string> {
    Map(events, (e: RunEvent) => TypeName(e.payload))
  }

  function MismatchTypes(p: ProofObject): seq<MismatchType> {
    Map(p.blockingMismatches, (m: Mismatch) => m.mismatchType)
  }

  predicate SameStatus(a: ReleaseStatus, b: ReleaseStatus) {
    && a.Released? == b.Released? && a.Blocked? == b.Blocked? && a.NeedsRepair? == b.NeedsRepair?
  }

  /** `events.slice(0, n)`. */
  function Slice(events: seq<RunEvent>, n: nat): seq<RunEvent> {
    if n <= |events| then events[..n] else events
  }

  function DivergenceNotes(events: seq<RunEvent>, replayed: seq<RunEvent>, proof: ProofObject,
                           decision: ReleaseDecision, storedProof: ProofObject, storedDecision: ReleaseDecision)
    : seq<Note>
  {
    (if Types(Slice(events, |replayed|)) != Types(replayed) then [TypesChanged] else [])
    + (if !SameStatus(decision.status, storedDecision.status) then [StatusChanged] else [])
    + (if MismatchTypes(storedProof) != MismatchTypes(proof) then [MismatchTypesChanged] else [])
    + (if storedDecision.approvedClaimIds != decision.approvedClaimIds then [ApprovedIdsChanged] else [])
  }

  function ReplayFinal(env: Env, events: seq<RunEvent>, candidate: RunEvent, proofEvent: RunEvent,
                       releaseEvent: RunEvent): ReplayResult
    requires IsFinalCandidate(candidate) && proofEvent.payload.ProofGenerated? && releaseEvent.payload.ReleaseDecided?
  {
    var storedProof, storedDecision := proofEvent.payload.proof, releaseEvent.payload.decision;
    var at := storedProof.generatedAt;
    match ReplayInputs(env, events, 0, candidate, [], at)
    case None => ReplayFailed(StreamIntegrityFailed, [])
    case Some(inputs) =>
      var out := SubmitFinal(env, inputs, candidate.payload.proposal.candidate,
                             StoredOptions(events, candidate, proofEvent, releaseEvent), at);
      match out.result
      case Err(_) => ReplayFailed(StreamIntegrityFailed, [])
      case Ok(final) =>
        var notes := DivergenceNotes(events, out.log, final.proof, final.decision, storedProof, storedDecision);
        if notes != [] then ReplayFailed(ReplayDiverged, notes)
        else ReplayPassed(env.runId, out.log, final.decision, storedDecision)
  }

  function ReplayOrdered(hash: Hasher, events: seq<RunEvent>, runId: Option<string>): ReplayResult {
    var run := ExpectedRun(events, runId);
    if run.None? then ReplayFailed(StreamIntegrityFailed, [])
    else
      match LastFinalCandidate(events)
      case None => ReplayFailed(FinalCandidateMissing, [])
      case Some(candidate) =>
        match FirstEventAfter(events, candidate, IsProofGenerated())
        case None => ReplayFailed(ProofEventMissing, [])
        case Some(proofEvent) =>
          match FirstEventAfter(events, proofEvent, IsReleaseDecided())
          case None => ReplayFailed(ReleaseEventMissing, [])
          case Some(releaseEvent) => ReplayFinal(Env(run.value, hash), events, candidate, proofEvent, releaseEvent)
  }

  predicate AllWellFormed(events: seq<RunEvent>) {
    forall e :: e in events ==> WellFormed(e)
  }

  function Replay(hash: Hasher, localeCompare: (string, string) -> int, events: seq<RunEvent>, runId: Option<string>)
    : ReplayResult
  {
    if !IsNumbered(events) || !AllWellFormed(events) then ReplayFailed(StreamIntegrityFailed, [])
    else
      match OrderAndValidate(hash, localeCompare, events, runId)
      case Err(_) => ReplayFailed(StreamIntegrityFailed, [])
      case Ok(ordered) => ReplayOrdered(hash, ordered, runId)
  }

  // The same, driving a kernel

  method ReplayAcceptedInputsBeforeFinalCandidate(events: seq<RunEvent>, candidate: RunEvent,
                                                  kernel: InMemoryRunKernel, at: Timestamp)
    returns (ok: bool)
    requires kernel.Valid()
    modifies kernel, kernel.ledger
    ensures kernel.Valid()
    ensures ReplayInputs(kernel.env, events, 0, candidate, old(kernel.Log()), at)
         == if ok then Some(kernel.Log()) else None
  {
    hide Record, Fold, InMemoryRunKernel.View, StepOf;
    for n := 0 to |events|
      invariant kernel.Valid()
      invariant ReplayInputs(kernel.env, events, 0, candidate, old(kernel.Log()), at)
             == ReplayInputs(kernel.env, events, n, candidate, kernel.Log(), at)
    {
      if events[n].sequence >= candidate.sequence {
        return true;
      }
      var step := StepOf(events, events[n]);
      if step.Refuse? {
        return false;
      }
      if step.Repeat? {
        var recorded := Perform(kernel, step.call, OptionsFrom(events[n]), at, at);
        if recorded.Err? {
          return false;
        }
      }
    }
    ok := true;
  }

  method ReplayRunEvents(hash: Hasher, localeCompare: (string, string) -> int, input: seq<RunEvent>,
                         runId: Option<string>) returns (r: ReplayResult)
    ensures r == Replay(hash, localeCompare, input, runId)
  {
    hide Record, Fold, InMemoryRunKernel.View, StepOf, IsBlank, SubmitFinal, WellFormed, OrderAndValidate,
      CheckNextEvent, DivergenceNotes, ReplayInputs, StoredOptions, InMemoryLedger.Valid;
    if !IsNumbered(input) || !AllWellFormed(input) {
      return ReplayFailed(StreamIntegrityFailed, []);
    }
    var ordered := OrderAndValidateRunEvents(hash, localeCompare, input, runId);
    if ordered.Err? {
      return ReplayFailed(StreamIntegrityFailed, []);
    }
    var events := ordered.value;
    var run := ExpectedRun(events, runId);
    if run.None? {
      return ReplayFailed(StreamIntegrityFailed, []);
    }
    var candidate := LastFinalCandidateEvent(events);
    if candidate.None? {
      return ReplayFailed(FinalCandidateMissing, []);
    }
    var proofEvent := FirstEventAfter(events, candidate.value, IsProofGenerated());
    if proofEvent.None? {
      return ReplayFailed(ProofEventMissing, []);
    }
    var releaseEvent := FirstEventAfter(events, proofEvent.value, IsReleaseDecided());
    if releaseEvent.None? {
      return ReplayFailed(ReleaseEventMissing, []);
    }
    OrderedRunIsNamed(hash, localeCompare, input, runId);
    var at := proofEvent.value.payload.proof.generatedAt;
    var kernel := new InMemoryRunKernel(Env(run.value, hash));
    var replayed := ReplayAcceptedInputsBeforeFinalCandidate(events, candidate.value, kernel, at);
    if !replayed {
      return ReplayFailed(StreamIntegrityFailed, []);
    }
    var stored := StoredOptions(events, candidate.value, proofEvent.value, releaseEvent.value);
    var final := kernel.SubmitFinalCandidate(candidate.value.payload.proposal.candidate, stored, at);
    if final.Err? {
      return ReplayFailed(StreamIntegrityFailed, []);
    }
    var notes := DivergenceNotes(events, kernel.Log(), final.value.proof, final.value.decision,
                                 proofEvent.value.payload.proof, releaseEvent.value.payload.decision);
    if notes != [] {
      return ReplayFailed(ReplayDiverged, notes);
    }
    r := ReplayPassed(run.value, kernel.Log(), final.value.decision, releaseEvent.value.payload.decision);
  }

  /** An accepted stream with an event has a run with a name. */
  lemma OrderedRunIsNamed(hash: Hasher, localeCompare: (string, string) -> int, events: seq<RunEvent>,
                          runId: Option<string>)
    requires var r := OrderAndValidate(hash, localeCompare, events, runId); r.Ok? && r.value != []
    ensures var ordered := OrderAndValidate(hash, localeCompare, events, runId).value;
      && ExpectedRun(ordered, runId).Some?
      && !IsBlank(ExpectedRun(ordered, runId).value)
      && IsChain(hash, ExpectedRun(ordered, runId).value, ordered)
  {
    hide IsBlank, IsCaused, CheckNextEvent;
    var ordered := OrderAndValidate(hash, localeCompare, events, runId).value;
    var run := ExpectedRun(ordered, runId).value;
    FaultlessIsChain(hash, run, ordered, |ordered|);
    assert ordered[..|ordered|] == ordered;
    assert ordered[0].runId == run;
  }
}
