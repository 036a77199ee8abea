// The run kernel as transitions on its log alone: every guard looks back
// through the fold of the log, and a call is described by the log it leaves.
module KernelSpec {
  import opened Wrappers
  import opened Protocol
  import opened Contracts
  import opened EventLog
  import opened ProofEngine
  import opened ReleaseGate

  /** The calls that record one event. */
  datatype Call =
    | StartRun(profile: Option<string>, metadata: Option<JsonObject>)
    | SubmitToolCommand(tool: ToolCommandRequest)
    | SubmitMutationCommand(command: MutationCommandRequest)
    | RecordEffectRequest(effectRequest: EffectRequest)
    | RecordPreflightRequested(candidate: WritePreflightCandidate)
    | RecordPreflightDecided(decision: WritePreflightDecision)
    | RecordQuarantined(quarantine: WriteQuarantineState)
    | RecordApprovalRequested(request: ApprovalRequest)
    | RecordApprovalGranted(grant: ApprovalGrant)
    | RecordApprovalDenied(denial: ApprovalDenial)
    | RecordApprovalExpired(expiry: ApprovalExpiry)
    | CommitMutation(command: MutationCommandRequest)
    | RecordEffectReceipt(receipt: EffectReceipt)
    | RecordObservation(observation: ExternalStateObservation)

  // Guards, each None when the call may go on

  function CheckRunId(env: Env, runId: string): Option<KernelError> {
    if runId != env.runId then Some(RunIdMismatch) else None
  }

  function FirstError(a: Option<KernelError>, b: Option<KernelError>): Option<KernelError> {
    if a.Some? then a else b
  }

  function CommandBody(c: MutationCommandRequest): HashInput {
    OfCommandBody(c.(payloadHash := Sha256("")))
  }

  function CheckCommandHash(env: Env, c: MutationCommandRequest): Option<KernelError> {
    if c.payloadHash != env.hash(CommandBody(c)) then Some(MutationHashMismatch) else None
  }

  function CandidateById(f: Fields, preflightId: string): Option<WritePreflightCandidate> {
    Find(f.preflightCandidates, (c: WritePreflightCandidate) => c.preflightId == preflightId)
  }

  predicate DecisionFitsCandidate(d: WritePreflightDecision, c: WritePreflightCandidate) {
    && c.runId == d.runId && c.commandId == d.commandId && c.capabilityId == d.capabilityId
    && c.toolId == d.toolId && c.sideEffectClass == d.sideEffectClass && c.idempotencyKey == d.idempotencyKey
  }

  predicate QuarantineFitsDecision(q: WriteQuarantineState, d: WritePreflightDecision) {
    && q.runId == d.runId && q.preflightId == d.preflightId && q.commandId == d.commandId
    && q.capabilityId == d.capabilityId && q.toolId == d.toolId && q.sideEffectClass == d.sideEffectClass
    && q.idempotencyKey == d.idempotencyKey
  }

  predicate QuarantineFitsCandidate(q: WriteQuarantineState, c: WritePreflightCandidate) {
    && c.runId == q.runId && c.commandId == q.commandId && c.capabilityId == q.capabilityId
    && c.toolId == q.toolId && c.sideEffectClass == q.sideEffectClass && c.idempotencyKey == q.idempotencyKey
  }

  function CheckDecision(f: Fields, d: WritePreflightDecision): Option<KernelError> {
    match CandidateById(f, d.preflightId)
    case None => Some(PreflightRequestNotFound)
    case Some(c) =>
      if !DecisionFitsCandidate(d, c) then Some(PreflightMismatch)
      else if d.status.Quarantined? && !QuarantineFitsDecision(d.status.quarantine, d) then Some(QuarantineMismatch)
      else None
  }

  function CriticalScope(d: WritePreflightDecision): ApprovalScope {
    WritePreflightScope(d.preflightId, d.commandId, d.capabilityId, d.toolId, d.sideEffectClass, d.idempotencyKey)
  }

  predicate SameScope(env: Env, a: ApprovalScope, b: ApprovalScope) {
    env.hash(OfScope(a)) == env.hash(OfScope(b))
  }

  function GrantById(f: Fields, approvalId: string): Option<ApprovalGrant> {
    Find(f.approvalGrants, (g: ApprovalGrant) => g.approvalId == approvalId)
  }

  predicate IsDeniedApproval(f: Fields, approvalId: string) {
    exists d :: d in f.approvalDenials && d.approvalId == approvalId
  }

  predicate IsExpiredApproval(f: Fields, approvalId: string) {
    exists x :: x in f.approvalExpiries && x.approvalId == approvalId
  }

  function CheckCriticalApproval(env: Env, f: Fields, d: WritePreflightDecision): Option<KernelError> {
    if !(d.status.Allowed? && d.sideEffectClass == CriticalWrite) then None
    else if d.status.approvalId.None? then Some(ApprovalRequired)
    else
      var id := d.status.approvalId.value;
      match GrantById(f, id)
      case None => Some(ApprovalRequired)
      case Some(g) =>
        if !SameScope(env, g.scope, CriticalScope(d)) then Some(ApprovalScopeMismatch)
        else if IsDeniedApproval(f, id) then Some(IsDenied)
        else if IsExpiredApproval(f, id) || !NotAfter(d.decidedAt, g.expiresAt) then Some(IsExpired)
        else None
  }

  function QuarantineDecisionFor(f: Fields, q: WriteQuarantineState): Option<WritePreflightDecision> {
    Find(f.preflightDecisions,
         (d: WritePreflightDecision) => d.status.Quarantined? && d.preflightId == q.preflightId
           && d.status.quarantine.quarantineId == q.quarantineId)
  }

  function CheckQuarantine(env: Env, f: Fields, q: WriteQuarantineState): Option<KernelError> {
    match CandidateById(f, q.preflightId)
    case None => Some(PreflightRequestNotFound)
    case Some(c) =>
      if !QuarantineFitsCandidate(q, c) then Some(QuarantineMismatch)
      else
        match QuarantineDecisionFor(f, q)
        case None => Some(PreflightDecisionNotFound)
        case Some(d) =>
          if env.hash(OfQuarantine(d.status.quarantine)) != env.hash(OfQuarantine(q)) then Some(QuarantineMismatch)
          else None
  }

  function RequestById(f: Fields, approvalId: string): Option<ApprovalRequest> {
    Find(f.approvalRequests, (r: ApprovalRequest) => r.approvalId == approvalId)
  }

  /** `assertApprovalMatchesRequest`; only a grant has a deadline. */
  function CheckApproval(env: Env, f: Fields, approvalId: string, runId: string, scope: ApprovalScope,
                         grantedAt: Option<Timestamp>): Option<KernelError> {
    match RequestById(f, approvalId)
    case None => Some(ApprovalRequestNotFound)
    case Some(r) =>
      if r.runId != runId || !SameScope(env, r.scope, scope) then Some(ApprovalScopeMismatch)
      else if grantedAt.Some? && !NotAfter(grantedAt.value, r.expiresAt) then Some(IsExpired)
      else None
  }

  function ProposalFor(f: Fields, c: MutationCommandRequest): Option<Proposal> {
    Find(f.proposals,
         (p: Proposal) => p.MutationProposal? && p.mutation.commandId == c.commandId
           && p.mutation.mutationId == c.mutationId)
  }

  function CheckProposed(env: Env, f: Fields, c: MutationCommandRequest): Option<KernelError> {
    match ProposalFor(f, c)
    case None => Some(MutationProposalNotFound)
    case Some(p) =>
      if env.hash(OfCommand(p.mutation)) != env.hash(OfCommand(c)) then Some(MutationHashMismatch) else None
  }

  function CheckRevision(f: Fields, c: MutationCommandRequest): Option<KernelError> {
    if Revision(f, c.stateRef) != c.expectedRevision then Some(MutationStaleRevision) else None
  }

  function Committed(env: Env, revision: nat, c: MutationCommandRequest, committedAt: Timestamp): MutationCommitted {
    MutationCommitted(
      c.mutationId, c.commandId, c.runId, c.stateRef, revision, revision + 1, c.operation, c.provenance, committedAt,
      env.hash(OfMutationBody(c.mutationId, c.commandId, c.runId, c.stateRef, revision, revision + 1, c.operation,
                              c.provenance, c.metadata)),
      c.metadata)
  }

  function CheckEffectRequest(f: Fields, r: EffectReceipt): Option<KernelError> {
    match Find(f.effectRequests, (q: EffectRequest) => q.effectId == r.effectId)
    case None => Some(EffectRequestNotFound)
    case Some(q) => if q.capabilityId != r.capabilityId then Some(EffectRequestMismatch) else None
  }

  function CheckObjectHash(env: Env, payload: JsonObject, payloadHash: Digest): Option<KernelError> {
    if payloadHash != env.hash(OfObject(payload)) then Some(PayloadHashMismatch) else None
  }

  function CheckEvidence(evidence: seq<EvidenceRef>, eventId: string, kind: EvidenceKind, hash: Digest)
    : Option<KernelError>
  {
    if exists e :: e in evidence && e.sourceEventId != eventId then Some(EvidenceSourceEventMismatch)
    else if exists e :: e in evidence && e.kind != kind then Some(EvidenceKindMismatch)
    else if exists e :: e in evidence && e.hash != hash then Some(EvidenceHashMismatch)
    else None
  }

  function CheckReceipt(env: Env, f: Fields, r: EffectReceipt, eventId: string): Option<KernelError> {
    FirstError(CheckEffectRequest(f, r),
      FirstError(CheckObjectHash(env, r.payload, r.payloadHash),
        CheckEvidence(r.evidence, eventId, EffectReceiptEvidence, r.payloadHash)))
  }

  function CheckObservation(env: Env, o: ExternalStateObservation, eventId: string): Option<KernelError> {
    FirstError(CheckObjectHash(env, o.observedState, o.payloadHash),
      CheckEvidence(o.evidence, eventId, ExternalObservationEvidence, o.payloadHash))
  }

  // Calls

  predicate ValidCall(call: Call) {
    match call
    case StartRun(_, _) => true
    case SubmitToolCommand(x) => ValidToolCommand(x)
    case SubmitMutationCommand(x) => ValidMutationCommand(x)
    case RecordEffectRequest(x) => ValidEffectRequest(x)
    case RecordPreflightRequested(x) => ValidPreflightCandidate(x)
    case RecordPreflightDecided(x) => ValidPreflightDecision(x)
    case RecordQuarantined(x) => ValidQuarantine(x)
    case RecordApprovalRequested(x) => ValidApprovalRequest(x)
    case RecordApprovalGranted(x) => ValidApprovalGrant(x)
    case RecordApprovalDenied(x) => ValidApprovalDenial(x)
    case RecordApprovalExpired(x) => ValidApprovalExpiry(x)
    case CommitMutation(x) => ValidMutationCommand(x)
    case RecordEffectReceipt(x) => ValidEffectReceipt(x)
    case RecordObservation(x) => ValidObservation(x)
  }

  function RunIdOf(env: Env, call: Call): string {
    match call
    case StartRun(_, _) => env.runId
    case SubmitToolCommand(x) => x.runId
    case SubmitMutationCommand(x) => x.runId
    case RecordEffectRequest(x) => x.runId
    case RecordPreflightRequested(x) => x.runId
    case RecordPreflightDecided(x) => x.runId
    case RecordQuarantined(x) => x.runId
    case RecordApprovalRequested(x) => x.runId
    case RecordApprovalGranted(x) => x.runId
    case RecordApprovalDenied(x) => x.runId
    case RecordApprovalExpired(x) => x.runId
    case CommitMutation(x) => x.runId
    case RecordEffectReceipt(x) => x.runId
    case RecordObservation(x) => x.runId
  }

  /** The guard of each call once the run has started, the input parsed and its run id agreed. */
  function CheckCall(env: Env, f: Fields, call: Call, eventId: string, committedAt: Timestamp): Option<KernelError> {
    match call
    case StartRun(_, _) => None
    case SubmitToolCommand(_) => None
    case SubmitMutationCommand(c) => CheckCommandHash(env, c)
    case RecordEffectRequest(_) => None
    case RecordPreflightRequested(_) => None
    case RecordPreflightDecided(d) => FirstError(CheckDecision(f, d), CheckCriticalApproval(env, f, d))
    case RecordQuarantined(q) => CheckQuarantine(env, f, q)
    case RecordApprovalRequested(_) => None
    case RecordApprovalGranted(g) => CheckApproval(env, f, g.approvalId, g.runId, g.scope, Some(g.grantedAt))
    case RecordApprovalDenied(d) => CheckApproval(env, f, d.approvalId, d.runId, d.scope, None)
    case RecordApprovalExpired(x) => CheckApproval(env, f, x.approvalId, x.runId, x.scope, None)
    case CommitMutation(c) =>
      FirstError(CheckCommandHash(env, c),
        FirstError(CheckProposed(env, f, c),
          FirstError(CheckRevision(f, c), if ValidTime(committedAt) then None else Some(SchemaInvalid))))
    case RecordEffectReceipt(r) => CheckReceipt(env, f, r, eventId)
    case RecordObservation(o) => CheckObservation(env, o, eventId)
  }

  function PayloadOf(env: Env, f: Fields, call: Call, committedAt: Timestamp): Payload {
    match call
    case StartRun(profile, metadata) => RunStarted(env.runId, profile, metadata)
    case SubmitToolCommand(x) => ProposalReceived(ToolProposal(x))
    case SubmitMutationCommand(x) => ProposalReceived(MutationProposal(x))
    case RecordEffectRequest(x) => EffectRequested(x)
    case RecordPreflightRequested(x) => WritePreflightRequested(x)
    case RecordPreflightDecided(x) => WritePreflightDecided(x)
    case RecordQuarantined(x) => WriteQuarantined(x)
    case RecordApprovalRequested(x) => ApprovalRequested(x)
    case RecordApprovalGranted(x) => ApprovalGranted(x)
    case RecordApprovalDenied(x) => ApprovalDenied(x)
    case RecordApprovalExpired(x) => ApprovalExpired(x)
    case CommitMutation(c) => MutationCommittedEvent(Committed(env, Revision(f, c.stateRef), c, committedAt))
    case RecordEffectReceipt(x) => EffectReceiptRecorded(x)
    case RecordObservation(x) => ExternalStateObserved(x)
  }

  /** Whether the call may record its event now, seen from the fields alone. */
  function Admit(env: Env, f: Fields, call: Call, eventId: string, committedAt: Timestamp): Option<KernelError> {
    if call.StartRun? then (if f.started.Some? then Some(RunAlreadyStarted) else None)
    else if f.started.None? then Some(RunNotStarted)
    else if !ValidCall(call) then Some(SchemaInvalid)
    else FirstError(CheckRunId(env, RunIdOf(env, call)), CheckCall(env, f, call, eventId, committedAt))
  }

  /** `withDefaultCausation`, and `?? null` for the first event. */
  function WithDefaultCausation(f: Fields, o: EventOptions): EventOptions {
    o.(causationId := if o.causationId.Some? then o.causationId else Some(f.started))
  }

  /**
   * One recording call.  The clock is read once for the committed time of a mutation and once for the event;
   * `clock` and `clockAgain` are what it says.
   */
  function Record(env: Env, log: seq<RunEvent>, call: Call, o: EventOptions, clock: Timestamp, clockAgain: Timestamp)
    : Outcome<RunEvent>
  {
    var f := Fold(log);
    var committedAt := o.occurredAt.GetOr(clock);
    var payload := PayloadOf(env, f, call, committedAt);
    var eventId := o.eventId.GetOr(NextEventId(env.runId, |log|, TypeName(payload)));
    match Admit(env, f, call, eventId, committedAt)
    case Some(e) => Outcome(log, Err(e))
    case None => AppendEvent(env, log, payload, WithDefaultCausation(f, o.(eventId := Some(eventId))), clockAgain)
  }

  // Final submission

  datatype FinalOptions = FinalOptions(
    event: EventOptions,
    generatedAt: Option<Timestamp>,
    proofEventId: Option<string>,
    proofId: Option<string>,
    mismatchEventIds: Option<seq<string>>,
    releaseEventId: Option<string>,
    finalReleasedEventId: Option<string>)

  datatype FinalResult = FinalResult(
    proof: ProofObject,
    decision: ReleaseDecision,
    proposalEvent: RunEvent,
    proofEvent: RunEvent,
    mismatchEvents: seq<RunEvent>,
    releaseEvent: RunEvent,
    finalReleasedEvent: Option<RunEvent>)

  /** `emittedEvents`: what a completed submission added, in order. */
  function Emitted(r: FinalResult): seq<RunEvent> {
    [r.proposalEvent, r.proofEvent] + r.mismatchEvents + [r.releaseEvent]
    + if r.finalReleasedEvent.Some? then [r.finalReleasedEvent.value] else []
  }

  /** The options of the events a submission generates. */
  function TailOptions(o: FinalOptions, eventId: Option<string>, generatedAt: Timestamp, causationId: string)
    : EventOptions
  {
    EventOptions(eventId, Some(generatedAt), None, Some(Some(causationId)), o.event.correlationId)
  }

  /** One mismatch event each, in order, after the first `done` of them. */
  function AppendMismatches(env: Env, log: seq<RunEvent>, mismatches: seq<Mismatch>, done: nat, o: FinalOptions,
                            generatedAt: Timestamp, proofEventId: string): Outcome<seq<RunEvent>>
    requires done <= |mismatches|
    decreases |mismatches| - done
  {
    if done == |mismatches| then Outcome(log, Ok([]))
    else if o.mismatchEventIds.Some? && done >= |o.mismatchEventIds.value| then Outcome(log, Err(InsufficientEventIds))
    else
      var id := if o.mismatchEventIds.Some? then Some(o.mismatchEventIds.value[done]) else None;
      var out := AppendEvent(env, log, MismatchDetected(mismatches[done]),
                             TailOptions(o, id, generatedAt, proofEventId), generatedAt);
      if out.result.Err? then Outcome(out.log, Err(out.result.error))
      else
        var rest := AppendMismatches(env, out.log, mismatches, done + 1, o, generatedAt, proofEventId);
        if rest.result.Err? then rest else Outcome(rest.log, Ok([out.result.value] + rest.result.value))
  }

  function ProofInputOf(f: Fields, c: FinalCandidate, generatedAt: Timestamp, proofId: Option<string>): ProofInput {
    ProofInput(c, f.effectReceipts, f.observations, generatedAt, proofId)
  }

  /** From the recorded candidate on: proof, mismatches, decision, release. */
  function Conclude(env: Env, log: seq<RunEvent>, c: FinalCandidate, proposalEvent: RunEvent, o: FinalOptions)
    : Outcome<FinalResult>
  {
    var generatedAt := o.generatedAt.GetOr(proposalEvent.occurredAt);
    var proof := EvaluateProof(env.hash, ProofInputOf(Fold(log), c, generatedAt, o.proofId));
    if !ValidProof(proof) then Outcome(log, Err(SchemaInvalid))
    else
      var proofOut := AppendEvent(env, log, ProofGenerated(proof),
                                  TailOptions(o, o.proofEventId, generatedAt, proposalEvent.eventId), generatedAt);
      if proofOut.result.Err? then Outcome(proofOut.log, Err(proofOut.result.error))
      else
        var proofEvent := proofOut.result.value;
        var mismatchOut :=
          AppendMismatches(env, proofOut.log, proof.blockingMismatches, 0, o, generatedAt, proofEvent.eventId);
        if mismatchOut.result.Err? then Outcome(mismatchOut.log, Err(mismatchOut.result.error))
        else Decide(env, mismatchOut.log, c, proposalEvent, proofEvent, proof, mismatchOut.result.value, generatedAt, o)
  }

  function Decide(env: Env, log: seq<RunEvent>, c: FinalCandidate, proposalEvent: RunEvent, proofEvent: RunEvent,
                  proof: ProofObject, mismatchEvents: seq<RunEvent>, generatedAt: Timestamp, o: FinalOptions)
    : Outcome<FinalResult>
  {
    var decision := DecideRelease(c, proof);
    if !ValidDecision(decision) then Outcome(log, Err(SchemaInvalid))
    else
      var releaseOut := AppendEvent(env, log, ReleaseDecided(decision),
                                    TailOptions(o, o.releaseEventId, generatedAt, proofEvent.eventId), generatedAt);
      if releaseOut.result.Err? then Outcome(releaseOut.log, Err(releaseOut.result.error))
      else
        var releaseEvent := releaseOut.result.value;
        var result := FinalResult(proof, decision, proposalEvent, proofEvent, mismatchEvents, releaseEvent, None);
        if !decision.status.Released? then Outcome(releaseOut.log, Ok(result))
        else
          var finalOut := AppendEvent(env, releaseOut.log, FinalReleased(decision, c),
                                      TailOptions(o, o.finalReleasedEventId, generatedAt, releaseEvent.eventId),
                                      generatedAt);
          if finalOut.result.Err? then Outcome(finalOut.log, Err(finalOut.result.error))
          else Outcome(finalOut.log, Ok(result.(finalReleasedEvent := Some(finalOut.result.value))))
  }

  /** `submitFinalCandidate`: it may throw midway and leave part of its events behind. */
  function SubmitFinal(env: Env, log: seq<RunEvent>, c: FinalCandidate, o: FinalOptions, clock: Timestamp)
    : Outcome<FinalResult>
  {
    var f := Fold(log);
    if f.started.None? then Outcome(log, Err(RunNotStarted))
    else if !ValidCandidate(c) then Outcome(log, Err(SchemaInvalid))
    else if c.runId != env.runId then Outcome(log, Err(RunIdMismatch))
    else
      var out := AppendEvent(env, log, ProposalReceived(FinalProposal(c)), WithDefaultCausation(f, o.event), clock);
      if out.result.Err? then Outcome(out.log, Err(out.result.error))
      else Conclude(env, out.log, c, out.result.value, o)
  }

  // Runs

  datatype Request =
    | Recording(call: Call, options: EventOptions, clock: Timestamp, clockAgain: Timestamp)
    | Submission(candidate: FinalCandidate, finalOptions: FinalOptions, clock: Timestamp)

  function After(env: Env, log: seq<RunEvent>, r: Request): seq<RunEvent> {
    match r
    case Recording(call, options, clock, again) => Record(env, log, call, options, clock, again).log
    case Submission(c, options, clock) => SubmitFinal(env, log, c, options, clock).log
  }

  /** The log after any sequence of calls, whether each returned or threw. */
  function Run(env: Env, requests: seq<Request>): seq<RunEvent> {
    if requests == [] then []
    else After(env, Run(env, requests[..|requests| - 1]), requests[|requests| - 1])
  }
}
