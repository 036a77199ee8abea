// The protocol's values: proposals, evidence, receipts, approvals, proofs,
// decisions and the run event that records them.  Fields that no modelled
// branch reads are gathered in a `details` object.
module Protocol {
  import opened Wrappers

  /** A sha256-prefixed digest; its 64-digit form is correct by construction. */
  datatype Digest = Sha256(hex: string)

  /** An ISO date-time text with the instant `Date.parse` gives it, if it is valid. */
  datatype Timestamp = Timestamp(text: string, parsed: Option<int>)

  /** JSON values up to the order of object keys; a number is named by an integer, one for each value of a double. */
  datatype Json =
    | Null
    | Bool(b: bool)
    | Num(n: int)
    | Str(s: string)
    | Arr(items: seq<Json>)
    | Obj(fields: JsonObject)

  type JsonObject = map<string, Json>

  datatype SideEffectClass =
    Read | Compute | IdempotentWrite | ReversibleWrite | IrreversibleWrite | CriticalWrite

  predicate IsGovernedWrite(c: SideEffectClass) {
    c.IdempotentWrite? || c.ReversibleWrite? || c.IrreversibleWrite?
  }

  predicate IsWrite(c: SideEffectClass) {
    IsGovernedWrite(c) || c.CriticalWrite?
  }

  // Evidence, effects and observations

  datatype EvidenceKind =
    EffectReceiptEvidence | ExternalObservationEvidence | ArtifactEvidence | TestOutputEvidence | LedgerEventEvidence

  datatype EvidenceRef = EvidenceRef(
    evidenceId: string, kind: EvidenceKind, sourceEventId: string, hash: Digest, observedAt: Timestamp,
    details: JsonObject)

  datatype EffectRequest = EffectRequest(
    effectId: string, commandId: string, runId: string, capabilityId: string, toolId: string, args: JsonObject,
    sideEffectClass: SideEffectClass, requestedAt: Timestamp, idempotencyKey: Option<string>)

  datatype EffectStatus = Succeeded | Failed | Unknown

  datatype EffectReceipt = EffectReceipt(
    receiptId: string, effectId: string, runId: string, capabilityId: string, receiptType: string,
    status: EffectStatus, payload: JsonObject, payloadHash: Digest, evidence: seq<EvidenceRef>,
    observedAt: Timestamp, externalRef: Option<string>)

  datatype ExternalStateObservation = ExternalStateObservation(
    observationId: string, runId: string, observationType: string, subjectType: string, subjectId: string,
    observedState: JsonObject, observedAt: Timestamp, expiresAt: Timestamp, payloadHash: Digest,
    evidence: seq<EvidenceRef>)

  // Write preflight and quarantine

  datatype WritePreflightCandidate = WritePreflightCandidate(
    preflightId: string, runId: string, commandId: string, capabilityId: string, toolId: string,
    sideEffectClass: SideEffectClass, argsHash: Digest, requestedAt: Timestamp, idempotencyKey: Option<string>,
    metadata: Option<JsonObject>)

  datatype WriteQuarantineReason =
    AdapterNotCertified | CriticalApprovalRequired | UncertainExternalEffect | UnsupportedSideEffectClass

  datatype WriteQuarantineState = WriteQuarantineState(
    quarantineId: string, runId: string, preflightId: string, commandId: string, capabilityId: string,
    toolId: string, sideEffectClass: SideEffectClass, reason: WriteQuarantineReason, quarantinedAt: Timestamp,
    idempotencyKey: Option<string>, metadata: Option<JsonObject>)

  datatype PreflightBlockReason =
    | NotCertified | CapabilityMissing | CriticalApproval | MissingIdempotencyKey | PolicyDenied | ToolMissing

  datatype PreflightStatus =
    | Allowed(approvalId: Option<string>)
    | Denied(reason: PreflightBlockReason)
    | Quarantined(quarantine: WriteQuarantineState)

  datatype WritePreflightDecision = WritePreflightDecision(
    status: PreflightStatus, runId: string, preflightId: string, commandId: string, capabilityId: string,
    toolId: string, sideEffectClass: SideEffectClass, idempotencyKey: Option<string>, decidedAt: Timestamp)

  // Approvals

  datatype ApprovalScope =
    | WritePreflightScope(preflightId: string, commandId: string, capabilityId: string, toolId: string,
                          sideEffectClass: SideEffectClass, idempotencyKey: Option<string>)
    | MutationScope(commandId: string, mutationId: string, stateRef: string)

  datatype ApprovalRequest = ApprovalRequest(
    approvalId: string, runId: string, requestedBy: string, scope: ApprovalScope, requestedAt: Timestamp,
    expiresAt: Timestamp, details: JsonObject)

  datatype ApprovalGrant = ApprovalGrant(
    approvalId: string, runId: string, approverId: string, scope: ApprovalScope, grantedAt: Timestamp,
    expiresAt: Timestamp, details: JsonObject)

  datatype ApprovalDenial = ApprovalDenial(
    approvalId: string, runId: string, approverId: string, scope: ApprovalScope, deniedAt: Timestamp,
    details: JsonObject)

  datatype ApprovalExpiry = ApprovalExpiry(
    approvalId: string, runId: string, scope: ApprovalScope, expiredAt: Timestamp, details: JsonObject)

  // Mutations

  datatype MutationOperation =
    | SetOperation(path: string, value: Json)
    | MergeOperation(path: string, fields: JsonObject)
    | DeleteOperation(path: string)

  datatype MutationProvenance = MutationProvenance(
    kind: string, sourceEventId: string, reason: string, details: JsonObject)

  datatype MutationCommandRequest = MutationCommandRequest(
    commandId: string, mutationId: string, runId: string, stateRef: string, operation: MutationOperation,
    expectedRevision: nat, provenance: MutationProvenance, requestedAt: Timestamp, payloadHash: Digest,
    metadata: Option<JsonObject>)

  datatype MutationCommitted = MutationCommitted(
    mutationId: string, commandId: string, runId: string, stateRef: string, previousRevision: nat,
    newRevision: nat, operation: MutationOperation, provenance: MutationProvenance, committedAt: Timestamp,
    payloadHash: Digest, metadata: Option<JsonObject>)

  // Claims and proposals

  datatype ClaimType = HistoricalActionType | TestResultType | CurrentStateType

  datatype StateOperator = Equals | NotEquals | Contains

  datatype ClaimPredicate =
    | HistoricalAction(actionVerb: string, subjectType: string, targetType: string, capabilityId: string,
                       requiredReceiptType: string, maybeSubjectId: Option<string>,
                       maybeTargetId: Option<string>)
    | TestResult(capabilityId: string, expectedStatus: string, requiredReceiptType: string,
                 testSuiteId: Option<string>)
    | CurrentState(subjectType: string, subjectId: string, property: string, operator: StateOperator,
                   expectedValue: Json, observationType: string, freshnessRequirementMs: int)

  function KindOf(p: ClaimPredicate): ClaimType {
    match p
    case HistoricalAction(_, _, _, _, _, _, _) => HistoricalActionType
    case TestResult(_, _, _, _) => TestResultType
    case CurrentState(_, _, _, _, _, _, _) => CurrentStateType
  }

  datatype Claim = Claim(
    claimId: string, claimType: ClaimType, statement: string, condition: ClaimPredicate,
    evidenceRefs: seq<EvidenceRef>, criticality: string)

  datatype ToolCommandRequest = ToolCommandRequest(
    commandId: string, runId: string, capabilityId: string, toolId: string, args: JsonObject,
    sideEffectClass: SideEffectClass, idempotencyKey: Option<string>, requiredEvidence: seq<EvidenceRef>)

  datatype FinalCandidate = FinalCandidate(
    candidateId: string, runId: string, claims: seq<Claim>, narrativeDraft: Option<string>)

  datatype Proposal =
    | ToolProposal(tool: ToolCommandRequest)
    | MutationProposal(mutation: MutationCommandRequest)
    | FinalProposal(candidate: FinalCandidate)

  // Proofs and decisions

  datatype MismatchType =
    | MissingEvidence | UnsupportedClaim | StaleExternalState | UnverifiedReceipt
    | PolicyViolation | UnauthorizedTool | SchemaMismatch | UncertainEffect

  /** Message, expected and actual texts are not modelled. */
  datatype Mismatch = Mismatch(
    mismatchId: string, runId: string, mismatchType: MismatchType, blocking: bool, claimId: Option<string>)

  datatype ClaimProof = ClaimProof(
    claimId: string, supported: bool, evidenceRefs: seq<EvidenceRef>, mismatchIds: seq<string>)

  datatype Verdict = Pass | Fail | Repair | Quarantine

  datatype ProofObject = ProofObject(
    proofId: string, runId: string, candidateId: string, generatedAt: Timestamp, verdict: Verdict,
    claims: seq<ClaimProof>, approvedClaimIds: seq<string>, rejectedClaimIds: seq<string>,
    blockingMismatches: seq<Mismatch>, evaluatedClaims: seq<Claim>)

  /** One line of a final message: the predicate fields it is rendered from. */
  datatype MessageLine =
    | TestLine(suite: Option<string>, passed: bool)
    | ActionLine(targetType: string, targetId: Option<string>, verb: string)
    | StateLine(subjectType: string, subjectId: string, property: string, operator: StateOperator, value: Json)

  datatype RepairHint =
    | ResolveMismatch(mismatchType: MismatchType, mismatchId: string, claimId: Option<string>)
    | ResolveVerdict(proofId: string, verdict: Verdict)

  datatype QuarantineReason = UncertainOutcome | InconsistentEvidence

  datatype ReleaseStatus =
    | Released(finalMessage: Option<seq<MessageLine>>)
    | Blocked(repairHints: seq<RepairHint>)
    | NeedsRepair(repairInstructions: seq<RepairHint>)
    | ReleaseQuarantined(reason: QuarantineReason)

  datatype ReleaseDecision = ReleaseDecision(
    status: ReleaseStatus, runId: string, proofId: string, approvedClaimIds: seq<string>,
    blockingMismatchIds: seq<string>)

  // Events

  datatype Payload =
    | RunStarted(runId: string, profile: Option<string>, metadata: Option<JsonObject>)
    | ProposalReceived(proposal: Proposal)
    | EffectRequested(effectRequest: EffectRequest)
    | WritePreflightRequested(candidate: WritePreflightCandidate)
    | WritePreflightDecided(preflight: WritePreflightDecision)
    | WriteQuarantined(quarantine: WriteQuarantineState)
    | MutationCommittedEvent(mutation: MutationCommitted)
    | ApprovalRequested(request: ApprovalRequest)
    | ApprovalGranted(grant: ApprovalGrant)
    | ApprovalDenied(denial: ApprovalDenial)
    | ApprovalExpired(expiry: ApprovalExpiry)
    | EffectReceiptRecorded(receipt: EffectReceipt)
    | ExternalStateObserved(observation: ExternalStateObservation)
    | ProofGenerated(proof: ProofObject)
    | MismatchDetected(mismatch: Mismatch)
    | ReleaseDecided(decision: ReleaseDecision)
    | FinalReleased(releasedDecision: ReleaseDecision, released: FinalCandidate)

  datatype RunEvent = RunEvent(
    eventId: string, runId: string, sequence: nat, payload: Payload, payloadHash: Digest,
    causationId: Option<string>, correlationId: Option<string>, occurredAt: Timestamp)

  /** Everything the source puts through its canonical hash. */
  datatype HashInput =
    | OfPayload(payload: Payload)
    | OfObject(object: JsonObject)
    | OfScope(scope: ApprovalScope)
    | OfQuarantine(quarantine: WriteQuarantineState)
    | OfDecision(decision: WritePreflightDecision)
    | OfCommand(command: MutationCommandRequest)
    | OfCommandBody(body: MutationCommandRequest)
    | OfMutationBody(mutationId: string, commandId: string, runId: string, stateRef: string, previousRevision: nat,
                     newRevision: nat, operation: MutationOperation, provenance: MutationProvenance,
                     metadata: Option<JsonObject>)
    | OfEffect(args: JsonObject, capabilityId: string, runId: string, sideEffectClass: SideEffectClass,
               toolId: string, idempotencyKey: Option<string>)
    | OfPreflight(argsHash: Digest, capabilityId: string, commandId: string, runId: string,
                  sideEffectClass: SideEffectClass, toolId: string, idempotencyKey: Option<string>)

  type Hasher = HashInput -> Digest

  /** Comparing the hashes of these two values in place of the values themselves does not confuse them. */
  predicate NoCollision(hash: Hasher, x: HashInput, y: HashInput) {
    hash(x) == hash(y) ==> x == y
  }
}
