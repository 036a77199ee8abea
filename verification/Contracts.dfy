// The contract parsers: each schema is the predicate a parse succeeds on.
module Contracts {
  import opened Wrappers
  import opened Protocol

  predicate NonEmpty(s: string) { s != "" }

  predicate OptionalNonEmpty(s: Option<string>) { s != Some("") }

  predicate ValidTime(t: Timestamp) { NonEmpty(t.text) && t.parsed.Some? }

  predicate ValidEvidenceRef(e: EvidenceRef) {
    NonEmpty(e.evidenceId) && NonEmpty(e.sourceEventId) && ValidTime(e.observedAt)
  }

  predicate ValidEvidenceRefs(es: seq<EvidenceRef>) {
    forall e :: e in es ==> ValidEvidenceRef(e)
  }

  predicate ValidEffectRequest(r: EffectRequest) {
    && NonEmpty(r.effectId) && NonEmpty(r.commandId) && NonEmpty(r.runId) && NonEmpty(r.capabilityId)
    && NonEmpty(r.toolId) && ValidTime(r.requestedAt) && OptionalNonEmpty(r.idempotencyKey)
  }

  predicate ValidEffectReceipt(r: EffectReceipt) {
    && NonEmpty(r.receiptId) && NonEmpty(r.effectId) && NonEmpty(r.runId) && NonEmpty(r.capabilityId)
    && NonEmpty(r.receiptType) && ValidTime(r.observedAt) && OptionalNonEmpty(r.externalRef)
    && ValidEvidenceRefs(r.evidence)
  }

  predicate ValidObservation(o: ExternalStateObservation) {
    && NonEmpty(o.observationId) && NonEmpty(o.runId) && NonEmpty(o.observationType) && NonEmpty(o.subjectType)
    && NonEmpty(o.subjectId) && ValidTime(o.observedAt) && ValidTime(o.expiresAt)
    && ValidEvidenceRefs(o.evidence)
  }

  predicate ValidPreflightCandidate(c: WritePreflightCandidate) {
    && NonEmpty(c.preflightId) && NonEmpty(c.runId) && NonEmpty(c.commandId) && NonEmpty(c.capabilityId)
    && NonEmpty(c.toolId) && IsWrite(c.sideEffectClass) && ValidTime(c.requestedAt)
    && OptionalNonEmpty(c.idempotencyKey)
  }

  predicate ValidQuarantine(q: WriteQuarantineState) {
    && NonEmpty(q.quarantineId) && NonEmpty(q.runId) && NonEmpty(q.preflightId) && NonEmpty(q.commandId)
    && NonEmpty(q.capabilityId) && NonEmpty(q.toolId) && IsWrite(q.sideEffectClass)
    && ValidTime(q.quarantinedAt) && OptionalNonEmpty(q.idempotencyKey)
  }

  predicate ValidPreflightDecision(d: WritePreflightDecision) {
    && NonEmpty(d.runId) && NonEmpty(d.preflightId) && NonEmpty(d.commandId) && NonEmpty(d.capabilityId)
    && NonEmpty(d.toolId) && IsWrite(d.sideEffectClass) && ValidTime(d.decidedAt)
    && OptionalNonEmpty(d.idempotencyKey)
    && match d.status
       case Allowed(approvalId) => d.idempotencyKey.Some? && OptionalNonEmpty(approvalId)
       case Denied(_) => true
       case Quarantined(q) => ValidQuarantine(q)
  }

  predicate ValidScope(s: ApprovalScope) {
    match s
    case WritePreflightScope(p, c, cap, t, cls, key) =>
      NonEmpty(p) && NonEmpty(c) && NonEmpty(cap) && NonEmpty(t) && IsWrite(cls) && OptionalNonEmpty(key)
    case MutationScope(c, m, r) => NonEmpty(c) && NonEmpty(m) && NonEmpty(r)
  }

  /** `Date.parse(a) <= Date.parse(b)`, both valid. */
  predicate NotAfter(a: Timestamp, b: Timestamp) {
    ValidTime(a) && ValidTime(b) && a.parsed.value <= b.parsed.value
  }

  predicate ValidApprovalRequest(r: ApprovalRequest) {
    && NonEmpty(r.approvalId) && NonEmpty(r.runId) && NonEmpty(r.requestedBy) && ValidScope(r.scope)
    && NotAfter(r.requestedAt, r.expiresAt)
  }

  predicate ValidApprovalGrant(g: ApprovalGrant) {
    && NonEmpty(g.approvalId) && NonEmpty(g.runId) && NonEmpty(g.approverId) && ValidScope(g.scope)
    && NotAfter(g.grantedAt, g.expiresAt)
  }

  predicate ValidApprovalDenial(d: ApprovalDenial) {
    && NonEmpty(d.approvalId) && NonEmpty(d.runId) && NonEmpty(d.approverId) && ValidScope(d.scope)
    && ValidTime(d.deniedAt)
  }

  predicate ValidApprovalExpiry(x: ApprovalExpiry) {
    NonEmpty(x.approvalId) && NonEmpty(x.runId) && ValidScope(x.scope) && ValidTime(x.expiredAt)
  }

  predicate ValidOperation(o: MutationOperation) { NonEmpty(o.path) }

  predicate ValidProvenance(p: MutationProvenance) {
    p.kind in {"effect_receipt", "external_observation", "human_input", "system_policy"}
    && NonEmpty(p.sourceEventId) && NonEmpty(p.reason)
  }

  predicate ValidMutationCommand(c: MutationCommandRequest) {
    && NonEmpty(c.commandId) && NonEmpty(c.mutationId) && NonEmpty(c.runId) && NonEmpty(c.stateRef)
    && ValidOperation(c.operation) && ValidProvenance(c.provenance) && ValidTime(c.requestedAt)
  }

  predicate ValidMutationCommitted(m: MutationCommitted) {
    && NonEmpty(m.mutationId) && NonEmpty(m.commandId) && NonEmpty(m.runId) && NonEmpty(m.stateRef)
    && m.newRevision == m.previousRevision + 1
    && ValidOperation(m.operation) && ValidProvenance(m.provenance) && ValidTime(m.committedAt)
  }

  predicate ValidClaimPredicate(p: ClaimPredicate) {
    match p
    case HistoricalAction(verb, subjectType, targetType, capabilityId, receiptType, subjectId, targetId) =>
      && verb in {"created", "updated", "deleted", "sent", "opened", "executed"}
      && NonEmpty(subjectType) && NonEmpty(targetType) && NonEmpty(capabilityId) && NonEmpty(receiptType)
      && OptionalNonEmpty(subjectId) && OptionalNonEmpty(targetId)
    case TestResult(capabilityId, status, receiptType, suite) =>
      && NonEmpty(capabilityId) && status in {"passed", "failed"} && receiptType == "test_run"
      && OptionalNonEmpty(suite)
    case CurrentState(subjectType, subjectId, property, _, value, observationType, freshness) =>
      && NonEmpty(subjectType) && NonEmpty(subjectId) && NonEmpty(property) && NonEmpty(observationType)
      && (value.Str? || value.Num? || value.Bool?) && freshness > 0
  }

  predicate ValidClaim(c: Claim) {
    && NonEmpty(c.claimId) && NonEmpty(c.statement) && ValidClaimPredicate(c.condition)
    && ValidEvidenceRefs(c.evidenceRefs) && c.criticality in {"low", "medium", "high", "critical"}
    && c.claimType == KindOf(c.condition)
  }

  predicate ValidToolCommand(t: ToolCommandRequest) {
    && NonEmpty(t.commandId) && NonEmpty(t.runId) && NonEmpty(t.capabilityId) && NonEmpty(t.toolId)
    && OptionalNonEmpty(t.idempotencyKey) && ValidEvidenceRefs(t.requiredEvidence)
  }

  predicate ValidCandidate(c: FinalCandidate) {
    && NonEmpty(c.candidateId) && NonEmpty(c.runId) && |c.claims| >= 1
    && (forall k :: k in c.claims ==> ValidClaim(k))
    && OptionalNonEmpty(c.narrativeDraft)
  }

  predicate ValidProposal(p: Proposal) {
    match p
    case ToolProposal(t) => ValidToolCommand(t)
    case MutationProposal(m) => ValidMutationCommand(m)
    case FinalProposal(c) => ValidCandidate(c)
  }

  predicate AllNonEmpty(ids: seq<string>) {
    forall id :: id in ids ==> NonEmpty(id)
  }

  predicate ValidMismatch(m: Mismatch) {
    NonEmpty(m.mismatchId) && NonEmpty(m.runId) && OptionalNonEmpty(m.claimId)
  }

  predicate ValidClaimProof(p: ClaimProof) {
    NonEmpty(p.claimId) && ValidEvidenceRefs(p.evidenceRefs) && AllNonEmpty(p.mismatchIds)
  }

  predicate ValidProof(p: ProofObject) {
    && NonEmpty(p.proofId) && NonEmpty(p.runId) && NonEmpty(p.candidateId) && ValidTime(p.generatedAt)
    && (forall c :: c in p.claims ==> ValidClaimProof(c))
    && AllNonEmpty(p.approvedClaimIds) && AllNonEmpty(p.rejectedClaimIds)
    && (forall m :: m in p.blockingMismatches ==> ValidMismatch(m))
    && (forall c :: c in p.evaluatedClaims ==> ValidClaim(c))
  }

  predicate ValidDecision(d: ReleaseDecision) {
    && NonEmpty(d.runId) && NonEmpty(d.proofId) && AllNonEmpty(d.approvedClaimIds)
    && match d.status
       case Released(message) => d.blockingMismatchIds == [] && (message.Some? ==> |message.value| > 0)
       case Blocked(_) => |d.blockingMismatchIds| > 0 && AllNonEmpty(d.blockingMismatchIds)
       case NeedsRepair(steps) =>
         |d.blockingMismatchIds| > 0 && AllNonEmpty(d.blockingMismatchIds) && |steps| > 0
       case ReleaseQuarantined(_) => |d.blockingMismatchIds| > 0 && AllNonEmpty(d.blockingMismatchIds)
  }

  predicate ValidPayload(p: Payload) {
    match p
    case RunStarted(runId, profile, _) => NonEmpty(runId) && OptionalNonEmpty(profile)
    case ProposalReceived(proposal) => ValidProposal(proposal)
    case EffectRequested(r) => ValidEffectRequest(r)
    case WritePreflightRequested(c) => ValidPreflightCandidate(c)
    case WritePreflightDecided(d) => ValidPreflightDecision(d)
    case WriteQuarantined(q) => ValidQuarantine(q)
    case MutationCommittedEvent(m) => ValidMutationCommitted(m)
    case ApprovalRequested(r) => ValidApprovalRequest(r)
    case ApprovalGranted(g) => ValidApprovalGrant(g)
    case ApprovalDenied(d) => ValidApprovalDenial(d)
    case ApprovalExpired(x) => ValidApprovalExpiry(x)
    case EffectReceiptRecorded(r) => ValidEffectReceipt(r)
    case ExternalStateObserved(o) => ValidObservation(o)
    case ProofGenerated(proof) => ValidProof(proof)
    case MismatchDetected(m) => ValidMismatch(m)
    case ReleaseDecided(d) => ValidDecision(d)
    case FinalReleased(d, c) => ValidDecision(d) && d.status.Released? && ValidCandidate(c)
  }

  /** What `parseRunEvent` accepts. */
  predicate WellFormed(e: RunEvent) {
    && NonEmpty(e.eventId) && NonEmpty(e.runId) && OptionalNonEmpty(e.causationId)
    && OptionalNonEmpty(e.correlationId) && ValidTime(e.occurredAt) && ValidPayload(e.payload)
  }
}
