// The proof engine: which claims the admitted evidence supports, and the
// proof object that says so.
module ProofEngine {
  import opened Wrappers
  import opened Protocol
  import opened Contracts
  import opened EventLog
  import opened EvidenceResolver

  datatype ProofInput = ProofInput(
    candidate: FinalCandidate,
    effectReceipts: seq<EffectReceipt>,
    observations: seq<ExternalStateObservation>,
    generatedAt: Timestamp,
    proofId: Option<string>)

  datatype ClaimEvaluation = ClaimEvaluation(claimProof: ClaimProof, mismatches: seq<Mismatch>)

  function MismatchText(t: MismatchType): string {
    match t
    case MissingEvidence => "missing_evidence"
    case UnsupportedClaim => "unsupported_claim"
    case StaleExternalState => "stale_external_state"
    case UnverifiedReceipt => "unverified_receipt"
    case PolicyViolation => "policy_violation"
    case UnauthorizedTool => "unauthorized_tool"
    case SchemaMismatch => "schema_mismatch"
    case UncertainEffect => "uncertain_external_effect"
  }

  function BuildMismatchId(claimId: string, t: MismatchType, index: nat): string {
    "mismatch_" + SanitizeIdPart(claimId) + "_" + MismatchText(t) + "_" + Decimal(index)
  }

  function BuildProofId(c: FinalCandidate, generatedAt: Timestamp): string {
    "proof_" + SanitizeIdPart(c.runId) + "_" + SanitizeIdPart(c.candidateId) + "_"
    + SanitizeIdPart(generatedAt.text)
  }

  function Supported(claim: Claim, ref: EvidenceRef): ClaimEvaluation {
    ClaimEvaluation(ClaimProof(claim.claimId, true, [ref], []), [])
  }

  function Rejected(input: ProofInput, claim: Claim, index: nat, t: MismatchType): ClaimEvaluation {
    var m := Mismatch(BuildMismatchId(claim.claimId, t, index), input.candidate.runId, t, true, Some(claim.claimId));
    ClaimEvaluation(ClaimProof(claim.claimId, false, [], [m.mismatchId]), [m])
  }

  // Admission re-checks

  function ReceiptEvidence(): EffectReceipt -> seq<EvidenceRef> {
    (r: EffectReceipt) => r.evidence
  }

  function ObservationEvidence(): ExternalStateObservation -> seq<EvidenceRef> {
    (o: ExternalStateObservation) => o.evidence
  }

  predicate AdmittedReceipt(hash: Hasher, runId: string, r: EffectReceipt) {
    && r.runId == runId && r.payloadHash == hash(OfObject(r.payload))
    && forall e :: e in r.evidence ==> e.kind == EffectReceiptEvidence && e.hash == r.payloadHash
  }

  predicate AdmittedObservation(hash: Hasher, runId: string, o: ExternalStateObservation) {
    && o.runId == runId && o.payloadHash == hash(OfObject(o.observedState))
    && forall e :: e in o.evidence ==> e.kind == ExternalObservationEvidence && e.hash == o.payloadHash
  }

  function AdmittedReceipts(hash: Hasher, input: ProofInput): seq<EffectReceipt> {
    Filter(input.effectReceipts, (r: EffectReceipt) => AdmittedReceipt(hash, input.candidate.runId, r))
  }

  function AdmittedObservations(hash: Hasher, input: ProofInput): seq<ExternalStateObservation> {
    Filter(input.observations, (o: ExternalStateObservation) => AdmittedObservation(hash, input.candidate.runId, o))
  }

  // Matchers

  predicate FieldIs(o: JsonObject, field: string, text: string) {
    field in o && o[field] == Str(text)
  }

  predicate OptionalFieldIs(o: JsonObject, field: string, text: Option<string>) {
    text.Some? ==> FieldIs(o, field, text.value)
  }

  /** `testResultReceiptMatches` and `historicalActionReceiptMatches`. */
  predicate ReceiptMatches(r: EffectReceipt, p: ClaimPredicate) {
    match p
    case TestResult(capabilityId, expectedStatus, receiptType, suite) =>
      && r.receiptType == receiptType && r.status == Succeeded && r.capabilityId == capabilityId
      && FieldIs(r.payload, "result", expectedStatus) && OptionalFieldIs(r.payload, "testSuiteId", suite)
    case HistoricalAction(verb, subjectType, targetType, capabilityId, receiptType, subjectId, targetId) =>
      && r.receiptType == receiptType && r.status == Succeeded && r.capabilityId == capabilityId
      && FieldIs(r.payload, "actionVerb", verb) && FieldIs(r.payload, "subjectType", subjectType)
      && FieldIs(r.payload, "targetType", targetType)
      && OptionalFieldIs(r.payload, "subjectId", subjectId) && OptionalFieldIs(r.payload, "targetId", targetId)
    case CurrentState(_, _, _, _, _, _, _) => false
  }

  predicate IdentityMatches(o: ExternalStateObservation, p: ClaimPredicate)
    requires p.CurrentState?
  {
    o.observationType == p.observationType && o.subjectType == p.subjectType && o.subjectId == p.subjectId
  }

  /** Only `observedAt` counts; `expiresAt` is never consulted. */
  predicate IsFresh(o: ExternalStateObservation, freshnessRequirementMs: int, generatedAt: Timestamp) {
    && o.observedAt.parsed.Some? && generatedAt.parsed.Some?
    && 0 <= generatedAt.parsed.value - o.observedAt.parsed.value <= freshnessRequirementMs
  }

  predicate OccursAt(part: string, whole: string, i: nat) {
    i + |part| <= |whole| && whole[i..i + |part|] == part
  }

  predicate IsInfix(part: string, whole: string) {
    exists i: nat :: i <= |whole| && OccursAt(part, whole, i)
  }

  predicate ValueSatisfies(observed: Json, operator: StateOperator, expected: Json) {
    var comparable := observed.Str? || observed.Num? || observed.Bool?;
    match operator
    case Equals => comparable && observed == expected
    case NotEquals => comparable && observed != expected
    case Contains =>
      if observed.Str? && expected.Str? then IsInfix(expected.s, observed.s)
      else observed.Arr? && (expected.Str? || expected.Num? || expected.Bool?) && expected in observed.items
  }

  predicate StateSatisfies(o: ExternalStateObservation, p: ClaimPredicate)
    requires p.CurrentState?
  {
    p.property in o.observedState && ValueSatisfies(o.observedState[p.property], p.operator, p.expectedValue)
  }

  // Claims

  function RefsOfKind(claim: Claim, kind: EvidenceKind): seq<EvidenceRef> {
    Filter(claim.evidenceRefs, (r: EvidenceRef) => r.kind == kind)
  }

  predicate SomeUnsuccessful(resolved: seq<Resolved<EffectReceipt>>) {
    exists x :: x in resolved && x.source.status != Succeeded
  }

  function MatchingReceipt(resolved: seq<Resolved<EffectReceipt>>, p: ClaimPredicate): Option<Resolved<EffectReceipt>> {
    Find(resolved, (x: Resolved<EffectReceipt>) => ReceiptMatches(x.source, p))
  }

  /** `evaluateTestResultClaim` and `evaluateHistoricalActionClaim`. */
  function EvaluateReceiptClaim(hash: Hasher, input: ProofInput, claim: Claim, index: nat): ClaimEvaluation {
    var refs := RefsOfKind(claim, EffectReceiptEvidence);
    if refs == [] then Rejected(input, claim, index, MissingEvidence)
    else
      var resolved := Resolve(refs, AdmittedReceipts(hash, input), ReceiptEvidence());
      if resolved == [] then Rejected(input, claim, index, UnverifiedReceipt)
      else if SomeUnsuccessful(resolved) then Rejected(input, claim, index, UnverifiedReceipt)
      else
        match MatchingReceipt(resolved, claim.condition)
        case None => Rejected(input, claim, index, UnsupportedClaim)
        case Some(x) => Supported(claim, x.claimRef)
  }

  function EvaluateStateClaim(hash: Hasher, input: ProofInput, claim: Claim, index: nat): ClaimEvaluation
    requires claim.condition.CurrentState?
  {
    var p := claim.condition;
    var refs := RefsOfKind(claim, ExternalObservationEvidence);
    if refs == [] then Rejected(input, claim, index, MissingEvidence)
    else
      var resolved := Resolve(refs, AdmittedObservations(hash, input), ObservationEvidence());
      if resolved == [] then Rejected(input, claim, index, UnsupportedClaim)
      else
        var identity :=
          Filter(resolved, (x: Resolved<ExternalStateObservation>) => IdentityMatches(x.source, p));
        if identity == [] then Rejected(input, claim, index, UnsupportedClaim)
        else
          var recent := Filter(identity, (x: Resolved<ExternalStateObservation>) =>
                                IsFresh(x.source, p.freshnessRequirementMs, input.generatedAt));
          if recent == [] then Rejected(input, claim, index, StaleExternalState)
          else
            match Find(recent, (x: Resolved<ExternalStateObservation>) => StateSatisfies(x.source, p))
            case None => Rejected(input, claim, index, UnsupportedClaim)
            case Some(x) => Supported(claim, x.claimRef)
  }

  function EvaluateClaim(hash: Hasher, input: ProofInput, claim: Claim, index: nat): ClaimEvaluation {
    if claim.claimType != KindOf(claim.condition) then Rejected(input, claim, index, UnsupportedClaim)
    else if claim.condition.CurrentState? then EvaluateStateClaim(hash, input, claim, index)
    else EvaluateReceiptClaim(hash, input, claim, index)
  }

  /** Evaluations of the first `n` claims, in order. */
  function Evaluations(hash: Hasher, input: ProofInput, n: nat): (r: seq<ClaimEvaluation>)
    requires n <= |input.candidate.claims|
    ensures |r| == n
  {
    if n == 0 then []
    else Evaluations(hash, input, n - 1) + [EvaluateClaim(hash, input, input.candidate.claims[n - 1], n - 1)]
  }

  /** `flatMap` over the blocking mismatches of each evaluation. */
  function BlockingOf(evaluations: seq<ClaimEvaluation>): seq<Mismatch> {
    if evaluations == [] then []
    else
      BlockingOf(evaluations[..|evaluations| - 1])
      + Filter(evaluations[|evaluations| - 1].mismatches, (m: Mismatch) => m.blocking)
  }

  function ClaimIds(proofs: seq<ClaimProof>, supported: bool): seq<string> {
    Map(Filter(proofs, (p: ClaimProof) => p.supported == supported), (p: ClaimProof) => p.claimId)
  }

  function EvaluateProof(hash: Hasher, input: ProofInput): ProofObject {
    var evaluations := Evaluations(hash, input, |input.candidate.claims|);
    var blocking := BlockingOf(evaluations);
    var proofs := Map(evaluations, (e: ClaimEvaluation) => e.claimProof);
    ProofObject(
      input.proofId.GetOr(BuildProofId(input.candidate, input.generatedAt)),
      input.candidate.runId, input.candidate.candidateId, input.generatedAt,
      if blocking == [] then Pass else Fail,
      proofs, ClaimIds(proofs, true), ClaimIds(proofs, false), blocking, input.candidate.claims)
  }
}
