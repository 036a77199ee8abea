// Capabilities, adapters and what adapters return, with the checks the effect
// broker makes of them.
module EffectSdk {
  import opened Wrappers
  import opened Protocol
  import opened Contracts

  datatype BrokerError =
    | Unparsed                         // a contract parser threw
    | AdapterThrew                     // the adapter's own error
    | CertificationInvalid | CertificationKindForbidden | CertificationMissing | CertificationMismatch
    | UndeclaredObservation | UndeclaredReceipt
    | LifecycleInvalid | LifecycleMissing
    | ObservationInvalid | ObservationReceiptFailed | ObservationUndeclared
    | ReceiptInvalid | ReceiptMissing | ReceiptUnknown | ReceiptEffectMismatch
    | WriteIsQuarantined(state: WriteQuarantineState)
    | CapabilityNotRegistered | ToolNotRegistered
    | CriticalRequiresApproval | KeyConflict | KeyRequired | SideEffectClassMismatch
    | DecisionDenied | DecisionQuarantined | DecisionMismatch | PreflightRequired | PreflightNotApplicable

  function Either(a: Option<BrokerError>, b: Option<BrokerError>): Option<BrokerError> {
    if a.Some? then a else b
  }

  // Capabilities and adapters

  datatype CapabilityEvidence =
    | ReceiptOf(receiptType: string)
    | ObservationOf(observationType: string)
    | OtherEvidence

  datatype Capability = Capability(
    capabilityId: string, sideEffectClass: SideEffectClass, evidence: seq<CapabilityEvidence>)

  datatype WriteLifecycle = WriteLifecycle(
    preflight: string, idempotencyKey: string, dispatch: string, outcome: string, forbiddenAuthority: seq<string>)

  datatype IdempotencyPosture = AdapterEnforced | NotRequired | RequiredForWrites

  datatype Certification = Certification(
    adapterId: string, adapterKind: string, capabilityId: string, toolId: string, sideEffectClass: SideEffectClass,
    declaredReceiptTypes: seq<string>, declaredObservationTypes: seq<string>, idempotency: IdempotencyPosture,
    writeLifecycle: Option<WriteLifecycle>)

  /** The metadata an adapter carries; `Malformed` has unknown keys, a wrong version, type or enumeration value. */
  datatype RawCertification = Absent | Malformed | Certified(certification: Certification)

  datatype Adapter = Adapter(
    adapterId: string, capabilityId: string, toolId: string, ownKeys: set<string>, certification: RawCertification)

  const FORBIDDEN_KEYS := {
    "admitReceipt", "decideRelease", "generateProof", "proofEngine", "publishRelease", "recordEffectReceipt", "release",
    "verifyProof"}

  const FORBIDDEN_AUTHORITIES := {"proof_authority", "receipt_admission", "release_authority"}

  function CheckLifecycle(c: Certification): Option<BrokerError> {
    if !IsGovernedWrite(c.sideEffectClass) then
      if c.writeLifecycle.Some? then Some(LifecycleInvalid) else None
    else if c.writeLifecycle.None? then Some(LifecycleMissing)
    else
      var l := c.writeLifecycle.value;
      if && l.preflight == "required_before_dispatch"
         && c.idempotency.RequiredForWrites? && l.idempotencyKey == "tool_command_required"
         && l.dispatch == "broker_governed"
         && l.outcome == "receipt_candidate_or_quarantine_required"
         && (forall a :: a in l.forbiddenAuthority ==> a in FORBIDDEN_AUTHORITIES)
         && (forall a :: a in FORBIDDEN_AUTHORITIES ==> a in l.forbiddenAuthority)
      then None else Some(LifecycleInvalid)
  }

  function CheckKind(c: Certification): Option<BrokerError> {
    if c.adapterKind in {"local_readonly", "external_read"} && IsWrite(c.sideEffectClass) then
      Some(CertificationInvalid)
    else if c.adapterKind == "external_write" && !IsWrite(c.sideEffectClass) then Some(CertificationInvalid)
    else None
  }

  /** `assertAdapterCertificationIsValid`. */
  function CheckCertification(a: Adapter, allowedKinds: set<string>): (r: Option<BrokerError>)
    ensures r.None? ==> a.certification.Certified? && !a.certification.certification.sideEffectClass.CriticalWrite?
  {
    if a.ownKeys * FORBIDDEN_KEYS != {} then Some(CertificationInvalid)
    else
      match a.certification
      case Absent => Some(CertificationMissing)
      case Malformed => Some(CertificationInvalid)
      case Certified(c) =>
        if c.declaredReceiptTypes == [] then Some(CertificationInvalid)
        else if c.adapterKind !in allowedKinds then Some(CertificationKindForbidden)
        else if c.adapterId != a.adapterId || c.capabilityId != a.capabilityId || c.toolId != a.toolId then
          Some(CertificationMismatch)
        else if c.sideEffectClass.CriticalWrite? then Some(CriticalRequiresApproval)
        else
          Either(CheckKind(c), Either(CheckLifecycle(c),
            if IsGovernedWrite(c.sideEffectClass) && c.idempotency.NotRequired? then Some(CertificationInvalid)
            else None))
  }

  function CheckCapabilityFits(capability: Capability, command: ToolCommandRequest): Option<BrokerError> {
    if capability.sideEffectClass != command.sideEffectClass then Some(SideEffectClassMismatch) else None
  }

  function CheckAdapterFits(a: Adapter, command: ToolCommandRequest): Option<BrokerError>
    requires a.certification.Certified?
  {
    if a.capabilityId != command.capabilityId || a.toolId != command.toolId then Some(ToolNotRegistered)
    else if a.certification.certification.sideEffectClass != command.sideEffectClass then Some(CertificationMismatch)
    else None
  }

  function CheckDeclarations(c: Certification, capability: Capability): Option<BrokerError> {
    if c.sideEffectClass != capability.sideEffectClass then Some(CertificationMismatch)
    else if exists t :: t in c.declaredReceiptTypes && ReceiptOf(t) !in capability.evidence then Some(UndeclaredReceipt)
    else if exists t :: t in c.declaredObservationTypes && ObservationOf(t) !in capability.evidence then
      Some(UndeclaredObservation)
    else None
  }

  // What adapters return

  datatype PendingRef = PendingRef(
    evidenceId: string, kind: EvidenceKind, hash: Digest, observedAt: Timestamp, token: string,
    expiresAt: Option<Timestamp>, artifactUri: Option<string>, details: JsonObject)

  datatype ReceiptCandidate = ReceiptCandidate(
    receiptId: string, effectId: string, runId: string, capabilityId: string, receiptType: string,
    status: EffectStatus, payload: JsonObject, payloadHash: Digest, evidence: seq<PendingRef>, observedAt: Timestamp,
    externalRef: Option<string>)

  datatype ObservationCandidate = ObservationCandidate(
    observationId: string, runId: string, observationType: string, subjectType: string, subjectId: string,
    observedState: JsonObject, observedAt: Timestamp, expiresAt: Timestamp, payloadHash: Digest,
    evidence: seq<PendingRef>)

  /** How `adapter.execute` ends; a result with the wrong shape counts as `NotAResult`. */
  datatype AdapterOutcome =
    | Threw
    | NotAResult
    | Returned(receipt: Option<ReceiptCandidate>, observation: Option<ObservationCandidate>)

  const RAW_KEYS := {"body", "bytes", "content", "fileContents", "rawBody", "rawContent", "responseBody", "text"}

  predicate HasRawContent(j: Json)
    decreases j
  {
    match j
    case Arr(items) => exists i :: 0 <= i < |items| && HasRawContent(items[i])
    case Obj(fields) => exists k :: k in fields && (k in RAW_KEYS || HasRawContent(fields[k]))
    case _ => false
  }

  /** `Date.parse` gives a number. */
  predicate Parses(t: Timestamp) { t.parsed.Some? }

  predicate ValidPendingRefs(refs: seq<PendingRef>) {
    forall r :: r in refs ==>
      && NonEmpty(r.evidenceId) && NonEmpty(r.token) && Parses(r.observedAt) && OptionalNonEmpty(r.artifactUri)
      && (r.expiresAt.Some? ==> Parses(r.expiresAt.value))
  }

  /** Read adapters may not carry content, in the payload or beside the evidence. */
  predicate LeaksContent(c: Certification, payload: JsonObject, refs: seq<PendingRef>) {
    && c.adapterKind in {"external_read", "local_readonly"}
    && (HasRawContent(Obj(payload)) || exists r :: r in refs && HasRawContent(Obj(r.details)))
  }

  /** `validateReceiptCandidate`. */
  function CheckReceiptCandidate(hash: Hasher, r: ReceiptCandidate, request: EffectRequest, capability: Capability,
                                 c: Certification): Option<BrokerError> {
    if !(&& NonEmpty(r.receiptId) && NonEmpty(r.effectId) && NonEmpty(r.runId) && NonEmpty(r.capabilityId)
         && NonEmpty(r.receiptType) && Parses(r.observedAt) && OptionalNonEmpty(r.externalRef)
         && ValidPendingRefs(r.evidence) && !LeaksContent(c, r.payload, r.evidence))
    then Some(ReceiptInvalid)
    else if r.effectId != request.effectId || r.runId != request.runId || r.capabilityId != request.capabilityId then
      Some(ReceiptEffectMismatch)
    else if r.status.Unknown? then Some(ReceiptUnknown)
    else if hash(OfObject(r.payload)) != r.payloadHash || r.receiptType !in c.declaredReceiptTypes
            || ReceiptOf(r.receiptType) !in capability.evidence
    then Some(ReceiptInvalid)
    else None
  }

  /** `validateExternalStateObservationCandidate`. */
  function CheckObservationCandidate(hash: Hasher, o: ObservationCandidate, request: EffectRequest,
                                     r: ReceiptCandidate, capability: Capability, c: Certification)
    : Option<BrokerError>
  {
    if !r.status.Succeeded? then Some(ObservationReceiptFailed)
    else if !(&& NonEmpty(o.observationId) && NonEmpty(o.runId) && NonEmpty(o.observationType)
              && NonEmpty(o.subjectType) && NonEmpty(o.subjectId) && Parses(o.observedAt) && Parses(o.expiresAt)
              && ValidPendingRefs(o.evidence) && !LeaksContent(c, o.observedState, o.evidence)
              && o.runId == request.runId && hash(OfObject(o.observedState)) == o.payloadHash
              && o.expiresAt.parsed.value > o.observedAt.parsed.value
              && o.evidence != []
              && forall e :: e in o.evidence ==> e.kind == ExternalObservationEvidence && e.hash == o.payloadHash)
    then Some(ObservationInvalid)
    else if ObservationOf(o.observationType) !in capability.evidence
            || o.observationType !in c.declaredObservationTypes
    then Some(ObservationUndeclared)
    else None
  }

  /** What is wrong with the outcome of an execution, or nothing. */
  function CheckOutcome(hash: Hasher, outcome: AdapterOutcome, request: EffectRequest, capability: Capability,
                        c: Certification): (r: Option<BrokerError>)
    ensures r.None? ==> outcome.Returned? && outcome.receipt.Some?
  {
    match outcome
    case Threw => Some(AdapterThrew)
    case NotAResult => Some(ReceiptInvalid)
    case Returned(receipt, observation) =>
      if receipt.None? then Some(ReceiptMissing)
      else
        Either(CheckReceiptCandidate(hash, receipt.value, request, capability, c),
          if observation.None? then None
          else CheckObservationCandidate(hash, observation.value, request, receipt.value, capability, c))
  }
}
