// The append-only event log: identifiers, the fold that gives a log its
// meaning, and appending one event at a time.
module EventLog {
  import opened Wrappers
  import opened Protocol
  import opened Contracts

  datatype KernelError =
    | SchemaInvalid
    // EventValidationErrorCode
    | DuplicateEventId | EmptyEventId | EmptyRunId | InvalidCausationId | InvalidSequence
    | PayloadHashMismatch | RunIdMismatch
    // RunKernelErrorCode
    | EffectRequestMismatch | EffectRequestNotFound | EvidenceHashMismatch | EvidenceKindMismatch
    | EvidenceSourceEventMismatch | InsufficientEventIds | IsDenied | IsExpired
    | ApprovalRequestNotFound | ApprovalRequired | ApprovalScopeMismatch | InvalidCorrelationId
    | MutationHashMismatch | MutationProposalNotFound | MutationStaleRevision | RunAlreadyStarted
    | RunNotStarted | PreflightDecisionNotFound | PreflightMismatch | PreflightRequestNotFound
    | QuarantineMismatch

  // Identifier texts

  predicate IsSpace(c: char) {
    || c in {' ', '\t', '\n', '\r', '\U{0B}', '\U{0C}', '\U{A0}', '\U{1680}', '\U{2028}', '\U{2029}', '\U{202F}',
             '\U{205F}', '\U{3000}', '\U{FEFF}'}
    || '\U{2000}' <= c <= '\U{200A}'
  }

  /** `value.trim().length === 0`. */
  predicate IsBlank(s: string) {
    forall c :: c in s ==> IsSpace(c)
  }

  predicate IsIdChar(c: char) {
    'A' <= c <= 'Z' || 'a' <= c <= 'z' || '0' <= c <= '9' || c == '_' || c == '-'
  }

  function SanitizeIdPart(s: string): string {
    Map(s, (c: char) => if IsIdChar(c) then c else '_')
  }

  function Decimal(n: nat): string {
    if n < 10 then ['0' + n as char] else Decimal(n / 10) + ['0' + (n % 10) as char]
  }

  function PadStart(s: string, width: nat): string
    decreases width - |s|
  {
    if |s| >= width then s else PadStart("0" + s, width)
  }

  function TypeName(p: Payload): string {
    match p
    case RunStarted(_, _, _) => "RunStarted"
    case ProposalReceived(_) => "ProposalReceived"
    case EffectRequested(_) => "EffectRequested"
    case WritePreflightRequested(_) => "WritePreflightRequested"
    case WritePreflightDecided(_) => "WritePreflightDecided"
    case WriteQuarantined(_) => "WriteQuarantined"
    case MutationCommittedEvent(_) => "MutationCommitted"
    case ApprovalRequested(_) => "ApprovalRequested"
    case ApprovalGranted(_) => "ApprovalGranted"
    case ApprovalDenied(_) => "ApprovalDenied"
    case ApprovalExpired(_) => "ApprovalExpired"
    case EffectReceiptRecorded(_) => "EffectReceiptRecorded"
    case ExternalStateObserved(_) => "ExternalStateObserved"
    case ProofGenerated(_) => "ProofGenerated"
    case MismatchDetected(_) => "MismatchDetected"
    case ReleaseDecided(_) => "ReleaseDecided"
    case FinalReleased(_, _) => "FinalReleased"
  }

  function NextEventId(runId: string, lastSequence: nat, typeName: string): string {
    "evt_" + SanitizeIdPart(runId) + "_" + PadStart(Decimal(lastSequence + 1), 4) + "_" + SanitizeIdPart(typeName)
  }

  // Logs

  /** What a kernel is constructed with: its run and the canonical hash. */
  datatype Env = Env(runId: string, hash: Hasher)

  function EventIds(log: seq<RunEvent>): set<string> {
    set e | e in log :: e.eventId
  }

  /** The state a kernel keeps beside its log. */
  datatype Fields = Fields(
    started: Option<string>,
    proposals: seq<Proposal>,
    effectRequests: seq<EffectRequest>,
    effectReceipts: seq<EffectReceipt>,
    observations: seq<ExternalStateObservation>,
    mutations: seq<MutationCommitted>,
    revisions: map<string, nat>,
    approvalRequests: seq<ApprovalRequest>,
    approvalGrants: seq<ApprovalGrant>,
    approvalDenials: seq<ApprovalDenial>,
    approvalExpiries: seq<ApprovalExpiry>,
    preflightCandidates: seq<WritePreflightCandidate>,
    preflightDecisions: seq<WritePreflightDecision>,
    quarantines: seq<WriteQuarantineState>)

  const NoFields := Fields(None, [], [], [], [], [], map[], [], [], [], [], [], [], [])

  function Revision(f: Fields, stateRef: string): nat {
    if stateRef in f.revisions then f.revisions[stateRef] else 0
  }

  function ApplyPayload(f: Fields, eventId: string, p: Payload): Fields {
    match p
    case RunStarted(_, _, _) => f.(started := Some(eventId))
    case ProposalReceived(x) => f.(proposals := f.proposals + [x])
    case EffectRequested(x) => f.(effectRequests := f.effectRequests + [x])
    case WritePreflightRequested(x) => f.(preflightCandidates := f.preflightCandidates + [x])
    case WritePreflightDecided(x) => f.(preflightDecisions := f.preflightDecisions + [x])
    case WriteQuarantined(x) => f.(quarantines := f.quarantines + [x])
    case MutationCommittedEvent(x) =>
      f.(mutations := f.mutations + [x], revisions := f.revisions[x.stateRef := x.newRevision])
    case ApprovalRequested(x) => f.(approvalRequests := f.approvalRequests + [x])
    case ApprovalGranted(x) => f.(approvalGrants := f.approvalGrants + [x])
    case ApprovalDenied(x) => f.(approvalDenials := f.approvalDenials + [x])
    case ApprovalExpired(x) => f.(approvalExpiries := f.approvalExpiries + [x])
    case EffectReceiptRecorded(x) => f.(effectReceipts := f.effectReceipts + [x])
    case ExternalStateObserved(x) => f.(observations := f.observations + [x])
    case ProofGenerated(_) => f
    case MismatchDetected(_) => f
    case ReleaseDecided(_) => f
    case FinalReleased(_, _) => f
  }

  /** The meaning of a log: its well-formed events, applied in order. */
  function Fold(log: seq<RunEvent>): Fields {
    if log == [] then NoFields
    else
      var rest := Fold(log[..|log| - 1]);
      var e := log[|log| - 1];
      if WellFormed(e) then ApplyPayload(rest, e.eventId, e.payload) else rest
  }

  lemma FoldAppend(log: seq<RunEvent>, e: RunEvent)
    ensures Fold(log + [e])
         == if WellFormed(e) then ApplyPayload(Fold(log), e.eventId, e.payload) else Fold(log)
  {
    assert (log + [e])[..|log|] == log;
  }

  // Appending

  datatype EventOptions = EventOptions(
    eventId: Option<string>,
    occurredAt: Option<Timestamp>,
    payloadHash: Option<Digest>,
    causationId: Option<Option<string>>,    // None: not given; Some(None): given as null
    correlationId: Option<Option<string>>)

  /** The log a call leaves behind, and what it returned or threw. */
  datatype Outcome<+T> = Outcome(log: seq<RunEvent>, result: Result<T, KernelError>)

  /** `InMemoryLedger.append` after its duplicate and causation checks: `prepareRunEvent`. */
  function LedgerAppend(env: Env, log: seq<RunEvent>, payload: Payload, eventId: string, o: EventOptions,
                        occurredAt: Timestamp): Result<RunEvent, KernelError> {
    var causation := o.causationId.GetOr(None);
    if eventId in EventIds(log) then Err(DuplicateEventId)
    else if causation.Some? && causation.value !in EventIds(log) then Err(InvalidCausationId)
    else if IsBlank(eventId) then Err(EmptyEventId)
    else if IsBlank(env.runId) then Err(EmptyRunId)
    else if o.payloadHash.Some? && o.payloadHash.value != env.hash(OfPayload(payload)) then Err(PayloadHashMismatch)
    else Ok(RunEvent(eventId, env.runId, |log| + 1, payload, env.hash(OfPayload(payload)), causation,
                     o.correlationId.GetOr(None), occurredAt))
  }

  function CheckReferences(log: seq<RunEvent>, o: EventOptions): Option<KernelError> {
    var correlation := o.correlationId.GetOr(None);
    var causation := o.causationId.GetOr(None);
    if correlation.Some? && IsBlank(correlation.value) then Some(InvalidCorrelationId)
    else if causation.Some? && (IsBlank(causation.value) || causation.value !in EventIds(log)) then
      Some(InvalidCausationId)
    else None
  }

  /** `appendEvent`: the event is parsed only after the ledger has stored it. */
  function AppendEvent(env: Env, log: seq<RunEvent>, payload: Payload, o: EventOptions, now: Timestamp)
    : Outcome<RunEvent>
  {
    var refs := CheckReferences(log, o);
    if refs.Some? then Outcome(log, Err(refs.value))
    else if o.payloadHash.Some? && o.payloadHash.value != env.hash(OfPayload(payload)) then
      Outcome(log, Err(PayloadHashMismatch))
    else
      var id := o.eventId.GetOr(NextEventId(env.runId, |log|, TypeName(payload)));
      match LedgerAppend(env, log, payload, id, o, o.occurredAt.GetOr(now))
      case Err(e) => Outcome(log, Err(e))
      case Ok(event) => Outcome(log + [event], if WellFormed(event) then Ok(event) else Err(SchemaInvalid))
  }

  /** What every stored event says about itself and about the log before it. */
  predicate Envelope(env: Env, log: seq<RunEvent>, e: RunEvent) {
    && e.runId == env.runId
    && e.sequence == |log| + 1
    && e.payloadHash == env.hash(OfPayload(e.payload))
    && e.eventId !in EventIds(log)
    && !IsBlank(e.eventId)
    && !IsBlank(e.runId)
    && (e.causationId.Some? ==> !IsBlank(e.causationId.value) && e.causationId.value in EventIds(log))
    && (e.correlationId.Some? ==> !IsBlank(e.correlationId.value))
  }

  lemma AppendedEnvelope(env: Env, log: seq<RunEvent>, payload: Payload, o: EventOptions, now: Timestamp)
    ensures var out := AppendEvent(env, log, payload, o, now);
      || (out.log == log && out.result.Err?)
      || (exists e :: out.log == log + [e] && Envelope(env, log, e) && e.payload == payload
            && e.occurredAt == o.occurredAt.GetOr(now)
            && out.result == if WellFormed(e) then Ok(e) else Err(SchemaInvalid))
  {
    hide WellFormed, IsBlank, NextEventId;
  }

  /** A stored event is reproduced by handing its own envelope back as options. */
  function OptionsFrom(e: RunEvent): EventOptions {
    EventOptions(Some(e.eventId), Some(e.occurredAt), None, Some(e.causationId), Some(e.correlationId))
  }

  /** What a successful append puts in its event. */
  lemma AppendedFields(env: Env, log: seq<RunEvent>, payload: Payload, o: EventOptions, now: Timestamp)
    requires AppendEvent(env, log, payload, o, now).result.Ok?
    ensures var out := AppendEvent(env, log, payload, o, now);
      var e := out.result.value;
      && out.log == log + [e] && Envelope(env, log, e) && WellFormed(e) && e.payload == payload
      && e.eventId == o.eventId.GetOr(NextEventId(env.runId, |log|, TypeName(payload)))
      && e.occurredAt == o.occurredAt.GetOr(now)
      && e.causationId == o.causationId.GetOr(None)
      && e.correlationId == o.correlationId.GetOr(None)
  {
    hide WellFormed, IsBlank, NextEventId;
  }

  lemma AppendAgain(env: Env, log: seq<RunEvent>, e: RunEvent, now: Timestamp)
    requires Envelope(env, log, e) && WellFormed(e)
    ensures AppendEvent(env, log, e.payload, OptionsFrom(e), now) == Outcome(log + [e], Ok(e))
  {
  }
}
