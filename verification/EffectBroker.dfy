// The effect broker: registered tools, persisted write preflights and an
// idempotency cache.  A dispatch is two steps, before and after the await of
// the adapter, because other calls may come in between.
module EffectBroker {
  import opened Wrappers
  import opened Protocol
  import opened Contracts
  import EventLog
  import opened EffectSdk

  datatype DispatchResult = DispatchResult(
    cached: bool, effectRequest: EffectRequest, receipt: ReceiptCandidate, observation: Option<ObservationCandidate>)

  datatype CachedEffect =
    | CachedResult(fingerprint: Digest, result: DispatchResult)
    | CachedQuarantine(fingerprint: Digest, quarantine: WriteQuarantineState)

  datatype PersistedDecision = PersistedDecision(
    decision: WritePreflightDecision, decisionHash: Digest, fingerprint: Digest)

  /** What a broker is constructed with. */
  datatype Settings = Settings(hash: Hasher, allowedKinds: set<string>)

  datatype State = State(
    capabilities: map<string, Capability>,
    adapters: map<string, Adapter>,
    cache: map<string, CachedEffect>,
    decisions: map<string, PersistedDecision>)

  function AdapterKey(capabilityId: string, toolId: string): string {
    capabilityId + "\0" + toolId
  }

  // Fingerprints

  function IdempotencyFingerprint(hash: Hasher, t: ToolCommandRequest): Digest {
    hash(OfEffect(t.args, t.capabilityId, t.runId, t.sideEffectClass, t.toolId, t.idempotencyKey))
  }

  function PreflightFingerprint(hash: Hasher, t: ToolCommandRequest): Digest {
    hash(OfPreflight(hash(OfObject(t.args)), t.capabilityId, t.commandId, t.runId, t.sideEffectClass, t.toolId,
                     t.idempotencyKey))
  }

  // Which tool a command means

  datatype Tool = Tool(capability: Capability, adapter: Adapter, certification: Certification)

  /** Lookup and all certification and matching checks. */
  function ToolFor(settings: Settings, s: State, t: ToolCommandRequest): Result<Tool, BrokerError> {
    if t.capabilityId !in s.capabilities then Err(CapabilityNotRegistered)
    else if AdapterKey(t.capabilityId, t.toolId) !in s.adapters then Err(ToolNotRegistered)
    else
      var capability, adapter := s.capabilities[t.capabilityId], s.adapters[AdapterKey(t.capabilityId, t.toolId)];
      var invalid := CheckCertification(adapter, settings.allowedKinds);
      if invalid.Some? then Err(invalid.value)
      else
        var c := adapter.certification.certification;
        var unfit := Either(CheckCapabilityFits(capability, t),
                            Either(CheckAdapterFits(adapter, t), CheckDeclarations(c, capability)));
        if unfit.Some? then Err(unfit.value) else Ok(Tool(capability, adapter, c))
  }

  // Write preflight

  datatype PreflightOptions = PreflightOptions(
    decidedAt: Option<Timestamp>, metadata: Option<JsonObject>, preflightId: Option<string>,
    quarantineId: Option<string>, requestedAt: Option<Timestamp>)

  function PreflightIdOf(t: ToolCommandRequest, o: PreflightOptions): string {
    o.preflightId.GetOr("preflight_" + EventLog.SanitizeIdPart(t.commandId))
  }

  function CandidateOf(hash: Hasher, t: ToolCommandRequest, o: PreflightOptions, clock: Timestamp)
    : WritePreflightCandidate
  {
    WritePreflightCandidate(PreflightIdOf(t, o), t.runId, t.commandId, t.capabilityId, t.toolId, t.sideEffectClass,
                            hash(OfObject(t.args)), o.requestedAt.GetOr(clock), t.idempotencyKey, o.metadata)
  }

  function BlockReason(e: BrokerError): PreflightBlockReason {
    match e
    case CapabilityNotRegistered => CapabilityMissing
    case ToolNotRegistered => ToolMissing
    case CriticalRequiresApproval => CriticalApproval
    case CertificationInvalid => NotCertified
    case CertificationKindForbidden => NotCertified
    case CertificationMissing => NotCertified
    case CertificationMismatch => NotCertified
    case UndeclaredObservation => NotCertified
    case UndeclaredReceipt => NotCertified
    case LifecycleInvalid => NotCertified
    case LifecycleMissing => NotCertified
    case _ => PolicyDenied
  }

  function CriticalQuarantine(t: ToolCommandRequest, o: PreflightOptions, decidedAt: Timestamp): WriteQuarantineState {
    WriteQuarantineState(
      o.quarantineId.GetOr("quarantine_" + EventLog.SanitizeIdPart(PreflightIdOf(t, o))), t.runId, PreflightIdOf(t, o),
      t.commandId, t.capabilityId, t.toolId, t.sideEffectClass, CriticalApprovalRequired, decidedAt, t.idempotencyKey,
      None)
  }

  function StatusOf(settings: Settings, s: State, t: ToolCommandRequest, o: PreflightOptions, decidedAt: Timestamp)
    : PreflightStatus
  {
    if t.sideEffectClass.CriticalWrite? then Quarantined(CriticalQuarantine(t, o, decidedAt))
    else if t.idempotencyKey.None? then Denied(MissingIdempotencyKey)
    else
      match ToolFor(settings, s, t)
      case Err(e) => Denied(BlockReason(e))
      case Ok(_) => Allowed(None)
  }

  function DecisionOf(settings: Settings, s: State, t: ToolCommandRequest, o: PreflightOptions, decidedAt: Timestamp)
    : WritePreflightDecision
  {
    WritePreflightDecision(StatusOf(settings, s, t, o, decidedAt), t.runId, PreflightIdOf(t, o), t.commandId,
                           t.capabilityId, t.toolId, t.sideEffectClass, t.idempotencyKey, decidedAt)
  }

  /** `preflightWrite`; the clock is read for the request and then for the decision. */
  function Preflight(settings: Settings, s: State, t: ToolCommandRequest, o: PreflightOptions, clock: Timestamp,
                     clockAgain: Timestamp): (State, Result<WritePreflightDecision, BrokerError>) {
    if !ValidToolCommand(t) then (s, Err(Unparsed))
    else if !IsWrite(t.sideEffectClass) then (s, Err(PreflightNotApplicable))
    else if !ValidPreflightCandidate(CandidateOf(settings.hash, t, o, clock)) then (s, Err(Unparsed))
    else
      var decision := DecisionOf(settings, s, t, o, o.decidedAt.GetOr(clockAgain));
      if !ValidPreflightDecision(decision) then (s, Err(Unparsed))
      else
        var persisted := PersistedDecision(decision, settings.hash(OfDecision(decision)),
                                           PreflightFingerprint(settings.hash, t));
        (s.(decisions := s.decisions[decision.preflightId := persisted]), Ok(decision))
  }

  // Dispatch

  datatype DispatchOptions = DispatchOptions(effectId: Option<string>, requestedAt: Option<Timestamp>)

  /** An adapter that is executing. */
  datatype Flight = Flight(
    command: ToolCommandRequest, tool: Tool, request: EffectRequest, fingerprint: Digest,
    decision: Option<WritePreflightDecision>)

  /** What the part of a dispatch before the await comes to. */
  datatype Begun =
    | Refused(error: BrokerError)
    | Answered(result: DispatchResult)
    | Executing(flight: Flight)

  /** `assertWritePreflightAllowsDispatch`. */
  function CheckDecisionAllows(settings: Settings, s: State, t: ToolCommandRequest, d: WritePreflightDecision)
    : Option<BrokerError>
  {
    if !IsWrite(t.sideEffectClass) then Some(PreflightNotApplicable)
    else if d.status.Denied? then Some(DecisionDenied)
    else if d.status.Quarantined? then Some(DecisionQuarantined)
    else if d.preflightId !in s.decisions then Some(DecisionMismatch)
    else
      var p := s.decisions[d.preflightId];
      if settings.hash(OfDecision(d)) != p.decisionHash || settings.hash(OfDecision(p.decision)) != p.decisionHash then
        Some(DecisionMismatch)
      else if d.runId != t.runId || d.commandId != t.commandId || d.capabilityId != t.capabilityId
              || d.toolId != t.toolId || d.sideEffectClass != t.sideEffectClass || d.idempotencyKey != t.idempotencyKey
      then Some(DecisionMismatch)
      else if p.fingerprint != PreflightFingerprint(settings.hash, t) then Some(DecisionMismatch)
      else None
  }

  function CheckDirect(t: ToolCommandRequest): Option<BrokerError> {
    if IsWrite(t.sideEffectClass) then Some(if t.idempotencyKey.None? then KeyRequired else PreflightRequired) else None
  }

  function CheckDispatchable(t: ToolCommandRequest): Option<BrokerError> {
    if t.sideEffectClass.CriticalWrite? then Some(CriticalRequiresApproval)
    else if IsGovernedWrite(t.sideEffectClass) && t.idempotencyKey.None? then Some(KeyRequired)
    else None
  }

  function RequestOf(t: ToolCommandRequest, o: DispatchOptions, clock: Timestamp): EffectRequest {
    EffectRequest(o.effectId.GetOr("effect_" + EventLog.SanitizeIdPart(t.commandId)), t.commandId, t.runId,
                  t.capabilityId, t.toolId, t.args, t.sideEffectClass, o.requestedAt.GetOr(clock), t.idempotencyKey)
  }

  /** What the cache has to say about a key. */
  function AnswerFrom(cached: CachedEffect, fingerprint: Digest): Begun {
    if cached.fingerprint != fingerprint then Refused(KeyConflict)
    else
      match cached
      case CachedQuarantine(_, quarantine) => Refused(WriteIsQuarantined(quarantine))
      case CachedResult(_, result) => Answered(result.(cached := true))
  }

  /** The private `#dispatch`, up to `await adapter.execute`. */
  function BeginGoverned(settings: Settings, s: State, t: ToolCommandRequest, o: DispatchOptions,
                         decision: Option<WritePreflightDecision>, clock: Timestamp): Begun {
    match ToolFor(settings, s, t)
    case Err(e) => Refused(e)
    case Ok(tool) =>
      var undispatchable := CheckDispatchable(t);
      if undispatchable.Some? then Refused(undispatchable.value)
      else
        var fingerprint := IdempotencyFingerprint(settings.hash, t);
        if t.idempotencyKey.Some? && t.idempotencyKey.value in s.cache then
          AnswerFrom(s.cache[t.idempotencyKey.value], fingerprint)
        else
          var request := RequestOf(t, o, clock);
          if !ValidEffectRequest(request) then Refused(Unparsed)
          else Executing(Flight(t, tool, request, fingerprint, decision))
  }

  /** `dispatch`, or `dispatchWithPreflight` when a decision is presented. */
  function Begin(settings: Settings, s: State, t: ToolCommandRequest, o: DispatchOptions,
                 decision: Option<WritePreflightDecision>, clock: Timestamp): Begun {
    if !ValidToolCommand(t) then Refused(Unparsed)
    else
      var refusal :=
        if decision.Some? then
          if !ValidPreflightDecision(decision.value) then Some(Unparsed)
          else CheckDecisionAllows(settings, s, t, decision.value)
        else
          var tool := ToolFor(settings, s, t);
          if tool.Err? then Some(tool.error) else CheckDirect(t);
      if refusal.Some? then Refused(refusal.value) else BeginGoverned(settings, s, t, o, decision, clock)
  }

  function DispatchQuarantine(f: Flight, d: WritePreflightDecision, clock: Timestamp): WriteQuarantineState {
    WriteQuarantineState(
      "quarantine_" + EventLog.SanitizeIdPart(d.preflightId) + "_dispatch", f.command.runId, d.preflightId,
      f.command.commandId, f.command.capabilityId, f.command.toolId, f.command.sideEffectClass, UncertainExternalEffect,
      clock, f.command.idempotencyKey,
      Some(map["adapterId" := Str(f.tool.adapter.adapterId), "effectId" := Str(f.request.effectId),
               "outcome" := Str("adapter_error_or_unknown")]))
  }

  function WithCached(s: State, key: Option<string>, entry: CachedEffect): State {
    if key.None? then s else s.(cache := s.cache[key.value := entry])
  }

  /** The rest of `#dispatch`, once the adapter has returned or thrown. */
  function Finish(settings: Settings, s: State, f: Flight, outcome: AdapterOutcome, clock: Timestamp)
    : (State, Result<DispatchResult, BrokerError>)
  {
    var wrong := CheckOutcome(settings.hash, outcome, f.request, f.tool.capability, f.tool.certification);
    if wrong.Some? then
      if f.decision.Some? && IsWrite(f.command.sideEffectClass) then
        var quarantine := DispatchQuarantine(f, f.decision.value, clock);
        (WithCached(s, f.command.idempotencyKey, CachedQuarantine(f.fingerprint, quarantine)),
         Err(WriteIsQuarantined(quarantine)))
      else (s, Err(wrong.value))
    else
      var result := DispatchResult(false, f.request, outcome.receipt.value, outcome.observation);
      (WithCached(s, f.command.idempotencyKey, CachedResult(f.fingerprint, result)), Ok(result))
  }

  // The broker as an object

  class InMemoryEffectBroker {
    const settings: Settings
    var capabilities: map<string, Capability>
    var adapters: map<string, Adapter>
    var idempotencyCache: map<string, CachedEffect>
    var writePreflightDecisions: map<string, PersistedDecision>

    function View(): State
      reads this
    {
      State(capabilities, adapters, idempotencyCache, writePreflightDecisions)
    }

    constructor (settings: Settings)
      ensures View() == State(map[], map[], map[], map[]) && this.settings == settings
    {
      this.settings := settings;
      capabilities, adapters, idempotencyCache, writePreflightDecisions := map[], map[], map[], map[];
    }

    method RegisterCapability(capability: Capability)
      modifies this
      ensures View() == old(View()).(capabilities := old(capabilities)[capability.capabilityId := capability])
    {
      capabilities := capabilities[capability.capabilityId := capability];
    }

    method RegisterAdapter(adapter: Adapter) returns (refused: Option<BrokerError>)
      modifies this
      ensures refused == CheckCertification(adapter, settings.allowedKinds)
      ensures View() == if refused.Some? then old(View())
        else old(View()).(adapters := old(adapters)[AdapterKey(adapter.capabilityId, adapter.toolId) := adapter])
    {
      refused := CheckCertification(adapter, settings.allowedKinds);
      if refused.None? {
        adapters := adapters[AdapterKey(adapter.capabilityId, adapter.toolId) := adapter];
      }
    }

    method PreflightWrite(command: ToolCommandRequest, o: PreflightOptions, clock: Timestamp, clockAgain: Timestamp)
      returns (r: Result<WritePreflightDecision, BrokerError>)
      modifies this`writePreflightDecisions
      ensures (View(), r) == Preflight(settings, old(View()), command, o, clock, clockAgain)
    {
      if !ValidToolCommand(command) {
        return Err(Unparsed);
      }
      if !IsWrite(command.sideEffectClass) {
        return Err(PreflightNotApplicable);
      }
      if !ValidPreflightCandidate(CandidateOf(settings.hash, command, o, clock)) {
        return Err(Unparsed);
      }
      var decision := DecisionOf(settings, View(), command, o, o.decidedAt.GetOr(clockAgain));
      if !ValidPreflightDecision(decision) {
        return Err(Unparsed);
      }
      writePreflightDecisions := writePreflightDecisions[decision.preflightId :=
        PersistedDecision(decision, settings.hash(OfDecision(decision)),
                          PreflightFingerprint(settings.hash, command))];
      r := Ok(decision);
    }

    /** `dispatch`, up to the await. */
    method BeginDispatch(command: ToolCommandRequest, o: DispatchOptions, clock: Timestamp) returns (r: Begun)
      ensures r == Begin(settings, View(), command, o, None, clock)
    {
      if !ValidToolCommand(command) {
        return Begun.Refused(Unparsed);
      }
      var tool := ToolFor(settings, View(), command);
      if tool.Err? {
        return Begun.Refused(tool.error);
      }
      var indirect := CheckDirect(command);
      if indirect.Some? {
        return Begun.Refused(indirect.value);
      }
      r := BeginGovernedDispatch(command, o, None, clock);
    }

    /** `dispatchWithPreflight`, up to the await. */
    method BeginDispatchWithPreflight(command: ToolCommandRequest, o: DispatchOptions, decision: WritePreflightDecision,
                                      clock: Timestamp) returns (r: Begun)
      ensures r == Begin(settings, View(), command, o, Some(decision), clock)
    {
      if !ValidToolCommand(command) || !ValidPreflightDecision(decision) {
        return Begun.Refused(Unparsed);
      }
      var disallowed := CheckDecisionAllows(settings, View(), command, decision);
      if disallowed.Some? {
        return Begun.Refused(disallowed.value);
      }
      r := BeginGovernedDispatch(command, o, Some(decision), clock);
    }

    /** The private `#dispatch`, up to the await: it reads the cache and changes nothing. */
    method BeginGovernedDispatch(command: ToolCommandRequest, o: DispatchOptions,
                                 decision: Option<WritePreflightDecision>, clock: Timestamp) returns (r: Begun)
      ensures r == BeginGoverned(settings, View(), command, o, decision, clock)
    {
      var tool := ToolFor(settings, View(), command);
      if tool.Err? {
        return Begun.Refused(tool.error);
      }
      var undispatchable := CheckDispatchable(command);
      if undispatchable.Some? {
        return Begun.Refused(undispatchable.value);
      }
      var fingerprint := IdempotencyFingerprint(settings.hash, command);
      var key := command.idempotencyKey;
      if key.Some? && key.value in idempotencyCache {
        return AnswerFrom(idempotencyCache[key.value], fingerprint);
      }
      var request := RequestOf(command, o, clock);
      if !ValidEffectRequest(request) {
        return Begun.Refused(Unparsed);
      }
      r := Executing(Flight(command, tool.value, request, fingerprint, decision));
    }

    /** The part after the await. */
    method FinishDispatch(flight: Flight, outcome: AdapterOutcome, clock: Timestamp)
      returns (r: Result<DispatchResult, BrokerError>)
      modifies this`idempotencyCache
      ensures (View(), r) == Finish(settings, old(View()), flight, outcome, clock)
    {
      hide CheckOutcome;
      var key := flight.command.idempotencyKey;
      var wrong :=
        CheckOutcome(settings.hash, outcome, flight.request, flight.tool.capability, flight.tool.certification);
      if wrong.Some? {
        if flight.decision.None? || !IsWrite(flight.command.sideEffectClass) {
          return Err(wrong.value);
        }
        var quarantine := DispatchQuarantine(flight, flight.decision.value, clock);
        if key.Some? {
          idempotencyCache := idempotencyCache[key.value := CachedQuarantine(flight.fingerprint, quarantine)];
        }
        return Err(WriteIsQuarantined(quarantine));
      }
      var result := DispatchResult(false, flight.request, outcome.receipt.value, outcome.observation);
      if key.Some? {
        idempotencyCache := idempotencyCache[key.value := CachedResult(flight.fingerprint, result)];
      }
      r := Ok(result);
    }
  }
}
