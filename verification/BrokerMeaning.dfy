// What the broker's decisions, requests, results and cache entries say, field
// by field, over its whole life.
module BrokerMeaning {
  import opened Wrappers
  import opened Protocol
  import opened Contracts
  import EventLog
  import opened EffectSdk
  import opened EffectBroker
  import opened BrokerProperties

  // Which tools fit

  /** The adapter may be used at all. */
  predicate IsCertified(a: Adapter, allowedKinds: set<string>)
    ensures IsCertified(a, allowedKinds) ==> a.certification.Certified?
  {
    && (forall key :: key in a.ownKeys ==> key !in FORBIDDEN_KEYS)
    && a.certification.Certified?
    && var c := a.certification.certification;
       && c.adapterId == a.adapterId && c.capabilityId == a.capabilityId && c.toolId == a.toolId
       && c.adapterKind in allowedKinds && c.declaredReceiptTypes != [] && !c.sideEffectClass.CriticalWrite?
       && (c.adapterKind == "external_write" ==> IsWrite(c.sideEffectClass))
       && (c.adapterKind == "local_readonly" || c.adapterKind == "external_read" ==> !IsWrite(c.sideEffectClass))
       && (if IsGovernedWrite(c.sideEffectClass) then c.writeLifecycle.Some? && IsLifecycle(c, c.writeLifecycle.value)
           else c.writeLifecycle.None?)
  }

  /** What a certified write promises about its lifecycle. */
  predicate IsLifecycle(c: Certification, l: WriteLifecycle) {
    && c.idempotency.RequiredForWrites? && l.preflight == "required_before_dispatch"
    && l.idempotencyKey == "tool_command_required" && l.dispatch == "broker_governed"
    && l.outcome == "receipt_candidate_or_quarantine_required"
    && "proof_authority" in l.forbiddenAuthority && "receipt_admission" in l.forbiddenAuthority
    && "release_authority" in l.forbiddenAuthority
    && forall a :: a in l.forbiddenAuthority ==> a in {"proof_authority", "receipt_admission", "release_authority"}
  }

  lemma LifecycleMeaning(c: Certification)
    ensures CheckLifecycle(c).None? <==>
      if IsGovernedWrite(c.sideEffectClass) then c.writeLifecycle.Some? && IsLifecycle(c, c.writeLifecycle.value)
      else c.writeLifecycle.None?
  {
  }

  lemma CertificationMeaning(a: Adapter, allowedKinds: set<string>)
    ensures CheckCertification(a, allowedKinds).None? <==> IsCertified(a, allowedKinds)
  {
    hide CheckLifecycle, IsLifecycle;
    if a.certification.Certified? {
      LifecycleMeaning(a.certification.certification);
      LifecycleNeedsKeys(a.certification.certification);
    }
    assert a.ownKeys * FORBIDDEN_KEYS == {} <==> forall key :: key in a.ownKeys ==> key !in FORBIDDEN_KEYS by {
      if a.ownKeys * FORBIDDEN_KEYS == {} {
        forall key | key in a.ownKeys
          ensures key !in FORBIDDEN_KEYS
        {
          assert key in a.ownKeys * FORBIDDEN_KEYS <==> key in FORBIDDEN_KEYS;
        }
      }
    }
  }

  lemma LifecycleNeedsKeys(c: Certification)
    ensures CheckLifecycle(c).None? && IsGovernedWrite(c.sideEffectClass) ==> c.idempotency.RequiredForWrites?
  {
  }

  /** The registered capability and adapter of a command, certified and of one mind about it. */
  predicate ToolFits(settings: Settings, s: State, t: ToolCommandRequest, tool: Tool) {
    && t.capabilityId in s.capabilities && tool.capability == s.capabilities[t.capabilityId]
    && AdapterKey(t.capabilityId, t.toolId) in s.adapters
    && tool.adapter == s.adapters[AdapterKey(t.capabilityId, t.toolId)]
    && IsCertified(tool.adapter, settings.allowedKinds)
    && tool.certification == tool.adapter.certification.certification
    && tool.adapter.capabilityId == t.capabilityId && tool.adapter.toolId == t.toolId
    && tool.capability.sideEffectClass == t.sideEffectClass && tool.certification.sideEffectClass == t.sideEffectClass
    && (forall x :: x in tool.certification.declaredReceiptTypes ==> ReceiptOf(x) in tool.capability.evidence)
    && (forall x :: x in tool.certification.declaredObservationTypes ==> ObservationOf(x) in tool.capability.evidence)
  }

  /** A tool is found exactly when it fits, and it is the one that fits. */
  lemma ToolMeaning(settings: Settings, s: State, t: ToolCommandRequest, tool: Tool)
    ensures ToolFor(settings, s, t) == Ok(tool) <==> ToolFits(settings, s, t, tool)
  {
    hide CheckCertification, IsCertified;
    if t.capabilityId in s.capabilities && AdapterKey(t.capabilityId, t.toolId) in s.adapters {
      CertificationMeaning(s.adapters[AdapterKey(t.capabilityId, t.toolId)], settings.allowedKinds);
    }
  }

  // Preflights

  predicate IsRegistered(s: State, t: ToolCommandRequest) {
    t.capabilityId in s.capabilities && AdapterKey(t.capabilityId, t.toolId) in s.adapters
  }

  function ToolOf(s: State, t: ToolCommandRequest): Adapter
    requires IsRegistered(s, t)
  {
    s.adapters[AdapterKey(t.capabilityId, t.toolId)]
  }

  predicate IsCertifiedCritical(a: Adapter) {
    a.certification.Certified? && a.certification.certification.sideEffectClass.CriticalWrite?
  }

  /** There is a certified adapter, but the capability is of another class than the command. */
  predicate IsForAnotherClass(settings: Settings, s: State, t: ToolCommandRequest) {
    && IsRegistered(s, t) && IsCertified(ToolOf(s, t), settings.allowedKinds)
    && s.capabilities[t.capabilityId].sideEffectClass != t.sideEffectClass
  }

  /** What a preflight decides: which status, for which reason, and about what. */
  lemma PreflightMeaning(settings: Settings, s: State, t: ToolCommandRequest, o: PreflightOptions, clock: Timestamp,
                         again: Timestamp)
    requires Preflight(settings, s, t, o, clock, again).1.Ok?
    ensures IsWrite(t.sideEffectClass)
    ensures var d := Preflight(settings, s, t, o, clock, again).1.value;
      && d.runId == t.runId && d.commandId == t.commandId && d.capabilityId == t.capabilityId
      && d.toolId == t.toolId && d.sideEffectClass == t.sideEffectClass && d.idempotencyKey == t.idempotencyKey
      && d.decidedAt == o.decidedAt.GetOr(again)
      && (d.status.Quarantined? <==> t.sideEffectClass.CriticalWrite?)
      && (d.status.Allowed? <==>
            !t.sideEffectClass.CriticalWrite? && t.idempotencyKey.Some?
            && exists tool :: ToolFits(settings, s, t, tool))
      && (d.status == Denied(MissingIdempotencyKey) <==>
            !t.sideEffectClass.CriticalWrite? && t.idempotencyKey.None?)
      && (d.status == Denied(CapabilityMissing) <==>
            !t.sideEffectClass.CriticalWrite? && t.idempotencyKey.Some? && t.capabilityId !in s.capabilities)
      && (d.status == Denied(ToolMissing) ==>
            !t.sideEffectClass.CriticalWrite? && t.idempotencyKey.Some? && t.capabilityId in s.capabilities)
      && (d.status == Denied(PolicyDenied) <==>
            !t.sideEffectClass.CriticalWrite? && t.idempotencyKey.Some? && IsForAnotherClass(settings, s, t))
      && (d.status.Denied? && IsRegistered(s, t) && !IsCertified(ToolOf(s, t), settings.allowedKinds)
          && t.idempotencyKey.Some? ==>
            || d.status.reason == NotCertified
            || (d.status.reason == CriticalApproval && IsCertifiedCritical(ToolOf(s, t))))
      && (d.status.Quarantined? ==>
            var q := d.status.quarantine;
            && q.reason == CriticalApprovalRequired && q.runId == t.runId && q.preflightId == d.preflightId
            && q.commandId == t.commandId && q.capabilityId == t.capabilityId && q.toolId == t.toolId
            && q.sideEffectClass == t.sideEffectClass && q.idempotencyKey == t.idempotencyKey
            && q.quarantinedAt == d.decidedAt)
  {
    hide ValidToolCommand, ValidPreflightCandidate, ValidPreflightDecision, ToolFits, ToolFor;
    var found := ToolFor(settings, s, t);
    if found.Ok? {
      ToolMeaning(settings, s, t, found.value);
    }
    if tool :| ToolFits(settings, s, t, tool) {
      ToolMeaning(settings, s, t, tool);
    }
    MissingTools(settings, s, t);
  }

  lemma MissingTools(settings: Settings, s: State, t: ToolCommandRequest)
    ensures var r := ToolFor(settings, s, t);
      && (r == Err(CapabilityNotRegistered) <==> t.capabilityId !in s.capabilities)
      && (r == Err(ToolNotRegistered) ==> t.capabilityId in s.capabilities)
      && (r.Err? && BlockReason(r.error) == PolicyDenied <==> IsForAnotherClass(settings, s, t))
      && (IsRegistered(s, t) && !IsCertified(ToolOf(s, t), settings.allowedKinds) ==>
            r.Err? && (|| BlockReason(r.error) == NotCertified
                       || (BlockReason(r.error) == CriticalApproval && IsCertifiedCritical(ToolOf(s, t)))))
  {
    hide IsCertified;
    if IsRegistered(s, t) {
      CertificationMeaning(ToolOf(s, t), settings.allowedKinds);
    }
  }

  // Executions

  /** What an execution was started with. */
  predicate IsForCommand(f: Flight) {
    var t, q := f.command, f.request;
    && q.commandId == t.commandId && q.runId == t.runId && q.capabilityId == t.capabilityId && q.toolId == t.toolId
    && q.args == t.args && q.sideEffectClass == t.sideEffectClass && q.idempotencyKey == t.idempotencyKey
  }

  /** The same effect is asked for. */
  predicate SameEffectAs(a: ToolCommandRequest, b: ToolCommandRequest) {
    && a.args == b.args && a.capabilityId == b.capabilityId && a.runId == b.runId
    && a.sideEffectClass == b.sideEffectClass && a.toolId == b.toolId && a.idempotencyKey == b.idempotencyKey
  }

  /** Every execution is for its command, of a tool that fits, and fingerprinted by all that the effect depends on. */
  ghost predicate IsProperFlight(settings: Settings, f: Flight) {
    && IsForCommand(f) && f.fingerprint == settings.hash(EffectInput(f.command))
    && exists s :: ToolFits(settings, s, f.command, f.tool)
  }

  lemma BegunIsProper(settings: Settings, s: State, t: ToolCommandRequest, o: DispatchOptions,
                      presented: Option<WritePreflightDecision>, clock: Timestamp)
    requires Begin(settings, s, t, o, presented, clock).Executing?
    ensures IsProperFlight(settings, Begin(settings, s, t, o, presented, clock).flight)
  {
    hide Begin, ToolFor, ToolFits;
    FlightOfCall(settings, s, t, o, presented, clock);
    var f := Begin(settings, s, t, o, presented, clock).flight;
    ToolMeaning(settings, s, t, f.tool);
  }

  // Results

  /** A receipt the broker answers with: of this effect, decided, with the hash of its payload, of a declared type. */
  predicate ReceiptFits(hash: Hasher, r: ReceiptCandidate, request: EffectRequest, tool: Tool) {
    && r.effectId == request.effectId && r.runId == request.runId && r.capabilityId == request.capabilityId
    && (r.status == Succeeded || r.status == Failed) && hash(OfObject(r.payload)) == r.payloadHash
    && r.receiptType in tool.certification.declaredReceiptTypes && ReceiptOf(r.receiptType) in tool.capability.evidence
    && NonEmpty(r.receiptId) && r.observedAt.parsed.Some?
    && (IsReader(tool) ==> !HasRawContent(Obj(r.payload)) && CarryNothing(r.evidence))
  }

  /** Adapters that only read may not carry content. */
  predicate IsReader(tool: Tool) {
    tool.certification.adapterKind == "external_read" || tool.certification.adapterKind == "local_readonly"
  }

  predicate CarryNothing(refs: seq<PendingRef>) {
    forall i :: 0 <= i < |refs| ==> !HasRawContent(Obj(refs[i].details))
  }

  /** An observation the broker passes on: behind a succeeded receipt, with evidence that carries its hash. */
  predicate ObservationFits(hash: Hasher, o: ObservationCandidate, r: ReceiptCandidate, request: EffectRequest,
                            tool: Tool) {
    && r.status == Succeeded && o.runId == request.runId && hash(OfObject(o.observedState)) == o.payloadHash
    && o.observedAt.parsed.Some? && o.expiresAt.parsed.Some? && o.observedAt.parsed.value < o.expiresAt.parsed.value
    && |o.evidence| > 0
    && (forall i :: 0 <= i < |o.evidence| ==>
          o.evidence[i].kind == ExternalObservationEvidence && o.evidence[i].hash == o.payloadHash)
    && o.observationType in tool.certification.declaredObservationTypes
    && ObservationOf(o.observationType) in tool.capability.evidence
    && (IsReader(tool) ==> !HasRawContent(Obj(o.observedState)) && CarryNothing(o.evidence))
  }

  /** What is answered about an execution is what the adapter returned, and it fits. */
  predicate IsAnswerTo(settings: Settings, f: Flight, outcome: AdapterOutcome, r: DispatchResult) {
    && !r.cached && r.effectRequest == f.request
    && outcome == Returned(Some(r.receipt), r.observation)
    && ReceiptFits(settings.hash, r.receipt, f.request, f.tool)
    && (r.observation.Some? ==> ObservationFits(settings.hash, r.observation.value, r.receipt, f.request, f.tool))
  }

  lemma AcceptedFits(hash: Hasher, outcome: AdapterOutcome, request: EffectRequest, tool: Tool)
    requires CheckOutcome(hash, outcome, request, tool.capability, tool.certification).None?
    ensures outcome.Returned? && outcome.receipt.Some? && ReceiptFits(hash, outcome.receipt.value, request, tool)
    ensures outcome.observation.Some? ==>
      ObservationFits(hash, outcome.observation.value, outcome.receipt.value, request, tool)
  {
    hide HasRawContent, ValidPendingRefs;
  }

  /** What the end of an execution leaves in the cache under its key. */
  ghost predicate IsEntryOf(settings: Settings, f: Flight, entry: CachedEffect) {
    && entry.fingerprint == f.fingerprint
    && (entry.CachedResult? ==> exists outcome :: IsAnswerTo(settings, f, outcome, entry.result))
    && (entry.CachedQuarantine? ==>
          && f.decision.Some? && IsWrite(f.command.sideEffectClass)
          && var q, t := entry.quarantine, f.command;
             && q.reason == UncertainExternalEffect && q.preflightId == f.decision.value.preflightId
             && q.runId == t.runId && q.commandId == t.commandId && q.capabilityId == t.capabilityId
             && q.toolId == t.toolId && q.sideEffectClass == t.sideEffectClass
             && q.idempotencyKey == t.idempotencyKey
             && q.metadata.Some? && "effectId" in q.metadata.value
             && q.metadata.value["effectId"] == Str(f.request.effectId))
  }

  /** The end of an execution: an answer that is cached, a quarantine that is cached, or an error and nothing else. */
  lemma FinishMeaning(settings: Settings, s: State, f: Flight, outcome: AdapterOutcome, clock: Timestamp)
    ensures var (next, r) := Finish(settings, s, f, outcome, clock);
      && next == s.(cache := next.cache)
      && (r.Ok? ==> IsAnswerTo(settings, f, outcome, r.value))
      && (f.command.idempotencyKey.None? ==> next == s)
      && (f.command.idempotencyKey.Some? ==>
            var key := f.command.idempotencyKey.value;
            || next == s
            || (key in next.cache && next.cache == s.cache[key := next.cache[key]]
                && IsEntryOf(settings, f, next.cache[key])
                && (next.cache[key].CachedQuarantine? ==> next.cache[key].quarantine.quarantinedAt == clock)
                && (r.Ok? ==> next.cache[key] == CachedResult(f.fingerprint, r.value))
                && (r.Err? ==> r.error.WriteIsQuarantined?
                               && next.cache[key] == CachedQuarantine(f.fingerprint, r.error.state))))
  {
    hide CheckOutcome, ReceiptFits, ObservationFits;
    if CheckOutcome(settings.hash, outcome, f.request, f.tool.capability, f.tool.certification).None? {
      AcceptedFits(settings.hash, outcome, f.request, f.tool);
      assert outcome == Returned(Some(outcome.receipt.value), outcome.observation);
    }
  }

  // The cache over a broker's life

  /** The cached effect comes from this finished execution. */
  ghost predicate IsOrigin(settings: Settings, w: World, key: string, i: nat)
    requires key in w.broker.cache
  {
    && i < |w.history| && w.history[i].Executed? && i in w.finished
    && w.history[i].flight.command.idempotencyKey == Some(key)
    && IsEntryOf(settings, w.history[i].flight, w.broker.cache[key])
  }

  ghost predicate FlightsAreProper(settings: Settings, w: World) {
    forall i :: 0 <= i < |w.history| && w.history[i].Executed? ==> IsProperFlight(settings, w.history[i].flight)
  }

  ghost predicate CacheHasOrigins(settings: Settings, w: World) {
    forall key :: key in w.broker.cache ==> exists i: nat :: IsOrigin(settings, w, key, i)
  }

  lemma NextKeepsProper(settings: Settings, w: World, a: Action)
    requires FlightsAreProper(settings, w)
    ensures FlightsAreProper(settings, Next(settings, w, a))
  {
    hide Begin, Preflight, Finish, CheckCertification, IsProperFlight;
    if a.BeginCall? && Begin(settings, w.broker, a.command, a.options, a.presented, a.clock).Executing? {
      BegunIsProper(settings, w.broker, a.command, a.options, a.presented, a.clock);
    }
  }

  lemma NextKeepsOrigins(settings: Settings, w: World, a: Action)
    requires CacheHasOrigins(settings, w)
    ensures CacheHasOrigins(settings, Next(settings, w, a))
  {
    hide Begin, Preflight, Finish, CheckCertification, IsEntryOf;
    var next := Next(settings, w, a);
    if a.AskPreflight? {
      PreflightKeepsRest(settings, w.broker, a.command, a.preflightOptions, a.clock, a.clockAgain);
    }
    if a.FinishCall? && IsOpen(w, a.which) {
      FinishMeaning(settings, w.broker, w.history[a.which].flight, a.outcome, a.clock);
    }
    forall key | key in next.broker.cache
      ensures exists i: nat :: IsOrigin(settings, next, key, i)
    {
      if key in w.broker.cache && next.broker.cache[key] == w.broker.cache[key] {
        var i: nat :| IsOrigin(settings, w, key, i);
        assert next.history[i] == w.history[i];
        assert IsOrigin(settings, next, key, i);
      } else {
        assert IsOrigin(settings, next, key, a.which);
      }
    }
  }

  lemma {:induction false} LifeIsProper(settings: Settings, actions: seq<Action>)
    ensures FlightsAreProper(settings, After(settings, NewWorld, actions))
    ensures CacheHasOrigins(settings, After(settings, NewWorld, actions))
  {
    hide Next, FlightsAreProper, CacheHasOrigins;
    if actions == [] {
      NothingIsProper(settings);
    } else {
      var before := After(settings, NewWorld, actions[..|actions| - 1]);
      LifeIsProper(settings, actions[..|actions| - 1]);
      NextKeepsProper(settings, before, actions[|actions| - 1]);
      NextKeepsOrigins(settings, before, actions[|actions| - 1]);
    }
  }

  lemma NothingIsProper(settings: Settings)
    ensures FlightsAreProper(settings, NewWorld) && CacheHasOrigins(settings, NewWorld)
  {
  }

  /**
   * Answered from the cache means asked for the very same effect: unless hashes collide, the finished execution that
   * set the entry was of a command with the same arguments, capability, run, class, tool and key, and the answer is
   * what its adapter returned.
   */
  lemma AnsweredForThisEffect(settings: Settings, actions: seq<Action>, t: ToolCommandRequest, o: DispatchOptions,
                              presented: Option<WritePreflightDecision>, clock: Timestamp) returns (i: nat)
    requires Begin(settings, After(settings, NewWorld, actions).broker, t, o, presented, clock).Answered?
    ensures var w := After(settings, NewWorld, actions);
      var r := Begin(settings, w.broker, t, o, presented, clock).result;
      && i < |w.history| && w.history[i].Executed? && i in w.finished
      && (NoCollision(settings.hash, EffectInput(w.history[i].flight.command), EffectInput(t)) ==>
            SameEffectAs(w.history[i].flight.command, t))
      && r.cached && r.effectRequest == w.history[i].flight.request
      && exists outcome :: IsAnswerTo(settings, w.history[i].flight, outcome, r.(cached := false))
  {
    hide After, IsAnswerTo, Begin;
    LifeIsProper(settings, actions);
    var w := After(settings, NewWorld, actions);
    AnswerIsFor(settings, w.broker, t, o, presented, clock);
    var key := t.idempotencyKey.value;
    i :| IsOrigin(settings, w, key, i);
    assert IsProperFlight(settings, w.history[i].flight);
    var entry := w.broker.cache[key];
    var outcome :| IsAnswerTo(settings, w.history[i].flight, outcome, entry.result);
    FirstAnswer(settings, w.history[i].flight, outcome, entry.result);
  }

  lemma FirstAnswer(settings: Settings, f: Flight, outcome: AdapterOutcome, r: DispatchResult)
    requires IsAnswerTo(settings, f, outcome, r)
    ensures r.effectRequest == f.request && r.(cached := true).(cached := false) == r
  {
  }

  /** An answer needs the fingerprint of all that the effect depends on. */
  lemma AnswerIsFor(settings: Settings, s: State, t: ToolCommandRequest, o: DispatchOptions,
                    presented: Option<WritePreflightDecision>, clock: Timestamp)
    requires Begin(settings, s, t, o, presented, clock).Answered?
    ensures t.idempotencyKey.Some? && t.idempotencyKey.value in s.cache
    ensures s.cache[t.idempotencyKey.value].fingerprint == settings.hash(EffectInput(t))
    ensures var entry := s.cache[t.idempotencyKey.value];
      entry.CachedResult? && Begin(settings, s, t, o, presented, clock).result == entry.result.(cached := true)
  {
    hide ToolFor, ValidToolCommand, ValidPreflightDecision, CheckDecisionAllows;
  }

  /** Nothing but the cache stands between the command and its tool. */
  ghost predicate ReachesCache(settings: Settings, s: State, t: ToolCommandRequest,
                               presented: Option<WritePreflightDecision>) {
    && ValidToolCommand(t) && (exists tool :: ToolFits(settings, s, t, tool))
    && if presented.Some? then
         && ValidPreflightDecision(presented.value) && IsGovernedWrite(t.sideEffectClass)
         && CheckDecisionAllows(settings, s, t, presented.value).None? && t.idempotencyKey.Some?
       else !IsWrite(t.sideEffectClass)
  }

  /**
   * The other way round: a command that gets as far as the cache, with a key that is cached for another effect, raises
   * a conflict unless hashes collide; for the same effect it is given the result or raises the quarantine.
   */
  lemma OtherEffectsConflict(settings: Settings, actions: seq<Action>, t: ToolCommandRequest, o: DispatchOptions,
                             presented: Option<WritePreflightDecision>, clock: Timestamp, i: nat)
    requires var w := After(settings, NewWorld, actions);
      && ReachesCache(settings, w.broker, t, presented) && t.idempotencyKey.Some?
      && t.idempotencyKey.value in w.broker.cache && IsOrigin(settings, w, t.idempotencyKey.value, i)
      && NoCollision(settings.hash, EffectInput(w.history[i].flight.command), EffectInput(t))
    ensures var w := After(settings, NewWorld, actions);
      var entry := w.broker.cache[t.idempotencyKey.value];
      Begin(settings, w.broker, t, o, presented, clock)
      == if !SameEffectAs(w.history[i].flight.command, t) then Refused(KeyConflict)
         else if entry.CachedQuarantine? then Refused(WriteIsQuarantined(entry.quarantine))
         else Answered(entry.result.(cached := true))
  {
    hide After, ToolFor, ToolFits, ValidToolCommand, ValidPreflightDecision, CheckDecisionAllows, IsEntryOf, Begin,
      IsForCommand;
    LifeIsProper(settings, actions);
    var w := After(settings, NewWorld, actions);
    assert IsProperFlight(settings, w.history[i].flight);
    EntryFingerprint(settings, w.history[i].flight, w.broker.cache[t.idempotencyKey.value]);
    CacheAnswers(settings, w.broker, t, o, presented, clock);
  }

  lemma EntryFingerprint(settings: Settings, f: Flight, entry: CachedEffect)
    requires IsEntryOf(settings, f, entry)
    ensures entry.fingerprint == f.fingerprint
  {
  }

  /** A command that gets as far as the cache is answered by what is cached under its key. */
  lemma CacheAnswers(settings: Settings, s: State, t: ToolCommandRequest, o: DispatchOptions,
                     presented: Option<WritePreflightDecision>, clock: Timestamp)
    requires ReachesCache(settings, s, t, presented) && t.idempotencyKey.Some? && t.idempotencyKey.value in s.cache
    ensures var entry := s.cache[t.idempotencyKey.value];
      Begin(settings, s, t, o, presented, clock)
      == if entry.fingerprint != settings.hash(EffectInput(t)) then Refused(KeyConflict)
         else if entry.CachedQuarantine? then Refused(WriteIsQuarantined(entry.quarantine))
         else Answered(entry.result.(cached := true))
  {
    hide ToolFor, ToolFits, ValidToolCommand, ValidPreflightDecision, CheckDecisionAllows;
    var tool :| ToolFits(settings, s, t, tool);
    ToolMeaning(settings, s, t, tool);
  }

  // Refusals

  /** What a direct dispatch of a valid command of a fitting tool is refused for: any write is. */
  lemma DirectRefusals(settings: Settings, s: State, t: ToolCommandRequest, o: DispatchOptions, clock: Timestamp,
                       tool: Tool)
    requires ValidToolCommand(t) && ToolFits(settings, s, t, tool)
    ensures var r := Begin(settings, s, t, o, None, clock);
      && (IsWrite(t.sideEffectClass) ==>
            r == Refused(if t.idempotencyKey.None? then KeyRequired else PreflightRequired))
      && (!IsWrite(t.sideEffectClass) ==>
            r.Executing? || r.Answered?
            || (r.Refused? && (r.error == KeyConflict || r.error.WriteIsQuarantined? || r.error == Unparsed)))
  {
    hide ValidToolCommand, ToolFor, ToolFits, ValidEffectRequest;
    ToolMeaning(settings, s, t, tool);
  }

  /** What a presented decision is refused for. */
  lemma DecisionRefusals(settings: Settings, s: State, t: ToolCommandRequest, d: WritePreflightDecision)
    ensures var r := CheckDecisionAllows(settings, s, t, d);
      && (r == Some(PreflightNotApplicable) <==> !IsWrite(t.sideEffectClass))
      && (r == Some(DecisionDenied) <==> IsWrite(t.sideEffectClass) && d.status.Denied?)
      && (r == Some(DecisionQuarantined) <==> IsWrite(t.sideEffectClass) && d.status.Quarantined?)
      && (r.Some? ==> r.value in {PreflightNotApplicable, DecisionDenied, DecisionQuarantined, DecisionMismatch})
      && (IsWrite(t.sideEffectClass) && d.status.Allowed? && d.preflightId !in s.decisions ==>
            r == Some(DecisionMismatch))
  {
  }

  // Ids that are made up

  /** Ids the broker makes up name the command, or the preflight, they belong to. */
  lemma MadeUpIds(t: ToolCommandRequest, po: PreflightOptions, o: DispatchOptions, f: Flight,
                  d: WritePreflightDecision, clock: Timestamp)
    ensures po.preflightId.None? ==> PreflightIdOf(t, po) == "preflight_" + EventLog.SanitizeIdPart(t.commandId)
    ensures po.preflightId.Some? ==> PreflightIdOf(t, po) == po.preflightId.value
    ensures RequestOf(t, o, clock).effectId
         == if o.effectId.Some? then o.effectId.value else "effect_" + EventLog.SanitizeIdPart(t.commandId)
    ensures RequestOf(t, o, clock).requestedAt == if o.requestedAt.Some? then o.requestedAt.value else clock
    ensures CriticalQuarantine(t, po, clock).quarantineId
         == if po.quarantineId.Some? then po.quarantineId.value
            else "quarantine_" + EventLog.SanitizeIdPart(PreflightIdOf(t, po))
    ensures DispatchQuarantine(f, d, clock).quarantineId
         == "quarantine_" + EventLog.SanitizeIdPart(d.preflightId) + "_dispatch"
  {
  }
}
