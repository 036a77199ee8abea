// The kernel as the source runs it: a ledger and private arrays, updated in
// place by each call, and proved to follow the log-only transitions.
module RunKernel {
  import opened Wrappers
  import opened Protocol
  import opened Contracts
  import opened EventLog
  import opened ProofEngine
  import opened ReleaseGate
  import opened KernelSpec

  class InMemoryLedger {
    const env: Env
    var events: seq<RunEvent>
    var eventIds: set<string>

    ghost predicate Valid()
      reads this
    {
      eventIds == EventIds(events) && !IsBlank(env.runId)
    }

    constructor (env: Env)
      requires !IsBlank(env.runId)
      ensures Valid() && events == [] && this.env == env
    {
      this.env := env;
      events, eventIds := [], {};
    }

    method Append(payload: Payload, eventId: string, o: EventOptions, occurredAt: Timestamp)
      returns (r: Result<RunEvent, KernelError>)
      requires Valid()
      modifies this
      ensures Valid()
      ensures r == LedgerAppend(env, old(events), payload, eventId, o, occurredAt)
      ensures events == if r.Ok? then old(events) + [r.value] else old(events)
    {
      hide IsBlank, WellFormed;
      var causationId := o.causationId.GetOr(None);
      if eventId in eventIds {
        return Err(DuplicateEventId);
      }
      if causationId.Some? && causationId.value !in eventIds {
        return Err(InvalidCausationId);
      }
      if IsBlank(eventId) {
        return Err(EmptyEventId);
      }
      var payloadHash := env.hash(OfPayload(payload));
      if o.payloadHash.Some? && o.payloadHash.value != payloadHash {
        return Err(PayloadHashMismatch);
      }
      var event := RunEvent(eventId, env.runId, |events| + 1, payload, payloadHash, causationId,
                            o.correlationId.GetOr(None), occurredAt);
      events := events + [event];
      eventIds := eventIds + {eventId};
      r := Ok(event);
    }
  }

  /** The id an append makes up is the one it would be given. */
  lemma NamedAppend(env: Env, log: seq<RunEvent>, payload: Payload, o: EventOptions, clock: Timestamp)
    ensures var eventId := o.eventId.GetOr(NextEventId(env.runId, |log|, TypeName(payload)));
      EventLog.AppendEvent(env, log, payload, o.(eventId := Some(eventId)), clock)
      == EventLog.AppendEvent(env, log, payload, o, clock)
  {
    hide WellFormed, IsBlank, NextEventId, TypeName, EventIds;
  }

  lemma CommittedFields(env: Env, revision: nat, c: MutationCommandRequest, at: Timestamp)
    ensures Committed(env, revision, c, at).stateRef == c.stateRef
    ensures Committed(env, revision, c, at).newRevision == revision + 1
  {
  }

  class InMemoryRunKernel {
    const env: Env
    const ledger: InMemoryLedger
    var startedEventId: Option<string>
    var effectRequests: seq<EffectRequest>
    var effectReceipts: seq<EffectReceipt>
    var externalStateObservations: seq<ExternalStateObservation>
    var mutations: seq<MutationCommitted>
    var stateRevisions: map<string, nat>
    var approvalRequests: seq<ApprovalRequest>
    var approvalGrants: seq<ApprovalGrant>
    var approvalDenials: seq<ApprovalDenial>
    var approvalExpiries: seq<ApprovalExpiry>
    var proposals: seq<Proposal>
    var writePreflightCandidates: seq<WritePreflightCandidate>
    var writePreflightDecisions: seq<WritePreflightDecision>
    var writeQuarantineStates: seq<WriteQuarantineState>

    /** The private fields as one value. */
    function View(): Fields
      reads this
    {
      Fields(startedEventId, proposals, effectRequests, effectReceipts, externalStateObservations, mutations,
             stateRevisions, approvalRequests, approvalGrants, approvalDenials, approvalExpiries,
             writePreflightCandidates, writePreflightDecisions, writeQuarantineStates)
    }

    function Log(): seq<RunEvent>
      reads ledger
    {
      ledger.events
    }

    /** Event sourcing: the fields are always the fold of the log. */
    ghost predicate Valid()
      reads this, ledger
    {
      ledger.env == env && ledger.Valid() && View() == Fold(Log())
    }

    constructor (env: Env)
      requires !IsBlank(env.runId)
      ensures Valid() && fresh(ledger) && this.env == env && Log() == []
    {
      this.env := env;
      ledger := new InMemoryLedger(env);
      startedEventId := None;
      effectRequests, effectReceipts, externalStateObservations, mutations, stateRevisions := [], [], [], [], map[];
      approvalRequests, approvalGrants, approvalDenials, approvalExpiries, proposals := [], [], [], [], [];
      writePreflightCandidates, writePreflightDecisions, writeQuarantineStates := [], [], [];
    }

    /** The private `appendEvent`: it stores the event first and parses it afterwards. */
    method AppendEvent(payload: Payload, o: EventOptions, clock: Timestamp) returns (r: Result<RunEvent, KernelError>)
      requires ledger.env == env && ledger.Valid()
      modifies ledger
      ensures ledger.Valid()
      ensures Outcome(Log(), r) == EventLog.AppendEvent(env, old(Log()), payload, o, clock)
      ensures var eventId := o.eventId.GetOr(NextEventId(env.runId, |old(Log())|, TypeName(payload)));
        Outcome(Log(), r) == EventLog.AppendEvent(env, old(Log()), payload, o.(eventId := Some(eventId)), clock)
      ensures r.Ok? ==> WellFormed(r.value) && Log() == old(Log()) + [r.value] && r.value.payload == payload
      ensures r.Err? ==> Fold(Log()) == old(Fold(Log()))
    {
      hide IsBlank, WellFormed, ApplyPayload, NextEventId, TypeName, EventIds, Fold;
      NamedAppend(env, Log(), payload, o, clock);
      var refs := CheckReferences(Log(), o);
      if refs.Some? {
        return Err(refs.value);
      }
      if o.payloadHash.Some? && o.payloadHash.value != env.hash(OfPayload(payload)) {
        return Err(PayloadHashMismatch);
      }
      var eventId := o.eventId.GetOr(NextEventId(env.runId, |ledger.events|, TypeName(payload)));
      r := ledger.Append(payload, eventId, o, o.occurredAt.GetOr(clock));
      if r.Ok? && !WellFormed(r.value) {
        FoldAppend(old(Log()), r.value);
        r := Err(SchemaInvalid);
      }
    }

    /** What a successful append must be followed by for the fields to stay the fold of the log. */
    ghost predicate Applied(before: Fields, event: RunEvent)
      reads this
    {
      View() == ApplyPayload(before, event.eventId, event.payload)
    }

    lemma StaysValid(log: seq<RunEvent>, event: RunEvent)
      requires ledger.env == env && ledger.Valid() && Log() == log + [event] && WellFormed(event)
      requires Applied(Fold(log), event)
      ensures Valid()
    {
      FoldAppend(log, event);
    }

    /** The guard every call but the first begins with: started, parsed, this run. */
    method Enter(valid: bool, inputRunId: string) returns (refused: Option<KernelError>)
      ensures refused == if startedEventId.None? then Some(RunNotStarted)
                         else if !valid then Some(SchemaInvalid) else CheckRunId(env, inputRunId)
    {
      if startedEventId.None? {
        return Some(RunNotStarted);
      }
      if !valid {
        return Some(SchemaInvalid);
      }
      refused := CheckRunId(env, inputRunId);
    }

    method StartRun(profile: Option<string>, metadata: Option<JsonObject>, o: EventOptions, clock: Timestamp)
      returns (r: Result<RunEvent, KernelError>)
      requires Valid()
      modifies this, ledger
      ensures Valid()
      ensures forall unread ::
        Outcome(Log(), r) == Record(env, old(Log()), KernelSpec.StartRun(profile, metadata), o, unread, clock)
    {
      hide EventLog.AppendEvent, WellFormed, IsBlank, NextEventId, Fold;
      if startedEventId.Some? {
        return Err(RunAlreadyStarted);
      }
      r := AppendEvent(RunStarted(env.runId, profile, metadata), WithDefaultCausation(View(), o), clock);
      if r.Ok? {
        startedEventId := Some(r.value.eventId);
        StaysValid(old(Log()), r.value);
      }
    }

    method SubmitToolCommand(proposal: ToolCommandRequest, o: EventOptions, clock: Timestamp)
      returns (r: Result<RunEvent, KernelError>)
      requires Valid()
      modifies this, ledger
      ensures Valid()
      ensures forall unread ::
        Outcome(Log(), r) == Record(env, old(Log()), KernelSpec.SubmitToolCommand(proposal), o, unread, clock)
    {
      hide EventLog.AppendEvent, WellFormed, IsBlank, NextEventId, Fold, ValidToolCommand;
      var refused := Enter(ValidToolCommand(proposal), proposal.runId);
      if refused.Some? {
        return Err(refused.value);
      }
      r := AppendEvent(ProposalReceived(ToolProposal(proposal)), WithDefaultCausation(View(), o), clock);
      if r.Ok? {
        proposals := proposals + [ToolProposal(proposal)];
        StaysValid(old(Log()), r.value);
      }
    }

    method SubmitMutationCommand(proposal: MutationCommandRequest, o: EventOptions, clock: Timestamp)
      returns (r: Result<RunEvent, KernelError>)
      requires Valid()
      modifies this, ledger
      ensures Valid()
      ensures forall unread ::
        Outcome(Log(), r) == Record(env, old(Log()), KernelSpec.SubmitMutationCommand(proposal), o, unread, clock)
    {
      hide EventLog.AppendEvent, WellFormed, IsBlank, NextEventId, Fold, ValidMutationCommand;
      var refused := Enter(ValidMutationCommand(proposal), proposal.runId);
      if refused.None? {
        refused := CheckCommandHash(env, proposal);
      }
      if refused.Some? {
        return Err(refused.value);
      }
      r := AppendEvent(ProposalReceived(MutationProposal(proposal)), WithDefaultCausation(View(), o), clock);
      if r.Ok? {
        proposals := proposals + [MutationProposal(proposal)];
        StaysValid(old(Log()), r.value);
      }
    }

    method RecordEffectRequest(effectRequest: EffectRequest, o: EventOptions, clock: Timestamp)
      returns (r: Result<RunEvent, KernelError>)
      requires Valid()
      modifies this, ledger
      ensures Valid()
      ensures forall unread ::
        Outcome(Log(), r) == Record(env, old(Log()), KernelSpec.RecordEffectRequest(effectRequest), o, unread, clock)
    {
      hide EventLog.AppendEvent, WellFormed, IsBlank, NextEventId, Fold, ValidEffectRequest;
      var refused := Enter(ValidEffectRequest(effectRequest), effectRequest.runId);
      if refused.Some? {
        return Err(refused.value);
      }
      r := AppendEvent(EffectRequested(effectRequest), WithDefaultCausation(View(), o), clock);
      if r.Ok? {
        effectRequests := effectRequests + [effectRequest];
        StaysValid(old(Log()), r.value);
      }
    }

    method RecordWritePreflightRequested(candidate: WritePreflightCandidate, o: EventOptions, clock: Timestamp)
      returns (r: Result<RunEvent, KernelError>)
      requires Valid()
      modifies this, ledger
      ensures Valid()
      ensures forall unread ::
        Outcome(Log(), r) == Record(env, old(Log()), RecordPreflightRequested(candidate), o, unread, clock)
    {
      hide EventLog.AppendEvent, WellFormed, IsBlank, NextEventId, Fold, ValidPreflightCandidate;
      var refused := Enter(ValidPreflightCandidate(candidate), candidate.runId);
      if refused.Some? {
        return Err(refused.value);
      }
      r := AppendEvent(WritePreflightRequested(candidate), WithDefaultCausation(View(), o), clock);
      if r.Ok? {
        writePreflightCandidates := writePreflightCandidates + [candidate];
        StaysValid(old(Log()), r.value);
      }
    }

    method RecordWritePreflightDecided(decision: WritePreflightDecision, o: EventOptions, clock: Timestamp)
      returns (r: Result<RunEvent, KernelError>)
      requires Valid()
      modifies this, ledger
      ensures Valid()
      ensures forall unread ::
        Outcome(Log(), r) == Record(env, old(Log()), RecordPreflightDecided(decision), o, unread, clock)
    {
      hide EventLog.AppendEvent, WellFormed, IsBlank, NextEventId, Fold, ValidPreflightDecision, CheckDecision,
        CheckCriticalApproval;
      var refused := Enter(ValidPreflightDecision(decision), decision.runId);
      if refused.None? {
        refused := CheckDecision(View(), decision);
      }
      if refused.None? {
        refused := CheckCriticalApproval(env, View(), decision);
      }
      if refused.Some? {
        return Err(refused.value);
      }
      r := AppendEvent(WritePreflightDecided(decision), WithDefaultCausation(View(), o), clock);
      if r.Ok? {
        writePreflightDecisions := writePreflightDecisions + [decision];
        StaysValid(old(Log()), r.value);
      }
    }

    method RecordWriteQuarantined(quarantine: WriteQuarantineState, o: EventOptions, clock: Timestamp)
      returns (r: Result<RunEvent, KernelError>)
      requires Valid()
      modifies this, ledger
      ensures Valid()
      ensures forall unread ::
        Outcome(Log(), r) == Record(env, old(Log()), RecordQuarantined(quarantine), o, unread, clock)
    {
      hide EventLog.AppendEvent, WellFormed, IsBlank, NextEventId, Fold, ValidQuarantine, CheckQuarantine;
      var refused := Enter(ValidQuarantine(quarantine), quarantine.runId);
      if refused.None? {
        refused := CheckQuarantine(env, View(), quarantine);
      }
      if refused.Some? {
        return Err(refused.value);
      }
      r := AppendEvent(WriteQuarantined(quarantine), WithDefaultCausation(View(), o), clock);
      if r.Ok? {
        writeQuarantineStates := writeQuarantineStates + [quarantine];
        StaysValid(old(Log()), r.value);
      }
    }

    method RecordApprovalRequested(request: ApprovalRequest, o: EventOptions, clock: Timestamp)
      returns (r: Result<RunEvent, KernelError>)
      requires Valid()
      modifies this, ledger
      ensures Valid()
      ensures forall unread ::
        Outcome(Log(), r) == Record(env, old(Log()), KernelSpec.RecordApprovalRequested(request), o, unread, clock)
    {
      hide EventLog.AppendEvent, WellFormed, IsBlank, NextEventId, Fold, ValidApprovalRequest;
      var refused := Enter(ValidApprovalRequest(request), request.runId);
      if refused.Some? {
        return Err(refused.value);
      }
      r := AppendEvent(ApprovalRequested(request), WithDefaultCausation(View(), o), clock);
      if r.Ok? {
        approvalRequests := approvalRequests + [request];
        StaysValid(old(Log()), r.value);
      }
    }

    method RecordApprovalGranted(grant: ApprovalGrant, o: EventOptions, clock: Timestamp)
      returns (r: Result<RunEvent, KernelError>)
      requires Valid()
      modifies this, ledger
      ensures Valid()
      ensures forall unread ::
        Outcome(Log(), r) == Record(env, old(Log()), KernelSpec.RecordApprovalGranted(grant), o, unread, clock)
    {
      hide EventLog.AppendEvent, WellFormed, IsBlank, NextEventId, Fold, ValidApprovalGrant, CheckApproval;
      var refused := Enter(ValidApprovalGrant(grant), grant.runId);
      if refused.None? {
        refused := CheckApproval(env, View(), grant.approvalId, grant.runId, grant.scope, Some(grant.grantedAt));
      }
      if refused.Some? {
        return Err(refused.value);
      }
      r := AppendEvent(ApprovalGranted(grant), WithDefaultCausation(View(), o), clock);
      if r.Ok? {
        approvalGrants := approvalGrants + [grant];
        StaysValid(old(Log()), r.value);
      }
    }

    method RecordApprovalDenied(denial: ApprovalDenial, o: EventOptions, clock: Timestamp)
      returns (r: Result<RunEvent, KernelError>)
      requires Valid()
      modifies this, ledger
      ensures Valid()
      ensures forall unread ::
        Outcome(Log(), r) == Record(env, old(Log()), KernelSpec.RecordApprovalDenied(denial), o, unread, clock)
    {
      hide EventLog.AppendEvent, WellFormed, IsBlank, NextEventId, Fold, ValidApprovalDenial, CheckApproval;
      var refused := Enter(ValidApprovalDenial(denial), denial.runId);
      if refused.None? {
        refused := CheckApproval(env, View(), denial.approvalId, denial.runId, denial.scope, None);
      }
      if refused.Some? {
        return Err(refused.value);
      }
      r := AppendEvent(ApprovalDenied(denial), WithDefaultCausation(View(), o), clock);
      if r.Ok? {
        approvalDenials := approvalDenials + [denial];
        StaysValid(old(Log()), r.value);
      }
    }

    method RecordApprovalExpired(expiry: ApprovalExpiry, o: EventOptions, clock: Timestamp)
      returns (r: Result<RunEvent, KernelError>)
      requires Valid()
      modifies this, ledger
      ensures Valid()
      ensures forall unread ::
        Outcome(Log(), r) == Record(env, old(Log()), KernelSpec.RecordApprovalExpired(expiry), o, unread, clock)
    {
      hide EventLog.AppendEvent, WellFormed, IsBlank, NextEventId, Fold, ValidApprovalExpiry, CheckApproval;
      var refused := Enter(ValidApprovalExpiry(expiry), expiry.runId);
      if refused.None? {
        refused := CheckApproval(env, View(), expiry.approvalId, expiry.runId, expiry.scope, None);
      }
      if refused.Some? {
        return Err(refused.value);
      }
      r := AppendEvent(ApprovalExpired(expiry), WithDefaultCausation(View(), o), clock);
      if r.Ok? {
        approvalExpiries := approvalExpiries + [expiry];
        StaysValid(old(Log()), r.value);
      }
    }

    method RefuseCommit(command: MutationCommandRequest, committedAt: Timestamp) returns (refused: Option<KernelError>)
      ensures forall eventId ::
        refused == Admit(env, View(), KernelSpec.CommitMutation(command), eventId, committedAt)
    {
      hide ValidMutationCommand, CheckProposed, CheckCommandHash;
      refused := Enter(ValidMutationCommand(command), command.runId);
      if refused.None? {
        refused := CheckCommandHash(env, command);
      }
      if refused.None? {
        refused := CheckProposed(env, View(), command);
      }
      if refused.None? {
        var currentRevision := if command.stateRef in stateRevisions then stateRevisions[command.stateRef] else 0;
        if currentRevision != command.expectedRevision {
          refused := Some(MutationStaleRevision);
        } else if !ValidTime(committedAt) {
          refused := Some(SchemaInvalid);
        }
      }
    }

    method CommitMutation(command: MutationCommandRequest, o: EventOptions, clock: Timestamp, clockAgain: Timestamp)
      returns (r: Result<RunEvent, KernelError>)
      requires Valid()
      modifies this, ledger
      ensures Valid()
      ensures Outcome(Log(), r) == Record(env, old(Log()), KernelSpec.CommitMutation(command), o, clock, clockAgain)
    {
      hide EventLog.AppendEvent, WellFormed, IsBlank, NextEventId, Fold, Admit, Committed;
      var committedAt := o.occurredAt.GetOr(clock);
      var refused := RefuseCommit(command, committedAt);
      if refused.Some? {
        return Err(refused.value);
      }
      var currentRevision := if command.stateRef in stateRevisions then stateRevisions[command.stateRef] else 0;
      var mutation := Committed(env, currentRevision, command, committedAt);
      r := AppendEvent(MutationCommittedEvent(mutation), WithDefaultCausation(View(), o), clockAgain);
      if r.Ok? {
        mutations := mutations + [mutation];
        stateRevisions := stateRevisions[mutation.stateRef := mutation.newRevision];
        CommittedFields(env, currentRevision, command, committedAt);
        StaysValid(old(Log()), r.value);
      }
    }

    /** The checks of a receipt, in the order the method makes them. */
    method RefuseReceipt(receipt: EffectReceipt, eventId: string) returns (refused: Option<KernelError>)
      ensures forall committedAt ::
        refused == Admit(env, View(), KernelSpec.RecordEffectReceipt(receipt), eventId, committedAt)
    {
      hide ValidEffectReceipt, CheckEffectRequest, CheckObjectHash, CheckEvidence;
      refused := Enter(ValidEffectReceipt(receipt), receipt.runId);
      if refused.None? {
        refused := CheckEffectRequest(View(), receipt);
      }
      if refused.None? {
        refused := CheckObjectHash(env, receipt.payload, receipt.payloadHash);
      }
      if refused.None? {
        refused := CheckEvidence(receipt.evidence, eventId, EffectReceiptEvidence, receipt.payloadHash);
      }
    }

    method RecordEffectReceipt(receipt: EffectReceipt, o: EventOptions, clock: Timestamp)
      returns (r: Result<RunEvent, KernelError>)
      requires Valid()
      modifies this, ledger
      ensures Valid()
      ensures forall unread ::
        Outcome(Log(), r) == Record(env, old(Log()), KernelSpec.RecordEffectReceipt(receipt), o, unread, clock)
    {
      hide EventLog.AppendEvent, WellFormed, IsBlank, NextEventId, Fold, Admit, EventIds;
      var eventId := o.eventId.GetOr(NextEventId(env.runId, |Log()|, "EffectReceiptRecorded"));
      var refused := RefuseReceipt(receipt, eventId);
      if refused.Some? {
        return Err(refused.value);
      }
      r := AppendEvent(EffectReceiptRecorded(receipt), WithDefaultCausation(View(), o.(eventId := Some(eventId))),
                       clock);
      if r.Ok? {
        effectReceipts := effectReceipts + [receipt];
        StaysValid(old(Log()), r.value);
      }
    }

    method RefuseObservation(observation: ExternalStateObservation, eventId: string)
      returns (refused: Option<KernelError>)
      ensures forall committedAt ::
        refused == Admit(env, View(), RecordObservation(observation), eventId, committedAt)
    {
      hide ValidObservation, CheckObjectHash, CheckEvidence;
      refused := Enter(ValidObservation(observation), observation.runId);
      if refused.None? {
        refused := CheckObjectHash(env, observation.observedState, observation.payloadHash);
      }
      if refused.None? {
        refused := CheckEvidence(observation.evidence, eventId, ExternalObservationEvidence, observation.payloadHash);
      }
    }

    method RecordExternalStateObservation(observation: ExternalStateObservation, o: EventOptions, clock: Timestamp)
      returns (r: Result<RunEvent, KernelError>)
      requires Valid()
      modifies this, ledger
      ensures Valid()
      ensures forall unread ::
        Outcome(Log(), r) == Record(env, old(Log()), RecordObservation(observation), o, unread, clock)
    {
      hide EventLog.AppendEvent, WellFormed, IsBlank, NextEventId, Fold, Admit, EventIds;
      var eventId := o.eventId.GetOr(NextEventId(env.runId, |Log()|, "ExternalStateObserved"));
      var refused := RefuseObservation(observation, eventId);
      if refused.Some? {
        return Err(refused.value);
      }
      r := AppendEvent(ExternalStateObserved(observation), WithDefaultCausation(View(), o.(eventId := Some(eventId))),
                       clock);
      if r.Ok? {
        externalStateObservations := externalStateObservations + [observation];
        StaysValid(old(Log()), r.value);
      }
    }

    /** The events of the blocking mismatches, in order; it may run out of the ids it was given. */
    method AppendMismatches(mismatches: seq<Mismatch>, o: FinalOptions, generatedAt: Timestamp, proofEventId: string)
      returns (r: Result<seq<RunEvent>, KernelError>)
      requires Valid()
      modifies ledger
      ensures Valid()
      ensures Outcome(Log(), r)
           == KernelSpec.AppendMismatches(env, old(Log()), mismatches, 0, o, generatedAt, proofEventId)
    {
      hide EventLog.AppendEvent, WellFormed, IsBlank, NextEventId, Fold, TailOptions, EventIds;
      ghost var whole := KernelSpec.AppendMismatches(env, Log(), mismatches, 0, o, generatedAt, proofEventId);
      var events := [];
      if whole.result.Ok? {
        assert [] + whole.result.value == whole.result.value;
      }
      for k := 0 to |mismatches|
        invariant Valid()
        invariant var rest := KernelSpec.AppendMismatches(env, Log(), mismatches, k, o, generatedAt, proofEventId);
          whole == if rest.result.Err? then rest else Outcome(rest.log, Ok(events + rest.result.value))
      {
        if o.mismatchEventIds.Some? && k >= |o.mismatchEventIds.value| {
          return Err(InsufficientEventIds);
        }
        var id := if o.mismatchEventIds.Some? then Some(o.mismatchEventIds.value[k]) else None;
        label before:
        var event := AppendEvent(MismatchDetected(mismatches[k]), TailOptions(o, id, generatedAt, proofEventId),
                                 generatedAt);
        if event.Err? {
          return Err(event.error);
        }
        StaysValid(old@before(Log()), event.value);
        ghost var rest :=
          KernelSpec.AppendMismatches(env, Log(), mismatches, k + 1, o, generatedAt, proofEventId);
        if rest.result.Ok? {
          assert events + ([event.value] + rest.result.value) == (events + [event.value]) + rest.result.value;
        }
        events := events + [event.value];
      }
      assert events + [] == events;
      r := Ok(events);
    }

    method SubmitFinalCandidate(candidate: FinalCandidate, o: FinalOptions, clock: Timestamp)
      returns (r: Result<FinalResult, KernelError>)
      requires Valid()
      modifies this, ledger
      ensures Valid()
      ensures Outcome(Log(), r) == SubmitFinal(env, old(Log()), candidate, o, clock)
    {
      hide EventLog.AppendEvent, WellFormed, IsBlank, NextEventId, Fold, ValidCandidate, Conclude;
      var refused := Enter(ValidCandidate(candidate), candidate.runId);
      if refused.Some? {
        return Err(refused.value);
      }
      var proposal :=
        AppendEvent(ProposalReceived(FinalProposal(candidate)), WithDefaultCausation(View(), o.event), clock);
      if proposal.Err? {
        return Err(proposal.error);
      }
      proposals := proposals + [FinalProposal(candidate)];
      StaysValid(old(Log()), proposal.value);
      r := ConcludeCandidate(candidate, proposal.value, o);
    }

    /** The second half of `submitFinalCandidate`. */
    method ConcludeCandidate(candidate: FinalCandidate, proposalEvent: RunEvent, o: FinalOptions)
      returns (r: Result<FinalResult, KernelError>)
      requires Valid()
      modifies ledger
      ensures Valid()
      ensures Outcome(Log(), r) == Conclude(env, old(Log()), candidate, proposalEvent, o)
    {
      hide EventLog.AppendEvent, WellFormed, IsBlank, NextEventId, Fold, EvaluateProof, ValidProof, Decide,
        KernelSpec.AppendMismatches;
      var generatedAt := o.generatedAt.GetOr(proposalEvent.occurredAt);
      var proof := EvaluateProof(env.hash, ProofInput(candidate, effectReceipts, externalStateObservations,
                                                      generatedAt, o.proofId));
      if !ValidProof(proof) {
        return Err(SchemaInvalid);
      }
      var proofEvent := AppendEvent(ProofGenerated(proof),
                                    TailOptions(o, o.proofEventId, generatedAt, proposalEvent.eventId), generatedAt);
      if proofEvent.Err? {
        return Err(proofEvent.error);
      }
      StaysValid(old(Log()), proofEvent.value);
      var mismatchEvents := AppendMismatches(proof.blockingMismatches, o, generatedAt, proofEvent.value.eventId);
      if mismatchEvents.Err? {
        return Err(mismatchEvents.error);
      }
      r := DecideCandidate(candidate, proposalEvent, proofEvent.value, proof, mismatchEvents.value, generatedAt, o);
    }

    method DecideCandidate(candidate: FinalCandidate, proposalEvent: RunEvent, proofEvent: RunEvent,
                           proof: ProofObject, mismatchEvents: seq<RunEvent>, generatedAt: Timestamp, o: FinalOptions)
      returns (r: Result<FinalResult, KernelError>)
      requires Valid()
      modifies ledger
      ensures Valid()
      ensures Outcome(Log(), r) == Decide(env, old(Log()), candidate, proposalEvent, proofEvent, proof, mismatchEvents,
                                          generatedAt, o)
    {
      hide EventLog.AppendEvent, WellFormed, IsBlank, NextEventId, Fold, DecideRelease, ValidDecision,
        TailOptions, EventIds;
      var decision := DecideRelease(candidate, proof);
      if !ValidDecision(decision) {
        return Err(SchemaInvalid);
      }
      var releaseEvent := AppendEvent(ReleaseDecided(decision),
                                      TailOptions(o, o.releaseEventId, generatedAt, proofEvent.eventId), generatedAt);
      if releaseEvent.Err? {
        return Err(releaseEvent.error);
      }
      StaysValid(old(Log()), releaseEvent.value);
      var result := FinalResult(proof, decision, proposalEvent, proofEvent, mismatchEvents, releaseEvent.value, None);
      if !decision.status.Released? {
        return Ok(result);
      }
      label released:
      var finalEvent := AppendEvent(FinalReleased(decision, candidate),
                                    TailOptions(o, o.finalReleasedEventId, generatedAt, releaseEvent.value.eventId),
                                    generatedAt);
      if finalEvent.Err? {
        return Err(finalEvent.error);
      }
      StaysValid(old@released(Log()), finalEvent.value);
      r := Ok(result.(finalReleasedEvent := Some(finalEvent.value)));
    }
  }

  /** Each call has its own kernel method. */
  method Perform(kernel: InMemoryRunKernel, call: Call, o: EventOptions, clock: Timestamp,
                 clockAgain: Timestamp)
    returns (r: Result<RunEvent, KernelError>)
    requires kernel.Valid()
    modifies kernel, kernel.ledger
    ensures kernel.Valid()
    ensures Outcome(kernel.Log(), r) == Record(kernel.env, old(kernel.Log()), call, o, clock, clockAgain)
  {
    hide Record, Fold, InMemoryRunKernel.View;
    match call {
      case StartRun(profile, metadata) => r := kernel.StartRun(profile, metadata, o, clockAgain);
      case SubmitToolCommand(x) => r := kernel.SubmitToolCommand(x, o, clockAgain);
      case SubmitMutationCommand(x) => r := kernel.SubmitMutationCommand(x, o, clockAgain);
      case RecordEffectRequest(x) => r := kernel.RecordEffectRequest(x, o, clockAgain);
      case RecordPreflightRequested(x) => r := kernel.RecordWritePreflightRequested(x, o, clockAgain);
      case RecordPreflightDecided(x) => r := kernel.RecordWritePreflightDecided(x, o, clockAgain);
      case RecordQuarantined(x) => r := kernel.RecordWriteQuarantined(x, o, clockAgain);
      case RecordApprovalRequested(x) => r := kernel.RecordApprovalRequested(x, o, clockAgain);
      case RecordApprovalGranted(x) => r := kernel.RecordApprovalGranted(x, o, clockAgain);
      case RecordApprovalDenied(x) => r := kernel.RecordApprovalDenied(x, o, clockAgain);
      case RecordApprovalExpired(x) => r := kernel.RecordApprovalExpired(x, o, clockAgain);
      case CommitMutation(x) => r := kernel.CommitMutation(x, o, clock, clockAgain);
      case RecordEffectReceipt(x) => r := kernel.RecordEffectReceipt(x, o, clockAgain);
      case RecordObservation(x) => r := kernel.RecordExternalStateObservation(x, o, clockAgain);
    }
  }
}
