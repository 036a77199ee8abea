// The local harness: it proposes a command to the kernel, has the broker
// dispatch it, and records the effect the broker reports.
module Harness {
  import opened Wrappers
  import opened Protocol
  import opened Contracts
  import opened EventLog
  import opened KernelSpec
  import EffectSdk
  import EffectBroker
  import RunKernel

  datatype HarnessError =
    | KernelRefused(error: KernelError)
    | BrokerRefused(brokerError: EffectSdk.BrokerError)

  /** What the harness remembers of a recorded effect. */
  datatype RecordedEffect = RecordedEffect(
    requestEvent: RunEvent, receiptEvent: RunEvent, receipt: EffectReceipt,
    observation: Option<(RunEvent, ExternalStateObservation)>)

  datatype HarnessOptions = HarnessOptions(
    proposalEvent: EventOptions, broker: EffectBroker.DispatchOptions, requestEvent: EventOptions,
    receiptEvent: EventOptions, observationEvent: EventOptions)

  /** The clock's readings during one dispatch. */
  datatype Clocks = Clocks(
    proposal: Timestamp, begin: Timestamp, finish: Timestamp, request: Timestamp, receipt: Timestamp,
    observation: Timestamp)

  datatype HarnessResult = HarnessResult(cached: bool, proposalEvent: RunEvent, effect: RecordedEffect)

  // Event options

  /** `overrides ?? defaults`: a null override does not override. */
  function Pick(override': Option<Option<string>>, default': Option<Option<string>>): Option<Option<string>> {
    if override'.Some? && override'.value.Some? then override' else default'
  }

  function Merge(defaults: EventOptions, overrides: EventOptions): EventOptions {
    EventOptions(
      if overrides.eventId.Some? then overrides.eventId else defaults.eventId,
      if overrides.occurredAt.Some? then overrides.occurredAt else defaults.occurredAt,
      None,
      Pick(overrides.causationId, defaults.causationId),
      Pick(overrides.correlationId, defaults.correlationId))
  }

  function CausedBy(e: RunEvent, eventId: Option<string>, occurredAt: Timestamp): EventOptions {
    EventOptions(eventId, Some(occurredAt), None, Some(Some(e.eventId)), Some(e.correlationId))
  }

  // Admission

  function AdmitRef(sourceEventId: string): EffectSdk.PendingRef -> EvidenceRef {
    (r: EffectSdk.PendingRef) => EvidenceRef(r.evidenceId, r.kind, sourceEventId, r.hash, r.observedAt, r.details)
  }

  function AdmitReceipt(r: EffectSdk.ReceiptCandidate, sourceEventId: string): EffectReceipt {
    EffectReceipt(r.receiptId, r.effectId, r.runId, r.capabilityId, r.receiptType, r.status, r.payload, r.payloadHash,
                  Map(r.evidence, AdmitRef(sourceEventId)), r.observedAt, r.externalRef)
  }

  function AdmitObservation(o: EffectSdk.ObservationCandidate, sourceEventId: string): ExternalStateObservation {
    ExternalStateObservation(o.observationId, o.runId, o.observationType, o.subjectType, o.subjectId, o.observedState,
                             o.observedAt, o.expiresAt, o.payloadHash, Map(o.evidence, AdmitRef(sourceEventId)))
  }

  // Recording

  function ReceiptEventId(r: EffectBroker.DispatchResult, o: HarnessOptions): string {
    o.receiptEvent.eventId.GetOr("evt_" + SanitizeIdPart(r.effectRequest.commandId) + "_receipt_recorded")
  }

  function ObservationEventId(r: EffectBroker.DispatchResult, o: HarnessOptions): string {
    o.observationEvent.eventId.GetOr("evt_" + SanitizeIdPart(r.effectRequest.commandId) + "_external_state_observed")
  }

  /** `#recordExternalStateObservation`, when there is one. */
  function RecordObserved(env: Env, log: seq<RunEvent>, receiptEvent: RunEvent, r: EffectBroker.DispatchResult,
                          o: HarnessOptions, c: Clocks)
    : Outcome<Option<(RunEvent, ExternalStateObservation)>>
  {
    if r.observation.None? then Outcome(log, Ok(None))
    else
      var id := ObservationEventId(r, o);
      var observation := AdmitObservation(r.observation.value, id);
      if !ValidObservation(observation) then Outcome(log, Err(SchemaInvalid))
      else
        var options := Merge(CausedBy(receiptEvent, Some(id), r.observation.value.observedAt), o.observationEvent);
        var out := Record(env, log, RecordObservation(observation), options, c.observation, c.observation);
        Outcome(out.log, if out.result.Ok? then Ok(Some((out.result.value, observation))) else Err(out.result.error))
  }

  /** `#recordEffectLifecycle` of an effect that is not remembered yet. */
  function RecordLifecycle(env: Env, log: seq<RunEvent>, proposalEvent: RunEvent, r: EffectBroker.DispatchResult,
                           o: HarnessOptions, c: Clocks): Outcome<RecordedEffect> {
    var requested := Record(env, log, RecordEffectRequest(r.effectRequest),
                            Merge(CausedBy(proposalEvent, None, r.effectRequest.requestedAt), o.requestEvent),
                            c.request, c.request);
    if requested.result.Err? then Outcome(requested.log, Err(requested.result.error))
    else
      var id := ReceiptEventId(r, o);
      var receipt := AdmitReceipt(r.receipt, id);
      if !ValidEffectReceipt(receipt) then Outcome(requested.log, Err(SchemaInvalid))
      else
        var options := Merge(CausedBy(requested.result.value, Some(id), r.receipt.observedAt), o.receiptEvent);
        var received := Record(env, requested.log, RecordEffectReceipt(receipt), options, c.receipt, c.receipt);
        if received.result.Err? then Outcome(received.log, Err(received.result.error))
        else
          var observed := RecordObserved(env, received.log, received.result.value, r, o, c);
          if observed.result.Err? then Outcome(observed.log, Err(observed.result.error))
          else
            Outcome(observed.log, Ok(RecordedEffect(requested.result.value, received.result.value, receipt,
                                                    observed.result.value)))
  }

  // Dispatch

  datatype State = State(
    log: seq<RunEvent>, broker: EffectBroker.State, recorded: map<string, RecordedEffect>, executions: nat)

  /** The broker's part of an awaited dispatch: begun, executed if need be, finished. */
  function BrokerDispatch(settings: EffectBroker.Settings, s: State, t: ToolCommandRequest, o: HarnessOptions,
                          outcome: EffectSdk.AdapterOutcome, c: Clocks)
    : (State, Result<EffectBroker.DispatchResult, EffectSdk.BrokerError>)
  {
    match EffectBroker.Begin(settings, s.broker, t, o.broker, None, c.begin)
    case Refused(e) => (s, Err(e))
    case Answered(r) => (s, Ok(r))
    case Executing(f) =>
      var (broker, r) := EffectBroker.Finish(settings, s.broker, f, outcome, c.finish);
      (s.(broker := broker, executions := s.executions + 1), r)
  }

  /** `dispatchToolCommand`, awaited; `outcome` is what the adapter does if it is executed. */
  function Dispatch(env: Env, settings: EffectBroker.Settings, s: State, t: ToolCommandRequest, o: HarnessOptions,
                    outcome: EffectSdk.AdapterOutcome, c: Clocks): (State, Result<HarnessResult, HarnessError>) {
    var proposed := Record(env, s.log, SubmitToolCommand(t), o.proposalEvent, c.proposal, c.proposal);
    var s1 := s.(log := proposed.log);
    if proposed.result.Err? then (s1, Err(KernelRefused(proposed.result.error)))
    else
      var (s2, dispatched) := BrokerDispatch(settings, s1, t, o, outcome, c);
      if dispatched.Err? then (s2, Err(BrokerRefused(dispatched.error)))
      else
        var r := dispatched.value;
        var effectId := r.effectRequest.effectId;
        if r.cached && effectId in s2.recorded then
          (s2, Ok(HarnessResult(true, proposed.result.value, s2.recorded[effectId])))
        else
          var out := RecordLifecycle(env, s2.log, proposed.result.value, r, o, c);
          if out.result.Err? then (s2.(log := out.log), Err(KernelRefused(out.result.error)))
          else
            (s2.(log := out.log, recorded := s2.recorded[effectId := out.result.value]),
             Ok(HarnessResult(r.cached, proposed.result.value, out.result.value)))
  }

  class LocalRunHarness {
    const kernel: RunKernel.InMemoryRunKernel
    const broker: EffectBroker.InMemoryEffectBroker
    var recordedEffectsByEffectId: map<string, RecordedEffect>
    ghost var executions: nat

    ghost predicate Valid()
      reads this, kernel, kernel.ledger
    {
      kernel.Valid()
    }

    ghost function View(): State
      reads this, kernel.ledger, broker
    {
      State(kernel.Log(), broker.View(), recordedEffectsByEffectId, executions)
    }

    constructor (kernel: RunKernel.InMemoryRunKernel, broker: EffectBroker.InMemoryEffectBroker)
      requires kernel.Valid()
      ensures Valid() && View() == State(kernel.Log(), broker.View(), map[], 0)
      ensures this.kernel == kernel && this.broker == broker
    {
      this.kernel, this.broker := kernel, broker;
      recordedEffectsByEffectId, executions := map[], 0;
    }

    /** The broker's dispatch, awaited; the adapter is executed where its outcome is used. */
    method AwaitBroker(toolCommand: ToolCommandRequest, o: HarnessOptions, outcome: EffectSdk.AdapterOutcome, c: Clocks)
      returns (r: Result<EffectBroker.DispatchResult, EffectSdk.BrokerError>)
      modifies this`executions, broker
      ensures (View(), r) == BrokerDispatch(broker.settings, old(View()), toolCommand, o, outcome, c)
      ensures recordedEffectsByEffectId == old(recordedEffectsByEffectId)
    {
      hide EffectBroker.Begin, EffectBroker.Finish;
      var begun := broker.BeginDispatch(toolCommand, o.broker, c.begin);
      if begun.Refused? {
        return Err(begun.error);
      }
      if begun.Answered? {
        return Ok(begun.result);
      }
      executions := executions + 1;
      r := broker.FinishDispatch(begun.flight, outcome, c.finish);
    }

    method RecordEffectLifecycle(proposalEvent: RunEvent, r: EffectBroker.DispatchResult, o: HarnessOptions, c: Clocks)
      returns (effect: Result<RecordedEffect, KernelError>)
      requires Valid()
      modifies kernel, kernel.ledger
      ensures Valid()
      ensures Outcome(kernel.Log(), effect) == RecordLifecycle(kernel.env, old(kernel.Log()), proposalEvent, r, o, c)
    {
      hide Record, Fold, RunKernel.InMemoryRunKernel.View, ValidEffectReceipt, ValidObservation, Merge, CausedBy,
        AdmitReceipt, AdmitObservation;
      var requestEvent := kernel.RecordEffectRequest(
        r.effectRequest, Merge(CausedBy(proposalEvent, None, r.effectRequest.requestedAt), o.requestEvent), c.request);
      if requestEvent.Err? {
        return Err(requestEvent.error);
      }
      var receiptEventId := ReceiptEventId(r, o);
      var receipt := AdmitReceipt(r.receipt, receiptEventId);
      if !ValidEffectReceipt(receipt) {
        return Err(SchemaInvalid);
      }
      var receiptEvent := kernel.RecordEffectReceipt(
        receipt, Merge(CausedBy(requestEvent.value, Some(receiptEventId), r.receipt.observedAt), o.receiptEvent),
        c.receipt);
      if receiptEvent.Err? {
        return Err(receiptEvent.error);
      }
      var observation: Option<(RunEvent, ExternalStateObservation)> := None;
      if r.observation.Some? {
        var observationEventId := ObservationEventId(r, o);
        var observed := AdmitObservation(r.observation.value, observationEventId);
        if !ValidObservation(observed) {
          return Err(SchemaInvalid);
        }
        var observationEvent := kernel.RecordExternalStateObservation(
          observed, Merge(CausedBy(receiptEvent.value, Some(observationEventId), r.observation.value.observedAt),
                          o.observationEvent), c.observation);
        if observationEvent.Err? {
          return Err(observationEvent.error);
        }
        observation := Some((observationEvent.value, observed));
      }
      effect := Ok(RecordedEffect(requestEvent.value, receiptEvent.value, receipt, observation));
    }

    method DispatchToolCommand(toolCommand: ToolCommandRequest, o: HarnessOptions, outcome: EffectSdk.AdapterOutcome,
                               c: Clocks) returns (r: Result<HarnessResult, HarnessError>)
      requires Valid()
      modifies this, kernel, kernel.ledger, broker
      ensures Valid()
      ensures (View(), r) == Dispatch(kernel.env, broker.settings, old(View()), toolCommand, o, outcome, c)
    {
      hide Record, Fold, RunKernel.InMemoryRunKernel.View, RunKernel.InMemoryRunKernel.Valid, BrokerDispatch,
        RecordLifecycle, EffectBroker.InMemoryEffectBroker.View;
      var proposalEvent := kernel.SubmitToolCommand(toolCommand, o.proposalEvent, c.proposal);
      if proposalEvent.Err? {
        return Err(KernelRefused(proposalEvent.error));
      }
      var brokerResult := AwaitBroker(toolCommand, o, outcome, c);
      if brokerResult.Err? {
        return Err(BrokerRefused(brokerResult.error));
      }
      var effectId := brokerResult.value.effectRequest.effectId;
      if brokerResult.value.cached && effectId in recordedEffectsByEffectId {
        return Ok(HarnessResult(true, proposalEvent.value, recordedEffectsByEffectId[effectId]));
      }
      var effect := RecordEffectLifecycle(proposalEvent.value, brokerResult.value, o, c);
      if effect.Err? {
        return Err(KernelRefused(effect.error));
      }
      recordedEffectsByEffectId := recordedEffectsByEffectId[effectId := effect.value];
      r := Ok(HarnessResult(brokerResult.value.cached, proposalEvent.value, effect.value));
    }
  }
}
