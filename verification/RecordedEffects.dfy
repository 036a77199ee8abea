// What the harness records of an effect, field by field: the request for the
// command, the receipt and the observation as the adapter gave them.
module RecordedEffects {
  import opened Wrappers
  import opened Protocol
  import opened EventLog
  import EffectSdk
  import EffectBroker
  import opened Harness

  /** The request asks for what the command asks for. */
  predicate AsksFor(q: EffectRequest, t: ToolCommandRequest) {
    && q.commandId == t.commandId && q.runId == t.runId && q.capabilityId == t.capabilityId && q.toolId == t.toolId
    && q.args == t.args && q.sideEffectClass == t.sideEffectClass && q.idempotencyKey == t.idempotencyKey
  }

  /** The evidence that was given, in order, now naming the event that records it. */
  predicate RecordsEvidence(given: seq<EffectSdk.PendingRef>, recorded: seq<EvidenceRef>, eventId: string) {
    && |recorded| == |given|
    && forall i :: 0 <= i < |given| ==>
         && recorded[i].evidenceId == given[i].evidenceId && recorded[i].kind == given[i].kind
         && recorded[i].hash == given[i].hash && recorded[i].observedAt == given[i].observedAt
         && recorded[i].details == given[i].details && recorded[i].sourceEventId == eventId
  }

  /** The adapter's own receipt: nothing of it is changed. */
  predicate RecordsReceipt(given: EffectSdk.ReceiptCandidate, r: EffectReceipt, eventId: string) {
    && r.receiptId == given.receiptId && r.effectId == given.effectId && r.runId == given.runId
    && r.capabilityId == given.capabilityId && r.receiptType == given.receiptType && r.status == given.status
    && r.payload == given.payload && r.payloadHash == given.payloadHash && r.observedAt == given.observedAt
    && r.externalRef == given.externalRef && RecordsEvidence(given.evidence, r.evidence, eventId)
  }

  predicate RecordsObservation(given: EffectSdk.ObservationCandidate, o: ExternalStateObservation, eventId: string) {
    && o.observationId == given.observationId && o.runId == given.runId
    && o.observationType == given.observationType && o.subjectType == given.subjectType
    && o.subjectId == given.subjectId && o.observedState == given.observedState && o.observedAt == given.observedAt
    && o.expiresAt == given.expiresAt && o.payloadHash == given.payloadHash
    && RecordsEvidence(given.evidence, o.evidence, eventId)
  }

  lemma AdmittedReceiptIsGiven(given: EffectSdk.ReceiptCandidate, eventId: string)
    ensures RecordsReceipt(given, AdmitReceipt(given, eventId), eventId)
  {
  }

  lemma AdmittedObservationIsGiven(given: EffectSdk.ObservationCandidate, eventId: string)
    ensures RecordsObservation(given, AdmitObservation(given, eventId), eventId)
  {
  }

  /** The event is caused by the other one, and correlated with it, unless the caller says otherwise. */
  predicate FollowsFrom(e: RunEvent, cause: RunEvent, given: EventOptions, at: Timestamp) {
    && e.causationId == (if given.causationId.GetOr(None).Some? then given.causationId.value else Some(cause.eventId))
    && e.correlationId
       == (if given.correlationId.GetOr(None).Some? then given.correlationId.value else cause.correlationId)
    && e.occurredAt == given.occurredAt.GetOr(at)
  }

  /** The options the harness hands to the kernel for such an event. */
  lemma MergeMeaning(cause: RunEvent, eventId: Option<string>, at: Timestamp, given: EventOptions)
    ensures var o := Merge(CausedBy(cause, eventId, at), given);
      && o.causationId
         == Some(if given.causationId.GetOr(None).Some? then given.causationId.value else Some(cause.eventId))
      && o.correlationId
         == Some(if given.correlationId.GetOr(None).Some? then given.correlationId.value else cause.correlationId)
      && o.occurredAt == Some(given.occurredAt.GetOr(at))
      && o.eventId == (if given.eventId.Some? then given.eventId else eventId)
      && o.payloadHash.None?
  {
  }

  /** Event ids the harness makes up name the command. */
  lemma MadeUpEventIds(r: EffectBroker.DispatchResult, o: HarnessOptions)
    ensures ReceiptEventId(r, o)
         == if o.receiptEvent.eventId.Some? then o.receiptEvent.eventId.value
            else "evt_" + SanitizeIdPart(r.effectRequest.commandId) + "_receipt_recorded"
    ensures ObservationEventId(r, o)
         == if o.observationEvent.eventId.Some? then o.observationEvent.eventId.value
            else "evt_" + SanitizeIdPart(r.effectRequest.commandId) + "_external_state_observed"
  {
  }
}
