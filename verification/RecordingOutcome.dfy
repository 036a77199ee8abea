// Exactly when a call that records one event returns, when it leaves its event
// behind, and when it does nothing.
module RecordingOutcome {
  import opened Wrappers
  import opened Protocol
  import opened Contracts
  import opened EventLog
  import opened KernelSpec

  // One append

  /** `causationId` and `correlationId` are usable where an event would be appended. */
  predicate ReferencesFit(log: seq<RunEvent>, o: EventOptions) {
    var cause, correlation := o.causationId.GetOr(None), o.correlationId.GetOr(None);
    && (cause.Some? ==> !IsBlank(cause.value) && cause.value in EventIds(log))
    && (correlation.Some? ==> !IsBlank(correlation.value))
  }

  predicate HashFits(env: Env, payload: Payload, o: EventOptions) {
    o.payloadHash.Some? ==> o.payloadHash.value == env.hash(OfPayload(payload))
  }

  /** The id an event gets when it is appended to a log of n events. */
  function IdUsed(env: Env, n: nat, given: Option<string>, typeName: string): string {
    given.GetOr(NextEventId(env.runId, n, typeName))
  }

  lemma AppendSucceeds(env: Env, log: seq<RunEvent>, payload: Payload, o: EventOptions, now: Timestamp)
    ensures var out, id := AppendEvent(env, log, payload, o, now), IdUsed(env, |log|, o.eventId, TypeName(payload));
      && (out.result.Ok? <==>
            && ReferencesFit(log, o) && HashFits(env, payload, o) && !IsBlank(env.runId)
            && !IsBlank(id) && id !in EventIds(log)
            && ValidTime(o.occurredAt.GetOr(now)) && ValidPayload(payload))
      && (out.result.Ok? ==>
            |out.log| == |log| + 1 && EventIds(out.log) == EventIds(log) + {id} && out.result.value.eventId == id)
  {
    hide ValidPayload, NextEventId;
  }

  /** An append stores its event whenever nothing but the event's own time or payload is wrong. */
  lemma AppendStores(env: Env, log: seq<RunEvent>, payload: Payload, o: EventOptions, now: Timestamp)
    ensures var out, id := AppendEvent(env, log, payload, o, now), IdUsed(env, |log|, o.eventId, TypeName(payload));
      if ReferencesFit(log, o) && HashFits(env, payload, o) && !IsBlank(env.runId) && !IsBlank(id)
         && id !in EventIds(log)
      then |out.log| == |log| + 1 else out.log == log
  {
    hide ValidPayload, NextEventId;
  }

  // One recording call

  /** What a recording call stores, and under which id. */
  predicate EventIsStored(env: Env, log: seq<RunEvent>, call: Call, o: EventOptions, clock: Timestamp) {
    var f, at := Fold(log), o.occurredAt.GetOr(clock);
    var payload := PayloadOf(env, f, call, at);
    var id := IdUsed(env, |log|, o.eventId, TypeName(payload));
    && Admit(env, f, call, id, at).None?
    && ReferencesFit(log, WithDefaultCausation(f, o)) && HashFits(env, payload, o)
    && !IsBlank(env.runId) && !IsBlank(id) && id !in EventIds(log)
  }

  /** What is parsed only once the event is stored: its time, and the profile of a start. */
  predicate ParsesLater(call: Call, o: EventOptions, clockAgain: Timestamp) {
    ValidTime(o.occurredAt.GetOr(clockAgain)) && (call.StartRun? ==> OptionalNonEmpty(call.profile))
  }

  lemma AdmittedPayloadIsValid(env: Env, f: Fields, call: Call, eventId: string, at: Timestamp)
    requires Admit(env, f, call, eventId, at).None? && !IsBlank(env.runId)
    ensures ValidPayload(PayloadOf(env, f, call, at)) <==> (call.StartRun? ==> OptionalNonEmpty(call.profile))
  {
    hide CheckDecision, CheckCriticalApproval, CheckQuarantine, CheckApproval, CheckCommandHash, CheckProposed,
      CheckReceipt, CheckObservation;
    assert env.runId != "";
  }

  /** Exactly when a recording call returns, and exactly when it leaves the log as it was. */
  lemma RecordingReturns(env: Env, log: seq<RunEvent>, call: Call, o: EventOptions, clock: Timestamp,
                         clockAgain: Timestamp)
    ensures var out := Record(env, log, call, o, clock, clockAgain);
      && (out.result.Ok? <==> EventIsStored(env, log, call, o, clock) && ParsesLater(call, o, clockAgain))
      && (out.log == log <==> !EventIsStored(env, log, call, o, clock))
  {
    hide AppendEvent, Fold, Admit, PayloadOf, ValidPayload, IsBlank, ReferencesFit, HashFits, EventIds, TypeName,
      NextEventId, ValidTime;
    var f, at := Fold(log), o.occurredAt.GetOr(clock);
    var payload := PayloadOf(env, f, call, at);
    var id := IdUsed(env, |log|, o.eventId, TypeName(payload));
    var options := WithDefaultCausation(f, o.(eventId := Some(id)));
    SameReferences(log, f, o, id);
    SameHash(env, payload, f, o, id);
    if Admit(env, f, call, id, at).None? {
      AppendSucceeds(env, log, payload, options, clockAgain);
      AppendStores(env, log, payload, options, clockAgain);
      if !IsBlank(env.runId) {
        AdmittedPayloadIsValid(env, f, call, id, at);
      }
    }
  }

  lemma SameReferences(log: seq<RunEvent>, f: Fields, o: EventOptions, id: string)
    ensures ReferencesFit(log, WithDefaultCausation(f, o.(eventId := Some(id))))
         == ReferencesFit(log, WithDefaultCausation(f, o))
  {
  }

  lemma SameHash(env: Env, payload: Payload, f: Fields, o: EventOptions, id: string)
    ensures HashFits(env, payload, WithDefaultCausation(f, o.(eventId := Some(id)))) == HashFits(env, payload, o)
  {
  }

  /** What a call that returns has recorded. */
  lemma RecordingAdds(env: Env, log: seq<RunEvent>, call: Call, o: EventOptions, clock: Timestamp,
                      clockAgain: Timestamp)
    requires Record(env, log, call, o, clock, clockAgain).result.Ok?
    ensures var out, at := Record(env, log, call, o, clock, clockAgain), o.occurredAt.GetOr(clock);
      var payload := PayloadOf(env, Fold(log), call, at);
      var e, id := out.result.value, IdUsed(env, |log|, o.eventId, TypeName(payload));
      && out.log == log + [e] && WellFormed(e) && e.payload == payload && e.eventId == id
      && EventIds(out.log) == EventIds(log) + {id} && Fold(out.log) == ApplyPayload(Fold(log), id, payload)
  {
    hide AppendEvent, Fold, Admit, PayloadOf, WellFormed, Envelope, TypeName, NextEventId, ApplyPayload, EventIds;
    var f, at := Fold(log), o.occurredAt.GetOr(clock);
    var payload := PayloadOf(env, f, call, at);
    var id := IdUsed(env, |log|, o.eventId, TypeName(payload));
    var options := WithDefaultCausation(f, o.(eventId := Some(id)));
    AppendedFields(env, log, payload, options, clockAgain);
    var e := AppendEvent(env, log, payload, options, clockAgain).result.value;
    FoldAppend(log, e);
    OneMoreId(log, e);
  }

  lemma OneMoreId(log: seq<RunEvent>, e: RunEvent)
    ensures EventIds(log + [e]) == EventIds(log) + {e.eventId}
  {
  }

  lemma NotBlank(s: string)
    requires s != "" && !IsSpace(s[0])
    ensures !IsBlank(s)
  {
  }
}
