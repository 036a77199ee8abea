// Dispatching one keyed command again and again: one effect, however often it
// is asked for.
module HarnessProperties {
  import opened Wrappers
  import opened Protocol
  import opened Contracts
  import opened EventLog
  import opened KernelSpec
  import EffectSdk
  import EffectBroker
  import opened Harness
  import opened RecordedEffects

  datatype Ask = Ask(options: HarnessOptions, outcome: EffectSdk.AdapterOutcome, clocks: Clocks)

  /** The effect of this command is cached by the broker and remembered by the harness. */
  predicate Remembers(settings: EffectBroker.Settings, s: State, t: ToolCommandRequest, effect: RecordedEffect) {
    && ValidToolCommand(t) && !IsWrite(t.sideEffectClass) && EffectBroker.ToolFor(settings, s.broker, t).Ok?
    && t.idempotencyKey.Some? && t.idempotencyKey.value in s.broker.cache
    && var entry := s.broker.cache[t.idempotencyKey.value];
       && entry.CachedResult? && entry.fingerprint == EffectBroker.IdempotencyFingerprint(settings.hash, t)
       && entry.result.effectRequest.effectId in s.recorded
       && s.recorded[entry.result.effectRequest.effectId] == effect
  }

  /** A dispatch of a remembered effect records its proposal and nothing else. */
  lemma LaterDispatch(env: Env, settings: EffectBroker.Settings, s: State, t: ToolCommandRequest, c: Ask,
                      effect: RecordedEffect)
    requires Remembers(settings, s, t, effect)
    ensures var proposed :=
        Record(env, s.log, SubmitToolCommand(t), c.options.proposalEvent, c.clocks.proposal, c.clocks.proposal);
      Dispatch(env, settings, s, t, c.options, c.outcome, c.clocks)
      == (s.(log := proposed.log),
          if proposed.result.Ok? then Ok(HarnessResult(true, proposed.result.value, effect))
          else Err(KernelRefused(proposed.result.error)))
  {
    hide Record, ValidToolCommand, EffectBroker.ToolFor, RecordLifecycle, EffectBroker.Finish;
  }

  /** The events a first dispatch records. */
  function FirstEvents(r: HarnessResult): seq<RunEvent> {
    [r.proposalEvent, r.effect.requestEvent, r.effect.receiptEvent]
    + if r.effect.observation.Some? then [r.effect.observation.value.0] else []
  }

  /**
   * What a first dispatch records: the command's proposal, a request that asks for what the command asks for, and the
   * adapter's own receipt and observation, each event caused by the one before.
   */
  predicate IsFirst(t: ToolCommandRequest, c: Ask, r: HarnessResult) {
    && !r.cached && c.outcome.Returned? && c.outcome.receipt.Some?
    && r.proposalEvent.payload == ProposalReceived(ToolProposal(t))
    && r.effect.requestEvent.payload.EffectRequested?
    && AsksFor(r.effect.requestEvent.payload.effectRequest, t)
    && r.effect.receipt.effectId == r.effect.requestEvent.payload.effectRequest.effectId
    && IsRecorded(c.outcome.receipt.value, c.outcome.observation, r.proposalEvent,
                  r.effect.requestEvent.payload.effectRequest, r.effect, c.options)
  }

  /** The recorded effect of a request, a receipt and perhaps an observation. */
  predicate IsRecorded(receipt: EffectSdk.ReceiptCandidate, observation: Option<EffectSdk.ObservationCandidate>,
                       proposalEvent: RunEvent, request: EffectRequest, e: RecordedEffect, o: HarnessOptions) {
    && e.requestEvent.payload == EffectRequested(request)
    && FollowsFrom(e.requestEvent, proposalEvent, o.requestEvent, request.requestedAt)
    && e.receiptEvent.payload == EffectReceiptRecorded(e.receipt)
    && RecordsReceipt(receipt, e.receipt, e.receiptEvent.eventId)
    && FollowsFrom(e.receiptEvent, e.requestEvent, o.receiptEvent, receipt.observedAt)
    && (e.observation.Some? <==> observation.Some?)
    && (observation.Some? ==> IsObserved(observation.value, e.receiptEvent, e.observation.value, o))
  }

  predicate IsObserved(given: EffectSdk.ObservationCandidate, receiptEvent: RunEvent,
                       observed: (RunEvent, ExternalStateObservation), o: HarnessOptions) {
    && observed.0.payload == ExternalStateObserved(observed.1)
    && RecordsObservation(given, observed.1, observed.0.eventId)
    && FollowsFrom(observed.0, receiptEvent, o.observationEvent, given.observedAt)
  }

  lemma RecordAdds(env: Env, log: seq<RunEvent>, call: KernelSpec.Call, o: EventOptions, clock: Timestamp)
    ensures var out := Record(env, log, call, o, clock, clock);
      out.result.Ok? ==>
        var e := out.result.value;
        && out.log == log + [e]
        && e.payload == PayloadOf(env, Fold(log), call, o.occurredAt.GetOr(clock))
        && (o.eventId.Some? ==> e.eventId == o.eventId.value)
        && (o.causationId.Some? ==> e.causationId == o.causationId.value)
        && e.correlationId == o.correlationId.GetOr(None) && e.occurredAt == o.occurredAt.GetOr(clock)
  {
    hide Fold, Admit, PayloadOf, WellFormed, Envelope, NextEventId, TypeName, AppendEvent;
    var f, committedAt := Fold(log), o.occurredAt.GetOr(clock);
    var payload := PayloadOf(env, f, call, committedAt);
    var eventId := o.eventId.GetOr(NextEventId(env.runId, |log|, TypeName(payload)));
    var options := WithDefaultCausation(f, o.(eventId := Some(eventId)));
    if AppendEvent(env, log, payload, options, clock).result.Ok? {
      AppendedFields(env, log, payload, options, clock);
    }
  }

  lemma LifecycleAdds(env: Env, log: seq<RunEvent>, proposalEvent: RunEvent, r: EffectBroker.DispatchResult,
                      o: HarnessOptions, c: Clocks)
    requires RecordLifecycle(env, log, proposalEvent, r, o, c).result.Ok?
    ensures var out := RecordLifecycle(env, log, proposalEvent, r, o, c);
      var e := out.result.value;
      && out.log == log + [e.requestEvent, e.receiptEvent]
                        + (if e.observation.Some? then [e.observation.value.0] else [])
      && IsRecorded(r.receipt, r.observation, proposalEvent, r.effectRequest, e, o)
  {
    hide Record, Fold, ValidEffectReceipt, Merge, CausedBy, RecordObserved, Map, RecordsReceipt, AdmitReceipt,
      IsObserved;
    var options := Merge(CausedBy(proposalEvent, None, r.effectRequest.requestedAt), o.requestEvent);
    MergeMeaning(proposalEvent, None, r.effectRequest.requestedAt, o.requestEvent);
    RecordAdds(env, log, RecordEffectRequest(r.effectRequest), options, c.request);
    var requested := Record(env, log, RecordEffectRequest(r.effectRequest), options, c.request, c.request);
    var id := ReceiptEventId(r, o);
    var receipt := AdmitReceipt(r.receipt, id);
    AdmittedReceiptIsGiven(r.receipt, id);
    var receiptOptions := Merge(CausedBy(requested.result.value, Some(id), r.receipt.observedAt), o.receiptEvent);
    MergeMeaning(requested.result.value, Some(id), r.receipt.observedAt, o.receiptEvent);
    RecordAdds(env, requested.log, RecordEffectReceipt(receipt), receiptOptions, c.receipt);
    var received := Record(env, requested.log, RecordEffectReceipt(receipt), receiptOptions, c.receipt, c.receipt);
    ObservedAdds(env, received.log, received.result.value, r, o, c);
  }

  lemma ObservedAdds(env: Env, log: seq<RunEvent>, receiptEvent: RunEvent, r: EffectBroker.DispatchResult,
                     o: HarnessOptions, c: Clocks)
    requires RecordObserved(env, log, receiptEvent, r, o, c).result.Ok?
    ensures var out := RecordObserved(env, log, receiptEvent, r, o, c);
      && out.log == log + (if out.result.value.Some? then [out.result.value.value.0] else [])
      && (out.result.value.Some? <==> r.observation.Some?)
      && (r.observation.Some? ==> IsObserved(r.observation.value, receiptEvent, out.result.value.value, o))
  {
    hide Record, Fold, ValidObservation, Merge, CausedBy, AdmitObservation, RecordsObservation;
    if r.observation.Some? {
      var id, at := ObservationEventId(r, o), r.observation.value.observedAt;
      var options := Merge(CausedBy(receiptEvent, Some(id), at), o.observationEvent);
      MergeMeaning(receiptEvent, Some(id), at, o.observationEvent);
      AdmittedObservationIsGiven(r.observation.value, id);
      RecordAdds(env, log, RecordObservation(AdmitObservation(r.observation.value, id)), options, c.observation);
    }
  }

  /** What an execution that ends well leaves in the broker. */
  lemma FirstBrokerDispatch(settings: EffectBroker.Settings, s: State, t: ToolCommandRequest, o: HarnessOptions,
                            outcome: EffectSdk.AdapterOutcome, c: Clocks)
    requires t.idempotencyKey.Some? && t.idempotencyKey.value !in s.broker.cache
    requires BrokerDispatch(settings, s, t, o, outcome, c).1.Ok?
    ensures var (next, r) := BrokerDispatch(settings, s, t, o, outcome, c);
      && ValidToolCommand(t) && !IsWrite(t.sideEffectClass) && EffectBroker.ToolFor(settings, next.broker, t).Ok?
      && !r.value.cached && next.log == s.log && next.recorded == s.recorded && next.executions == s.executions + 1
      && AsksFor(r.value.effectRequest, t) && r.value.receipt.effectId == r.value.effectRequest.effectId
      && outcome == EffectSdk.Returned(Some(r.value.receipt), r.value.observation)
      && next.broker.cache == s.broker.cache[t.idempotencyKey.value :=
           EffectBroker.CachedResult(EffectBroker.IdempotencyFingerprint(settings.hash, t), r.value)]
  {
    hide ValidToolCommand, ValidEffectRequest, EffectSdk.CheckCertification, EffectSdk.CheckObservationCandidate,
      EffectSdk.CheckAdapterFits, EffectSdk.CheckDeclarations, EffectSdk.ValidPendingRefs, EffectSdk.LeaksContent;
  }

  lemma FirstDispatch(env: Env, settings: EffectBroker.Settings, s: State, t: ToolCommandRequest, c: Ask)
    requires t.idempotencyKey.Some? && t.idempotencyKey.value !in s.broker.cache
    requires Dispatch(env, settings, s, t, c.options, c.outcome, c.clocks).1.Ok?
    ensures var (next, r) := Dispatch(env, settings, s, t, c.options, c.outcome, c.clocks);
      && Remembers(settings, next, t, r.value.effect) && next.executions == s.executions + 1
      && IsFirst(t, c, r.value) && next.log == s.log + FirstEvents(r.value)
  {
    hide Record, Fold, ValidToolCommand, EffectBroker.ToolFor, RecordLifecycle, BrokerDispatch, PayloadOf, AsksFor,
      RecordsEvidence, IsObserved, FollowsFrom;
    var o := c.options;
    var proposed := Record(env, s.log, SubmitToolCommand(t), o.proposalEvent, c.clocks.proposal, c.clocks.proposal);
    RecordAdds(env, s.log, SubmitToolCommand(t), o.proposalEvent, c.clocks.proposal);
    ToolProposalPayload(env, s.log, t, o.proposalEvent.occurredAt.GetOr(c.clocks.proposal));
    var s1 := s.(log := proposed.log);
    FirstBrokerDispatch(settings, s1, t, o, c.outcome, c.clocks);
    var r := BrokerDispatch(settings, s1, t, o, c.outcome, c.clocks).1.value;
    LifecycleAdds(env, proposed.log, proposed.result.value, r, o, c.clocks);
  }

  lemma ToolProposalPayload(env: Env, log: seq<RunEvent>, t: ToolCommandRequest, at: Timestamp)
    ensures PayloadOf(env, Fold(log), SubmitToolCommand(t), at) == ProposalReceived(ToolProposal(t))
  {
  }

  /** Sequential dispatches of one command, each awaited before the next. */
  function DispatchAll(env: Env, settings: EffectBroker.Settings, s: State, t: ToolCommandRequest, calls: seq<Ask>)
    : (State, seq<Result<HarnessResult, HarnessError>>)
  {
    if calls == [] then (s, [])
    else
      var (before, results) := DispatchAll(env, settings, s, t, calls[..|calls| - 1]);
      var c := calls[|calls| - 1];
      var (after, r) := Dispatch(env, settings, before, t, c.options, c.outcome, c.clocks);
      (after, results + [r])
  }

  /** The proposal events that dispatches returned, in order. */
  function Proposals(results: seq<Result<HarnessResult, HarnessError>>): seq<RunEvent> {
    if results == [] then []
    else
      var last := results[|results| - 1];
      Proposals(results[..|results| - 1]) + if last.Ok? then [last.value.proposalEvent] else []
  }

  /** How many dispatches succeeded. */
  function Successes(results: seq<Result<HarnessResult, HarnessError>>): nat {
    if results == [] then 0
    else Successes(results[..|results| - 1]) + if results[|results| - 1].Ok? then 1 else 0
  }

  lemma {:induction false} ProposalsCount(results: seq<Result<HarnessResult, HarnessError>>)
    ensures |Proposals(results)| == Successes(results) <= |results|
    ensures (forall r :: r in results ==> r.Ok?) ==> Successes(results) == |results|
  {
    if results != [] {
      var n := |results| - 1;
      assert results == results[..n] + [results[n]];
      ProposalsCount(results[..n]);
    }
  }

  function IsParsed(): RunEvent -> bool {
    (e: RunEvent) => WellFormed(e)
  }

  /**
   * What the dispatches of a remembered effect add to the log: at most one event each, all of them proposals of the
   * command; the returned proposals are those that parse.
   */
  predicate AddsProposals(t: ToolCommandRequest, before: seq<RunEvent>, after: seq<RunEvent>,
                          results: seq<Result<HarnessResult, HarnessError>>) {
    && before <= after && |after| <= |before| + |results|
    && (forall e :: e in after[|before|..] ==> e.payload == ProposalReceived(ToolProposal(t)))
    && Filter(after[|before|..], IsParsed()) == Proposals(results)
  }

  lemma ProposalAdds(env: Env, log: seq<RunEvent>, t: ToolCommandRequest, o: EventOptions, clock: Timestamp)
    ensures var out := Record(env, log, SubmitToolCommand(t), o, clock, clock);
      || (out.log == log && out.result.Err?)
      || (exists e :: out.log == log + [e] && e.payload == ProposalReceived(ToolProposal(t))
            && out.result == if WellFormed(e) then Ok(e) else Err(SchemaInvalid))
  {
    hide Fold, Admit, PayloadOf, WellFormed, Envelope, NextEventId, AppendEvent, TypeName;
    var at := o.occurredAt.GetOr(clock);
    var payload := PayloadOf(env, Fold(log), SubmitToolCommand(t), at);
    ToolProposalPayload(env, log, t, at);
    var eventId := o.eventId.GetOr(NextEventId(env.runId, |log|, TypeName(payload)));
    AppendedEnvelope(env, log, payload, WithDefaultCausation(Fold(log), o.(eventId := Some(eventId))), clock);
  }

  /** One more dispatch of a remembered effect. */
  lemma OneMoreProposal(t: ToolCommandRequest, before: seq<RunEvent>, mid: seq<RunEvent>,
                        results: seq<Result<HarnessResult, HarnessError>>, e: RunEvent,
                        r: Result<HarnessResult, HarnessError>)
    requires AddsProposals(t, before, mid, results) && e.payload == ProposalReceived(ToolProposal(t))
    requires if WellFormed(e) then r.Ok? && r.value.proposalEvent == e else r.Err?
    ensures AddsProposals(t, before, mid + [e], results + [r])
  {
    hide WellFormed;
    assert (mid + [e])[|before|..] == mid[|before|..] + [e];
    FilterSplit(mid[|before|..], [e], IsParsed());
    assert Filter([e], IsParsed()) == if WellFormed(e) then [e] else [];
    assert (results + [r])[..|results|] == results;
  }

  lemma NoMoreProposal(t: ToolCommandRequest, before: seq<RunEvent>, mid: seq<RunEvent>,
                       results: seq<Result<HarnessResult, HarnessError>>, r: Result<HarnessResult, HarnessError>)
    requires AddsProposals(t, before, mid, results) && r.Err?
    ensures AddsProposals(t, before, mid, results + [r])
  {
    assert (results + [r])[..|results|] == results;
  }

  lemma {:induction false} LaterDispatches(env: Env, settings: EffectBroker.Settings, s: State, t: ToolCommandRequest,
                                           calls: seq<Ask>, effect: RecordedEffect)
    requires Remembers(settings, s, t, effect)
    ensures var (after, results) := DispatchAll(env, settings, s, t, calls);
      && after.executions == s.executions && after.broker == s.broker && after.recorded == s.recorded
      && |results| == |calls| && AddsProposals(t, s.log, after.log, results)
      && forall r :: r in results && r.Ok? ==> r.value.cached && r.value.effect == effect
  {
    hide Record, Dispatch, Remembers, WellFormed, AddsProposals;
    if calls == [] {
      assert AddsProposals(t, s.log, s.log, []) by { NothingProposed(t, s.log); }
    } else {
      var n := |calls| - 1;
      var c := calls[n];
      var (before, earlier) := DispatchAll(env, settings, s, t, calls[..n]);
      var (after, results) := DispatchAll(env, settings, s, t, calls);
      LaterDispatches(env, settings, s, t, calls[..n], effect);
      StillRemembers(settings, s, before, t, effect);
      LaterDispatch(env, settings, before, t, c, effect);
      ProposalAdds(env, before.log, t, c.options.proposalEvent, c.clocks.proposal);
      var r := results[n];
      assert results == earlier + [r];
      if after.log == before.log && r.Err? {
        NoMoreProposal(t, s.log, before.log, earlier, r);
      } else {
        var e :| after.log == before.log + [e] && e.payload == ProposalReceived(ToolProposal(t))
          && (if WellFormed(e) then r.Ok? && r.value.proposalEvent == e else r.Err?);
        OneMoreProposal(t, s.log, before.log, earlier, e, r);
      }
    }
  }

  lemma NothingProposed(t: ToolCommandRequest, log: seq<RunEvent>)
    ensures AddsProposals(t, log, log, [])
  {
    assert log[|log|..] == [];
  }

  lemma StillRemembers(settings: EffectBroker.Settings, s: State, later: State, t: ToolCommandRequest,
                       effect: RecordedEffect)
    requires Remembers(settings, s, t, effect) && later.broker == s.broker && later.recorded == s.recorded
    ensures Remembers(settings, later, t, effect)
  {
  }

  /** The outcome of a first dispatch and of those that followed it: one effect, however often it was asked for. */
  predicate IsOneEffect(s: State, t: ToolCommandRequest, first: Ask,
                        one: (State, Result<HarnessResult, HarnessError>),
                        all: (State, seq<Result<HarnessResult, HarnessError>>)) {
    && one.1.Ok? && IsFirst(t, first, one.1.value) && one.0.log == s.log + FirstEvents(one.1.value)
    && all.0.executions == s.executions + 1
    && AddsProposals(t, one.0.log, all.0.log, all.1) && |Proposals(all.1)| == Successes(all.1)
    && (forall r :: r in all.1 && r.Ok? ==> r.value.cached && r.value.effect == one.1.value.effect)
  }

  /**
   * Idempotent dispatch, end to end: a first successful dispatch of a keyed command that writes nothing, followed by
   * any number of further ones, whatever their options, whatever the adapter would have done and whether or not the
   * kernel takes their proposals, executes the adapter once and records one request, one receipt, at most one
   * observation and a proposal for every call that succeeds; all of these return the same recorded effect.
   */
  lemma DispatchIsIdempotent(env: Env, settings: EffectBroker.Settings, s: State, t: ToolCommandRequest, first: Ask,
                             more: seq<Ask>)
    requires t.idempotencyKey.Some? && t.idempotencyKey.value !in s.broker.cache
    requires Dispatch(env, settings, s, t, first.options, first.outcome, first.clocks).1.Ok?
    ensures var one := Dispatch(env, settings, s, t, first.options, first.outcome, first.clocks);
      IsOneEffect(s, t, first, one, DispatchAll(env, settings, one.0, t, more))
  {
    hide Dispatch, DispatchAll, IsFirst, FirstEvents, Remembers, Proposals, AddsProposals;
    FirstDispatch(env, settings, s, t, first);
    var one := Dispatch(env, settings, s, t, first.options, first.outcome, first.clocks);
    LaterDispatches(env, settings, one.0, t, more, one.1.value.effect);
    ProposalsCount(DispatchAll(env, settings, one.0, t, more).1);
  }

  /**
   * The broker vouches for less than the kernel asks: a receipt it accepts may carry evidence of another kind or hash,
   * and such a receipt is never recorded.
   */
  lemma UnfitEvidenceIsNotRecorded(env: Env, log: seq<RunEvent>, r: EffectSdk.ReceiptCandidate,
                                   ref: EffectSdk.PendingRef, o: EventOptions, clock: Timestamp, sourceEventId: string)
    requires ref in r.evidence && (ref.kind != EffectReceiptEvidence || ref.hash != r.payloadHash)
    ensures Record(env, log, RecordEffectReceipt(AdmitReceipt(r, sourceEventId)), o, clock, clock).result.Err?
    ensures Record(env, log, RecordEffectReceipt(AdmitReceipt(r, sourceEventId)), o, clock, clock).log == log
  {
    hide Fold, ValidEffectReceipt, AppendEvent, CheckEffectRequest, NextEventId;
    var receipt := AdmitReceipt(r, sourceEventId);
    var k :| 0 <= k < |r.evidence| && r.evidence[k] == ref;
    assert receipt.evidence[k].kind == ref.kind && receipt.evidence[k].hash == ref.hash;
    assert receipt.evidence[k] in receipt.evidence;
  }
}
