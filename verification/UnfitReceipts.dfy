// Receipts whose evidence the broker takes and the kernel does not: they end up
// in the cache, and no dispatch of their command ever succeeds again.
module UnfitReceipts {
  import opened Wrappers
  import opened Protocol
  import opened Contracts
  import opened EventLog
  import opened KernelSpec
  import opened RunGrowth
  import EffectSdk
  import EffectBroker
  import opened Harness
  import opened HarnessProperties

  /** Some evidence has another kind or hash than a recorded receipt of this payload would. */
  predicate IsUnfit(r: EffectSdk.ReceiptCandidate) {
    exists ref :: ref in r.evidence && (ref.kind != EffectReceiptEvidence || ref.hash != r.payloadHash)
  }

  // The broker takes them

  /** The same evidence up to its kinds and hashes. */
  predicate SameButKindAndHash(a: seq<EffectSdk.PendingRef>, b: seq<EffectSdk.PendingRef>) {
    |a| == |b| && forall i :: 0 <= i < |a| ==> b[i] == a[i].(kind := b[i].kind, hash := b[i].hash)
  }

  /** Whatever kinds and hashes the evidence of a receipt has, the broker's verdict on it is the same. */
  lemma BrokerIgnoresKindAndHash(hash: Hasher, r: EffectSdk.ReceiptCandidate, evidence: seq<EffectSdk.PendingRef>,
                                 request: EffectRequest, capability: EffectSdk.Capability, c: EffectSdk.Certification)
    requires SameButKindAndHash(r.evidence, evidence)
    ensures EffectSdk.CheckReceiptCandidate(hash, r.(evidence := evidence), request, capability, c)
         == EffectSdk.CheckReceiptCandidate(hash, r, request, capability, c)
  {
    hide EffectSdk.HasRawContent;
    SameValidity(r.evidence, evidence);
    SameLeaks(c, r.payload, r.evidence, evidence);
  }

  lemma SameValidity(a: seq<EffectSdk.PendingRef>, b: seq<EffectSdk.PendingRef>)
    requires SameButKindAndHash(a, b)
    ensures EffectSdk.ValidPendingRefs(a) == EffectSdk.ValidPendingRefs(b)
  {
    assert forall i :: 0 <= i < |a| ==> a[i] in a && b[i] in b && b[i] == a[i].(kind := b[i].kind, hash := b[i].hash);
  }

  lemma SameLeaks(c: EffectSdk.Certification, payload: JsonObject, a: seq<EffectSdk.PendingRef>,
                  b: seq<EffectSdk.PendingRef>)
    requires SameButKindAndHash(a, b)
    ensures EffectSdk.LeaksContent(c, payload, a) == EffectSdk.LeaksContent(c, payload, b)
  {
    hide EffectSdk.HasRawContent;
    assert forall i :: 0 <= i < |a| ==> a[i] in a && b[i] in b && a[i].details == b[i].details;
  }

  /** Wherever a receipt would be accepted, so is one with other kinds and hashes, and it is cached under the key. */
  lemma UnfitReceiptIsCached(settings: EffectBroker.Settings, s: EffectBroker.State, f: EffectBroker.Flight,
                             r: EffectSdk.ReceiptCandidate, evidence: seq<EffectSdk.PendingRef>, clock: Timestamp)
    requires EffectSdk.CheckReceiptCandidate(settings.hash, r, f.request, f.tool.capability, f.tool.certification).None?
    requires SameButKindAndHash(r.evidence, evidence) && f.command.idempotencyKey.Some?
    ensures var result := EffectBroker.DispatchResult(false, f.request, r.(evidence := evidence), None);
      EffectBroker.Finish(settings, s, f, EffectSdk.Returned(Some(r.(evidence := evidence)), None), clock)
      == (s.(cache := s.cache[f.command.idempotencyKey.value := EffectBroker.CachedResult(f.fingerprint, result)]),
          Ok(result))
  {
    hide EffectSdk.CheckReceiptCandidate;
    BrokerIgnoresKindAndHash(settings.hash, r, evidence, f.request, f.tool.capability, f.tool.certification);
  }

  // The kernel refuses them

  /** The second log goes on from the first, without a receipt. */
  predicate NoReceiptIn(before: seq<RunEvent>, after: seq<RunEvent>) {
    before <= after && forall i :: |before| <= i < |after| ==> !after[i].payload.EffectReceiptRecorded?
  }

  lemma RecordAddsNoReceipt(env: Env, log: seq<RunEvent>, call: KernelSpec.Call, o: EventOptions, clock: Timestamp)
    requires !call.RecordEffectReceipt?
    ensures NoReceiptIn(log, Record(env, log, call, o, clock, clock).log)
  {
    hide Fold, Admit, WellFormed, Envelope, NextEventId, AppendEvent, TypeName;
    var at := o.occurredAt.GetOr(clock);
    var payload := PayloadOf(env, Fold(log), call, at);
    var eventId := o.eventId.GetOr(NextEventId(env.runId, |log|, TypeName(payload)));
    AppendedEnvelope(env, log, payload, WithDefaultCausation(Fold(log), o.(eventId := Some(eventId))), clock);
  }

  /** Recording the effect of an unfit receipt stops before the receipt. */
  lemma UnfitLifecycleStops(env: Env, log: seq<RunEvent>, proposalEvent: RunEvent, r: EffectBroker.DispatchResult,
                            o: HarnessOptions, c: Clocks)
    requires IsUnfit(r.receipt)
    ensures var out := RecordLifecycle(env, log, proposalEvent, r, o, c);
      out.result.Err? && NoReceiptIn(log, out.log)
  {
    hide Record, Merge, CausedBy, ValidEffectReceipt, AdmitReceipt, NoReceiptIn;
    var options := Merge(CausedBy(proposalEvent, None, r.effectRequest.requestedAt), o.requestEvent);
    RecordAddsNoReceipt(env, log, RecordEffectRequest(r.effectRequest), options, c.request);
    var requested := Record(env, log, RecordEffectRequest(r.effectRequest), options, c.request, c.request);
    if requested.result.Ok? {
      var id := ReceiptEventId(r, o);
      var ref :| ref in r.receipt.evidence
        && (ref.kind != EffectReceiptEvidence || ref.hash != r.receipt.payloadHash);
      var receiptOptions := Merge(CausedBy(requested.result.value, Some(id), r.receipt.observedAt), o.receiptEvent);
      UnfitEvidenceIsNotRecorded(env, requested.log, r.receipt, ref, receiptOptions, c.receipt, id);
    }
  }

  // For good

  /** The command's key is cached with an unfit receipt, and its effect is not remembered. */
  predicate IsPoisoned(s: State, t: ToolCommandRequest) {
    && t.idempotencyKey.Some? && t.idempotencyKey.value in s.broker.cache
    && var entry := s.broker.cache[t.idempotencyKey.value];
       entry.CachedResult? && IsUnfit(entry.result.receipt) && entry.result.effectRequest.effectId !in s.recorded
  }

  /** What the broker answers about a poisoned key: nothing, or the unfit receipt. */
  lemma PoisonedAnswer(settings: EffectBroker.Settings, s: State, t: ToolCommandRequest, o: HarnessOptions,
                       outcome: EffectSdk.AdapterOutcome, c: Clocks)
    requires IsPoisoned(s, t)
    ensures var (next, r) := BrokerDispatch(settings, s, t, o, outcome, c);
      && next == s
      && (r.Ok? ==> r.value.cached && IsUnfit(r.value.receipt) && r.value.effectRequest.effectId !in s.recorded)
  {
    hide IsUnfit, ValidToolCommand, EffectBroker.ToolFor, EffectBroker.Finish;
  }

  /** A dispatch of a poisoned command fails, executes nothing, records no receipt and leaves the key poisoned. */
  lemma PoisonedDispatchFails(env: Env, settings: EffectBroker.Settings, s: State, t: ToolCommandRequest, c: Ask)
    requires IsPoisoned(s, t)
    ensures var (next, r) := Dispatch(env, settings, s, t, c.options, c.outcome, c.clocks);
      r.Err? && IsPoisoned(next, t) && next.executions == s.executions && NoReceiptIn(s.log, next.log)
  {
    hide Record, BrokerDispatch, RecordLifecycle, IsUnfit;
    RecordAddsNoReceipt(env, s.log, SubmitToolCommand(t), c.options.proposalEvent, c.clocks.proposal);
    var proposed :=
      Record(env, s.log, SubmitToolCommand(t), c.options.proposalEvent, c.clocks.proposal, c.clocks.proposal);
    if proposed.result.Ok? {
      var s1 := s.(log := proposed.log);
      PoisonedAnswer(settings, s1, t, c.options, c.outcome, c.clocks);
      var r := BrokerDispatch(settings, s1, t, c.options, c.outcome, c.clocks).1;
      if r.Ok? {
        UnfitLifecycleStops(env, proposed.log, proposed.result.value, r.value, c.options, c.clocks);
      }
    }
  }

  /**
   * One accepted but unfit receipt poisons its key for good: however often the command is dispatched afterwards, with
   * whatever options, every dispatch fails, the adapter is not executed again and no receipt is recorded.
   */
  lemma {:induction false} PoisonedForGood(env: Env, settings: EffectBroker.Settings, s: State, t: ToolCommandRequest,
                                           calls: seq<Ask>)
    requires IsPoisoned(s, t)
    ensures var (after, results) := DispatchAll(env, settings, s, t, calls);
      && IsPoisoned(after, t) && after.executions == s.executions && NoReceiptIn(s.log, after.log)
      && forall r :: r in results ==> r.Err?
  {
    hide Dispatch, IsPoisoned;
    if calls != [] {
      var n := |calls| - 1;
      PoisonedForGood(env, settings, s, t, calls[..n]);
      var (before, earlier) := DispatchAll(env, settings, s, t, calls[..n]);
      PoisonedDispatchFails(env, settings, before, t, calls[n]);
    }
  }

  /** How it comes to that: the first dispatch is executed, answered with an unfit receipt and refused by the kernel. */
  lemma UnfitReceiptPoisons(env: Env, settings: EffectBroker.Settings, s: State, t: ToolCommandRequest, c: Ask)
    requires t.idempotencyKey.Some? && t.idempotencyKey.value !in s.broker.cache
    requires Record(env, s.log, SubmitToolCommand(t), c.options.proposalEvent, c.clocks.proposal,
                    c.clocks.proposal).result.Ok?
    requires var (next, r) := BrokerDispatch(settings, s, t, c.options, c.outcome, c.clocks);
      r.Ok? && IsUnfit(r.value.receipt) && r.value.effectRequest.effectId !in s.recorded
    ensures var (next, r) := Dispatch(env, settings, s, t, c.options, c.outcome, c.clocks);
      && r.Err? && r.error.KernelRefused? && IsPoisoned(next, t) && next.executions == s.executions + 1
      && NoReceiptIn(s.log, next.log)
  {
    hide Record, RecordLifecycle, IsUnfit, BrokerDispatch;
    RecordAddsNoReceipt(env, s.log, SubmitToolCommand(t), c.options.proposalEvent, c.clocks.proposal);
    var proposed :=
      Record(env, s.log, SubmitToolCommand(t), c.options.proposalEvent, c.clocks.proposal, c.clocks.proposal);
    var s1 := s.(log := proposed.log);
    BrokerIgnoresLog(settings, s, proposed.log, t, c);
    FirstBrokerDispatch(settings, s1, t, c.options, c.outcome, c.clocks);
    var r := BrokerDispatch(settings, s1, t, c.options, c.outcome, c.clocks).1.value;
    UnfitLifecycleStops(env, proposed.log, proposed.result.value, r, c.options, c.clocks);
  }

  lemma BrokerIgnoresLog(settings: EffectBroker.Settings, s: State, log: seq<RunEvent>, t: ToolCommandRequest, c: Ask)
    ensures BrokerDispatch(settings, s.(log := log), t, c.options, c.outcome, c.clocks).1
         == BrokerDispatch(settings, s, t, c.options, c.outcome, c.clocks).1
  {
    hide EffectBroker.Begin, EffectBroker.Finish;
  }
}
