// One command, dispatched to a certified test runner: with fit evidence its first
// dispatch succeeds, with unfit evidence it poisons its key.
module SampleDispatch {
  import opened Wrappers
  import opened Protocol
  import opened Contracts
  import opened EventLog
  import opened KernelSpec
  import opened RecordingOutcome
  import EffectSdk
  import EffectBroker
  import opened Harness
  import opened HarnessProperties
  import opened UnfitReceipts
  import opened SampleRun

  function Runner(): EffectSdk.Adapter {
    EffectSdk.Adapter("fake", "tests", "runner", {}, EffectSdk.Certified(EffectSdk.Certification(
      "fake", "deterministic_fake", "tests", "runner", Read, ["test_run"], [], EffectSdk.NotRequired, None)))
  }

  function Tests(): EffectSdk.Capability {
    EffectSdk.Capability("tests", Read, [EffectSdk.ReceiptOf("test_run")])
  }

  function RunnerSettings(env: Env): EffectBroker.Settings {
    EffectBroker.Settings(env.hash, {"deterministic_fake"})
  }

  function RunnerBroker(): EffectBroker.State {
    EffectBroker.State(map["tests" := Tests()], map[EffectBroker.AdapterKey("tests", "runner") := Runner()], map[],
                       map[])
  }

  function Command(env: Env): ToolCommandRequest {
    ToolCommandRequest("command", env.runId, "tests", "runner", map[], Read, Some("key"), [])
  }

  function Requested(env: Env): EffectRequest {
    EffectRequest("effect", "command", env.runId, "tests", "runner", map[], Read, START, Some("key"))
  }

  /** A receipt whose only evidence is of this kind. */
  function ReceiptWith(env: Env, kind: EvidenceKind): EffectSdk.ReceiptCandidate {
    var hash := env.hash(OfObject(SampleResult()));
    EffectSdk.ReceiptCandidate(
      "receipt", "effect", env.runId, "tests", "test_run", Succeeded, SampleResult(), hash,
      [EffectSdk.PendingRef("evidence", kind, hash, START, "token", None, None, map[])], START, None)
  }

  function AskWith(env: Env, kind: EvidenceKind): Ask {
    Ask(HarnessOptions(Named("evt_command", START), EffectBroker.DispatchOptions(Some("effect"), Some(START)),
                       Named("evt_request", START), Named("evt_receipt", START), Named("evt_observation", START)),
        EffectSdk.Returned(Some(ReceiptWith(env, kind)), None), Clocks(START, START, START, START, START, START))
  }

  /** A started run, and a broker with nothing but the runner. */
  predicate IsReady(env: Env, s: State) {
    && !IsBlank(env.runId) && s.broker == RunnerBroker() && s.recorded == map[]
    && EventIds(s.log) == {"evt_start"} && Fold(s.log) == NoFields.(started := Some("evt_start"))
  }

  // The broker

  lemma RunnerFits(env: Env, s: EffectBroker.State)
    requires s == RunnerBroker()
    ensures EffectBroker.ToolFor(RunnerSettings(env), s, Command(env))
         == Ok(EffectBroker.Tool(Tests(), Runner(), Runner().certification.certification))
  {
    assert EffectSdk.CheckLifecycle(Runner().certification.certification).None?;
  }

  lemma RunnerIsTrusted(env: Env, kind: EvidenceKind)
    requires env.runId != ""
    ensures EffectSdk.CheckReceiptCandidate(env.hash, ReceiptWith(env, kind), Requested(env), Tests(),
                                            Runner().certification.certification).None?
  {
  }

  /** The broker executes the runner and takes its receipt, whatever the kind of its evidence. */
  lemma RunnerIsExecuted(env: Env, s: State, kind: EvidenceKind)
    requires s.broker == RunnerBroker() && env.runId != ""
    ensures var c := AskWith(env, kind);
      var (next, r) := BrokerDispatch(RunnerSettings(env), s, Command(env), c.options, c.outcome, c.clocks);
      && r == Ok(EffectBroker.DispatchResult(false, Requested(env), ReceiptWith(env, kind), None))
      && next.log == s.log
  {
    hide EffectBroker.ToolFor, EffectSdk.CheckReceiptCandidate, ReceiptWith, RunnerBroker, Runner, Tests;
    RunnerFits(env, s.broker);
    RunnerIsTrusted(env, kind);
    NothingCachedYet();
  }

  lemma NothingCachedYet()
    ensures RunnerBroker().cache == map[]
  {
  }

  // The kernel

  /** An admitted call under a fresh id, with usable references, returns. */
  lemma CallReturns(env: Env, log: seq<RunEvent>, call: KernelSpec.Call, o: EventOptions, id: string)
    requires Admit(env, Fold(log), call, id, START).None? && !call.StartRun?
    requires o.eventId == Some(id) && o.occurredAt == Some(START) && o.payloadHash.None?
    requires !IsBlank(env.runId) && !IsBlank(id) && id !in EventIds(log)
    requires ReferencesFit(log, WithDefaultCausation(Fold(log), o))
    ensures var out, payload := Record(env, log, call, o, START, START), PayloadOf(env, Fold(log), call, START);
      && out.result.Ok? && out.result.value.eventId == id && out.result.value.payload == payload
      && out.result.value.correlationId == o.correlationId.GetOr(None)
      && EventIds(out.log) == EventIds(log) + {id} && Fold(out.log) == ApplyPayload(Fold(log), id, payload)
  {
    hide Record, Fold, Admit, PayloadOf, IsBlank, ApplyPayload, EventIds, TypeName, NextEventId, ReferencesFit;
    TextsAreFine();
    RecordingReturns(env, log, call, o, START, START);
    RecordingAdds(env, log, call, o, START, START);
    CorrelationIsKept(env, log, call, o);
  }

  lemma CorrelationIsKept(env: Env, log: seq<RunEvent>, call: KernelSpec.Call, o: EventOptions)
    requires Record(env, log, call, o, START, START).result.Ok?
    ensures Record(env, log, call, o, START, START).result.value.correlationId == o.correlationId.GetOr(None)
  {
    hide Fold, Admit, PayloadOf, WellFormed, Envelope, NextEventId, IsBlank, EventIds, TypeName;
    var f, at := Fold(log), o.occurredAt.GetOr(START);
    var payload := PayloadOf(env, f, call, at);
    var eventId := o.eventId.GetOr(NextEventId(env.runId, |log|, TypeName(payload)));
    AppendedFields(env, log, payload, WithDefaultCausation(f, o.(eventId := Some(eventId))), START);
  }

  // What is admitted where

  lemma CommandIsAdmitted(env: Env, f: Fields)
    requires !IsBlank(env.runId) && f.started.Some?
    ensures Admit(env, f, SubmitToolCommand(Command(env)), "evt_command", START).None?
  {
    assert env.runId != "";
  }

  lemma RequestedIsAdmitted(env: Env, f: Fields)
    requires !IsBlank(env.runId) && f.started.Some?
    ensures Admit(env, f, RecordEffectRequest(Requested(env)), "evt_request", START).None?
  {
    assert env.runId != "";
  }

  lemma FitReceiptIsAdmitted(env: Env, f: Fields)
    requires !IsBlank(env.runId) && f.started.Some? && f.effectRequests == [Requested(env)]
    ensures var receipt := AdmitReceipt(ReceiptWith(env, EffectReceiptEvidence), "evt_receipt");
      ValidEffectReceipt(receipt) && Admit(env, f, RecordEffectReceipt(receipt), "evt_receipt", START).None?
  {
    assert env.runId != "";
    assert [Requested(env)][0] == Requested(env);
    var receipt := AdmitReceipt(ReceiptWith(env, EffectReceiptEvidence), "evt_receipt");
    assert forall e :: e in receipt.evidence ==> e == receipt.evidence[0];
  }

  lemma IdsAreNew()
    ensures !IsBlank("evt_start") && !IsBlank("evt_command") && !IsBlank("evt_request") && !IsBlank("evt_receipt")
    ensures "evt_command" != "evt_start" && "evt_request" !in {"evt_start"} + {"evt_command"}
    ensures "evt_receipt" !in {"evt_start"} + {"evt_command"} + {"evt_request"}
  {
    TextsAreFine();
    NotBlank("evt_command");
    assert "evt_start"[4] == 's' && "evt_command"[4] == 'c' && "evt_request"[4] == 'r' && "evt_receipt"[4] == 'r';
    assert "evt_request"[6] == 'q' && "evt_receipt"[6] == 'c';
  }

  /** The references an effect's event is given fit once the event that causes it is in the log. */
  lemma CausedByFits(env: Env, log: seq<RunEvent>, e: RunEvent, id: string, given: Option<string>)
    requires e.eventId in EventIds(log) && !IsBlank(e.eventId) && e.correlationId.None?
    ensures var o := Merge(CausedBy(e, given, START), Named(id, START));
      && o.eventId == Some(id) && o.occurredAt == Some(START) && o.payloadHash.None? && o.correlationId == Some(None)
      && ReferencesFit(log, WithDefaultCausation(Fold(log), o))
  {
    hide Fold, IsBlank;
  }

  /** The proposal of the command, in a run that is ready. */
  lemma CommandIsProposed(env: Env, s: State)
    requires IsReady(env, s)
    ensures var out := Record(env, s.log, SubmitToolCommand(Command(env)), Named("evt_command", START), START, START);
      && out.result.Ok? && out.result.value.eventId == "evt_command" && out.result.value.correlationId.None?
      && EventIds(out.log) == {"evt_start"} + {"evt_command"}
      && Fold(out.log).started == Some("evt_start") && Fold(out.log).effectRequests == []
  {
    hide Record, Fold, Admit, IsBlank, EventIds, Command;
    IdsAreNew();
    CommandIsAdmitted(env, Fold(s.log));
    CallReturns(env, s.log, SubmitToolCommand(Command(env)), Named("evt_command", START), "evt_command");
  }

  /** The request of the effect, caused by the proposal. */
  lemma RequestIsRecorded(env: Env, log: seq<RunEvent>, e: RunEvent)
    requires !IsBlank(env.runId) && EventIds(log) == {"evt_start"} + {"evt_command"}
    requires Fold(log).started == Some("evt_start") && Fold(log).effectRequests == []
    requires e.eventId == "evt_command" && e.correlationId.None?
    ensures var o := Merge(CausedBy(e, None, START), Named("evt_request", START));
      var out := Record(env, log, RecordEffectRequest(Requested(env)), o, START, START);
      && out.result.Ok? && out.result.value.eventId == "evt_request" && out.result.value.correlationId.None?
      && EventIds(out.log) == {"evt_start"} + {"evt_command"} + {"evt_request"}
      && Fold(out.log).started == Some("evt_start") && Fold(out.log).effectRequests == [Requested(env)]
  {
    hide Record, Fold, Admit, IsBlank, EventIds, Requested, Merge, CausedBy, ReferencesFit;
    IdsAreNew();
    RequestedIsAdmitted(env, Fold(log));
    CausedByFits(env, log, e, "evt_request", None);
    var o := Merge(CausedBy(e, None, START), Named("evt_request", START));
    CallReturns(env, log, RecordEffectRequest(Requested(env)), o, "evt_request");
    assert [] + [Requested(env)] == [Requested(env)];
  }

  /** The receipt, caused by the request. */
  lemma ReceiptIsRecorded(env: Env, log: seq<RunEvent>, e: RunEvent)
    requires !IsBlank(env.runId) && EventIds(log) == {"evt_start"} + {"evt_command"} + {"evt_request"}
    requires Fold(log).started == Some("evt_start") && Fold(log).effectRequests == [Requested(env)]
    requires e.eventId == "evt_request" && e.correlationId.None?
    ensures var receipt := AdmitReceipt(ReceiptWith(env, EffectReceiptEvidence), "evt_receipt");
      var o := Merge(CausedBy(e, Some("evt_receipt"), START), Named("evt_receipt", START));
      Record(env, log, RecordEffectReceipt(receipt), o, START, START).result.Ok?
  {
    hide Record, Fold, Admit, IsBlank, EventIds, Requested, Merge, CausedBy, ReferencesFit, AdmitReceipt;
    IdsAreNew();
    FitReceiptIsAdmitted(env, Fold(log));
    CausedByFits(env, log, e, "evt_receipt", Some("evt_receipt"));
    var receipt := AdmitReceipt(ReceiptWith(env, EffectReceiptEvidence), "evt_receipt");
    var o := Merge(CausedBy(e, Some("evt_receipt"), START), Named("evt_receipt", START));
    CallReturns(env, log, RecordEffectReceipt(receipt), o, "evt_receipt");
  }

  // The dispatches

  /** With fit evidence the first dispatch succeeds, so that one effect is all there will be. */
  lemma FitDispatchSucceeds(env: Env, s: State, more: seq<Ask>)
    requires IsReady(env, s)
    ensures var c := AskWith(env, EffectReceiptEvidence);
      var one := Dispatch(env, RunnerSettings(env), s, Command(env), c.options, c.outcome, c.clocks);
      && one.1.Ok?
      && IsOneEffect(s, Command(env), c, one, DispatchAll(env, RunnerSettings(env), one.0, Command(env), more))
  {
    hide Record, Fold, IsBlank, EventIds, Requested, Merge, CausedBy, AdmitReceipt, BrokerDispatch, ReceiptWith,
      IsOneEffect, DispatchAll, ValidEffectReceipt;
    var c, settings, t := AskWith(env, EffectReceiptEvidence), RunnerSettings(env), Command(env);
    CommandIsProposed(env, s);
    var proposed := Record(env, s.log, SubmitToolCommand(t), c.options.proposalEvent, START, START);
    assert env.runId != "" by { NonBlankIsNonEmpty(env.runId); }
    RunnerIsExecuted(env, s.(log := proposed.log), EffectReceiptEvidence);
    LifecycleReturns(env, proposed.log, proposed.result.value);
    NothingCachedYet();
    DispatchIsIdempotent(env, settings, s, t, c, more);
  }

  lemma NonBlankIsNonEmpty(s: string)
    requires !IsBlank(s)
    ensures s != ""
  {
  }

  lemma LifecycleReturns(env: Env, log: seq<RunEvent>, e: RunEvent)
    requires !IsBlank(env.runId) && EventIds(log) == {"evt_start"} + {"evt_command"}
    requires Fold(log).started == Some("evt_start") && Fold(log).effectRequests == []
    requires e.eventId == "evt_command" && e.correlationId.None?
    ensures var c := AskWith(env, EffectReceiptEvidence);
      var r := EffectBroker.DispatchResult(false, Requested(env), ReceiptWith(env, EffectReceiptEvidence), None);
      RecordLifecycle(env, log, e, r, c.options, c.clocks).result.Ok?
  {
    hide Record, Fold, IsBlank, EventIds, Merge, CausedBy, AdmitReceipt, ValidEffectReceipt;
    RequestIsRecorded(env, log, e);
    var o := Merge(CausedBy(e, None, START), Named("evt_request", START));
    var requested := Record(env, log, RecordEffectRequest(Requested(env)), o, START, START);
    ReceiptIsRecorded(env, requested.log, requested.result.value);
    FitReceiptIsAdmitted(env, Fold(requested.log));
  }

  /** With evidence of another kind it poisons the key, and no dispatch of the command ever succeeds. */
  lemma UnfitDispatchNeverSucceeds(env: Env, s: State, more: seq<Ask>)
    requires IsReady(env, s)
    ensures var c := AskWith(env, ArtifactEvidence);
      var (next, r) := Dispatch(env, RunnerSettings(env), s, Command(env), c.options, c.outcome, c.clocks);
      var (after, results) := DispatchAll(env, RunnerSettings(env), next, Command(env), more);
      && r.Err? && next.executions == s.executions + 1 && "key" in next.broker.cache
      && after.executions == next.executions && NoReceiptIn(s.log, next.log) && NoReceiptIn(next.log, after.log)
      && forall later :: later in results ==> later.Err?
  {
    hide Record, Fold, IsBlank, EventIds, BrokerDispatch, Dispatch, DispatchAll, NoReceiptIn;
    var c, settings, t := AskWith(env, ArtifactEvidence), RunnerSettings(env), Command(env);
    CommandIsProposed(env, s);
    assert env.runId != "" by { NonBlankIsNonEmpty(env.runId); }
    RunnerIsExecuted(env, s, ArtifactEvidence);
    assert ReceiptWith(env, ArtifactEvidence).evidence[0].kind == ArtifactEvidence;
    assert IsUnfit(ReceiptWith(env, ArtifactEvidence));
    UnfitReceiptPoisons(env, settings, s, t, c);
    PoisonedForGood(env, settings, Dispatch(env, settings, s, t, c.options, c.outcome, c.clocks).0, t, more);
  }

  /** A started run is ready. */
  lemma StartedRunIsReady(env: Env)
    requires !IsBlank(env.runId)
    ensures IsReady(env, State(Run(env, [Recorded(Call.StartRun(None, None), "evt_start")]), RunnerBroker(), map[], 0))
  {
    hide Run, Fold, IsBlank, Admit, Recorded;
    TextsAreFine();
    NothingRecorded(env);
    StartIsAdmitted(env);
    SampleStep(env, [], NoFields, Call.StartRun(None, None), "evt_start", {});
    var start := Recorded(Call.StartRun(None, None), "evt_start");
    assert [] + [start] == [start];
    assert {} + {"evt_start"} == {"evt_start"};
  }
}
