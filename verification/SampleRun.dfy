// One run that releases its candidate and replays: the hypotheses of the theorems
// about releases and about replay are met together, whatever the canonical hash is.
module SampleRun {
  import opened Wrappers
  import opened Protocol
  import opened Contracts
  import opened EventLog
  import opened EvidenceResolver
  import opened ProofEngine
  import opened ClaimTerms
  import opened ProofProperties
  import opened KernelSpec
  import opened KernelStream
  import opened Resubmission
  import Replay
  import opened ReplayProperties
  import opened RecordingOutcome
  import opened SubmissionOutcome

  function Named(id: string, at: Timestamp): EventOptions {
    EventOptions(Some(id), Some(at), None, None, None)
  }

  /** An admitted call under a fresh id, with nothing else given, records its event. */
  lemma CallRecords(env: Env, log: seq<RunEvent>, call: Call, id: string, at: Timestamp)
    requires Admit(env, Fold(log), call, id, at).None? && (call.StartRun? ==> OptionalNonEmpty(call.profile))
    requires !IsBlank(env.runId) && !IsBlank(id) && id !in EventIds(log) && ValidTime(at)
    requires var cause := Fold(log).started; cause.Some? ==> !IsBlank(cause.value) && cause.value in EventIds(log)
    ensures var after := Record(env, log, call, Named(id, at), at, at).log;
      && |after| == |log| + 1 && after[..|log|] == log && EventIds(after) == EventIds(log) + {id}
      && WellFormed(after[|log|]) && after[|log|].payload == PayloadOf(env, Fold(log), call, at)
      && Fold(after) == ApplyPayload(Fold(log), id, PayloadOf(env, Fold(log), call, at))
  {
    hide Record, Fold, Admit, PayloadOf, IsBlank, ApplyPayload, ValidTime, NextEventId, WellFormed, EventIds, TypeName;
    RecordingReturns(env, log, call, Named(id, at), at, at);
    RecordingAdds(env, log, call, Named(id, at), at, at);
  }

  const START: Timestamp := Timestamp("1970-01-01T00:00:00.000Z", Some(0))

  function SampleRequest(env: Env): EffectRequest {
    EffectRequest("effect", "command", env.runId, "tests", "runner", map[], Read, START, None)
  }

  function SampleEvidence(env: Env): EvidenceRef {
    EvidenceRef("evidence", EffectReceiptEvidence, "evt_receipt", env.hash(OfObject(SampleResult())), START, map[])
  }

  function SampleResult(): JsonObject {
    map["result" := Str("passed")]
  }

  function SampleReceipt(env: Env): EffectReceipt {
    EffectReceipt("receipt", "effect", env.runId, "tests", "test_run", Succeeded, SampleResult(),
                  env.hash(OfObject(SampleResult())), [SampleEvidence(env)], START, None)
  }

  function SampleCandidate(env: Env): FinalCandidate {
    var claim := Claim("claim", TestResultType, "The tests pass.", TestResult("tests", "passed", "test_run", None),
                       [SampleEvidence(env)], "low");
    FinalCandidate("candidate", env.runId, [claim], None)
  }

  function SampleOptions(): FinalOptions {
    FinalOptions(Named("evt_candidate", START), None, Some("evt_proof"), None, None, Some("evt_decision"),
                 Some("evt_final"))
  }

  function Recorded(call: Call, id: string): Request {
    Recording(call, Named(id, START), START, START)
  }

  /** The calls before the submission: a start, a request and its receipt. */
  function SampleCalls(env: Env): seq<Request> {
    [Recorded(Call.StartRun(None, None), "evt_start")]
    + [Recorded(RecordEffectRequest(SampleRequest(env)), "evt_request")]
    + [Recorded(RecordEffectReceipt(SampleReceipt(env)), "evt_receipt")]
  }

  lemma RunStep(env: Env, requests: seq<Request>, r: Request)
    ensures Run(env, requests + [r]) == After(env, Run(env, requests), r)
  {
    hide After;
    assert (requests + [r])[..|requests|] == requests;
  }

  lemma TextsAreFine()
    ensures !IsBlank("evt_start") && !IsBlank("evt_request") && !IsBlank("evt_receipt")
    ensures !IsBlank("evt_candidate") && !IsBlank("evt_proof") && !IsBlank("evt_decision") && !IsBlank("evt_final")
    ensures ValidTime(START)
  {
    assert !IsSpace('e');
    assert "evt_start"[0] == "evt_request"[0] == "evt_receipt"[0] == 'e';
    assert "evt_candidate"[0] == "evt_proof"[0] == "evt_decision"[0] == "evt_final"[0] == 'e';
  }

  // Each call of the sample is admitted where it is made

  lemma StartIsAdmitted(env: Env)
    requires !IsBlank(env.runId)
    ensures var call := Call.StartRun(None, None);
      Admit(env, NoFields, call, "evt_start", START).None?
  {
    assert env.runId != "";
  }

  lemma RequestIsAdmitted(env: Env, f: Fields)
    requires !IsBlank(env.runId) && f.started.Some?
    ensures var call := RecordEffectRequest(SampleRequest(env));
      Admit(env, f, call, "evt_request", START).None?
  {
    assert env.runId != "";
  }

  lemma ReceiptIsAdmitted(env: Env, f: Fields)
    requires !IsBlank(env.runId) && f.started.Some? && f.effectRequests == [SampleRequest(env)]
    ensures var call := RecordEffectReceipt(SampleReceipt(env));
      Admit(env, f, call, "evt_receipt", START).None?
  {
    assert env.runId != "";
    assert [SampleRequest(env)][0] == SampleRequest(env);
  }

  predicate IsPlain(p: Payload) {
    !p.ProposalReceived? && !p.MutationCommittedEvent?
  }

  /** The log has events of these ids and this meaning, all of them well-formed, and no proposals or commits. */
  predicate HasRecorded(log: seq<RunEvent>, ids: set<string>, f: Fields) {
    && |log| == |ids| && EventIds(log) == ids && Fold(log) == f
    && forall i :: 0 <= i < |log| ==> WellFormed(log[i]) && IsPlain(log[i].payload)
  }

  function SampleFields(env: Env): Fields {
    NoFields.(started := Some("evt_start"), effectRequests := [SampleRequest(env)],
              effectReceipts := [SampleReceipt(env)])
  }

  /** One more call of the sample. */
  lemma SampleStep(env: Env, requests: seq<Request>, f: Fields, call: Call, id: string, ids: set<string>)
    requires HasRecorded(Run(env, requests), ids, f)
    requires Admit(env, f, call, id, START).None? && (call.StartRun? ==> OptionalNonEmpty(call.profile))
    requires !IsBlank(env.runId) && !IsBlank(id) && id !in ids
    requires f.started.Some? ==> !IsBlank(f.started.value) && f.started.value in ids
    requires IsPlain(PayloadOf(env, f, call, START))
    ensures HasRecorded(Run(env, requests + [Recorded(call, id)]), ids + {id},
                        ApplyPayload(f, id, PayloadOf(env, f, call, START)))
  {
    hide Record, IsBlank, Admit, PayloadOf, ApplyPayload, Run, Fold, WellFormed;
    TextsAreFine();
    RunStep(env, requests, Recorded(call, id));
    CallRecords(env, Run(env, requests), call, id, START);
  }

  lemma SampleCallsRecord(env: Env)
    requires !IsBlank(env.runId)
    ensures HasRecorded(Run(env, SampleCalls(env)), {"evt_start"} + {"evt_request"} + {"evt_receipt"},
                        SampleFields(env))
  {
    hide IsBlank, Admit, SampleRequest, SampleReceipt, Run, Fold, Recorded, HasRecorded;
    TextsAreFine();
    var start, request, receipt := Call.StartRun(None, None), RecordEffectRequest(SampleRequest(env)),
      RecordEffectReceipt(SampleReceipt(env));
    var first := [Recorded(start, "evt_start")];
    var second := first + [Recorded(request, "evt_request")];
    var started := NoFields.(started := Some("evt_start"));
    var requested := started.(effectRequests := [SampleRequest(env)]);
    NothingRecorded(env);
    StartIsAdmitted(env);
    SampleStep(env, [], NoFields, start, "evt_start", {});
    assert [] + first == first && {} + {"evt_start"} == {"evt_start"};
    RequestIsAdmitted(env, started);
    SampleStep(env, first, started, request, "evt_request", {"evt_start"});
    assert [] + [SampleRequest(env)] == [SampleRequest(env)] && [] + [SampleReceipt(env)] == [SampleReceipt(env)];
    ReceiptIsAdmitted(env, requested);
    SampleStep(env, second, requested, receipt, "evt_receipt", {"evt_start"} + {"evt_request"});
  }

  lemma NothingRecorded(env: Env)
    ensures HasRecorded(Run(env, []), {}, NoFields)
  {
  }

  lemma SampleClaimIsSupported(env: Env, input: ProofInput)
    requires input.candidate == SampleCandidate(env) && input.effectReceipts == [SampleReceipt(env)]
    ensures forall claim :: claim in SampleCandidate(env).claims ==> IsSupported(env.hash, input, claim)
  {
    var ref, r := SampleEvidence(env), SampleReceipt(env);
    assert NameTheSame(ref, r.evidence[0]);
    forall claim | claim in SampleCandidate(env).claims
      ensures IsSupported(env.hash, input, claim)
    {
      assert ref in claim.evidenceRefs && r in input.effectReceipts;
      assert ReceiptBehind(env.hash, input, claim, ref, r) && ReceiptShows(r, claim.condition);
    }
  }

  lemma FourAreFresh(taken: set<string>, a: string, b: string, c: string, d: string)
    requires !IsBlank(a) && !IsBlank(b) && !IsBlank(c) && !IsBlank(d)
    requires a !in taken && b !in taken && c !in taken && d !in taken
    requires a != b && a != c && a != d && b != c && b != d && c != d
    ensures AreFresh(taken, [a] + ([b] + [c] + [d]))
  {
    hide IsBlank;
    FreshOne(taken + {a} + {b} + {c}, d);
    FreshOne(taken + {a} + {b}, c);
    FreshOne(taken + {a}, b);
    FreshOne(taken, a);
    ElementsOfOne(a);
    ElementsOfOne(b);
    ElementsOfOne(c);
    FreshSplit(taken, [a], [b] + [c] + [d]);
    FreshSplit(taken + {a}, [b] + [c], [d]);
    FreshSplit(taken + {a}, [b], [c]);
    assert Elements([b] + [c]) == {b} + {c};
    assert taken + {a} + ({b} + {c}) == taken + {a} + {b} + {c};
  }

  lemma ElementsOfOne(id: string)
    ensures Elements([id]) == {id}
  {
  }

  /** Ids that differ from those of the sample's submission in their fifth character. */
  predicate AreOthers(ids: set<string>) {
    forall x :: x in ids ==> |x| > 4 && x[4] in {'s', 'r', 'm', 'u'}
  }

  lemma SampleIdsAreFresh(env: Env, n: nat, taken: set<string>)
    requires AreOthers(taken)
    ensures AreFresh(taken, SubmissionIds(env, n, 0, SampleOptions()))
  {
    hide IsBlank, AreFresh, IdUsed;
    TextsAreFine();
    var a, b, c, d := "evt_candidate", "evt_proof", "evt_decision", "evt_final";
    assert a[4] == 'c' && b[4] == 'p' && c[4] == 'd' && d[4] == 'f';
    FourAreFresh(taken, a, b, c, d);
    SampleIds(env, n);
  }

  lemma SampleIds(env: Env, n: nat)
    ensures SubmissionIds(env, n, 0, SampleOptions())
         == ["evt_candidate"] + (["evt_proof"] + ["evt_decision"] + ["evt_final"])
  {
    hide NextEventId;
    assert MismatchIds(env, n + 2, 0, 0, SampleOptions()) == [];
  }

  lemma SampleFits(env: Env, log: seq<RunEvent>)
    requires !IsBlank(env.runId) && Fold(log).started == Some("evt_start") && "evt_start" in EventIds(log)
    ensures var o := SampleOptions();
      && ValidCandidate(SampleCandidate(env))
      && ReferencesFit(log, WithDefaultCausation(Fold(log), o.event))
      && HashFits(env, ProposalReceived(FinalProposal(SampleCandidate(env))), o.event)
      && ValidTime(ProposedAt(o, START)) && o.generatedAt.None? && o.proofId.None? && EnoughIds(o, 0)
  {
    hide Fold;
    assert env.runId != "";
    TextsAreFine();
  }

  /** Wherever the sample's receipt is what a started run holds, submitting its candidate releases it. */
  lemma SampleIsReleasedBehind(env: Env, log: seq<RunEvent>)
    requires !IsBlank(env.runId) && "evt_start" in EventIds(log) && AreOthers(EventIds(log))
    requires Fold(log).started == Some("evt_start") && Fold(log).effectReceipts == [SampleReceipt(env)]
    ensures var out := SubmitFinal(env, log, SampleCandidate(env), SampleOptions(), START);
      out.result.Ok? && out.result.value.finalReleasedEvent.Some?
  {
    hide IsBlank, Fold, ValidCandidate, IsSupported, EvaluateProof, SubmitFinal, SampleCandidate, SampleOptions,
      EventIds, SubmissionIds, AreFresh, ReferencesFit, HashFits, ValidTime, SampleReceipt, EnoughIds, AreOthers;
    var c, o := SampleCandidate(env), SampleOptions();
    SampleFits(env, log);
    var input := SubmissionInput(log, c, o, START);
    SampleClaimIsSupported(env, input);
    VerdictMeaning(env.hash, input);
    SampleIdsAreFresh(env, |log|, EventIds(log));
    assert c.runId == env.runId by { SampleNamesRun(env); }
    SubmissionCompletes(env, log, c, o, START);
    ReleasesTheSupported(env, log, c, o, START);
  }

  /** Submitting the sample's candidate behind its calls completes and releases it. */
  lemma SampleIsReleased(env: Env)
    requires !IsBlank(env.runId)
    ensures var out := SubmitFinal(env, Run(env, SampleCalls(env)), SampleCandidate(env), SampleOptions(), START);
      out.result.Ok? && out.result.value.finalReleasedEvent.Some?
  {
    hide IsBlank, Fold, Run, SubmitFinal, SampleCandidate, SampleOptions, SampleCalls, SampleReceipt, SampleRequest,
      WellFormed, EventIds;
    SampleCallsRecord(env);
    assert "evt_start" in {"evt_start"} + {"evt_request"} + {"evt_receipt"};
    SampleIsReleasedBehind(env, Run(env, SampleCalls(env)));
  }

  lemma SampleNamesRun(env: Env)
    ensures SampleCandidate(env).runId == env.runId
  {
  }

  /** And the whole run replays to itself. */
  lemma SampleReplays(env: Env, localeCompare: (string, string) -> int)
    requires !IsBlank(env.runId)
    ensures var submission := Submission(SampleCandidate(env), SampleOptions(), START);
      var log := Run(env, SampleCalls(env) + [submission]);
      var replay := Replay.Replay(env.hash, localeCompare, log, Some(env.runId));
      replay.ReplayPassed? && replay.replayedEvents == log && replay.replayedDecision.status.Released?
  {
    hide IsBlank, Fold, Run, SubmitFinal, SampleCandidate, SampleOptions, SampleCalls, WellFormed, Replay.Replay,
      SampleFields, Emitted, EventIds, IsReport, IsRepeatable;
    var before, c, o := Run(env, SampleCalls(env)), SampleCandidate(env), SampleOptions();
    var calls := SampleCalls(env) + [Submission(c, o, START)];
    SampleIsReleased(env);
    SampleCallsRecord(env);
    SubmissionReports(env, before, c, o, START);
    RunStep(env, SampleCalls(env), Submission(c, o, START));
    var out := SubmitFinal(env, before, c, o, START);
    var log := Run(env, calls);
    assert log == out.log;
    EmittedKinds(c, out.result.value);
    assert calls + [] == calls;
    forall i | 0 <= i < |before|
      ensures IsRepeatable(log, i)
    {
      assert log[i] == before[i];
      PlainIsRepeatable(log, i);
    }
    ReplayIsFaithful(env, SampleCalls(env), c, o, START, [], localeCompare, Some(env.runId));
    ReleasedDecision(c, out.result.value);
  }

  lemma EmittedKinds(c: FinalCandidate, r: FinalResult)
    requires IsReport(c, r)
    ensures forall e :: e in Emitted(r) ==> WellFormed(e)
    ensures Emitted(r) != [] && Replay.IsFinalCandidate(Emitted(r)[0])
    ensures forall i :: 0 < i < |Emitted(r)| ==> !Emitted(r)[i].payload.ProposalReceived?
  {
    hide WellFormed;
  }

  lemma ReleasedDecision(c: FinalCandidate, r: FinalResult)
    requires IsReport(c, r) && r.finalReleasedEvent.Some?
    ensures r.decision.status.Released?
  {
  }

  lemma PlainIsRepeatable(log: seq<RunEvent>, i: nat)
    requires i < |log| && IsPlain(log[i].payload)
    ensures IsRepeatable(log, i)
  {
  }
}
