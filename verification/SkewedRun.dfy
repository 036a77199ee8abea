// One run that does not replay to itself, although every call of it returned:
// the clock moved on between the two readings of a commit.
module SkewedRun {
  import opened Wrappers
  import opened Protocol
  import opened Contracts
  import opened EventLog
  import opened KernelSpec
  import opened RecordingOutcome
  import opened RunGrowth
  import opened Resubmission
  import Replay
  import opened ReplayProperties
  import opened SampleRun

  const LATER: Timestamp := Timestamp("1970-01-01T00:00:01.000Z", Some(1000))

  function Unsealed(env: Env): MutationCommandRequest {
    MutationCommandRequest("command", "mutation", env.runId, "state", DeleteOperation("path"), 0,
                           MutationProvenance("human_input", "evt_receipt", "reason", map[]), START, Sha256(""), None)
  }

  function SampleMutation(env: Env): MutationCommandRequest {
    Unsealed(env).(payloadHash := env.hash(OfCommandBody(Unsealed(env))))
  }

  function ProposeMutation(env: Env): Request {
    Recorded(SubmitMutationCommand(SampleMutation(env)), "evt_mutation")
  }

  /** No time is given, so the kernel reads the clock for the mutation and again for its event. */
  function CommitOptions(): EventOptions {
    EventOptions(Some("evt_update"), None, None, None, None)
  }

  function SkewedCommit(env: Env): Request {
    Recording(CommitMutation(SampleMutation(env)), CommitOptions(), START, LATER)
  }

  function SkewedCalls(env: Env): seq<Request> {
    SampleCalls(env) + [ProposeMutation(env)] + [SkewedCommit(env)]
  }

  lemma MutationIsAdmitted(env: Env, f: Fields)
    requires !IsBlank(env.runId) && f.started.Some?
    ensures Admit(env, f, SubmitMutationCommand(SampleMutation(env)), "evt_mutation", START).None?
    ensures f.proposals == [MutationProposal(SampleMutation(env))] && f.revisions == map[] ==>
      Admit(env, f, CommitMutation(SampleMutation(env)), "evt_update", START).None?
  {
    assert env.runId != "";
    assert SampleMutation(env).(payloadHash := Sha256("")) == Unsealed(env);
    if f.proposals == [MutationProposal(SampleMutation(env))] {
      assert ProposalFor(f, SampleMutation(env)) == Some(MutationProposal(SampleMutation(env)));
    }
  }

  lemma MoreTextsAreFine()
    ensures !IsBlank("evt_mutation") && !IsBlank("evt_update") && ValidTime(LATER)
  {
    NotBlank("evt_mutation");
    NotBlank("evt_update");
  }

  /** What recording the proposal, and then the commit, makes of the fields. */
  lemma FieldsAfter(env: Env, f: Fields)
    requires f == SampleFields(env)
    ensures var proposal := PayloadOf(env, f, SubmitMutationCommand(SampleMutation(env)), START);
      && proposal == ProposalReceived(MutationProposal(SampleMutation(env)))
      && var g := ApplyPayload(f, "evt_mutation", proposal);
         && g.started == Some("evt_start") && g.proposals == [MutationProposal(SampleMutation(env))]
         && g.revisions == map[] && g.effectReceipts == [SampleReceipt(env)]
  {
    hide SampleMutation, SampleReceipt, SampleRequest;
    assert [] + [MutationProposal(SampleMutation(env))] == [MutationProposal(SampleMutation(env))];
  }

  const SAMPLE_IDS := {"evt_start"} + {"evt_request"} + {"evt_receipt"}

  /** The log once the mutation has been proposed. */
  lemma ProposedLog(env: Env)
    requires !IsBlank(env.runId)
    ensures var sample, log := Run(env, SampleCalls(env)), Run(env, SampleCalls(env) + [ProposeMutation(env)]);
      && |sample| == 3 && |log| == 4 && log[..3] == sample && WellFormed(log[3])
      && log[3].payload == ProposalReceived(MutationProposal(SampleMutation(env)))
      && EventIds(log) == SAMPLE_IDS + {"evt_mutation"}
      && var f := Fold(log);
         && f.started == Some("evt_start") && f.proposals == [MutationProposal(SampleMutation(env))]
         && f.revisions == map[] && f.effectReceipts == [SampleReceipt(env)]
  {
    hide IsBlank, Admit, SampleMutation, Run, Fold, WellFormed, ValidTime, EventIds, Record, SampleFields, SampleCalls,
      PayloadOf, ApplyPayload, SampleReceipt, AreOthers, IsPlain;
    SampleCallsRecord(env);
    TextsAreFine();
    MoreTextsAreFine();
    NewIds();
    RunStep(env, SampleCalls(env), ProposeMutation(env));
    SampleHolds(env);
    MutationIsAdmitted(env, SampleFields(env));
    CallRecords(env, Run(env, SampleCalls(env)), SubmitMutationCommand(SampleMutation(env)), "evt_mutation", START);
    FieldsAfter(env, SampleFields(env));
  }

  /** The commit is recorded with the first reading in its mutation and the second on its event. */
  lemma CommittedLog(env: Env)
    requires !IsBlank(env.runId)
    ensures var before, log := Run(env, SampleCalls(env) + [ProposeMutation(env)]), Run(env, SkewedCalls(env));
      && |before| == 4 && |log| == 5 && log[..4] == before
      && WellFormed(log[4]) && log[4].payload.MutationCommittedEvent?
      && log[4].payload.mutation.committedAt == START && log[4].occurredAt == LATER
      && EventIds(log) == SAMPLE_IDS + {"evt_mutation"} + {"evt_update"}
      && Fold(log).started == Some("evt_start") && Fold(log).effectReceipts == [SampleReceipt(env)]
  {
    hide IsBlank, SampleMutation, Run, Fold, WellFormed, EventIds, Record, SampleCalls, PayloadOf, TypeName,
      ApplyPayload, SampleReceipt, EventIsStored, ParsesLater;
    ProposedLog(env);
    NewIds();
    var log, call := Run(env, SampleCalls(env) + [ProposeMutation(env)]), CommitMutation(SampleMutation(env));
    RunStep(env, SampleCalls(env) + [ProposeMutation(env)], SkewedCommit(env));
    CommitIsStored(env, log);
    RecordingReturns(env, log, call, CommitOptions(), START, LATER);
    RecordingAdds(env, log, call, CommitOptions(), START, LATER);
    CommitIsRecorded(env, log, SampleMutation(env), CommitOptions(), START, LATER);
    CommitKeepsRest(Fold(log), "evt_update", PayloadOf(env, Fold(log), call, START));
  }

  lemma CommitIsStored(env: Env, log: seq<RunEvent>)
    requires !IsBlank(env.runId) && Fold(log).started == Some("evt_start") && Fold(log).revisions == map[]
    requires Fold(log).proposals == [MutationProposal(SampleMutation(env))]
    requires "evt_start" in EventIds(log) && "evt_update" !in EventIds(log)
    ensures EventIsStored(env, log, CommitMutation(SampleMutation(env)), CommitOptions(), START)
    ensures ParsesLater(CommitMutation(SampleMutation(env)), CommitOptions(), LATER)
  {
    hide IsBlank, Admit, SampleMutation, Fold, ValidTime, EventIds, PayloadOf, AreOthers, TypeName;
    TextsAreFine();
    MoreTextsAreFine();
    MutationIsAdmitted(env, Fold(log));
  }

  lemma CommitKeepsRest(f: Fields, eventId: string, p: Payload)
    requires p.MutationCommittedEvent?
    ensures ApplyPayload(f, eventId, p).started == f.started
    ensures ApplyPayload(f, eventId, p).effectReceipts == f.effectReceipts
  {
  }

  lemma SampleHolds(env: Env)
    ensures var f := SampleFields(env);
      && f.started == Some("evt_start") && f.proposals == [] && f.revisions == map[]
      && f.effectReceipts == [SampleReceipt(env)]
  {
  }

  lemma NewIds()
    ensures |SAMPLE_IDS| == 3 && "evt_start" in SAMPLE_IDS && "evt_mutation" !in SAMPLE_IDS
    ensures "evt_update" !in SAMPLE_IDS + {"evt_mutation"}
    ensures AreOthers(SAMPLE_IDS + {"evt_mutation"} + {"evt_update"})
  {
    assert "evt_start"[4] == 's' && "evt_mutation"[4] == 'm' && "evt_update"[4] == 'u';
    assert "evt_request"[4] == 'r' && "evt_receipt"[4] == 'r' && "evt_request"[6] == 'q' && "evt_receipt"[6] == 'c';
  }

  lemma UnsteadyIsNotRepeatable(events: seq<RunEvent>, i: nat)
    requires i < |events| && events[i].payload.MutationCommittedEvent?
    requires events[i].payload.mutation.committedAt != events[i].occurredAt
    ensures !IsRepeatable(events, i)
  {
    hide Replay.MutationProposalBefore;
  }

  /**
   * Every call of this run returns, its one submission completes and releases, and every event of it is well-formed;
   * yet replaying it does not give it back.
   */
  lemma SkewedRunIsNotReplayed(env: Env, localeCompare: (string, string) -> int)
    requires !IsBlank(env.runId)
    ensures var submission := Submission(SampleCandidate(env), SampleOptions(), START);
      var log := Run(env, SkewedCalls(env) + [submission]);
      var out := SubmitFinal(env, Run(env, SkewedCalls(env)), SampleCandidate(env), SampleOptions(), START);
      && out.result.Ok? && out.result.value.finalReleasedEvent.Some? && out.log == log && Replay.AllWellFormed(log)
      && Replay.Replay(env.hash, localeCompare, log, Some(env.runId)) != Reproduced(env, out)
  {
    hide IsBlank, Fold, Run, SubmitFinal, SampleCandidate, SampleOptions, SampleCalls, WellFormed, Replay.Replay,
      SkewedCalls, Emitted, EventIds, IsReport, IsRepeatable, AreOthers, Replay.AllWellFormed, Replay.IsFinalCandidate;
    var before, c, o := Run(env, SkewedCalls(env)), SampleCandidate(env), SampleOptions();
    var calls := SkewedCalls(env) + [Submission(c, o, START)];
    NewIds();
    CommittedLog(env);
    SampleIsReleasedBehind(env, before);
    SubmissionReports(env, before, c, o, START);
    RunStep(env, SkewedCalls(env), Submission(c, o, START));
    var out := SubmitFinal(env, before, c, o, START);
    var log := Run(env, calls);
    EmittedKinds(c, out.result.value);
    assert calls + [] == calls;
    InputsAreWellFormed(env);
    OneCandidate(before, Emitted(out.result.value));
    assert log[4] == before[4];
    UnsteadyIsNotRepeatable(log, 4);
    ReplayIsFaithful(env, SkewedCalls(env), c, o, START, [], localeCompare, Some(env.runId));
  }

  lemma OneCandidate(before: seq<RunEvent>, emitted: seq<RunEvent>)
    requires forall e :: e in before ==> WellFormed(e) && !Replay.IsFinalCandidate(e)
    requires forall e :: e in emitted ==> WellFormed(e)
    requires forall i :: 0 < i < |emitted| ==> !emitted[i].payload.ProposalReceived?
    ensures Replay.AllWellFormed(before + emitted)
    ensures forall i :: 0 <= i < |before + emitted| && Replay.IsFinalCandidate((before + emitted)[i]) ==> i == |before|
  {
    hide WellFormed;
    var all := before + emitted;
    forall i | 0 <= i < |all| && i != |before|
      ensures !Replay.IsFinalCandidate(all[i])
    {
      if i < |before| {
        assert all[i] == before[i];
      } else {
        assert all[i] == emitted[i - |before|];
      }
    }
  }

  lemma InputsAreWellFormed(env: Env)
    requires !IsBlank(env.runId)
    ensures forall e :: e in Run(env, SkewedCalls(env)) ==> WellFormed(e) && !Replay.IsFinalCandidate(e)
  {
    hide IsBlank, Fold, Run, SampleCalls, WellFormed, SkewedCalls, SampleFields, EventIds, SampleMutation;
    SampleCallsRecord(env);
    ProposedLog(env);
    CommittedLog(env);
    var a, b, log := Run(env, SampleCalls(env)), Run(env, SampleCalls(env) + [ProposeMutation(env)]),
      Run(env, SkewedCalls(env));
    forall i | 0 <= i < 5
      ensures WellFormed(log[i]) && !Replay.IsFinalCandidate(log[i])
    {
      if i < 4 {
        assert log[i] == b[i];
        if i < 3 {
          assert b[i] == a[i];
        }
      }
    }
  }
}
