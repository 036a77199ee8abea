// Replay against the live kernel: what it reproduces, what it refuses, and
// what a passed replay is worth.
module ReplayProperties {
  import opened Wrappers
  import opened Protocol
  import opened Contracts
  import opened EventLog
  import opened EventOrder
  import opened LogHistory
  import opened ProofEngine
  import opened ReleaseGate
  import opened KernelSpec
  import opened KernelInvariants
  import opened RunGrowth
  import opened KernelStream
  import opened ReleaseSafety
  import opened GovernanceHistory
  import opened EvidenceStability
  import opened Resubmission
  import opened Replay

  // Inputs

  ghost predicate MutationIdsDiffer(events: seq<RunEvent>) {
    forall i, j, id | 0 <= i < |events| && 0 <= j < |events|
      :: ProposesMutation(events[i], id) && ProposesMutation(events[j], id) ==> i == j
  }

  /** Each commit carries the time of its own event: the clock said one thing within the call. */
  predicate CommitTimesAgree(events: seq<RunEvent>) {
    forall e :: e in events && e.payload.MutationCommittedEvent? ==> e.payload.mutation.committedAt == e.occurredAt
  }

  ghost predicate IsReplayable(env: Env, log: seq<RunEvent>) {
    AllJustified(env, log) && AllWellFormed(log) && IsNumbered(log)
  }

  /** The commit says, at the time of its event, what this command asks for. */
  predicate CommitsTo(e: RunEvent, c: MutationCommandRequest)
    requires e.payload.MutationCommittedEvent?
  {
    var m := e.payload.mutation;
    && m.committedAt == e.occurredAt && m.commandId == c.commandId && m.stateRef == c.stateRef
    && m.previousRevision == c.expectedRevision && m.operation == c.operation && m.provenance == c.provenance
    && m.metadata == c.metadata
  }

  /** A commit is repeatable when the first proposal that carries its mutation id asks for it. */
  predicate IsRepeatable(events: seq<RunEvent>, i: nat)
    requires i < |events|
  {
    events[i].payload.MutationCommittedEvent? ==>
      var proposal := MutationProposalBefore(events, 0, events[i], events[i].payload.mutation.mutationId);
      proposal.Some? && CommitsTo(events[i], proposal.value)
  }

  predicate AreRepeatable(events: seq<RunEvent>, n: nat, k: nat) {
    forall i :: n <= i < k && i < |events| ==> IsRepeatable(events, i)
  }

  /** The proposal replay finds is the first one in front of the event that carries the id. */
  lemma {:induction false} ProposalFoundAt(events: seq<RunEvent>, n: nat, i: nat, id: string) returns (j: nat)
    requires IsNumbered(events) && n <= i < |events| && MutationProposalBefore(events, n, events[i], id).Some?
    ensures n <= j < i && ProposesMutation(events[j], id)
    ensures MutationProposalBefore(events, n, events[i], id) == Some(events[j].payload.proposal.mutation)
    ensures forall m :: n <= m < j ==> !ProposesMutation(events[m], id)
    decreases i - n
  {
    hide ProposesMutation;
    if ProposesMutation(events[n], id) {
      j := n;
    } else {
      j := ProposalFoundAt(events, n + 1, i, id);
    }
  }

  /** The first proposal of this id from n on is the one replay finds. */
  lemma {:induction false} FirstProposalIsFound(events: seq<RunEvent>, n: nat, j: nat, i: nat, id: string)
    requires IsNumbered(events) && n <= j < i < |events| && ProposesMutation(events[j], id)
    requires forall m :: n <= m < j ==> !ProposesMutation(events[m], id)
    ensures MutationProposalBefore(events, n, events[i], id) == Some(events[j].payload.proposal.mutation)
    decreases j - n
  {
    hide ProposesMutation;
    if n < j {
      FirstProposalIsFound(events, n + 1, j, i, id);
    }
  }

  /** The kernel finds the first proposal of a command, too. */
  lemma {:induction false} KernelFindsFirst(log: seq<RunEvent>, j: nat, n: nat, c: MutationCommandRequest)
    requires j < n <= |log| && WellFormed(log[j]) && log[j].payload == ProposalReceived(MutationProposal(c))
    requires forall m :: 0 <= m < j ==> !ProposesMutation(log[m], c.mutationId)
    ensures ProposalFor(Fold(log[..n]), c) == Some(MutationProposal(c))
  {
    hide WellFormed, Fold;
    var p := (p: Proposal) => p.MutationProposal? && p.mutation.commandId == c.commandId
      && p.mutation.mutationId == c.mutationId;
    var f, e := Fold(log[..n - 1]), log[n - 1];
    assert log[..n] == log[..n - 1] + [e];
    FoldAppend(log[..n - 1], e);
    if j == n - 1 {
      NoneProposedBefore(log, j, c);
      assert ProposalFor(f, c) == Find(f.proposals, p);
      FindAppend(f.proposals, MutationProposal(c), p);
      assert ProposalFor(Fold(log[..n]), c) == Find(f.proposals + [MutationProposal(c)], p);
    } else {
      KernelFindsFirst(log, j, n - 1, c);
      assert ProposalFor(f, c) == Find(f.proposals, p);
      if WellFormed(e) && e.payload.ProposalReceived? {
        FindAppend(f.proposals, e.payload.proposal, p);
        assert ProposalFor(Fold(log[..n]), c) == Find(f.proposals + [e.payload.proposal], p);
      }
    }
  }

  lemma NoneProposedBefore(log: seq<RunEvent>, j: nat, c: MutationCommandRequest)
    requires j <= |log| && forall m :: 0 <= m < j ==> !ProposesMutation(log[m], c.mutationId)
    ensures ProposalFor(Fold(log[..j]), c).None?
  {
    hide Fold;
    FoundWasProposed(log, j, c);
  }

  lemma FoundWasProposed(log: seq<RunEvent>, j: nat, c: MutationCommandRequest)
    requires j <= |log|
    ensures ProposalFor(Fold(log[..j]), c).Some? ==> exists m :: 0 <= m < j && ProposesMutation(log[m], c.mutationId)
  {
    hide WellFormed, Fold;
    var found := ProposalFor(Fold(log[..j]), c);
    if found.Some? {
      var m := RecordedBefore(log, j, ProposalReceived(found.value));
      assert ProposesMutation(log[m], c.mutationId);
    }
  }

  /** Replay repeats an event as this call. */
  predicate Repeats(env: Env, log: seq<RunEvent>, i: nat, call: Call)
    requires i < |log|
  {
    var e := log[i];
    && Admit(env, Fold(log[..i]), call, e.eventId, e.occurredAt).None?
    && e.payload == PayloadOf(env, Fold(log[..i]), call, e.occurredAt)
  }

  /** The command replay finds for a repeatable commit passes every guard the committed one passed. */
  lemma RepeatableCommitRepeats(env: Env, log: seq<RunEvent>, i: nat, c: MutationCommandRequest)
    requires IsReplayable(env, log) && i < |log| && log[i].payload.MutationCommittedEvent?
    requires MutationProposalBefore(log, 0, log[i], log[i].payload.mutation.mutationId) == Some(c)
    requires CommitsTo(log[i], c)
    ensures Repeats(env, log, i, CommitMutation(c))
  {
    hide WellFormed, Fold, ValidMutationCommand, CheckCommandHash, ProposalFor, CommitsTo, Repeats, Admit, PayloadOf,
      AllJustified, AllWellFormed, MutationProposalBefore, IsGenerated;
    assert !IsGenerated(log[i].payload) by { CommitIsNotGenerated(log[i].payload); }
    var j := ProposalFoundAt(log, 0, i, log[i].payload.mutation.mutationId);
    assert log[j].payload == ProposalReceived(MutationProposal(c));
    ProposedWasAdmitted(env, log, j, c);
    KernelFindsFirst(log, j, i, c);
    var call, at := CallBehind(env, log, i);
    OnlyCommitsCommit(env, Fold(log[..i]), call, at);
    SameCommitRepeats(env, log, i, call.command, at, c);
  }

  lemma CommitIsNotGenerated(p: Payload)
    requires p.MutationCommittedEvent?
    ensures !IsGenerated(p)
  {
  }

  lemma OnlyCommitsCommit(env: Env, f: Fields, call: Call, at: Timestamp)
    requires PayloadOf(env, f, call, at).MutationCommittedEvent?
    ensures call.CommitMutation?
  {
  }

  lemma SameCommitRepeats(env: Env, log: seq<RunEvent>, i: nat, a: MutationCommandRequest, at: Timestamp,
                          c: MutationCommandRequest)
    requires i < |log| && log[i].payload.MutationCommittedEvent? && CommitsTo(log[i], c)
    requires c.mutationId == log[i].payload.mutation.mutationId
    requires Admit(env, Fold(log[..i]), CommitMutation(a), log[i].eventId, at).None?
    requires log[i].payload == PayloadOf(env, Fold(log[..i]), CommitMutation(a), at)
    requires ValidMutationCommand(c) && c.runId == env.runId && CheckCommandHash(env, c).None?
    requires ProposalFor(Fold(log[..i]), c) == Some(MutationProposal(c))
    ensures Repeats(env, log, i, CommitMutation(c))
  {
    hide Fold, ValidMutationCommand, CheckCommandHash, ProposalFor, ValidTime;
  }

  lemma ProposedWasAdmitted(env: Env, log: seq<RunEvent>, j: nat, c: MutationCommandRequest)
    requires AllJustified(env, log) && AllWellFormed(log) && j < |log|
    requires log[j].payload == ProposalReceived(MutationProposal(c))
    ensures WellFormed(log[j]) && ValidMutationCommand(c) && c.runId == env.runId && CheckCommandHash(env, c).None?
  {
    hide Fold, ValidMutationCommand, AllJustified;
    var call, at := CallBehind(env, log, j);
  }

  /** And a command that repeats the commit asks for it. */
  lemma RepeatedCommitIsRepeatable(env: Env, log: seq<RunEvent>, i: nat, c: MutationCommandRequest)
    requires i < |log| && log[i].payload.MutationCommittedEvent? && Repeats(env, log, i, CommitMutation(c))
    ensures CommitsTo(log[i], c)
  {
    hide Fold, ValidMutationCommand, CheckProposed, CheckCommandHash;
  }

  /** Only a commit looks at the clock before its event is made. */
  lemma AdmissionIgnoresClock(env: Env, f: Fields, call: Call, eventId: string, a: Timestamp, b: Timestamp)
    requires !call.CommitMutation?
    ensures Admit(env, f, call, eventId, a) == Admit(env, f, call, eventId, b)
    ensures PayloadOf(env, f, call, a) == PayloadOf(env, f, call, b)
  {
    hide ValidCall;
  }

  /** Recording a call under the envelope of the event after this log gives that event exactly when it repeats it. */
  lemma RecordAgain(env: Env, log: seq<RunEvent>, i: nat, call: Call, at: Timestamp)
    requires i < |log| && Envelope(env, log[..i], log[i]) && WellFormed(log[i])
    ensures Record(env, log[..i], call, OptionsFrom(log[i]), at, at) == Outcome(log[..i + 1], Ok(log[i]))
       <==> Repeats(env, log, i, call)
  {
    hide Fold, WellFormed, Envelope, Admit, PayloadOf, AppendEvent;
    var e := log[i];
    assert log[..i + 1] == log[..i] + [e];
    assert WithDefaultCausation(Fold(log[..i]), OptionsFrom(e)) == OptionsFrom(e);
    var payload := PayloadOf(env, Fold(log[..i]), call, e.occurredAt);
    AppendedEnvelope(env, log[..i], payload, OptionsFrom(e), at);
    AppendAgain(env, log[..i], e, at);
  }

  /** Replaying one recorded event into the log before it gives the log after it exactly when it is repeatable. */
  lemma StepAgain(env: Env, log: seq<RunEvent>, i: nat, at: Timestamp)
    requires IsReplayable(env, log) && i < |log| && !IsGenerated(log[i].payload)
    ensures AfterStep(env, log, log[i], log[..i], at) == Some(log[..i + 1]) <==> IsRepeatable(log, i)
  {
    hide Fold, WellFormed, Envelope, AppendEvent, Admit, PayloadOf, Record, IsRecorded, IsCandidate, IsProof,
      IsMismatch, IsDecision, IsRelease, CommitsTo, Repeats;
    var e := log[i];
    assert Justified(env, log, i);
    var step := StepOf(log, e);
    if step.Repeat? {
      RecordAgain(env, log, i, step.call, at);
      RecordedLog(env, log, i, step.call, at);
      if e.payload.MutationCommittedEvent? {
        if CommitsTo(e, step.call.command) {
          RepeatableCommitRepeats(env, log, i, step.call.command);
        } else if Repeats(env, log, i, step.call) {
          RepeatedCommitIsRepeatable(env, log, i, step.call.command);
        }
      } else {
        InputRepeats(env, log, i);
      }
    }
  }

  /** What recording reports is what it added. */
  lemma RecordedLog(env: Env, log: seq<RunEvent>, i: nat, call: Call, at: Timestamp)
    requires i < |log|
    ensures var out := Record(env, log[..i], call, OptionsFrom(log[i]), at, at);
      out.result.Ok? && out.log == log[..i + 1] ==> out.result == Ok(log[i])
  {
    hide Fold, WellFormed, Envelope, Admit, PayloadOf, AppendEvent, NextEventId;
    var f, o := Fold(log[..i]), OptionsFrom(log[i]);
    var payload := PayloadOf(env, f, call, o.occurredAt.GetOr(at));
    if Admit(env, f, call, log[i].eventId, o.occurredAt.GetOr(at)).None? {
      AppendedEnvelope(env, log[..i], payload, WithDefaultCausation(f, o), at);
    }
  }

  /** An input other than a commit is repeated as the call that recorded it. */
  lemma InputRepeats(env: Env, log: seq<RunEvent>, i: nat)
    requires IsReplayable(env, log) && i < |log|
    requires !IsGenerated(log[i].payload) && !log[i].payload.MutationCommittedEvent?
    ensures StepOf(log, log[i]).Repeat? && Repeats(env, log, i, StepOf(log, log[i]).call)
  {
    hide Fold, ValidCall, AllWellFormed, Admit, AllJustified;
    var call, at := CallBehind(env, log, i);
    assert StepOf(log, log[i]) == Repeat(call);
    AdmissionIgnoresClock(env, Fold(log[..i]), call, log[i].eventId, at, log[i].occurredAt);
  }

  /** Generated events come after a candidate. */
  lemma NothingGeneratedBefore(env: Env, log: seq<RunEvent>, k: nat, i: nat)
    requires AllJustified(env, log) && i < k <= |log|
    requires forall j :: 0 <= j < k ==> !Replay.IsFinalCandidate(log[j])
    ensures !IsGenerated(log[i].payload)
  {
    hide Fold, WellFormed, Envelope, EvaluateProof, DecideRelease, Admit;
    assert Justified(env, log, i);
  }

  lemma {:induction false} InputsAgain(env: Env, log: seq<RunEvent>, n: nat, k: nat, at: Timestamp)
    requires IsReplayable(env, log) && n <= k < |log|
    requires forall j :: 0 <= j < k ==> !Replay.IsFinalCandidate(log[j])
    ensures ReplayInputs(env, log, n, log[k], log[..n], at) == Some(log[..k]) <==> AreRepeatable(log, n, k)
    decreases k - n
  {
    hide AfterStep, Replay.IsFinalCandidate, AllJustified, AllWellFormed, IsRepeatable;
    if n < k {
      NothingGeneratedBefore(env, log, k, n);
      StepAgain(env, log, n, at);
      InputsAgain(env, log, n + 1, k, at);
      var next := AfterStep(env, log, log[n], log[..n], at);
      if next.Some? {
        StepAdds(env, log, n, log[..n], at);
        InputsAdd(env, log, n + 1, k, next.value, at);
        if ReplayInputs(env, log, n, log[k], log[..n], at) == Some(log[..k]) {
          assert next.value == log[..k][..n + 1] == log[..n + 1];
        }
      }
    }
  }

  /** A step adds one event. */
  lemma StepAdds(env: Env, events: seq<RunEvent>, n: nat, log: seq<RunEvent>, at: Timestamp)
    requires n < |events| && !Replay.IsFinalCandidate(events[n])
    ensures var next := AfterStep(env, events, events[n], log, at);
      next.Some? ==> log <= next.value && |next.value| == |log| + 1
  {
    hide Fold, WellFormed, Envelope, Admit, PayloadOf, AppendEvent, NextEventId;
    var step := StepOf(events, events[n]);
    if step.Repeat? {
      var f, o := Fold(log), OptionsFrom(events[n]);
      if Admit(env, f, step.call, events[n].eventId, o.occurredAt.GetOr(at)).None? {
        var payload := PayloadOf(env, f, step.call, o.occurredAt.GetOr(at));
        AppendedEnvelope(env, log, payload, WithDefaultCausation(f, o), at);
      }
    }
  }

  /** The inputs replayed in front of a candidate are as many as there are stored. */
  lemma {:induction false} InputsAdd(env: Env, events: seq<RunEvent>, n: nat, k: nat, log: seq<RunEvent>, at: Timestamp)
    requires IsNumbered(events) && n <= k < |events|
    requires forall j :: 0 <= j < k ==> !Replay.IsFinalCandidate(events[j])
    ensures var r := ReplayInputs(env, events, n, events[k], log, at);
      r.Some? ==> log <= r.value && |r.value| == |log| + k - n
    decreases k - n
  {
    hide AfterStep, Replay.IsFinalCandidate;
    if n < k {
      StepAdds(env, events, n, log, at);
      var next := AfterStep(env, events, events[n], log, at);
      if next.Some? {
        InputsAdd(env, events, n + 1, k, next.value, at);
      }
    }
  }

  // The parts of a completed submission

  /** The log goes on from index k with the events of a completed submission. */
  predicate SubmittedAt(log: seq<RunEvent>, k: nat, c: FinalCandidate, r: FinalResult) {
    && k + |Emitted(r)| <= |log| && log[k..k + |Emitted(r)|] == Emitted(r) && IsReport(c, r)
  }

  lemma EmittedAt(log: seq<RunEvent>, k: nat, c: FinalCandidate, r: FinalResult)
    requires SubmittedAt(log, k, c, r)
    ensures var n := |r.mismatchEvents|;
      && k + 2 + n < |log| && log[k] == r.proposalEvent && log[k + 1] == r.proofEvent
      && log[k + 2..k + 2 + n] == r.mismatchEvents && log[k + 2 + n] == r.releaseEvent
      && (r.finalReleasedEvent.Some? ==> k + 3 + n < |log| && log[k + 3 + n] == r.finalReleasedEvent.value)
  {
    var n, all := |r.mismatchEvents|, Emitted(r);
    assert forall i :: 0 <= i < |all| ==> log[k + i] == all[i];
    assert all[0] == r.proposalEvent && all[1] == r.proofEvent && all[2..2 + n] == r.mismatchEvents;
    assert all[2 + n] == r.releaseEvent;
    assert log[k + 2..k + 2 + n] == all[2..2 + n];
  }

  lemma FirstAfterAt(log: seq<RunEvent>, after: nat, i: nat, isType: Payload -> bool)
    requires IsNumbered(log) && after < i < |log| && isType(log[i].payload)
    requires forall j :: after < j < i ==> !isType(log[j].payload)
    ensures FirstEventAfter(log, log[after], isType) == Some(log[i])
  {
    var p := (e: RunEvent) => isType(e.payload) && e.sequence > log[after].sequence;
    FindFirst(log, p, i);
    assert Find(log, p) == Some(log[i]);
  }

  lemma NumbersOfParts(log: seq<RunEvent>, first: nat, last: nat)
    requires IsNumbered(log) && first < last < |log|
    ensures forall e :: e in log[..first + 1] ==> e.sequence <= first + 1
    ensures forall e :: e in log[last..] ==> e.sequence >= last + 1
    ensures forall e :: e in log[first + 1..last] ==> first + 1 < e.sequence < last + 1
  {
    forall e | e in log[last..]
      ensures e.sequence >= last + 1
    {
      var i :| 0 <= i < |log[last..]| && log[last..][i] == e;
      assert e == log[last + i];
    }
    forall e | e in log[first + 1..last]
      ensures first + 1 < e.sequence < last + 1
    {
      var i :| 0 <= i < last - first - 1 && log[first + 1..last][i] == e;
      assert e == log[first + 1 + i];
    }
  }

  lemma MismatchesAreBetween(log: seq<RunEvent>, first: nat, last: nat)
    requires IsNumbered(log) && first < last < |log|
    requires forall j :: first < j < last ==> log[j].payload.MismatchDetected?
    ensures MismatchesBetween(log, log[first], log[last]) == log[first + 1..last]
  {
    hide Filter;
    assert log[first].sequence == first + 1 && log[last].sequence == last + 1;
    var p := (e: RunEvent) => e.payload.MismatchDetected? && log[first].sequence < e.sequence < log[last].sequence;
    var a, m, b := log[..first + 1], log[first + 1..last], log[last..];
    NumbersOfParts(log, first, last);
    assert log == a + (m + b);
    FilterSplit(a, m + b, p);
    FilterSplit(m, b, p);
    FilterKeepsNone(a, p);
    FilterKeepsNone(b, p);
    FilterKeepsAll(m, p);
    assert MismatchesBetween(log, log[first], log[last]) == Filter(log, p);
  }

  lemma {:induction false} LastCandidateAt(log: seq<RunEvent>, k: nat)
    requires k < |log| && Replay.IsFinalCandidate(log[k])
    requires forall i :: k < i < |log| ==> !Replay.IsFinalCandidate(log[i])
    ensures LastFinalCandidate(log) == Some(log[k])
  {
    hide Replay.IsFinalCandidate;
    if k < |log| - 1 {
      LastCandidateAt(log[..|log| - 1], k);
    }
  }

  /** What replay looks up in the stored events is what the submission reported. */
  lemma StoredIsReported(log: seq<RunEvent>, k: nat, c: FinalCandidate, r: FinalResult)
    requires IsNumbered(log) && SubmittedAt(log, k, c, r)
    ensures FirstEventAfter(log, r.proposalEvent, IsProofGenerated()) == Some(r.proofEvent)
    ensures FirstEventAfter(log, r.proofEvent, IsReleaseDecided()) == Some(r.releaseEvent)
    ensures r.proofEvent.payload.ProofGenerated?
    ensures exists id: Option<string> :: && StoredOptions(log, r.proposalEvent, r.proofEvent, r.releaseEvent)
                                            == RecordedOptions(r, id)
              && (r.finalReleasedEvent.Some? ==> id == Some(r.finalReleasedEvent.value.eventId))
  {
    hide IsNumbered, SubmittedAt, Emitted, FirstEventAfter, MismatchesBetween, Map;
    EmittedAt(log, k, c, r);
    assert IsReport(c, r) by { Reported(log, k, c, r); }
    var n := |r.mismatchEvents|;
    forall j | k + 1 < j < k + 2 + n
      ensures log[j].payload.MismatchDetected?
    {
      assert log[j] == log[k + 2..k + 2 + n][j - k - 2];
    }
    FirstAfterAt(log, k, k + 1, IsProofGenerated());
    FirstAfterAt(log, k + 1, k + 2 + n, IsReleaseDecided());
    MismatchesAreBetween(log, k + 1, k + 2 + n);
    if r.finalReleasedEvent.Some? {
      FirstAfterAt(log, k + 2 + n, k + 3 + n, IsFinalReleased());
    }
    var released := FirstEventAfter(log, r.releaseEvent, IsFinalReleased());
    var id := if released.Some? then Some(released.value.eventId) else None;
    assert StoredOptions(log, r.proposalEvent, r.proofEvent, r.releaseEvent) == RecordedOptions(r, id);
  }

  lemma Reported(log: seq<RunEvent>, k: nat, c: FinalCandidate, r: FinalResult)
    requires SubmittedAt(log, k, c, r)
    ensures IsReport(c, r)
  {
  }

  lemma NothingDiverges(log: seq<RunEvent>, n: nat, proof: ProofObject, decision: ReleaseDecision)
    requires n <= |log|
    ensures DivergenceNotes(log, log[..n], proof, decision, proof, decision) == []
  {
    assert Slice(log, |log[..n]|) == log[..n];
  }

  lemma SubmittedIn(env: Env, log: seq<RunEvent>, k: nat, c: FinalCandidate, o: FinalOptions, clock: Timestamp)
    requires k <= |log|
    requires var out := SubmitFinal(env, log[..k], c, o, clock);
      out.result.Ok? && out.log <= log
    ensures SubmittedAt(log, k, c, SubmitFinal(env, log[..k], c, o, clock).result.value)
  {
    hide SubmitFinal, Emitted, IsReport;
    var out := SubmitFinal(env, log[..k], c, o, clock);
    SubmissionReports(env, log[..k], c, o, clock);
    var r := out.result.value;
    assert out.log == log[..k] + Emitted(r);
    assert log[k..k + |Emitted(r)|] == out.log[k..];
  }

  /** Replay's final step repeats the stored submission exactly when it was given its inputs back. */
  lemma FinalStepAgain(env: Env, log: seq<RunEvent>, k: nat, c: FinalCandidate, o: FinalOptions, clock: Timestamp,
                       r: FinalResult)
    requires k < |log| && SubmittedAt(log, k, c, r) && IsNumbered(log)
    requires forall j :: 0 <= j < k ==> !Replay.IsFinalCandidate(log[j])
    requires var out := SubmitFinal(env, log[..k], c, o, clock);
      out.result == Ok(r) && out.log <= log
    ensures r.proposalEvent == log[k] && Replay.IsFinalCandidate(log[k])
    ensures r.proofEvent.payload.ProofGenerated? && r.releaseEvent.payload.ReleaseDecided?
    ensures ReplayFinal(env, log, log[k], r.proofEvent, r.releaseEvent)
         == ReplayPassed(env.runId, SubmitFinal(env, log[..k], c, o, clock).log, r.decision, r.decision)
       <==> ReplayInputs(env, log, 0, log[k], [], r.proof.generatedAt) == Some(log[..k])
  {
    hide SubmitFinal, FirstEventAfter, ReplayInputs, RecordedOptions, StoredOptions, DivergenceNotes, IsNumbered,
      SubmittedAt, Emitted, Replay.IsFinalCandidate;
    EmittedAt(log, k, c, r);
    assert IsReport(c, r) by { Reported(log, k, c, r); }
    StoredIsReported(log, k, c, r);
    assert Replay.IsFinalCandidate(log[k]) by { IsCandidateEvent(log[k], c); }
    var out, at := SubmitFinal(env, log[..k], c, o, clock), r.proof.generatedAt;
    var id :| StoredOptions(log, r.proposalEvent, r.proofEvent, r.releaseEvent) == RecordedOptions(r, id)
      && (r.finalReleasedEvent.Some? ==> id == Some(r.finalReleasedEvent.value.eventId));
    SubmitAgain(env, log[..k], c, o, clock, id, at);
    assert log[..|out.log|] == out.log;
    NothingDiverges(log, |out.log|, r.proof, r.decision);
    InputsAdd(env, log, 0, k, [], at);
    SubmitGenerates(env, log[..k], c, o, clock);
    var inputs := ReplayInputs(env, log, 0, log[k], [], at);
    if inputs.Some? {
      var again := SubmitFinal(env, inputs.value, c, RecordedOptions(r, id), at);
      SubmitGenerates(env, inputs.value, c, RecordedOptions(r, id), at);
      if again.log == out.log {
        assert inputs.value == out.log[..k] == log[..k];
      }
    }
  }

  lemma IsCandidateEvent(e: RunEvent, c: FinalCandidate)
    requires e.payload == ProposalReceived(FinalProposal(c))
    ensures Replay.IsFinalCandidate(e)
  {
  }

  /** A log that goes on from a completed submission without another candidate replays to it. */
  lemma FinalAgain(env: Env, log: seq<RunEvent>, k: nat, c: FinalCandidate, o: FinalOptions, clock: Timestamp)
    requires IsReplayable(env, log) && k < |log|
    requires forall i :: 0 <= i < |log| && Replay.IsFinalCandidate(log[i]) ==> i == k
    requires var out := SubmitFinal(env, log[..k], c, o, clock);
      out.result.Ok? && out.log <= log
    ensures ReplayOrdered(env.hash, log, Some(env.runId)) == Reproduced(env, SubmitFinal(env, log[..k], c, o, clock))
       <==> AreRepeatable(log, 0, k)
  {
    hide SubmitFinal, FirstEventAfter, ReplayInputs, IsNumbered, AllWellFormed, AllJustified, SubmittedAt, ReplayFinal,
      IsRepeatable;
    var r := SubmitFinal(env, log[..k], c, o, clock).result.value;
    SubmittedIn(env, log, k, c, o, clock);
    StoredIsReported(log, k, c, r);
    InputsAgain(env, log, 0, k, r.proof.generatedAt);
    assert log[..0] == [];
    FinalStepAgain(env, log, k, c, o, clock, r);
    LastCandidateAt(log, k);
  }

  /** The replay that repeats this submission. */
  function Reproduced(env: Env, out: Outcome<FinalResult>): ReplayResult
    requires out.result.Ok?
  {
    ReplayPassed(env.runId, out.log, out.result.value.decision, out.result.value.decision)
  }

  /** Within each call the clock gives one reading. */
  predicate ClockIsSteady(requests: seq<Request>) {
    forall r :: r in requests && r.Recording? ==> r.clock == r.clockAgain
  }

  lemma RecordKeepsTimes(env: Env, log: seq<RunEvent>, call: Call, o: EventOptions, clock: Timestamp)
    requires CommitTimesAgree(log)
    ensures CommitTimesAgree(Record(env, log, call, o, clock, clock).log)
  {
    hide Fold, Admit, AppendEvent, Envelope, WellFormed, NextEventId;
    var f := Fold(log);
    var committedAt := o.occurredAt.GetOr(clock);
    var payload := PayloadOf(env, f, call, committedAt);
    var eventId := o.eventId.GetOr(NextEventId(env.runId, |log|, TypeName(payload)));
    AppendedEnvelope(env, log, payload, WithDefaultCausation(f, o.(eventId := Some(eventId))), clock);
  }

  lemma {:induction false} SteadyClockKeepsTimes(env: Env, requests: seq<Request>)
    requires ClockIsSteady(requests)
    ensures CommitTimesAgree(Run(env, requests))
  {
    hide Record, SubmitFinal;
    if requests != [] {
      var n := |requests| - 1;
      SteadyClockKeepsTimes(env, requests[..n]);
      var before := Run(env, requests[..n]);
      match requests[n] {
        case Recording(call, o, clock, again) =>
          assert requests[n] in requests;
          RecordKeepsTimes(env, before, call, o, clock);
        case Submission(c, o, clock) =>
          SubmitGenerates(env, before, c, o, clock);
          GeneratedKeepsTimes(before, SubmitFinal(env, before, c, o, clock).log);
      }
    }
  }

  lemma GeneratedKeepsTimes(log: seq<RunEvent>, longer: seq<RunEvent>)
    requires CommitTimesAgree(log) && Generates(log, longer)
    ensures CommitTimesAgree(longer)
  {
    forall e | e in longer && e.payload.MutationCommittedEvent?
      ensures e.payload.mutation.committedAt == e.occurredAt
    {
      var i :| 0 <= i < |longer| && longer[i] == e;
      assert i < |log| && log[i] == e;
    }
  }

  /** The run with a submission in the middle, and its log up to and including that submission. */
  lemma SubmissionInRun(env: Env, before: seq<Request>, c: FinalCandidate, o: FinalOptions, clock: Timestamp,
                        more: seq<Request>)
    ensures SubmitFinal(env, Run(env, before), c, o, clock).log <= Run(env, before + [Submission(c, o, clock)] + more)
    ensures Run(env, before) <= SubmitFinal(env, Run(env, before), c, o, clock).log
  {
    hide SubmitFinal, Record;
    var step := Submission(c, o, clock);
    RunExtends(env, before + [step], more);
    assert (before + [step])[..|before|] == before;
    SubmitGenerates(env, Run(env, before), c, o, clock);
  }

  /**
   * Replay is complete and faithful: whatever a kernel did before and after one completed submission, replaying its
   * log passes with the stored decision and gives back the log up to that submission, event for event, exactly when
   * every stored event fits its schema and every commit in front of it says what its proposal asked for.
   */
  lemma ReplayIsFaithful(env: Env, before: seq<Request>, c: FinalCandidate, o: FinalOptions, clock: Timestamp,
                         more: seq<Request>, localeCompare: (string, string) -> int, runId: Option<string>)
    requires runId == None || runId == Some(env.runId)
    requires SubmitFinal(env, Run(env, before), c, o, clock).result.Ok?
    requires var log := Run(env, before + [Submission(c, o, clock)] + more);
      forall i :: 0 <= i < |log| && Replay.IsFinalCandidate(log[i]) ==> i == |Run(env, before)|
    ensures var log := Run(env, before + [Submission(c, o, clock)] + more);
      var out := SubmitFinal(env, Run(env, before), c, o, clock);
      && out.log <= log
      && (Replay.Replay(env.hash, localeCompare, log, runId) == Reproduced(env, out)
          <==> AllWellFormed(log) && AreRepeatable(log, 0, |Run(env, before)|))
  {
    hide Run, SubmitFinal, ReplayFinal, FirstEventAfter, AllWellFormed, AllJustified, OrderAndValidate,
      LastFinalCandidate, Replay.IsFinalCandidate, IsRepeatable;
    var requests := before + [Submission(c, o, clock)] + more;
    var log, k := Run(env, requests), |Run(env, before)|;
    SubmissionInRun(env, before, c, o, clock, more);
    var out := SubmitFinal(env, Run(env, before), c, o, clock);
    assert out.log[..k] == Run(env, before) && log[..k] == out.log[..k];
    SubmissionIsSomething(env, Run(env, before), c, o, clock);
    RunJustified(env, requests);
    JustifiedIsChain(env, log);
    ChainIsNumbered(env, log);
    if AllWellFormed(log) {
      OrderRecoversChain(env.hash, localeCompare, log, runId, log, env.runId);
      FinalAgain(env, log, k, c, o, clock);
    }
  }

  /** With distinct mutation ids, a steady clock and no collision of commands every commit is repeatable. */
  lemma DistinctCommandsAreRepeatable(env: Env, requests: seq<Request>)
    requires ClockIsSteady(requests) && CommandsAreTold(env, requests)
    requires AllWellFormed(Run(env, requests)) && MutationIdsDiffer(Run(env, requests))
    ensures AreRepeatable(Run(env, requests), 0, |Run(env, requests)|)
  {
    hide Run, AllJustified, MutationIdsDiffer, CommitTimesAgree, CommandsAreTold, ClockIsSteady, IsRepeatable,
      WellFormed, Commits;
    var log := Run(env, requests);
    RunJustified(env, requests);
    SteadyClockKeepsTimes(env, requests);
    JustifiedIsChain(env, log);
    ChainIsNumbered(env, log);
    forall i | 0 <= i < |log|
      ensures IsRepeatable(log, i)
    {
      if log[i].payload.MutationCommittedEvent? {
        var k, j := CommitIsAsProposed(env, requests, i);
        DistinctCommitIsRepeatable(env, log, i, j, requests[k].call.command);
      } else {
        OthersAreRepeatable(log, i);
      }
    }
  }

  lemma OthersAreRepeatable(log: seq<RunEvent>, i: nat)
    requires i < |log| && !log[i].payload.MutationCommittedEvent?
    ensures IsRepeatable(log, i)
  {
  }

  lemma DistinctCommitIsRepeatable(env: Env, log: seq<RunEvent>, i: nat, j: nat, c: MutationCommandRequest)
    requires j < i < |log| && IsNumbered(log) && MutationIdsDiffer(log) && CommitTimesAgree(log)
    requires Commits(env, log, i, c) && log[j].payload == ProposalReceived(MutationProposal(c))
    ensures IsRepeatable(log, i)
  {
    hide WellFormed, Fold, Admit, MutationProposalBefore;
    assert ProposesMutation(log[j], c.mutationId);
    FirstProposalIsFound(log, 0, j, i, c.mutationId);
  }

  /** A commit whose clock moved on within the call is recorded, and never repeatable. */
  lemma SkewedCommitIsNotRepeatable(env: Env, log: seq<RunEvent>, c: MutationCommandRequest, o: EventOptions,
                                    clock: Timestamp, clockAgain: Timestamp)
    requires o.occurredAt.None? && clock != clockAgain
    requires Record(env, log, CommitMutation(c), o, clock, clockAgain).result.Ok?
    ensures var out := Record(env, log, CommitMutation(c), o, clock, clockAgain);
      out.log == log + [out.result.value] && !IsRepeatable(out.log, |log|)
  {
    hide Fold, Admit, WellFormed, Envelope, NextEventId, MutationProposalBefore, IsBlank;
    CommitIsRecorded(env, log, c, o, clock, clockAgain);
  }

  lemma CommitIsRecorded(env: Env, log: seq<RunEvent>, c: MutationCommandRequest, o: EventOptions, clock: Timestamp,
                         clockAgain: Timestamp)
    requires Record(env, log, CommitMutation(c), o, clock, clockAgain).result.Ok?
    ensures var out := Record(env, log, CommitMutation(c), o, clock, clockAgain);
      var e := out.result.value;
      && out.log == log + [e] && e.payload.MutationCommittedEvent?
      && e.payload.mutation.mutationId == c.mutationId && e.payload.mutation.commandId == c.commandId
      && e.payload.mutation.committedAt == o.occurredAt.GetOr(clock)
      && e.occurredAt == o.occurredAt.GetOr(clockAgain)
  {
    hide Fold, Admit, WellFormed, Envelope, NextEventId, IsBlank;
    var committedAt := o.occurredAt.GetOr(clock);
    var payload := PayloadOf(env, Fold(log), CommitMutation(c), committedAt);
    var eventId := o.eventId.GetOr(NextEventId(env.runId, |log|, TypeName(payload)));
    AppendedFields(env, log, payload, WithDefaultCausation(Fold(log), o.(eventId := Some(eventId))), clockAgain);
  }

  /** Nor is the commit of a command when another command was proposed under its mutation id first. */
  lemma ShadowedCommitIsNotRepeatable(env: Env, log: seq<RunEvent>, j: nat, c: MutationCommandRequest,
                                      o: EventOptions, clock: Timestamp, clockAgain: Timestamp)
    requires IsNumbered(log) && j < |log| && ProposesMutation(log[j], c.mutationId)
    requires forall m :: 0 <= m < j ==> !ProposesMutation(log[m], c.mutationId)
    requires log[j].payload.proposal.mutation.commandId != c.commandId
    requires Record(env, log, CommitMutation(c), o, clock, clockAgain).result.Ok?
    ensures var out := Record(env, log, CommitMutation(c), o, clock, clockAgain);
      out.log == log + [out.result.value] && !IsRepeatable(out.log, |log|)
  {
    hide Fold, Admit, WellFormed, NextEventId, MutationProposalBefore, IsBlank, Record, ProposesMutation;
    CommitIsRecorded(env, log, c, o, clock, clockAgain);
    CommitIsNumbered(env, log, c, o, clock, clockAgain);
    var events := Record(env, log, CommitMutation(c), o, clock, clockAgain).log;
    assert forall m :: 0 <= m < |log| ==> events[m] == log[m];
    FirstProposalIsFound(events, 0, j, |log|, c.mutationId);
  }

  lemma CommitIsNumbered(env: Env, log: seq<RunEvent>, c: MutationCommandRequest, o: EventOptions, clock: Timestamp,
                         clockAgain: Timestamp)
    requires Record(env, log, CommitMutation(c), o, clock, clockAgain).result.Ok?
    ensures Record(env, log, CommitMutation(c), o, clock, clockAgain).result.value.sequence == |log| + 1
  {
    hide Fold, Admit, WellFormed, NextEventId, IsBlank;
  }

  lemma SubmissionIsSomething(env: Env, log: seq<RunEvent>, c: FinalCandidate, o: FinalOptions, clock: Timestamp)
    requires SubmitFinal(env, log, c, o, clock).result.Ok?
    ensures |SubmitFinal(env, log, c, o, clock).log| > |log|
  {
    hide SubmitFinal, IsReport;
    SubmissionReports(env, log, c, o, clock);
  }

  lemma ChainIsNumbered(env: Env, log: seq<RunEvent>)
    requires IsChain(env.hash, env.runId, log)
    ensures IsNumbered(log)
    ensures log != [] ==> log[0].runId == env.runId
  {
    hide IsBlank, IsCaused;
  }

  // What replay refuses

  lemma {:induction false} RefusalStops(env: Env, events: seq<RunEvent>, n: nat, i: nat, candidate: RunEvent,
                                        log: seq<RunEvent>, at: Timestamp)
    requires IsNumbered(events) && n <= i < |events| && i + 1 < candidate.sequence
    requires StepOf(events, events[i]).Refuse?
    ensures ReplayInputs(env, events, n, candidate, log, at).None?
    decreases i - n
  {
    hide StepOf, Record;
    if n < i {
      var next := AfterStep(env, events, events[n], log, at);
      if next.Some? {
        RefusalStops(env, events, n + 1, i, candidate, next.value, at);
      }
    }
  }

  lemma {:induction false} LastCandidateIsLater(events: seq<RunEvent>, j: nat)
    requires IsNumbered(events) && j < |events| && Replay.IsFinalCandidate(events[j])
    ensures LastFinalCandidate(events).Some? && LastFinalCandidate(events).value.sequence >= j + 1
  {
    var n := |events| - 1;
    if !Replay.IsFinalCandidate(events[n]) {
      LastCandidateIsLater(events[..n], j);
    }
  }

  predicate IsConclusion(p: Payload) {
    p.ProofGenerated? || p.MismatchDetected? || p.ReleaseDecided? || p.FinalReleased?
  }

  /** No stream with a proof, mismatch, decision or release in front of its last candidate passes. */
  lemma ConclusionBeforeCandidateFails(hash: Hasher, localeCompare: (string, string) -> int, events: seq<RunEvent>,
                                       runId: Option<string>, i: nat, j: nat)
    requires i < j < |events| && IsConclusion(events[i].payload) && Replay.IsFinalCandidate(events[j])
    ensures Replay.Replay(hash, localeCompare, events, runId).ReplayFailed?
  {
    hide IsBlank, WellFormed, FirstEventAfter, SubmitFinal, StoredOptions, DivergenceNotes, Sort, CheckNextEvent;
    var ordered := OrderAndValidate(hash, localeCompare, events, runId);
    if IsNumbered(events) && ordered.Ok? && ordered.value != [] {
      OrderOfNumbered(hash, localeCompare, events, runId);
      LastCandidateIsLater(events, j);
      var candidate := LastFinalCandidate(events).value;
      var proofEvent := FirstEventAfter(events, candidate, IsProofGenerated());
      if proofEvent.Some? {
        var run := ExpectedRun(events, runId).value;
        RefusalStops(Env(run, hash), events, 0, i, candidate, [], proofEvent.value.payload.proof.generatedAt);
      }
    }
  }

  /** Inputs that skip a candidate are fewer than there are stored. */
  lemma {:induction false} SkippingAddsLess(env: Env, events: seq<RunEvent>, n: nat, i: nat, candidate: RunEvent,
                                            log: seq<RunEvent>, at: Timestamp)
    requires IsNumbered(events) && n <= i && i + 1 < candidate.sequence <= |events|
    requires Replay.IsFinalCandidate(events[i])
    ensures var r := ReplayInputs(env, events, n, candidate, log, at);
      r.Some? ==> |r.value| + n + 2 <= |log| + candidate.sequence
    decreases i - n
  {
    hide Replay.IsFinalCandidate, AfterStep;
    var next := AfterStep(env, events, events[n], log, at);
    StepAddsOneAtMost(env, events, events[n], log, at);
    if next.Some? {
      if n < i {
        SkippingAddsLess(env, events, n + 1, i, candidate, next.value, at);
      } else {
        assert next.value == log by { CandidateIsSkipped(env, events, events[n], log, at); }
        InputsAreFew(env, events, n + 1, candidate, log, at);
      }
    }
  }

  lemma CandidateIsSkipped(env: Env, events: seq<RunEvent>, e: RunEvent, log: seq<RunEvent>, at: Timestamp)
    requires Replay.IsFinalCandidate(e)
    ensures AfterStep(env, events, e, log, at) == Some(log)
  {
  }

  lemma StepAddsOneAtMost(env: Env, events: seq<RunEvent>, e: RunEvent, log: seq<RunEvent>, at: Timestamp)
    ensures var next := AfterStep(env, events, e, log, at);
      next.Some? ==> |next.value| <= |log| + 1
  {
    hide Fold, WellFormed, Envelope, Admit, PayloadOf, AppendEvent, NextEventId;
    var step := StepOf(events, e);
    if step.Repeat? {
      var f, o := Fold(log), OptionsFrom(e);
      var committedAt := o.occurredAt.GetOr(at);
      if Admit(env, f, step.call, e.eventId, committedAt).None? {
        AppendedEnvelope(env, log, PayloadOf(env, f, step.call, committedAt), WithDefaultCausation(f, o), at);
      }
    }
  }

  lemma {:induction false} InputsAreFew(env: Env, events: seq<RunEvent>, n: nat, candidate: RunEvent,
                                        log: seq<RunEvent>, at: Timestamp)
    requires IsNumbered(events) && n < candidate.sequence <= |events|
    ensures var r := ReplayInputs(env, events, n, candidate, log, at);
      r.Some? ==> |r.value| + n + 1 <= |log| + candidate.sequence
    decreases |events| - n
  {
    hide AfterStep;
    if n + 1 < candidate.sequence {
      StepAddsOneAtMost(env, events, events[n], log, at);
      var next := AfterStep(env, events, events[n], log, at);
      if next.Some? {
        InputsAreFew(env, events, n + 1, candidate, next.value, at);
      }
    }
  }

  lemma OnlyProofsAreNamedSo(p: Payload)
    requires TypeName(p) == "ProofGenerated"
    ensures p.ProofGenerated?
  {
  }

  /** Behind fewer inputs than there are stored, the replayed proof stands where the stream has none. */
  lemma FewerInputsFail(env: Env, events: seq<RunEvent>, candidate: RunEvent, proofEvent: RunEvent,
                        releaseEvent: RunEvent)
    requires IsNumbered(events) && 1 <= candidate.sequence <= |events| && events[candidate.sequence - 1] == candidate
    requires Replay.IsFinalCandidate(candidate)
    requires proofEvent.payload.ProofGenerated? && releaseEvent.payload.ReleaseDecided?
    requires var inputs := ReplayInputs(env, events, 0, candidate, [], proofEvent.payload.proof.generatedAt);
      inputs.Some? ==> |inputs.value| + 2 <= candidate.sequence
    ensures ReplayFinal(env, events, candidate, proofEvent, releaseEvent).ReplayFailed?
  {
    hide SubmitFinal, StoredOptions, IsNumbered, Types, MismatchTypes, StepOf, AfterStep, ReplayInputs, Emitted,
      IsReport, SameStatus, WellFormed;
    var at := proofEvent.payload.proof.generatedAt;
    var inputs := ReplayInputs(env, events, 0, candidate, [], at);
    if ReplayFinal(env, events, candidate, proofEvent, releaseEvent).ReplayPassed? {
      var c, o := candidate.payload.proposal.candidate, StoredOptions(events, candidate, proofEvent, releaseEvent);
      var out := SubmitFinal(env, inputs.value, c, o, at);
      SubmissionReports(env, inputs.value, c, o, at);
      var m := |inputs.value| + 1;
      ProofIsSecond(c, inputs.value, out.result.value);
      assert Types(Slice(events, |out.log|)) == Types(out.log);
      SameTypesAt(events, out.log, m);
      OnlyProofsAreNamedSo(events[m].payload);
      if m + 1 < candidate.sequence {
        RefusalStops(env, events, 0, m, candidate, [], at) by { ProofIsRefused(events, events[m]); }
      }
    }
  }

  lemma ProofIsRefused(events: seq<RunEvent>, e: RunEvent)
    requires e.payload.ProofGenerated?
    ensures StepOf(events, e).Refuse?
  {
  }

  lemma ProofIsSecond(c: FinalCandidate, log: seq<RunEvent>, r: FinalResult)
    requires IsReport(c, r)
    ensures |log + Emitted(r)| > |log| + 1
    ensures (log + Emitted(r))[|log| + 1].payload.ProofGenerated?
  {
  }

  lemma SameTypesAt(a: seq<RunEvent>, b: seq<RunEvent>, m: nat)
    requires Types(Slice(a, |b|)) == Types(b) && m < |b|
    ensures m < |a| && TypeName(a[m].payload) == TypeName(b[m].payload)
  {
    assert |Types(Slice(a, |b|))| == |b|;
    assert Types(Slice(a, |b|))[m] == Types(b)[m];
  }

  /** No stream with two final candidates ever passes, whatever became of the submissions. */
  lemma TwoCandidatesFail(hash: Hasher, localeCompare: (string, string) -> int, events: seq<RunEvent>,
                          runId: Option<string>, i: nat, j: nat)
    requires i < j < |events| && Replay.IsFinalCandidate(events[i]) && Replay.IsFinalCandidate(events[j])
    ensures Replay.Replay(hash, localeCompare, events, runId).ReplayFailed?
  {
    hide IsBlank, WellFormed, FirstEventAfter, ReplayFinal, Sort, CheckNextEvent, Replay.IsFinalCandidate, AfterStep,
      OrderAndValidate, AllWellFormed;
    var ordered := OrderAndValidate(hash, localeCompare, events, runId);
    if IsNumbered(events) && ordered.Ok? && ordered.value != [] {
      OrderOfNumbered(hash, localeCompare, events, runId);
      LastCandidateIsLater(events, j);
      LastCandidateIsThere(events);
      var candidate := LastFinalCandidate(events).value;
      var proofEvent := FirstEventAfter(events, candidate, IsProofGenerated());
      if proofEvent.Some? {
        var releaseEvent := FirstEventAfter(events, proofEvent.value, IsReleaseDecided());
        if releaseEvent.Some? {
          var run := ExpectedRun(events, runId).value;
          SkippingAddsLess(Env(run, hash), events, 0, i, candidate, [], proofEvent.value.payload.proof.generatedAt);
          FewerInputsFail(Env(run, hash), events, candidate, proofEvent.value, releaseEvent.value);
        }
      }
    }
  }

  lemma {:induction false} LastCandidateIsThere(events: seq<RunEvent>)
    requires IsNumbered(events) && LastFinalCandidate(events).Some?
    ensures var c := LastFinalCandidate(events).value;
      1 <= c.sequence <= |events| && events[c.sequence - 1] == c
  {
    var n := |events| - 1;
    if !Replay.IsFinalCandidate(events[n]) {
      LastCandidateIsThere(events[..n]);
    }
  }

  /** A stream in order is accepted as it is. */
  lemma OrderOfNumbered(hash: Hasher, localeCompare: (string, string) -> int, events: seq<RunEvent>,
                        runId: Option<string>)
    requires IsNumbered(events)
    requires var r := OrderAndValidate(hash, localeCompare, events, runId); r.Ok? && r.value != []
    ensures OrderAndValidate(hash, localeCompare, events, runId) == Ok(events)
  {
    hide FirstFault, Sort, IsNumbered;
    SortIsSorted(events, localeCompare);
    NumberedOrderIsUnique(Sort(events, localeCompare), events);
  }

  /** In particular, a run with a second submission after a completed one never replays. */
  lemma SecondSubmissionFails(env: Env, before: seq<Request>, c: FinalCandidate, o: FinalOptions, clock: Timestamp,
                              more: seq<Request>, j: nat, localeCompare: (string, string) -> int,
                              runId: Option<string>)
    requires SubmitFinal(env, Run(env, before), c, o, clock).result.Ok?
    requires var log := Run(env, before + [Submission(c, o, clock)] + more);
      |SubmitFinal(env, Run(env, before), c, o, clock).log| <= j < |log| && Replay.IsFinalCandidate(log[j])
    ensures var log := Run(env, before + [Submission(c, o, clock)] + more);
      Replay.Replay(env.hash, localeCompare, log, runId).ReplayFailed?
  {
    hide Run, SubmitFinal, Replay.Replay, Emitted, IsReport;
    var log, k := Run(env, before + [Submission(c, o, clock)] + more), |Run(env, before)|;
    var out := SubmitFinal(env, Run(env, before), c, o, clock);
    SubmissionInRun(env, before, c, o, clock, more);
    SubmissionReports(env, Run(env, before), c, o, clock);
    CandidateIsFirst(c, out.result.value);
    assert log[k] == out.log[k] == Emitted(out.result.value)[0];
    TwoCandidatesFail(env.hash, localeCompare, log, runId, k, j);
  }

  lemma CandidateIsFirst(c: FinalCandidate, r: FinalResult)
    requires IsReport(c, r)
    ensures Emitted(r) != [] && Replay.IsFinalCandidate(Emitted(r)[0])
  {
  }

  // When a replay passes

  /** Event by event of one type, for as many as were replayed. */
  predicate SameTypes(stored: seq<RunEvent>, replayed: seq<RunEvent>) {
    && |replayed| <= |stored|
    && forall i :: 0 <= i < |replayed| ==> TypeName(stored[i].payload) == TypeName(replayed[i].payload)
  }

  /** Mismatch by mismatch of one type. */
  predicate SameMismatchTypes(stored: ProofObject, replayed: ProofObject) {
    && |stored.blockingMismatches| == |replayed.blockingMismatches|
    && forall i :: 0 <= i < |replayed.blockingMismatches| ==>
         stored.blockingMismatches[i].mismatchType == replayed.blockingMismatches[i].mismatchType
  }

  predicate SameOutcome(stored: ReleaseStatus, replayed: ReleaseStatus) {
    && (stored.Released? <==> replayed.Released?) && (stored.Blocked? <==> replayed.Blocked?)
    && (stored.NeedsRepair? <==> replayed.NeedsRepair?)
    && (stored.ReleaseQuarantined? <==> replayed.ReleaseQuarantined?)
  }

  /** The stored stream says what the replayed submission says. */
  predicate AgreesWith(events: seq<RunEvent>, storedProof: ProofObject, storedDecision: ReleaseDecision,
                       replayed: seq<RunEvent>, proof: ProofObject, decision: ReleaseDecision) {
    && SameTypes(events, replayed) && SameOutcome(storedDecision.status, decision.status)
    && SameMismatchTypes(storedProof, proof) && storedDecision.approvedClaimIds == decision.approvedClaimIds
  }

  lemma TypesMeaning(stored: seq<RunEvent>, replayed: seq<RunEvent>)
    ensures Types(Slice(stored, |replayed|)) == Types(replayed) <==> SameTypes(stored, replayed)
  {
    hide TypeName;
    var a, b := Types(Slice(stored, |replayed|)), Types(replayed);
    if SameTypes(stored, replayed) {
      assert forall i :: 0 <= i < |b| ==> a[i] == b[i];
    }
    if a == b {
      forall i | 0 <= i < |replayed|
        ensures TypeName(stored[i].payload) == TypeName(replayed[i].payload)
      {
        assert a[i] == b[i];
      }
    }
  }

  lemma MismatchTypesMeaning(stored: ProofObject, replayed: ProofObject)
    ensures MismatchTypes(stored) == MismatchTypes(replayed) <==> SameMismatchTypes(stored, replayed)
  {
    var a, b := MismatchTypes(stored), MismatchTypes(replayed);
    if SameMismatchTypes(stored, replayed) {
      assert forall i :: 0 <= i < |b| ==> a[i] == b[i];
    }
    if a == b {
      forall i | 0 <= i < |replayed.blockingMismatches|
        ensures stored.blockingMismatches[i].mismatchType == replayed.blockingMismatches[i].mismatchType
      {
        assert a[i] == b[i];
      }
    }
  }

  /** There is nothing to note exactly when both agree. */
  lemma NotesMeaning(events: seq<RunEvent>, replayed: seq<RunEvent>, proof: ProofObject, decision: ReleaseDecision,
                     storedProof: ProofObject, storedDecision: ReleaseDecision)
    ensures DivergenceNotes(events, replayed, proof, decision, storedProof, storedDecision) == []
       <==> AgreesWith(events, storedProof, storedDecision, replayed, proof, decision)
    ensures var notes := DivergenceNotes(events, replayed, proof, decision, storedProof, storedDecision);
      && (TypesChanged in notes <==> !SameTypes(events, replayed))
      && (StatusChanged in notes <==> !SameOutcome(storedDecision.status, decision.status))
      && (MismatchTypesChanged in notes <==> !SameMismatchTypes(storedProof, proof))
      && (ApprovedIdsChanged in notes <==> storedDecision.approvedClaimIds != decision.approvedClaimIds)
  {
    hide SameTypes, SameMismatchTypes, Types, MismatchTypes, Slice;
    TypesMeaning(events, replayed);
    MismatchTypesMeaning(storedProof, proof);
  }

  /** Once the replayed submission completes, replay passes exactly when the stored stream agrees with it. */
  lemma ReplayPassesExactly(env: Env, events: seq<RunEvent>, candidate: RunEvent, proofEvent: RunEvent,
                            releaseEvent: RunEvent)
    requires Replay.IsFinalCandidate(candidate) && proofEvent.payload.ProofGenerated?
    requires releaseEvent.payload.ReleaseDecided?
    requires ReplayInputs(env, events, 0, candidate, [], proofEvent.payload.proof.generatedAt).Some?
    requires var at := proofEvent.payload.proof.generatedAt;
      SubmitFinal(env, ReplayInputs(env, events, 0, candidate, [], at).value, candidate.payload.proposal.candidate,
                  StoredOptions(events, candidate, proofEvent, releaseEvent), at).result.Ok?
    ensures var at := proofEvent.payload.proof.generatedAt;
      var out := SubmitFinal(env, ReplayInputs(env, events, 0, candidate, [], at).value,
                             candidate.payload.proposal.candidate,
                             StoredOptions(events, candidate, proofEvent, releaseEvent), at);
      var r, replay := out.result.value, ReplayFinal(env, events, candidate, proofEvent, releaseEvent);
      && (replay.ReplayPassed? <==>
            AgreesWith(events, proofEvent.payload.proof, releaseEvent.payload.decision, out.log, r.proof, r.decision))
      && (replay.ReplayFailed? ==> replay.code == ReplayDiverged)
  {
    hide ReplayInputs, SubmitFinal, StoredOptions, DivergenceNotes, AgreesWith;
    var at := proofEvent.payload.proof.generatedAt;
    var out := SubmitFinal(env, ReplayInputs(env, events, 0, candidate, [], at).value,
                           candidate.payload.proposal.candidate,
                           StoredOptions(events, candidate, proofEvent, releaseEvent), at);
    NotesMeaning(events, out.log, out.result.value.proof, out.result.value.decision, proofEvent.payload.proof,
                 releaseEvent.payload.decision);
  }

  // What a passed replay is worth

  ghost predicate IsRunLog(env: Env, log: seq<RunEvent>) {
    exists requests :: Run(env, requests) == log
  }

  lemma RunGoesOn(env: Env, log: seq<RunEvent>, r: Request)
    requires IsRunLog(env, log)
    ensures IsRunLog(env, After(env, log, r))
  {
    hide Record, SubmitFinal;
    var requests :| Run(env, requests) == log;
    assert (requests + [r])[..|requests|] == requests;
    assert Run(env, requests + [r]) == After(env, log, r);
  }

  lemma {:induction false} InputsAreRun(env: Env, events: seq<RunEvent>, n: nat, candidate: RunEvent,
                                        log: seq<RunEvent>, at: Timestamp)
    requires n <= |events| && IsRunLog(env, log)
    ensures var r := ReplayInputs(env, events, n, candidate, log, at);
      r.Some? ==> IsRunLog(env, r.value)
    decreases |events| - n
  {
    hide StepOf, Record, IsRunLog;
    if n < |events| {
      var step := StepOf(events, events[n]);
      if step.Repeat? {
        RunGoesOn(env, log, Recording(step.call, OptionsFrom(events[n]), at, at));
      }
      var next := AfterStep(env, events, events[n], log, at);
      if next.Some? {
        InputsAreRun(env, events, n + 1, candidate, next.value, at);
      }
    }
  }

  /** The decision of a passed replay was made by a kernel over admitted evidence. */
  lemma FinalReplayIsRun(env: Env, events: seq<RunEvent>, candidate: RunEvent, proofEvent: RunEvent,
                         releaseEvent: RunEvent)
    requires Replay.IsFinalCandidate(candidate) && proofEvent.payload.ProofGenerated?
    requires releaseEvent.payload.ReleaseDecided?
    requires ReplayFinal(env, events, candidate, proofEvent, releaseEvent).ReplayPassed?
    ensures var p := ReplayFinal(env, events, candidate, proofEvent, releaseEvent);
      && p.runId == env.runId && IsRunLog(env, p.replayedEvents) && p.replayedEvents != []
      && SameStatus(p.replayedDecision.status, p.storedDecision.status)
      && SameTypes(events, p.replayedEvents)
      && p.storedDecision == releaseEvent.payload.decision
      && p.storedDecision.approvedClaimIds == p.replayedDecision.approvedClaimIds
      && ProvesAlike(p.replayedEvents, proofEvent.payload.proof)
      && (p.storedDecision.status.Released? ==>
            p.replayedEvents[|p.replayedEvents| - 1].payload
            == FinalReleased(p.replayedDecision, candidate.payload.proposal.candidate))
  {
    hide ReplayInputs, SubmitFinal, StoredOptions, IsRunLog, Types, MismatchTypes, Emitted, Run, IsReport, SameTypes,
      SameMismatchTypes;
    var at := proofEvent.payload.proof.generatedAt;
    NothingIsRun(env);
    InputsAreRun(env, events, 0, candidate, [], at);
    var inputs := ReplayInputs(env, events, 0, candidate, [], at).value;
    var c, o := candidate.payload.proposal.candidate, StoredOptions(events, candidate, proofEvent, releaseEvent);
    RunGoesOn(env, inputs, Submission(c, o, at));
    SubmissionReports(env, inputs, c, o, at);
    LastReported(env, inputs, c, o, at);
    ReplayPassesExactly(env, events, candidate, proofEvent, releaseEvent);
    ProofIsSecond(c, inputs, SubmitFinal(env, inputs, c, o, at).result.value);
    ReportedProof(c, inputs, SubmitFinal(env, inputs, c, o, at).result.value);
  }

  /** The last proof of this log has the mismatch types of that one. */
  predicate ProvesAlike(log: seq<RunEvent>, proof: ProofObject) {
    exists k :: && 0 <= k < |log| && log[k].payload.ProofGenerated?
                && SameMismatchTypes(proof, log[k].payload.proof)
                && forall j :: k < j < |log| ==> !log[j].payload.ProofGenerated?
  }

  lemma ReportedProof(c: FinalCandidate, log: seq<RunEvent>, r: FinalResult)
    requires IsReport(c, r)
    ensures var all := log + Emitted(r);
      && |all| > |log| + 1 && all[|log| + 1].payload == ProofGenerated(r.proof)
      && forall j :: |log| + 1 < j < |all| ==> !all[j].payload.ProofGenerated?
  {
    var all, n := log + Emitted(r), |r.mismatchEvents|;
    forall j | |log| + 1 < j < |all|
      ensures !all[j].payload.ProofGenerated?
    {
      assert all[j] == Emitted(r)[j - |log|];
    }
  }

  lemma NothingIsRun(env: Env)
    ensures IsRunLog(env, [])
  {
    assert Run(env, []) == [];
  }

  lemma LastReported(env: Env, log: seq<RunEvent>, c: FinalCandidate, o: FinalOptions, clock: Timestamp)
    requires SubmitFinal(env, log, c, o, clock).result.Ok?
    ensures var out := SubmitFinal(env, log, c, o, clock);
      && out.log != []
      && (out.result.value.decision.status.Released? ==>
            out.log[|out.log| - 1].payload == FinalReleased(out.result.value.decision, c))
  {
    hide SubmitFinal;
    SubmissionReports(env, log, c, o, clock);
  }

  /** The stream holds the decision, and a proof with the mismatch types of the replayed one. */
  predicate IsStoredConclusion(events: seq<RunEvent>, decision: ReleaseDecision, replayed: seq<RunEvent>) {
    && (exists e :: e in events && e.payload == ReleaseDecided(decision))
    && (exists e :: e in events && e.payload.ProofGenerated? && ProvesAlike(replayed, e.payload.proof))
  }

  /**
   * A passed replay attests to its stream: its replayed events are the log of a kernel run of the same event types,
   * and when the stored decision released the candidate, the replayed release is safe.
   */
  lemma PassedReplayAttests(hash: Hasher, localeCompare: (string, string) -> int, events: seq<RunEvent>,
                            runId: Option<string>)
    requires Replay.Replay(hash, localeCompare, events, runId).ReplayPassed?
    ensures var p := Replay.Replay(hash, localeCompare, events, runId);
      var env := Env(p.runId, hash);
      && IsRunLog(env, p.replayedEvents)
      && SameTypes(events, p.replayedEvents)
      && SameStatus(p.replayedDecision.status, p.storedDecision.status)
      && p.storedDecision.approvedClaimIds == p.replayedDecision.approvedClaimIds
      && IsStoredConclusion(events, p.storedDecision, p.replayedEvents)
      && (p.storedDecision.status.Released? ==>
            p.replayedEvents != [] && IsSafeRelease(env, p.replayedEvents, |p.replayedEvents| - 1))
  {
    hide IsRunLog, ReplayFinal, OrderAndValidate, FirstEventAfter, SameTypes, ProvesAlike, IsNumbered, AllWellFormed,
      IsSafeRelease, LastFinalCandidate, Run, SameStatus, Replay.IsFinalCandidate;
    var p := Replay.Replay(hash, localeCompare, events, runId);
    OrderedNotEmpty(hash, localeCompare, events, runId);
    OrderOfNumbered(hash, localeCompare, events, runId);
    var candidate := LastFinalCandidate(events).value;
    var proofEvent := FirstEventAfter(events, candidate, IsProofGenerated()).value;
    var releaseEvent := FirstEventAfter(events, proofEvent, IsReleaseDecided()).value;
    var env := Env(p.runId, hash);
    FinalReplayIsRun(Env(ExpectedRun(events, runId).value, hash), events, candidate, proofEvent, releaseEvent);
    assert proofEvent in events && releaseEvent in events;
    if p.storedDecision.status.Released? {
      var requests := RequestsOf(env, p.replayedEvents);
      ReleaseSafety.ReleaseSafety(env, requests, |p.replayedEvents| - 1);
    }
  }

  lemma RequestsOf(env: Env, log: seq<RunEvent>) returns (requests: seq<Request>)
    requires IsRunLog(env, log)
    ensures Run(env, requests) == log
  {
    requests :| Run(env, requests) == log;
  }

  lemma OrderedNotEmpty(hash: Hasher, localeCompare: (string, string) -> int, events: seq<RunEvent>,
                        runId: Option<string>)
    requires Replay.Replay(hash, localeCompare, events, runId).ReplayPassed?
    ensures OrderAndValidate(hash, localeCompare, events, runId).Ok?
    ensures OrderAndValidate(hash, localeCompare, events, runId).value != []
  {
    hide OrderAndValidate, ReplayFinal, FirstEventAfter;
  }
}
