// What is true of every event of every log a kernel can produce, by induction
// over its calls.
module KernelInvariants {
  import opened Wrappers
  import opened Protocol
  import opened Contracts
  import opened EventLog
  import opened ProofEngine
  import opened ReleaseGate
  import opened KernelSpec
  import opened ProofProperties

  /** The event is what some admitted call records after this log. */
  ghost predicate IsRecorded(env: Env, log: seq<RunEvent>, e: RunEvent) {
    exists call, committedAt :: && Admit(env, Fold(log), call, e.eventId, committedAt).None?
      && e.payload == PayloadOf(env, Fold(log), call, committedAt)
  }

  predicate IsCandidate(env: Env, log: seq<RunEvent>, e: RunEvent) {
    && e.payload.ProposalReceived? && e.payload.proposal.FinalProposal?
    && Fold(log).started.Some? && ValidCandidate(e.payload.proposal.candidate)
    && e.payload.proposal.candidate.runId == env.runId
  }

  /** A stored proof follows its candidate and is the engine's proof over everything recorded before it. */
  predicate IsProof(env: Env, log: seq<RunEvent>, i: nat)
    requires i < |log|
  {
    && log[i].payload.ProofGenerated? && i >= 1
    && log[i - 1].payload.ProposalReceived? && log[i - 1].payload.proposal.FinalProposal? && WellFormed(log[i - 1])
    && IsCandidate(env, log[..i - 1], log[i - 1])
    && var proof := log[i].payload.proof;
       proof == EvaluateProof(env.hash, ProofInputOf(Fold(log[..i]), log[i - 1].payload.proposal.candidate,
                                                     proof.generatedAt, Some(proof.proofId)))
  }

  /** Events i .. i + n after the proof at i record its first n mismatches. */
  predicate MismatchesFollow(log: seq<RunEvent>, i: nat, n: nat)
    requires i < |log| && log[i].payload.ProofGenerated?
  {
    && n <= |log[i].payload.proof.blockingMismatches| && i + n < |log|
    && forall k :: i < k <= i + n ==>
         log[k].payload == MismatchDetected(log[i].payload.proof.blockingMismatches[k - i - 1])
  }

  /** The event at i records a mismatch of the proof at p. */
  predicate IsMismatch(env: Env, log: seq<RunEvent>, p: nat, i: nat)
    requires p < i < |log|
  {
    IsProof(env, log, p) && MismatchesFollow(log, p, i - p)
  }

  /** The event at i is the gate's decision on the proof at p, after all of its mismatches. */
  predicate IsDecision(env: Env, log: seq<RunEvent>, p: nat, i: nat)
    requires p < i < |log|
  {
    && IsProof(env, log, p)
    && i == p + 1 + |log[p].payload.proof.blockingMismatches|
    && MismatchesFollow(log, p, i - p - 1)
    && log[i].payload == ReleaseDecided(DecideRelease(log[p - 1].payload.proposal.candidate, log[p].payload.proof))
  }

  predicate IsRelease(env: Env, log: seq<RunEvent>, p: nat, i: nat)
    requires p + 1 < i < |log|
  {
    && IsDecision(env, log, p, i - 1)
    && log[i - 1].payload.decision.status.Released?
    && log[i].payload == FinalReleased(log[i - 1].payload.decision, log[p - 1].payload.proposal.candidate)
  }

  ghost predicate Justified(env: Env, log: seq<RunEvent>, i: nat)
    requires i < |log|
  {
    && Envelope(env, log[..i], log[i])
    && (|| IsRecorded(env, log[..i], log[i])
        || IsCandidate(env, log[..i], log[i])
        || IsProof(env, log, i)
        || (exists p :: 0 <= p < i && IsMismatch(env, log, p, i))
        || (exists p :: 0 <= p < i && IsDecision(env, log, p, i))
        || (exists p :: 0 <= p < i - 1 && IsRelease(env, log, p, i)))
  }

  ghost predicate AllJustified(env: Env, log: seq<RunEvent>) {
    forall i :: 0 <= i < |log| ==> Justified(env, log, i)
  }

  /** Two logs that agree up to an event agree on what the event is. */
  lemma ProofStable(env: Env, a: seq<RunEvent>, b: seq<RunEvent>, p: nat)
    requires p < |a| && a <= b && IsProof(env, a, p)
    ensures IsProof(env, b, p)
  {
    hide EvaluateProof;
    assert b[..p] == a[..p] && b[..p - 1] == a[..p - 1];
  }

  lemma MismatchStable(env: Env, a: seq<RunEvent>, b: seq<RunEvent>, p: nat, i: nat)
    requires p < i < |a| && a <= b && IsMismatch(env, a, p, i)
    ensures IsMismatch(env, b, p, i)
  {
    hide EvaluateProof;
    ProofStable(env, a, b, p);
  }

  lemma DecisionStable(env: Env, a: seq<RunEvent>, b: seq<RunEvent>, p: nat, i: nat)
    requires p < i < |a| && a <= b && IsDecision(env, a, p, i)
    ensures IsDecision(env, b, p, i)
  {
    hide EvaluateProof, DecideRelease;
    ProofStable(env, a, b, p);
  }

  /** Later events do not disturb what justified an earlier one. */
  lemma StillJustified(env: Env, log: seq<RunEvent>, more: seq<RunEvent>, i: nat)
    requires i < |log| && Justified(env, log, i)
    ensures Justified(env, log + more, i)
  {
    hide EvaluateProof, DecideRelease, IsMismatch, IsDecision, IsProof, IsRecorded, IsCandidate;
    var all := log + more;
    assert log <= all && all[..i] == log[..i];
    if IsProof(env, log, i) {
      ProofStable(env, log, all, i);
    } else if p :| 0 <= p < i && IsMismatch(env, log, p, i) {
      MismatchStable(env, log, all, p, i);
    } else if p :| 0 <= p < i && IsDecision(env, log, p, i) {
      DecisionStable(env, log, all, p, i);
    } else if p :| 0 <= p < i - 1 && IsRelease(env, log, p, i) {
      DecisionStable(env, log, all, p, i - 1);
      assert IsRelease(env, all, p, i);
    }
  }

  lemma AddJustified(env: Env, log: seq<RunEvent>, e: RunEvent)
    requires AllJustified(env, log) && Justified(env, log + [e], |log|)
    ensures AllJustified(env, log + [e])
  {
    forall i | 0 <= i < |log|
      ensures Justified(env, log + [e], i)
    {
      StillJustified(env, log, [e], i);
    }
  }

  lemma RecordJustified(env: Env, log: seq<RunEvent>, call: Call, o: EventOptions, clock: Timestamp, again: Timestamp)
    requires AllJustified(env, log)
    ensures AllJustified(env, Record(env, log, call, o, clock, again).log)
  {
    hide Admit, PayloadOf, WellFormed, IsProof, IsMismatch, IsDecision, IsRelease, IsCandidate, TypeName, NextEventId;
    var f := Fold(log);
    var committedAt := o.occurredAt.GetOr(clock);
    var payload := PayloadOf(env, f, call, committedAt);
    var eventId := o.eventId.GetOr(NextEventId(env.runId, |log|, TypeName(payload)));
    if Admit(env, f, call, eventId, committedAt).None? {
      var options := WithDefaultCausation(f, o.(eventId := Some(eventId)));
      var out := AppendEvent(env, log, payload, options, again);
      AppendedEnvelope(env, log, payload, options, again);
      if out.log != log {
        var e := out.log[|log|];
        assert out.log == log + [e] && e.eventId == eventId;
        assert (log + [e])[..|log|] == log;
        assert IsRecorded(env, log, e);
        AddJustified(env, log, e);
      }
    }
  }

  /** The log while a submission records the mismatches of the proof at p. */
  ghost predicate Concluding(env: Env, log: seq<RunEvent>, p: nat, done: nat) {
    && AllJustified(env, log) && p < |log| && IsProof(env, log, p)
    && |log| == p + 1 + done && MismatchesFollow(log, p, done)
  }

  /** The next mismatch takes its place behind the proof. */
  lemma MismatchFits(env: Env, log: seq<RunEvent>, p: nat, done: nat, e: RunEvent)
    requires p < |log| && IsProof(env, log, p) && |log| == p + 1 + done && MismatchesFollow(log, p, done)
    requires done < |log[p].payload.proof.blockingMismatches|
    requires e.payload == MismatchDetected(log[p].payload.proof.blockingMismatches[done])
    ensures IsProof(env, log + [e], p) && MismatchesFollow(log + [e], p, done + 1)
    ensures IsMismatch(env, log + [e], p, |log|)
  {
    hide EvaluateProof;
    ProofStable(env, log, log + [e], p);
  }

  lemma MismatchJustified(env: Env, log: seq<RunEvent>, p: nat, done: nat, options: EventOptions, at: Timestamp)
    requires Concluding(env, log, p, done) && done < |log[p].payload.proof.blockingMismatches|
    ensures var out := AppendEvent(env, log, MismatchDetected(log[p].payload.proof.blockingMismatches[done]),
                                   options, at);
      && AllJustified(env, out.log) && log <= out.log
      && (out.result.Ok? ==> Concluding(env, out.log, p, done + 1))
  {
    hide WellFormed, IsRecorded, IsCandidate, IsProof, IsMismatch, IsDecision, IsRelease, MismatchesFollow, Envelope,
      AllJustified;
    assert log[p].payload.ProofGenerated? by { ProofIsGenerated(env, log, p); }
    var payload := MismatchDetected(log[p].payload.proof.blockingMismatches[done]);
    var out := AppendEvent(env, log, payload, options, at);
    AppendedEnvelope(env, log, payload, options, at);
    if out.log != log {
      var e := out.log[|log|];
      assert out.log == log + [e];
      assert out.log[..|log|] == log;
      MismatchFits(env, log, p, done, e);
      AddJustified(env, log, e);
    }
  }

  lemma ProofIsGenerated(env: Env, log: seq<RunEvent>, p: nat)
    requires p < |log| && IsProof(env, log, p)
    ensures log[p].payload.ProofGenerated?
  {
    hide EvaluateProof;
  }

  lemma MismatchesJustified(env: Env, log: seq<RunEvent>, p: nat, done: nat, o: FinalOptions, at: Timestamp, id: string)
    requires Concluding(env, log, p, done)
    ensures var mismatches := log[p].payload.proof.blockingMismatches;
      var out := AppendMismatches(env, log, mismatches, done, o, at, id);
      && AllJustified(env, out.log)
      && log <= out.log
      && (out.result.Ok? ==> Concluding(env, out.log, p, |mismatches|))
    decreases |log[p].payload.proof.blockingMismatches| - done
  {
    hide AppendEvent, AllJustified, EvaluateProof;
    var mismatches := log[p].payload.proof.blockingMismatches;
    if done < |mismatches| && !(o.mismatchEventIds.Some? && done >= |o.mismatchEventIds.value|) {
      var eventId := if o.mismatchEventIds.Some? then Some(o.mismatchEventIds.value[done]) else None;
      var options := TailOptions(o, eventId, at, id);
      MismatchJustified(env, log, p, done, options, at);
      var out := AppendEvent(env, log, MismatchDetected(mismatches[done]), options, at);
      if out.result.Ok? {
        assert out.log[p] == log[p];
        MismatchesJustified(env, out.log, p, done + 1, o, at, id);
      }
    }
  }

  lemma DecideJustified(env: Env, log: seq<RunEvent>, p: nat, proposalEvent: RunEvent, proofEvent: RunEvent,
                        mismatchEvents: seq<RunEvent>, at: Timestamp, o: FinalOptions)
    requires p < |log| && log[p].payload.ProofGenerated?
    requires Concluding(env, log, p, |log[p].payload.proof.blockingMismatches|)
    ensures AllJustified(env, Decide(env, log, log[p - 1].payload.proposal.candidate, proposalEvent, proofEvent,
                                     log[p].payload.proof, mismatchEvents, at, o).log)
  {
    hide EvaluateProof, DecideRelease, WellFormed, IsRecorded;
    var c, proof := log[p - 1].payload.proposal.candidate, log[p].payload.proof;
    var decision := DecideRelease(c, proof);
    var options := TailOptions(o, o.releaseEventId, at, proofEvent.eventId);
    var out := AppendEvent(env, log, ReleaseDecided(decision), options, at);
    AppendedEnvelope(env, log, ReleaseDecided(decision), options, at);
    if out.log != log {
      var e := out.log[|log|];
      assert out.log == log + [e];
      assert out.log[..|log|] == log;
      ProofStable(env, log, out.log, p);
      assert IsDecision(env, out.log, p, |log|);
      AddJustified(env, log, e);
      if out.result.Ok? && decision.status.Released? {
        ReleaseJustified(env, out.log, p, at, o);
      }
    }
  }

  lemma ReleaseJustified(env: Env, log: seq<RunEvent>, p: nat, at: Timestamp, o: FinalOptions)
    requires AllJustified(env, log) && p < |log| - 1 && IsDecision(env, log, p, |log| - 1)
    requires log[|log| - 1].payload.decision.status.Released?
    ensures var last := log[|log| - 1];
      AllJustified(env, AppendEvent(env, log,
        FinalReleased(last.payload.decision, log[p - 1].payload.proposal.candidate),
        TailOptions(o, o.finalReleasedEventId, at, last.eventId), at).log)
  {
    hide EvaluateProof, DecideRelease, WellFormed, IsRecorded;
    var last := log[|log| - 1];
    var payload := FinalReleased(last.payload.decision, log[p - 1].payload.proposal.candidate);
    var options := TailOptions(o, o.finalReleasedEventId, at, last.eventId);
    var out := AppendEvent(env, log, payload, options, at);
    AppendedEnvelope(env, log, payload, options, at);
    if out.log != log {
      var e := out.log[|log|];
      assert out.log == log + [e];
      assert out.log[..|log|] == log;
      DecisionStable(env, log, out.log, p, |log| - 1);
      assert IsRelease(env, out.log, p, |log|);
      AddJustified(env, log, e);
    }
  }

  /** A proof with an id of its own is the same proof when that id is asked for. */
  lemma ProofIdIsStable(hash: Hasher, input: ProofInput)
    ensures var proof := EvaluateProof(hash, input);
      proof.generatedAt == input.generatedAt
      && proof == EvaluateProof(hash, input.(proofId := Some(proof.proofId)))
  {
    var proof := EvaluateProof(hash, input);
    var other := input.(proofId := Some(proof.proofId));
    assert SameSubstance(input.candidate, other.candidate);
    SameEvaluations(hash, input, other, |input.candidate.claims|);
  }

  lemma ConcludeJustified(env: Env, log: seq<RunEvent>, c: FinalCandidate, proposalEvent: RunEvent, o: FinalOptions)
    requires AllJustified(env, log) && |log| > 0 && log[|log| - 1] == proposalEvent && WellFormed(proposalEvent)
    requires IsCandidate(env, log[..|log| - 1], proposalEvent) && proposalEvent.payload.proposal.candidate == c
    ensures AllJustified(env, Conclude(env, log, c, proposalEvent, o).log)
  {
    hide EvaluateProof, DecideRelease, WellFormed, IsRecorded, Decide, AppendMismatches;
    var at := o.generatedAt.GetOr(proposalEvent.occurredAt);
    var input := ProofInputOf(Fold(log), c, at, o.proofId);
    var proof := EvaluateProof(env.hash, input);
    ProofIdIsStable(env.hash, input);
    if ValidProof(proof) {
      var options := TailOptions(o, o.proofEventId, at, proposalEvent.eventId);
      var out := AppendEvent(env, log, ProofGenerated(proof), options, at);
      AppendedEnvelope(env, log, ProofGenerated(proof), options, at);
      if out.log != log {
        var e, p := out.log[|log|], |log|;
        assert out.log == log + [e];
        assert out.log[..p] == log && out.log[..p - 1] == log[..p - 1];
        assert IsProof(env, out.log, p);
        AddJustified(env, log, e);
        if out.result.Ok? {
          MismatchesJustified(env, out.log, p, 0, o, at, e.eventId);
          var rest := AppendMismatches(env, out.log, proof.blockingMismatches, 0, o, at, e.eventId);
          if rest.result.Ok? {
            assert rest.log[p] == out.log[p] && rest.log[p - 1] == out.log[p - 1];
            DecideJustified(env, rest.log, p, proposalEvent, e, rest.result.value, at, o);
          }
        }
      }
    }
  }

  lemma SubmitJustified(env: Env, log: seq<RunEvent>, c: FinalCandidate, o: FinalOptions, clock: Timestamp)
    requires AllJustified(env, log)
    ensures AllJustified(env, SubmitFinal(env, log, c, o, clock).log)
  {
    hide Conclude, IsProof, IsMismatch, IsDecision, IsRelease, IsRecorded;
    var f := Fold(log);
    if f.started.Some? && ValidCandidate(c) && c.runId == env.runId {
      var payload, options := ProposalReceived(FinalProposal(c)), WithDefaultCausation(f, o.event);
      var out := AppendEvent(env, log, payload, options, clock);
      AppendedEnvelope(env, log, payload, options, clock);
      if out.log != log {
        var e := out.log[|log|];
        assert out.log == log + [e];
        assert out.log[..|log|] == log;
        assert IsCandidate(env, log, e);
        AddJustified(env, log, e);
        if out.result.Ok? {
          ConcludeJustified(env, out.log, c, e, o);
        }
      }
    }
  }

  /** Every event of every reachable log is justified by the log before it. */
  lemma {:induction false} RunJustified(env: Env, requests: seq<Request>)
    ensures AllJustified(env, Run(env, requests))
  {
    hide Justified, Record, SubmitFinal;
    if requests != [] {
      var before := Run(env, requests[..|requests| - 1]);
      RunJustified(env, requests[..|requests| - 1]);
      match requests[|requests| - 1] {
        case Recording(call, o, clock, again) => RecordJustified(env, before, call, o, clock, again);
        case Submission(c, o, clock) => SubmitJustified(env, before, c, o, clock);
      }
    }
  }
}
