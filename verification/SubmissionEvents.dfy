// The events of a completed submission: what each of them says, which of them
// causes it, and when.
module SubmissionEvents {
  import opened Wrappers
  import opened Protocol
  import opened Contracts
  import opened EventLog
  import opened ProofEngine
  import opened ReleaseGate
  import opened KernelSpec
  import opened SubmissionOutcome

  /** An event behind the proposal: caused by another one, at the proof's time, with the submission's correlation. */
  predicate IsTail(e: RunEvent, cause: RunEvent, o: FinalOptions, at: Timestamp, given: Option<string>) {
    && e.causationId == Some(cause.eventId) && e.occurredAt == at
    && e.correlationId == (if o.event.correlationId.Some? then o.event.correlationId.value else None)
    && (given.Some? ==> e.eventId == given.value)
  }

  /** The mismatches of the proof in order, each caused by it. */
  predicate AreMismatches(events: seq<RunEvent>, proof: ProofObject, proofEvent: RunEvent, o: FinalOptions) {
    && |events| == |proof.blockingMismatches|
    && forall k :: 0 <= k < |events| ==>
         && events[k].payload == MismatchDetected(proof.blockingMismatches[k])
         && IsTail(events[k], proofEvent, o, proof.generatedAt,
                   if o.mismatchEventIds.Some? && k < |o.mismatchEventIds.value| then Some(o.mismatchEventIds.value[k])
                   else None)
  }

  /** What a completed submission of this candidate consists of. */
  predicate IsSubmission(c: FinalCandidate, o: FinalOptions, started: Option<string>, clock: Timestamp,
                         r: FinalResult) {
    && r.proposalEvent.payload == ProposalReceived(FinalProposal(c))
    && r.proposalEvent.causationId == (if o.event.causationId.Some? then o.event.causationId.value else started)
    && r.proposalEvent.occurredAt == (if o.event.occurredAt.Some? then o.event.occurredAt.value else clock)
    && r.proof.generatedAt == (if o.generatedAt.Some? then o.generatedAt.value else r.proposalEvent.occurredAt)
    && (o.proofId.Some? ==> r.proof.proofId == o.proofId.value)
    && r.proofEvent.payload == ProofGenerated(r.proof)
    && IsTail(r.proofEvent, r.proposalEvent, o, r.proof.generatedAt, o.proofEventId)
    && AreMismatches(r.mismatchEvents, r.proof, r.proofEvent, o)
    && r.releaseEvent.payload == ReleaseDecided(r.decision)
    && IsTail(r.releaseEvent, r.proofEvent, o, r.proof.generatedAt, o.releaseEventId)
    && (r.finalReleasedEvent.Some? <==> r.decision.status.Released?)
    && (r.finalReleasedEvent.Some? ==>
          && r.finalReleasedEvent.value.payload == FinalReleased(r.decision, c)
          && IsTail(r.finalReleasedEvent.value, r.releaseEvent, o, r.proof.generatedAt, o.finalReleasedEventId))
  }

  lemma TailMeaning(env: Env, log: seq<RunEvent>, payload: Payload, o: FinalOptions, given: Option<string>,
                    at: Timestamp, cause: RunEvent)
    requires AppendEvent(env, log, payload, TailOptions(o, given, at, cause.eventId), at).result.Ok?
    ensures var e := AppendEvent(env, log, payload, TailOptions(o, given, at, cause.eventId), at).result.value;
      e.payload == payload && IsTail(e, cause, o, at, given)
  {
    hide AppendEvent, WellFormed, Envelope, NextEventId, TypeName;
    AppendedFields(env, log, payload, TailOptions(o, given, at, cause.eventId), at);
  }

  lemma {:induction false} MismatchesMeaning(env: Env, log: seq<RunEvent>, proof: ProofObject, done: nat,
                                             o: FinalOptions, proofEvent: RunEvent)
    requires done <= |proof.blockingMismatches|
    requires AppendMismatches(env, log, proof.blockingMismatches, done, o, proof.generatedAt,
                              proofEvent.eventId).result.Ok?
    ensures var events := AppendMismatches(env, log, proof.blockingMismatches, done, o, proof.generatedAt,
                                           proofEvent.eventId).result.value;
      && done + |events| == |proof.blockingMismatches|
      && forall k :: 0 <= k < |events| ==>
           && events[k].payload == MismatchDetected(proof.blockingMismatches[done + k])
           && IsTail(events[k], proofEvent, o, proof.generatedAt,
                     if o.mismatchEventIds.Some? && done + k < |o.mismatchEventIds.value|
                     then Some(o.mismatchEventIds.value[done + k]) else None)
    decreases |proof.blockingMismatches| - done
  {
    hide AppendEvent, TailOptions, IsTail;
    var mismatches, at := proof.blockingMismatches, proof.generatedAt;
    if done < |mismatches| {
      var given := if o.mismatchEventIds.Some? then Some(o.mismatchEventIds.value[done]) else None;
      var payload := MismatchDetected(mismatches[done]);
      TailMeaning(env, log, payload, o, given, at, proofEvent);
      var out := AppendEvent(env, log, payload, TailOptions(o, given, at, proofEvent.eventId), at);
      MismatchesMeaning(env, out.log, proof, done + 1, o, proofEvent);
      var all := AppendMismatches(env, log, mismatches, done, o, at, proofEvent.eventId).result.value;
      var rest := AppendMismatches(env, out.log, mismatches, done + 1, o, at, proofEvent.eventId).result.value;
      assert all == [out.result.value] + rest;
    }
  }

  lemma DecideMeaning(env: Env, log: seq<RunEvent>, c: FinalCandidate, proposalEvent: RunEvent, proofEvent: RunEvent,
                      proof: ProofObject, mismatchEvents: seq<RunEvent>, o: FinalOptions)
    requires Decide(env, log, c, proposalEvent, proofEvent, proof, mismatchEvents, proof.generatedAt, o).result.Ok?
    ensures var r :=
        Decide(env, log, c, proposalEvent, proofEvent, proof, mismatchEvents, proof.generatedAt, o).result.value;
      && r.proof == proof && r.proposalEvent == proposalEvent && r.proofEvent == proofEvent
      && r.mismatchEvents == mismatchEvents && r.decision == DecideRelease(c, proof)
      && r.releaseEvent.payload == ReleaseDecided(r.decision)
      && IsTail(r.releaseEvent, proofEvent, o, proof.generatedAt, o.releaseEventId)
      && (r.finalReleasedEvent.Some? <==> r.decision.status.Released?)
      && (r.finalReleasedEvent.Some? ==>
            && r.finalReleasedEvent.value.payload == FinalReleased(r.decision, c)
            && IsTail(r.finalReleasedEvent.value, r.releaseEvent, o, proof.generatedAt, o.finalReleasedEventId))
  {
    hide AppendEvent, TailOptions, IsTail, DecideRelease, ValidDecision;
    var decision, at := DecideRelease(c, proof), proof.generatedAt;
    TailMeaning(env, log, ReleaseDecided(decision), o, o.releaseEventId, at, proofEvent);
    var out := AppendEvent(env, log, ReleaseDecided(decision),
                           TailOptions(o, o.releaseEventId, at, proofEvent.eventId), at);
    if decision.status.Released? {
      TailMeaning(env, out.log, FinalReleased(decision, c), o, o.finalReleasedEventId, at, out.result.value);
    }
  }

  lemma ConcludeMeaning(env: Env, log: seq<RunEvent>, c: FinalCandidate, proposalEvent: RunEvent, o: FinalOptions)
    requires Conclude(env, log, c, proposalEvent, o).result.Ok?
    ensures var r := Conclude(env, log, c, proposalEvent, o).result.value;
      && r.proposalEvent == proposalEvent && r.decision == DecideRelease(c, r.proof)
      && r.proof.generatedAt == o.generatedAt.GetOr(proposalEvent.occurredAt)
      && (o.proofId.Some? ==> r.proof.proofId == o.proofId.value)
      && r.proofEvent.payload == ProofGenerated(r.proof)
      && IsTail(r.proofEvent, proposalEvent, o, r.proof.generatedAt, o.proofEventId)
      && AreMismatches(r.mismatchEvents, r.proof, r.proofEvent, o)
      && r.releaseEvent.payload == ReleaseDecided(r.decision)
      && IsTail(r.releaseEvent, r.proofEvent, o, r.proof.generatedAt, o.releaseEventId)
      && (r.finalReleasedEvent.Some? <==> r.decision.status.Released?)
      && (r.finalReleasedEvent.Some? ==>
            && r.finalReleasedEvent.value.payload == FinalReleased(r.decision, c)
            && IsTail(r.finalReleasedEvent.value, r.releaseEvent, o, r.proof.generatedAt, o.finalReleasedEventId))
  {
    hide AppendEvent, TailOptions, IsTail, DecideRelease, EvaluateProof, ValidProof, AppendMismatches, Decide, Fold;
    var at := o.generatedAt.GetOr(proposalEvent.occurredAt);
    var input := ProofInputOf(Fold(log), c, at, o.proofId);
    var proof := EvaluateProof(env.hash, input);
    ProofTells(env.hash, input);
    TailMeaning(env, log, ProofGenerated(proof), o, o.proofEventId, at, proposalEvent);
    var options := TailOptions(o, o.proofEventId, at, proposalEvent.eventId);
    var out := AppendEvent(env, log, ProofGenerated(proof), options, at);
    var e := out.result.value;
    MismatchesMeaning(env, out.log, proof, 0, o, e);
    var mid := AppendMismatches(env, out.log, proof.blockingMismatches, 0, o, at, e.eventId);
    DecideMeaning(env, mid.log, c, proposalEvent, e, proof, mid.result.value, o);
  }

  lemma ProofTells(hash: Hasher, input: ProofInput)
    ensures var p := EvaluateProof(hash, input);
      && p.generatedAt == input.generatedAt && (input.proofId.Some? ==> p.proofId == input.proofId.value)
      && p.runId == input.candidate.runId && p.candidateId == input.candidate.candidateId
      && p.evaluatedClaims == input.candidate.claims
  {
    hide Evaluations, BlockingOf, ClaimIds, BuildProofId;
  }

  /** A completed submission, event by event. */
  lemma SubmissionMeaning(env: Env, log: seq<RunEvent>, c: FinalCandidate, o: FinalOptions, clock: Timestamp)
    requires SubmitFinal(env, log, c, o, clock).result.Ok?
    ensures IsSubmission(c, o, Fold(log).started, clock, SubmitFinal(env, log, c, o, clock).result.value)
  {
    hide AppendEvent, Conclude, Fold, ValidCandidate, WellFormed, Envelope, NextEventId, TypeName, IsTail,
      AreMismatches;
    var payload, options := ProposalReceived(FinalProposal(c)), WithDefaultCausation(Fold(log), o.event);
    AppendedFields(env, log, payload, options, clock);
    var out := AppendEvent(env, log, payload, options, clock);
    ConcludeMeaning(env, out.log, c, out.result.value, o);
  }
}
