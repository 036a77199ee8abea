// A recorded event, and a whole completed submission, are reproduced by the
// identifiers and times that were recorded with them.
module Resubmission {
  import opened Wrappers
  import opened Protocol
  import opened Contracts
  import opened EventLog
  import opened ProofEngine
  import opened ReleaseGate
  import opened KernelSpec
  import opened KernelInvariants

  function EventIdOf(): RunEvent -> string {
    (e: RunEvent) => e.eventId
  }

  /** The options that name the events of a submission as they were recorded. */
  function RecordedOptions(r: FinalResult, finalReleasedEventId: Option<string>): FinalOptions {
    FinalOptions(OptionsFrom(r.proposalEvent), Some(r.proof.generatedAt), Some(r.proofEvent.eventId),
                 Some(r.proof.proofId), Some(Map(r.mismatchEvents, EventIdOf())), Some(r.releaseEvent.eventId),
                 finalReleasedEventId)
  }

  /** The same correlation, given explicitly. */
  predicate SameCorrelation(o: FinalOptions, again: FinalOptions) {
    again.event.correlationId == Some(o.event.correlationId.GetOr(None))
  }

  lemma TailAgain(env: Env, log: seq<RunEvent>, payload: Payload, o: FinalOptions, again: FinalOptions,
                  id: Option<string>, at: Timestamp, cause: string)
    requires SameCorrelation(o, again)
    requires AppendEvent(env, log, payload, TailOptions(o, id, at, cause), at).result.Ok?
    ensures var out := AppendEvent(env, log, payload, TailOptions(o, id, at, cause), at);
      AppendEvent(env, log, payload, TailOptions(again, Some(out.result.value.eventId), at, cause), at) == out
  {
    hide AppendEvent, WellFormed, Envelope;
    var options := TailOptions(o, id, at, cause);
    AppendedFields(env, log, payload, options, at);
    var e := AppendEvent(env, log, payload, options, at).result.value;
    AppendAgain(env, log, e, at);
    assert TailOptions(again, Some(e.eventId), at, cause) == OptionsFrom(e);
  }

  /** From `done` on, the ids are those of these events. */
  predicate NamesEvents(ids: seq<string>, done: nat, events: seq<RunEvent>) {
    done + |events| == |ids| && forall k :: 0 <= k < |events| ==> ids[done + k] == events[k].eventId
  }

  lemma {:induction false} MismatchesAgain(env: Env, log: seq<RunEvent>, mismatches: seq<Mismatch>, done: nat,
                                           o: FinalOptions, again: FinalOptions, at: Timestamp, proofEventId: string)
    requires done <= |mismatches| && SameCorrelation(o, again) && again.mismatchEventIds.Some?
    requires var out := AppendMismatches(env, log, mismatches, done, o, at, proofEventId);
      out.result.Ok? && NamesEvents(again.mismatchEventIds.value, done, out.result.value)
    ensures AppendMismatches(env, log, mismatches, done, again, at, proofEventId)
         == AppendMismatches(env, log, mismatches, done, o, at, proofEventId)
    decreases |mismatches| - done
  {
    hide AppendEvent;
    if done < |mismatches| {
      var id := if o.mismatchEventIds.Some? then Some(o.mismatchEventIds.value[done]) else None;
      TailAgain(env, log, MismatchDetected(mismatches[done]), o, again, id, at, proofEventId);
      var first := AppendEvent(env, log, MismatchDetected(mismatches[done]), TailOptions(o, id, at, proofEventId), at);
      var rest := AppendMismatches(env, first.log, mismatches, done + 1, o, at, proofEventId);
      var all := AppendMismatches(env, log, mismatches, done, o, at, proofEventId);
      assert all.result.value == [first.result.value] + rest.result.value;
      assert all.result.value[0] == first.result.value;
      assert again.mismatchEventIds.value[done + 0] == first.result.value.eventId;
      forall k | 0 <= k < |rest.result.value|
        ensures again.mismatchEventIds.value[done + 1 + k] == rest.result.value[k].eventId
      {
        assert all.result.value[k + 1] == rest.result.value[k];
      }
      MismatchesAgain(env, first.log, mismatches, done + 1, o, again, at, proofEventId);
    }
  }

  lemma DecideAgain(env: Env, log: seq<RunEvent>, c: FinalCandidate, proposalEvent: RunEvent, proofEvent: RunEvent,
                    proof: ProofObject, mismatchEvents: seq<RunEvent>, at: Timestamp, o: FinalOptions,
                    again: FinalOptions)
    requires SameCorrelation(o, again)
    requires var out := Decide(env, log, c, proposalEvent, proofEvent, proof, mismatchEvents, at, o);
      && out.result.Ok? && again.releaseEventId == Some(out.result.value.releaseEvent.eventId)
      && (out.result.value.finalReleasedEvent.Some? ==>
            again.finalReleasedEventId == Some(out.result.value.finalReleasedEvent.value.eventId))
    ensures Decide(env, log, c, proposalEvent, proofEvent, proof, mismatchEvents, at, again)
         == Decide(env, log, c, proposalEvent, proofEvent, proof, mismatchEvents, at, o)
  {
    hide AppendEvent, DecideRelease, ValidDecision, TailOptions;
    var decision := DecideRelease(c, proof);
    TailAgain(env, log, ReleaseDecided(decision), o, again, o.releaseEventId, at, proofEvent.eventId);
    if decision.status.Released? {
      var out := AppendEvent(env, log, ReleaseDecided(decision),
                             TailOptions(o, o.releaseEventId, at, proofEvent.eventId), at);
      TailAgain(env, out.log, FinalReleased(decision, c), o, again, o.finalReleasedEventId, at,
                out.result.value.eventId);
    }
  }

  /** What a completed conclusion reports about itself. */
  lemma DecideReports(env: Env, log: seq<RunEvent>, c: FinalCandidate, proposalEvent: RunEvent, proofEvent: RunEvent,
                      proof: ProofObject, mismatchEvents: seq<RunEvent>, at: Timestamp, o: FinalOptions)
    requires Decide(env, log, c, proposalEvent, proofEvent, proof, mismatchEvents, at, o).result.Ok?
    ensures var out := Decide(env, log, c, proposalEvent, proofEvent, proof, mismatchEvents, at, o);
      var r := out.result.value;
      && r.proof == proof && r.decision == DecideRelease(c, proof) && r.proposalEvent == proposalEvent
      && r.proofEvent == proofEvent && r.mismatchEvents == mismatchEvents
      && WellFormed(r.releaseEvent) && r.releaseEvent.payload == ReleaseDecided(r.decision)
      && (r.finalReleasedEvent.Some? <==> r.decision.status.Released?)
      && (r.finalReleasedEvent.Some? ==>
            WellFormed(r.finalReleasedEvent.value)
            && r.finalReleasedEvent.value.payload == FinalReleased(r.decision, c))
      && out.log == log + ([r.releaseEvent]
           + if r.finalReleasedEvent.Some? then [r.finalReleasedEvent.value] else [])
  {
    hide AppendEvent, DecideRelease, ValidDecision, TailOptions, WellFormed, Envelope;
    var decision := DecideRelease(c, proof);
    var options := TailOptions(o, o.releaseEventId, at, proofEvent.eventId);
    AppendedFields(env, log, ReleaseDecided(decision), options, at);
    if decision.status.Released? {
      var out := AppendEvent(env, log, ReleaseDecided(decision), options, at);
      AppendedFields(env, out.log, FinalReleased(decision, c),
                     TailOptions(o, o.finalReleasedEventId, at, out.result.value.eventId), at);
    }
  }

  lemma {:induction false} MismatchesReport(env: Env, log: seq<RunEvent>, mismatches: seq<Mismatch>, done: nat,
                                            o: FinalOptions, at: Timestamp, proofEventId: string)
    requires done <= |mismatches| && AppendMismatches(env, log, mismatches, done, o, at, proofEventId).result.Ok?
    ensures var out := AppendMismatches(env, log, mismatches, done, o, at, proofEventId);
      && out.log == log + out.result.value && |out.result.value| == |mismatches| - done
      && forall k :: 0 <= k < |out.result.value| ==>
           out.result.value[k].payload.MismatchDetected? && WellFormed(out.result.value[k])
    decreases |mismatches| - done
  {
    hide AppendEvent, WellFormed, Envelope, NextEventId, TypeName, TailOptions;
    if done < |mismatches| {
      var id := if o.mismatchEventIds.Some? then Some(o.mismatchEventIds.value[done]) else None;
      var options := TailOptions(o, id, at, proofEventId);
      AppendedFields(env, log, MismatchDetected(mismatches[done]), options, at);
      var first := AppendEvent(env, log, MismatchDetected(mismatches[done]), options, at);
      MismatchesReport(env, first.log, mismatches, done + 1, o, at, proofEventId);
    }
  }

  predicate IsReport(c: FinalCandidate, r: FinalResult) {
    && r.proposalEvent.payload == ProposalReceived(FinalProposal(c)) && WellFormed(r.proposalEvent)
    && r.proofEvent.payload == ProofGenerated(r.proof) && WellFormed(r.proofEvent)
    && (forall k :: 0 <= k < |r.mismatchEvents| ==>
          r.mismatchEvents[k].payload.MismatchDetected? && WellFormed(r.mismatchEvents[k]))
    && r.releaseEvent.payload == ReleaseDecided(r.decision) && WellFormed(r.releaseEvent)
    && (r.finalReleasedEvent.Some? ==>
          r.finalReleasedEvent.value.payload == FinalReleased(r.decision, c) && WellFormed(r.finalReleasedEvent.value))
    && (r.finalReleasedEvent.Some? <==> r.decision.status.Released?)
  }

  lemma ConcludeReports(env: Env, log: seq<RunEvent>, c: FinalCandidate, proposalEvent: RunEvent, o: FinalOptions)
    requires Conclude(env, log, c, proposalEvent, o).result.Ok?
    requires proposalEvent.payload == ProposalReceived(FinalProposal(c)) && WellFormed(proposalEvent)
    ensures var out := Conclude(env, log, c, proposalEvent, o);
      && IsReport(c, out.result.value) && out.log == log + Emitted(out.result.value)[1..]
      && out.result.value.proposalEvent == proposalEvent
  {
    hide AppendEvent, EvaluateProof, ValidProof, Decide, DecideRelease, AppendMismatches, TailOptions, WellFormed,
      Envelope, Fold, Emitted;
    var at := o.generatedAt.GetOr(proposalEvent.occurredAt);
    var proof := EvaluateProof(env.hash, ProofInputOf(Fold(log), c, at, o.proofId));
    var options := TailOptions(o, o.proofEventId, at, proposalEvent.eventId);
    AppendedFields(env, log, ProofGenerated(proof), options, at);
    var out := AppendEvent(env, log, ProofGenerated(proof), options, at);
    var e := out.result.value;
    MismatchesReport(env, out.log, proof.blockingMismatches, 0, o, at, e.eventId);
    var rest := AppendMismatches(env, out.log, proof.blockingMismatches, 0, o, at, e.eventId);
    DecideReports(env, rest.log, c, proposalEvent, e, proof, rest.result.value, at, o);
    var r := Conclude(env, log, c, proposalEvent, o).result.value;
    EmittedTail(r);
    var last := if r.finalReleasedEvent.Some? then [r.finalReleasedEvent.value] else [];
    Regroup(log, [e], rest.result.value, [r.releaseEvent] + last);
  }

  /** What a submission emits behind its proposal. */
  lemma EmittedTail(r: FinalResult)
    ensures Emitted(r)[1..] == [r.proofEvent] + r.mismatchEvents
           + ([r.releaseEvent] + if r.finalReleasedEvent.Some? then [r.finalReleasedEvent.value] else [])
  {
  }

  lemma Regroup(a: seq<RunEvent>, b: seq<RunEvent>, c: seq<RunEvent>, d: seq<RunEvent>)
    ensures a + b + c + d == a + (b + c + d)
  {
  }

  lemma ConcludeAgain(env: Env, log: seq<RunEvent>, c: FinalCandidate, proposalEvent: RunEvent, o: FinalOptions,
                      finalReleasedEventId: Option<string>)
    requires Conclude(env, log, c, proposalEvent, o).result.Ok?
    requires proposalEvent.payload == ProposalReceived(FinalProposal(c))
    requires proposalEvent.correlationId == o.event.correlationId.GetOr(None)
    requires var r := Conclude(env, log, c, proposalEvent, o).result.value;
      r.finalReleasedEvent.Some? ==> finalReleasedEventId == Some(r.finalReleasedEvent.value.eventId)
    ensures var out := Conclude(env, log, c, proposalEvent, o);
      Conclude(env, log, c, proposalEvent, RecordedOptions(out.result.value, finalReleasedEventId)) == out
  {
    hide AppendEvent, EvaluateProof, ValidProof, Decide, DecideRelease, AppendMismatches, TailOptions, Fold, Map;
    var r := Conclude(env, log, c, proposalEvent, o).result.value;
    var again := RecordedOptions(r, finalReleasedEventId);
    var at := o.generatedAt.GetOr(proposalEvent.occurredAt);
    var input := ProofInputOf(Fold(log), c, at, o.proofId);
    var proof := EvaluateProof(env.hash, input);
    ProofIdIsStable(env.hash, input);
    var options := TailOptions(o, o.proofEventId, at, proposalEvent.eventId);
    var out := AppendEvent(env, log, ProofGenerated(proof), options, at);
    var e := out.result.value;
    var rest := AppendMismatches(env, out.log, proof.blockingMismatches, 0, o, at, e.eventId);
    DecideReports(env, rest.log, c, proposalEvent, e, proof, rest.result.value, at, o);
    TailAgain(env, log, ProofGenerated(proof), o, again, o.proofEventId, at, proposalEvent.eventId);
    assert NamesEvents(again.mismatchEventIds.value, 0, rest.result.value);
    MismatchesAgain(env, out.log, proof.blockingMismatches, 0, o, again, at, e.eventId);
    DecideAgain(env, rest.log, c, proposalEvent, e, proof, rest.result.value, at, o, again);
  }

  /** A completed submission adds its events to the log and reports them. */
  lemma SubmissionReports(env: Env, log: seq<RunEvent>, c: FinalCandidate, o: FinalOptions, clock: Timestamp)
    requires SubmitFinal(env, log, c, o, clock).result.Ok?
    ensures var out := SubmitFinal(env, log, c, o, clock);
      IsReport(c, out.result.value) && out.log == log + Emitted(out.result.value)
  {
    hide AppendEvent, Conclude, Fold, WellFormed, Envelope, ValidCandidate, IsReport;
    var options := WithDefaultCausation(Fold(log), o.event);
    AppendedFields(env, log, ProposalReceived(FinalProposal(c)), options, clock);
    var out := AppendEvent(env, log, ProposalReceived(FinalProposal(c)), options, clock);
    ConcludeReports(env, out.log, c, out.result.value, o);
    var r := SubmitFinal(env, log, c, o, clock).result.value;
    assert Emitted(r) == [r.proposalEvent] + Emitted(r)[1..];
  }

  /** Submitting again with what was recorded, at any time, gives the same events and the same result. */
  lemma SubmitAgain(env: Env, log: seq<RunEvent>, c: FinalCandidate, o: FinalOptions, clock: Timestamp,
                    finalReleasedEventId: Option<string>, clockNow: Timestamp)
    requires SubmitFinal(env, log, c, o, clock).result.Ok?
    requires var r := SubmitFinal(env, log, c, o, clock).result.value;
      r.finalReleasedEvent.Some? ==> finalReleasedEventId == Some(r.finalReleasedEvent.value.eventId)
    ensures var out := SubmitFinal(env, log, c, o, clock);
      SubmitFinal(env, log, c, RecordedOptions(out.result.value, finalReleasedEventId), clockNow) == out
  {
    hide AppendEvent, Conclude, Fold, WellFormed, Envelope, ValidCandidate, IsReport, Map;
    var payload, options := ProposalReceived(FinalProposal(c)), WithDefaultCausation(Fold(log), o.event);
    AppendedFields(env, log, payload, options, clock);
    var out := AppendEvent(env, log, payload, options, clock);
    var e := out.result.value;
    ConcludeReports(env, out.log, c, e, o);
    ConcludeAgain(env, out.log, c, e, o, finalReleasedEventId);
    AppendAgain(env, log, e, clockNow);
    assert WithDefaultCausation(Fold(log), OptionsFrom(e)) == OptionsFrom(e);
  }
}
