// A run only ever adds to its log, and a submission adds only events of its own.
module RunGrowth {
  import opened Wrappers
  import opened Protocol
  import opened Contracts
  import opened EventLog
  import opened ProofEngine
  import opened ReleaseGate
  import opened KernelSpec

  /** The payloads only a submission records. */
  predicate IsGenerated(p: Payload) {
    || p.ProofGenerated? || p.MismatchDetected? || p.ReleaseDecided? || p.FinalReleased?
    || (p.ProposalReceived? && p.proposal.FinalProposal?)
  }

  /** A run only ever adds to its log. */
  lemma {:induction false} RunExtends(env: Env, requests: seq<Request>, more: seq<Request>)
    ensures Run(env, requests) <= Run(env, requests + more)
  {
    hide Record, SubmitFinal;
    if more == [] {
      assert requests + more == requests;
    } else {
      var front, last := more[..|more| - 1], more[|more| - 1];
      RunExtends(env, requests, front);
      assert (requests + more)[..|requests + more| - 1] == requests + front;
      CallExtends(env, Run(env, requests + front), last);
    }
  }

  lemma CallExtends(env: Env, log: seq<RunEvent>, r: Request)
    ensures log <= After(env, log, r)
  {
    hide WellFormed, Fold, SubmitFinal, Admit;
    if r.Submission? {
      SubmitGenerates(env, log, r.candidate, r.finalOptions, r.clock);
    }
  }

  /** The second log adds only events that submissions generate. */
  predicate Generates(log: seq<RunEvent>, longer: seq<RunEvent>) {
    log <= longer && forall i :: |log| <= i < |longer| ==> IsGenerated(longer[i].payload)
  }

  lemma AppendGenerates(env: Env, log: seq<RunEvent>, payload: Payload, o: EventOptions, now: Timestamp)
    requires IsGenerated(payload)
    ensures Generates(log, AppendEvent(env, log, payload, o, now).log)
  {
    hide WellFormed, IsGenerated;
  }

  lemma SubmitGenerates(env: Env, log: seq<RunEvent>, c: FinalCandidate, o: FinalOptions, clock: Timestamp)
    ensures Generates(log, SubmitFinal(env, log, c, o, clock).log)
  {
    hide WellFormed, Fold, Conclude, AppendEvent, ValidCandidate;
    var payload, options := ProposalReceived(FinalProposal(c)), WithDefaultCausation(Fold(log), o.event);
    AppendGenerates(env, log, payload, options, clock);
    var out := AppendEvent(env, log, payload, options, clock);
    if out.result.Ok? {
      ConcludeGenerates(env, out.log, c, out.result.value, o);
    }
  }

  lemma ConcludeGenerates(env: Env, log: seq<RunEvent>, c: FinalCandidate, proposalEvent: RunEvent, o: FinalOptions)
    ensures Generates(log, Conclude(env, log, c, proposalEvent, o).log)
  {
    hide WellFormed, Fold, EvaluateProof, ValidProof, AppendEvent, Decide;
    var at := o.generatedAt.GetOr(proposalEvent.occurredAt);
    var proof := EvaluateProof(env.hash, ProofInputOf(Fold(log), c, at, o.proofId));
    var options := TailOptions(o, o.proofEventId, at, proposalEvent.eventId);
    AppendGenerates(env, log, ProofGenerated(proof), options, at);
    var out := AppendEvent(env, log, ProofGenerated(proof), options, at);
    if out.result.Ok? {
      var e := out.result.value;
      MismatchesGenerate(env, out.log, proof.blockingMismatches, 0, o, at, e.eventId);
      var rest := AppendMismatches(env, out.log, proof.blockingMismatches, 0, o, at, e.eventId);
      if rest.result.Ok? {
        DecideGenerates(env, rest.log, c, proposalEvent, e, proof, rest.result.value, at, o);
      }
    }
  }

  lemma DecideGenerates(env: Env, log: seq<RunEvent>, c: FinalCandidate, proposalEvent: RunEvent, proofEvent: RunEvent,
                        proof: ProofObject, mismatchEvents: seq<RunEvent>, at: Timestamp, o: FinalOptions)
    ensures Generates(log, Decide(env, log, c, proposalEvent, proofEvent, proof, mismatchEvents, at, o).log)
  {
    hide WellFormed, DecideRelease, ValidDecision, AppendEvent;
    var decision := DecideRelease(c, proof);
    var options := TailOptions(o, o.releaseEventId, at, proofEvent.eventId);
    AppendGenerates(env, log, ReleaseDecided(decision), options, at);
    var out := AppendEvent(env, log, ReleaseDecided(decision), options, at);
    if out.result.Ok? {
      AppendGenerates(env, out.log, FinalReleased(decision, c),
                      TailOptions(o, o.finalReleasedEventId, at, out.result.value.eventId), at);
    }
  }

  lemma {:induction false} MismatchesGenerate(env: Env, log: seq<RunEvent>, mismatches: seq<Mismatch>, done: nat,
                                              o: FinalOptions, at: Timestamp, id: string)
    requires done <= |mismatches|
    ensures Generates(log, AppendMismatches(env, log, mismatches, done, o, at, id).log)
    decreases |mismatches| - done
  {
    hide AppendEvent;
    if done < |mismatches| && !(o.mismatchEventIds.Some? && done >= |o.mismatchEventIds.value|) {
      var eventId := if o.mismatchEventIds.Some? then Some(o.mismatchEventIds.value[done]) else None;
      var options := TailOptions(o, eventId, at, id);
      AppendGenerates(env, log, MismatchDetected(mismatches[done]), options, at);
      var out := AppendEvent(env, log, MismatchDetected(mismatches[done]), options, at);
      if out.result.Ok? {
        MismatchesGenerate(env, out.log, mismatches, done + 1, o, at, id);
      }
    }
  }
}
