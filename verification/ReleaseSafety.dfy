// The kernel's central promise: a final answer is released only when every one
// of its claims is backed by evidence the run admitted before it was made.
module ReleaseSafety {
  import opened Wrappers
  import opened Protocol
  import opened Contracts
  import opened EventLog
  import opened LogHistory
  import opened EvidenceResolver
  import opened ProofEngine
  import opened ClaimTerms
  import opened ProofProperties
  import opened ReleaseGate
  import opened KernelSpec
  import opened KernelInvariants
  import opened RunGrowth

  /** The event at j records a succeeded receipt for an effect requested earlier still. */
  predicate IsGoodReceipt(env: Env, log: seq<RunEvent>, j: nat)
    requires j < |log|
  {
    && log[j].payload.EffectReceiptRecorded?
    && var r := log[j].payload.receipt;
       && r.runId == env.runId && r.status == Succeeded && r.payloadHash == env.hash(OfObject(r.payload))
       && exists m :: && 0 <= m < j && log[m].payload.EffectRequested?
                      && log[m].payload.effectRequest.effectId == r.effectId
                      && log[m].payload.effectRequest.capabilityId == r.capabilityId
  }

  predicate IsGoodObservation(env: Env, log: seq<RunEvent>, j: nat)
    requires j < |log|
  {
    && log[j].payload.ExternalStateObserved?
    && var o := log[j].payload.observation;
       o.runId == env.runId && o.payloadHash == env.hash(OfObject(o.observedState))
  }

  /** The event at j is the one this reference names, and it makes the claim true as of `at`. */
  ghost predicate Proves(env: Env, log: seq<RunEvent>, j: nat, ref: EvidenceRef, claim: Claim, at: Timestamp)
    requires j < |log|
  {
    && ref.sourceEventId == log[j].eventId
    && if claim.condition.CurrentState? then
         && ref.kind == ExternalObservationEvidence && IsGoodObservation(env, log, j)
         && ref.hash == log[j].payload.observation.payloadHash
         && ObservationShows(log[j].payload.observation, claim.condition, at)
       else
         && ref.kind == EffectReceiptEvidence && IsGoodReceipt(env, log, j)
         && ref.hash == log[j].payload.receipt.payloadHash
         && ReceiptShows(log[j].payload.receipt, claim.condition)
  }

  /** Some evidence of the claim is an event among the first n that proves it. */
  ghost predicate IsBacked(env: Env, log: seq<RunEvent>, n: nat, claim: Claim, at: Timestamp)
    requires n <= |log|
  {
    exists ref, j :: ref in claim.evidenceRefs && 0 <= j < n && Proves(env, log, j, ref, claim, at)
  }

  /** An event that no submission generates was recorded by an admitted call. */
  lemma CallBehind(env: Env, log: seq<RunEvent>, i: nat) returns (call: Call, committedAt: Timestamp)
    requires AllJustified(env, log) && i < |log| && !IsGenerated(log[i].payload)
    ensures Admit(env, Fold(log[..i]), call, log[i].eventId, committedAt).None?
    ensures log[i].payload == PayloadOf(env, Fold(log[..i]), call, committedAt)
  {
    hide WellFormed, EvaluateProof, DecideRelease, Fold, PayloadOf, Admit, Envelope;
    assert Justified(env, log, i);
    call, committedAt :| && Admit(env, Fold(log[..i]), call, log[i].eventId, committedAt).None?
                         && log[i].payload == PayloadOf(env, Fold(log[..i]), call, committedAt);
  }

  /** A kept payload in the fold of a prefix was recorded by an earlier event. */
  lemma RecordedBefore(log: seq<RunEvent>, n: nat, p: Payload) returns (j: nat)
    requires n <= |log| && IsKept(p) && Holds(Fold(log[..n]), p)
    ensures j < n && log[j].payload == p && WellFormed(log[j])
  {
    hide Holds, WellFormed, Fold;
    HoldsIsRecorded(log[..n], p);
    RecordedEarlier(log, n, p);
    j :| 0 <= j < n && log[j].payload == p && WellFormed(log[j]);
  }

  lemma ReceiptAdmitted(env: Env, log: seq<RunEvent>, n: nat, r: EffectReceipt) returns (j: nat)
    requires AllJustified(env, log) && n <= |log| && r in Fold(log[..n]).effectReceipts
    ensures j < n && log[j].payload == EffectReceiptRecorded(r) && WellFormed(log[j])
    ensures r.runId == env.runId && CheckReceipt(env, Fold(log[..j]), r, log[j].eventId).None?
  {
    hide WellFormed, Fold, CheckReceipt, ValidCall, AllJustified;
    j := RecordedBefore(log, n, EffectReceiptRecorded(r));
    var call, at := CallBehind(env, log, j);
  }

  lemma ObservationAdmitted(env: Env, log: seq<RunEvent>, n: nat, o: ExternalStateObservation) returns (j: nat)
    requires AllJustified(env, log) && n <= |log| && o in Fold(log[..n]).observations
    ensures j < n && log[j].payload == ExternalStateObserved(o) && WellFormed(log[j])
    ensures o.runId == env.runId && CheckObservation(env, o, log[j].eventId).None?
  {
    hide WellFormed, Fold, CheckObservation, ValidCall, AllJustified;
    j := RecordedBefore(log, n, ExternalStateObserved(o));
    var call, at := CallBehind(env, log, j);
  }

  lemma EffectWasRequested(log: seq<RunEvent>, j: nat, r: EffectReceipt)
    requires j < |log| && CheckEffectRequest(Fold(log[..j]), r).None?
    ensures exists m :: && 0 <= m < j && log[m].payload.EffectRequested?
                        && log[m].payload.effectRequest.effectId == r.effectId
                        && log[m].payload.effectRequest.capabilityId == r.capabilityId
  {
    hide WellFormed, Fold;
    var q := Find(Fold(log[..j]).effectRequests, (q: EffectRequest) => q.effectId == r.effectId).value;
    var m := RecordedBefore(log, j, EffectRequested(q));
  }

  lemma ReceiptClaimBacked(env: Env, log: seq<RunEvent>, n: nat, input: ProofInput, claim: Claim)
    requires AllJustified(env, log) && n <= |log| && !claim.condition.CurrentState?
    requires input.effectReceipts == Fold(log[..n]).effectReceipts
    requires IsSupported(env.hash, input, claim)
    ensures IsBacked(env, log, n, claim, input.generatedAt)
  {
    hide WellFormed, Fold, ReceiptShows, AllJustified;
    var ref, r :| ReceiptBehind(env.hash, input, claim, ref, r) && ReceiptShows(r, claim.condition);
    var j := ReceiptAdmitted(env, log, n, r);
    EffectWasRequested(log, j, r);
    var k :| 0 <= k < |r.evidence| && NameTheSame(ref, r.evidence[k]);
    assert Proves(env, log, j, ref, claim, input.generatedAt);
  }

  lemma StateClaimBacked(env: Env, log: seq<RunEvent>, n: nat, input: ProofInput, claim: Claim)
    requires AllJustified(env, log) && n <= |log| && claim.condition.CurrentState?
    requires input.observations == Fold(log[..n]).observations
    requires IsSupported(env.hash, input, claim)
    ensures IsBacked(env, log, n, claim, input.generatedAt)
  {
    hide WellFormed, Fold, ObservationShows, AllJustified;
    var ref, o :| && ObservationBehind(env.hash, input, claim, ref, o)
                  && ObservationShows(o, claim.condition, input.generatedAt);
    var j := ObservationAdmitted(env, log, n, o);
    var k :| 0 <= k < |o.evidence| && NameTheSame(ref, o.evidence[k]);
    assert Proves(env, log, j, ref, claim, input.generatedAt);
  }

  /** The decision approves every claim of the candidate, in order, and its message has one line for each. */
  predicate IsWhole(d: ReleaseDecision, c: FinalCandidate) {
    && d.approvedClaimIds == Map(c.claims, IdOfClaim())
    && d.status == Released(if c.claims == [] then None else Some(Map(c.claims, RenderClaim)))
  }

  /** A release at i is the last of four consecutive events, and its claims are backed by earlier ones. */
  ghost predicate IsSafeRelease(env: Env, log: seq<RunEvent>, i: nat)
    requires i < |log|
  {
    && i >= 3
    && log[i].payload.FinalReleased? && log[i - 1].payload.ReleaseDecided? && log[i - 2].payload.ProofGenerated?
    && log[i - 3].payload == ProposalReceived(FinalProposal(log[i].payload.released))
    && log[i - 2].payload.proof.verdict == Pass
    && log[i - 2].payload.proof.candidateId == log[i].payload.released.candidateId
    && log[i - 1].payload.decision.status.Released?
    && log[i - 1].payload.decision == log[i].payload.releasedDecision
    && IsWhole(log[i].payload.releasedDecision, log[i].payload.released)
    && forall claim :: claim in log[i].payload.released.claims ==>
         IsBacked(env, log, i - 3, claim, log[i - 2].payload.proof.generatedAt)
  }

  /** The proposal of a candidate adds no evidence. */
  lemma CandidateAddsNoEvidence(log: seq<RunEvent>, p: nat)
    requires 1 <= p <= |log| && log[p - 1].payload.ProposalReceived?
    ensures Fold(log[..p]).effectReceipts == Fold(log[..p - 1]).effectReceipts
    ensures Fold(log[..p]).observations == Fold(log[..p - 1]).observations
  {
    assert log[..p] == log[..p - 1] + [log[p - 1]];
    FoldAppend(log[..p - 1], log[p - 1]);
  }

  lemma {:induction false} ReleaseIsSafe(env: Env, log: seq<RunEvent>, p: nat, i: nat)
    requires AllJustified(env, log) && p + 1 < i < |log| && IsRelease(env, log, p, i)
    ensures IsSafeRelease(env, log, i)
  {
    hide EvaluateProof, DecideRelease, WellFormed, Fold, IsBacked, IsSupported, Map;
    var c, proof := log[p - 1].payload.proposal.candidate, log[p].payload.proof;
    var input := ProofInputOf(Fold(log[..p]), c, proof.generatedAt, Some(proof.proofId));
    GateReleasesSupported(env.hash, input);
    VerdictMeaning(env.hash, input);
    ProofNamesCandidate(env.hash, input);
    CandidateAddsNoEvidence(log, p);
    ReleaseIsWhole(env.hash, input);
    assert i == p + 2;
    forall claim | claim in c.claims
      ensures IsBacked(env, log, p - 1, claim, proof.generatedAt)
    {
      assert IsSupported(env.hash, input, claim);
      if claim.condition.CurrentState? {
        StateClaimBacked(env, log, p - 1, input, claim);
      } else {
        ReceiptClaimBacked(env, log, p - 1, input, claim);
      }
    }
  }

  lemma ProofNamesCandidate(hash: Hasher, input: ProofInput)
    ensures EvaluateProof(hash, input).candidateId == input.candidate.candidateId
  {
  }

  /**
   * Release safety: in every run, whatever was called in whatever order and whichever calls threw, each
   * `FinalReleased` event closes a passing proof and a released decision on its own candidate, and each claim
   * it releases is proved by an admitted event that precedes the candidate.
   */
  lemma ReleaseSafety(env: Env, requests: seq<Request>, i: nat)
    requires i < |Run(env, requests)| && Run(env, requests)[i].payload.FinalReleased?
    ensures IsSafeRelease(env, Run(env, requests), i)
  {
    hide EvaluateProof, DecideRelease, WellFormed, Fold, Run, IsSafeRelease;
    var log := Run(env, requests);
    RunJustified(env, requests);
    assert Justified(env, log, i);
    if p :| 0 <= p < i - 1 && IsRelease(env, log, p, i) {
      ReleaseIsSafe(env, log, p, i);
    }
  }

  /**
   * What a release means for a claim about a state: before its candidate, an observation of this very subject was
   * recorded that shows the claimed value, and it was fresh when the proof was made.
   */
  lemma ReleasedStateWasObserved(env: Env, requests: seq<Request>, i: nat, claim: Claim) returns (j: nat)
    requires i < |Run(env, requests)| && Run(env, requests)[i].payload.FinalReleased?
    requires claim in Run(env, requests)[i].payload.released.claims && claim.condition.CurrentState?
    ensures j + 3 < i && Run(env, requests)[j].payload.ExternalStateObserved?
    ensures var o, p := Run(env, requests)[j].payload.observation, claim.condition;
      && o.subjectType == p.subjectType && o.subjectId == p.subjectId && p.property in o.observedState
      && o.observedAt.parsed.Some?
      && (p.operator == Equals ==> o.observedState[p.property] == p.expectedValue)
      && (p.operator == NotEquals ==> o.observedState[p.property] != p.expectedValue)
      && (p.operator == Contains ==> HasValue(o.observedState[p.property], p.expectedValue))
  {
    hide Run, HasValue;
    ReleaseSafety(env, requests, i);
    var log := Run(env, requests);
    assert IsBacked(env, log, i - 3, claim, log[i - 2].payload.proof.generatedAt);
    var ref, k :| && ref in claim.evidenceRefs && 0 <= k < i - 3
                  && Proves(env, log, k, ref, claim, log[i - 2].payload.proof.generatedAt);
    j := k;
  }

  /** And for a claim about an action or a test: a succeeded receipt that says so, of an effect requested before. */
  lemma ReleasedActionWasRecorded(env: Env, requests: seq<Request>, i: nat, claim: Claim) returns (j: nat)
    requires i < |Run(env, requests)| && Run(env, requests)[i].payload.FinalReleased?
    requires claim in Run(env, requests)[i].payload.released.claims && !claim.condition.CurrentState?
    ensures j + 3 < i && Run(env, requests)[j].payload.EffectReceiptRecorded?
    ensures var r, p := Run(env, requests)[j].payload.receipt, claim.condition;
      && r.status == Succeeded && r.receiptType == p.requiredReceiptType && r.capabilityId == p.capabilityId
      && (p.TestResult? ==> "result" in r.payload && r.payload["result"] == Str(p.expectedStatus))
      && (p.HistoricalAction? ==> "actionVerb" in r.payload && r.payload["actionVerb"] == Str(p.actionVerb))
  {
    hide Run;
    ReleaseSafety(env, requests, i);
    var log := Run(env, requests);
    assert IsBacked(env, log, i - 3, claim, log[i - 2].payload.proof.generatedAt);
    var ref, k :| && ref in claim.evidenceRefs && 0 <= k < i - 3
                  && Proves(env, log, k, ref, claim, log[i - 2].payload.proof.generatedAt);
    j := k;
  }
}
