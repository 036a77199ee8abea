// Exactly when a final submission completes, and what it then releases.
module SubmissionOutcome {
  import opened Wrappers
  import opened Protocol
  import opened Contracts
  import opened EventLog
  import opened EvidenceResolver
  import opened ProofEngine
  import opened ProofProperties
  import opened ReleaseGate
  import opened KernelSpec
  import opened RunGrowth
  import opened RecordingOutcome
  import opened Resubmission

  // The engine's own output always fits its schema

  predicate IsValidEvaluation(e: ClaimEvaluation) {
    ValidClaimProof(e.claimProof) && forall m :: m in e.mismatches ==> ValidMismatch(m)
  }

  lemma RejectedIsValid(input: ProofInput, claim: Claim, index: nat, t: MismatchType)
    requires NonEmpty(claim.claimId) && NonEmpty(input.candidate.runId)
    ensures IsValidEvaluation(Rejected(input, claim, index, t))
  {
    hide SanitizeIdPart, MismatchText, Decimal;
    assert BuildMismatchId(claim.claimId, t, index)[0] == 'm';
  }

  lemma EvaluationIsValid(hash: Hasher, input: ProofInput, claim: Claim, index: nat)
    requires ValidClaim(claim) && NonEmpty(input.candidate.runId)
    ensures IsValidEvaluation(EvaluateClaim(hash, input, claim, index))
  {
    hide IsValidEvaluation, ReceiptMatches, StateSatisfies, IsFresh, IdentityMatches, AdmittedReceipt,
      AdmittedObservation, ValidClaimPredicate, ValidEvidenceRef, Rejected, Supported, Resolve, Filter, Find, Carries,
      AdmittedReceipts, AdmittedObservations;
    RejectedIsValid(input, claim, index, MissingEvidence);
    RejectedIsValid(input, claim, index, UnverifiedReceipt);
    RejectedIsValid(input, claim, index, UnsupportedClaim);
    RejectedIsValid(input, claim, index, StaleExternalState);
    ResolveMembers(RefsOfKind(claim, EffectReceiptEvidence), AdmittedReceipts(hash, input), ReceiptEvidence());
    ResolveMembers(RefsOfKind(claim, ExternalObservationEvidence), AdmittedObservations(hash, input),
                   ObservationEvidence());
    forall ref | ref in claim.evidenceRefs
      ensures IsValidEvaluation(Supported(claim, ref))
    {
      SupportedIsValid(claim, ref);
    }
  }

  lemma SupportedIsValid(claim: Claim, ref: EvidenceRef)
    requires NonEmpty(claim.claimId) && ValidEvidenceRef(ref)
    ensures IsValidEvaluation(Supported(claim, ref))
  {
  }

  lemma {:induction false} BlockingIsValid(es: seq<ClaimEvaluation>)
    requires forall e :: e in es ==> IsValidEvaluation(e)
    ensures forall m :: m in BlockingOf(es) ==> ValidMismatch(m)
  {
    if es != [] {
      BlockingIsValid(es[..|es| - 1]);
      assert IsValidEvaluation(es[|es| - 1]);
    }
  }

  lemma ClaimIdsAreNonEmpty(proofs: seq<ClaimProof>, supported: bool)
    requires forall p :: p in proofs ==> NonEmpty(p.claimId)
    ensures AllNonEmpty(ClaimIds(proofs, supported))
  {
  }

  /** On a valid candidate the engine's proof fits its schema exactly when its time and its given id do. */
  lemma ProofIsValid(hash: Hasher, input: ProofInput)
    requires ValidCandidate(input.candidate)
    ensures ValidProof(EvaluateProof(hash, input))
       <==> ValidTime(input.generatedAt) && input.proofId != Some("")
  {
    hide EvaluateClaim, ValidClaim, ValidTime, ValidMismatch, ClaimIds, BlockingOf, SanitizeIdPart;
    var n := |input.candidate.claims|;
    var es := Evaluations(hash, input, n);
    forall i | 0 <= i < n
      ensures IsValidEvaluation(es[i])
    {
      EvaluationAt(hash, input, n, i);
      EvaluationIsValid(hash, input, input.candidate.claims[i], i);
    }
    BlockingIsValid(es);
    var proof := EvaluateProof(hash, input);
    assert forall p :: p in proof.claims ==> ValidClaimProof(p);
    ClaimIdsAreNonEmpty(proof.claims, true);
    ClaimIdsAreNonEmpty(proof.claims, false);
    assert BuildProofId(input.candidate, input.generatedAt)[0] == 'p';
  }

  // The ids of a submission

  /** None of the ids is blank, taken or used twice. */
  predicate AreFresh(taken: set<string>, ids: seq<string>)
    decreases |ids|
  {
    ids == [] || (!IsBlank(ids[0]) && ids[0] !in taken && AreFresh(taken + {ids[0]}, ids[1..]))
  }

  lemma {:induction false} FreshSplit(taken: set<string>, a: seq<string>, b: seq<string>)
    ensures AreFresh(taken, a + b) <==> AreFresh(taken, a) && AreFresh(taken + Elements(a), b)
    decreases |a|
  {
    hide IsBlank;
    if a == [] {
      assert a + b == b && taken + Elements(a) == taken;
    } else {
      assert (a + b)[1..] == a[1..] + b;
      FreshSplit(taken + {a[0]}, a[1..], b);
      assert a == [a[0]] + a[1..];
      assert taken + {a[0]} + Elements(a[1..]) == taken + Elements(a);
    }
  }

  function Elements(ids: seq<string>): set<string> {
    set id | id in ids
  }

  lemma FreshOne(taken: set<string>, id: string)
    ensures AreFresh(taken, [id]) <==> !IsBlank(id) && id !in taken
  {
    hide IsBlank;
    assert AreFresh(taken + {id}, []);
  }

  /** Whether a mismatch event is left without a given id. */
  predicate EnoughIds(o: FinalOptions, count: nat) {
    o.mismatchEventIds.Some? ==> count <= |o.mismatchEventIds.value|
  }

  /** The ids of the mismatch events from `done` up to `count`, on a log of n events. */
  function MismatchIds(env: Env, n: nat, done: nat, count: nat, o: FinalOptions): (ids: seq<string>)
    requires EnoughIds(o, count)
    ensures done <= count ==> |ids| == count - done
    decreases count - done
  {
    if done >= count then []
    else
      var given := if o.mismatchEventIds.Some? then Some(o.mismatchEventIds.value[done]) else None;
      [IdUsed(env, n, given, "MismatchDetected")] + MismatchIds(env, n + 1, done + 1, count, o)
  }

  function LastIds(env: Env, n: nat, count: nat, o: FinalOptions): seq<string> {
    [IdUsed(env, n, o.releaseEventId, "ReleaseDecided")]
    + if count == 0 then [IdUsed(env, n + 1, o.finalReleasedEventId, "FinalReleased")] else []
  }

  function TailIds(env: Env, n: nat, count: nat, o: FinalOptions): seq<string>
    requires EnoughIds(o, count)
  {
    [IdUsed(env, n, o.proofEventId, "ProofGenerated")]
    + (MismatchIds(env, n + 1, 0, count, o) + LastIds(env, n + 1 + count, count, o))
  }

  /** The ids of a submission with `count` mismatches: proposal, proof, mismatches, decision and, with none, release. */
  function SubmissionIds(env: Env, n: nat, count: nat, o: FinalOptions): seq<string>
    requires EnoughIds(o, count)
  {
    [IdUsed(env, n, o.event.eventId, "ProposalReceived")] + TailIds(env, n + 1, count, o)
  }

  /** The events behind the proposal: their options fit whenever these three things hold. */
  predicate TailFits(env: Env, log: seq<RunEvent>, o: FinalOptions, at: Timestamp, cause: string) {
    && !IsBlank(env.runId) && ValidTime(at) && !IsBlank(cause) && cause in EventIds(log)
    && var correlation := o.event.correlationId.GetOr(None);
       correlation.Some? ==> !IsBlank(correlation.value)
  }

  /** The second log is the first with events of these ids added. */
  predicate Adds(log: seq<RunEvent>, longer: seq<RunEvent>, ids: seq<string>) {
    |longer| == |log| + |ids| && EventIds(longer) == EventIds(log) + Elements(ids)
  }

  lemma AddsTwice(log: seq<RunEvent>, mid: seq<RunEvent>, longer: seq<RunEvent>, a: seq<string>, b: seq<string>)
    requires Adds(log, mid, a) && Adds(mid, longer, b)
    ensures Adds(log, longer, a + b)
  {
    assert Elements(a + b) == Elements(a) + Elements(b);
  }

  /** One event behind the proposal, followed by the others. */
  lemma TailAppends(env: Env, log: seq<RunEvent>, payload: Payload, o: FinalOptions, given: Option<string>,
                    at: Timestamp, cause: string, rest: seq<string>)
    requires TailFits(env, log, o, at, cause) && ValidPayload(payload)
    ensures var out, id := AppendEvent(env, log, payload, TailOptions(o, given, at, cause), at),
                           IdUsed(env, |log|, given, TypeName(payload));
      && (out.result.Err? ==> !AreFresh(EventIds(log), [id] + rest))
      && (out.result.Ok? ==>
            && Adds(log, out.log, [id]) && out.result.value.eventId == id
            && TailFits(env, out.log, o, at, cause) && TailFits(env, out.log, o, at, id)
            && (AreFresh(EventIds(log), [id] + rest) <==> AreFresh(EventIds(out.log), rest)))
  {
    hide AppendEvent, ValidPayload, NextEventId, IsBlank, AreFresh, ValidTime, TypeName;
    AppendSucceeds(env, log, payload, TailOptions(o, given, at, cause), at);
    var id := IdUsed(env, |log|, given, TypeName(payload));
    FreshOne(EventIds(log), id);
    FreshSplit(EventIds(log), [id], rest);
    assert Elements([id]) == {id};
  }

  lemma {:induction false} MismatchesComplete(env: Env, log: seq<RunEvent>, mismatches: seq<Mismatch>, done: nat,
                                              o: FinalOptions, at: Timestamp, cause: string)
    requires done <= |mismatches| && TailFits(env, log, o, at, cause)
    requires forall m :: m in mismatches ==> ValidMismatch(m)
    ensures var out := AppendMismatches(env, log, mismatches, done, o, at, cause);
      if done < |mismatches| && !EnoughIds(o, |mismatches|) then out.result.Err?
      else if done == |mismatches| then out == Outcome(log, Ok([]))
      else
        var ids := MismatchIds(env, |log|, done, |mismatches|, o);
        && (out.result.Ok? <==> AreFresh(EventIds(log), ids))
        && (out.result.Ok? ==> Adds(log, out.log, ids) && TailFits(env, out.log, o, at, cause))
    decreases |mismatches| - done
  {
    hide AppendEvent, IsBlank, NextEventId, ValidMismatch, ValidTime, IdUsed, TailFits, AreFresh, Adds, TailOptions;
    var count := |mismatches|;
    if done < count && !(o.mismatchEventIds.Some? && done >= |o.mismatchEventIds.value|) {
      var given := if o.mismatchEventIds.Some? then Some(o.mismatchEventIds.value[done]) else None;
      var payload := MismatchDetected(mismatches[done]);
      var id := IdUsed(env, |log|, given, "MismatchDetected");
      var rest := if EnoughIds(o, count) then MismatchIds(env, |log| + 1, done + 1, count, o) else [];
      TailAppends(env, log, payload, o, given, at, cause, rest);
      var out := AppendEvent(env, log, payload, TailOptions(o, given, at, cause), at);
      if out.result.Ok? {
        assert |out.log| == |log| + 1 by { Longer(log, out.log, [id]); }
        MismatchesComplete(env, out.log, mismatches, done + 1, o, at, cause);
        var all := AppendMismatches(env, out.log, mismatches, done + 1, o, at, cause);
        if done + 1 == count {
          assert rest == [];
          assert [id] + [] == [id];
          assert AreFresh(EventIds(out.log), []) by { NoneAreFresh(EventIds(out.log)); }
        } else if all.result.Ok? {
          AddsTwice(log, out.log, all.log, [id], rest);
        }
      }
    }
  }

  lemma Longer(log: seq<RunEvent>, longer: seq<RunEvent>, ids: seq<string>)
    requires Adds(log, longer, ids)
    ensures |longer| == |log| + |ids| && EventIds(longer) == EventIds(log) + Elements(ids)
  {
  }

  lemma NoneAreFresh(taken: set<string>)
    ensures AreFresh(taken, [])
  {
  }

  lemma DecideCompletes(env: Env, log: seq<RunEvent>, c: FinalCandidate, proposalEvent: RunEvent, proofEvent: RunEvent,
                        proof: ProofObject, mismatchEvents: seq<RunEvent>, at: Timestamp, o: FinalOptions)
    requires TailFits(env, log, o, at, proofEvent.eventId) && ValidProof(proof) && ValidCandidate(c)
    requires proof.verdict == Pass <==> proof.blockingMismatches == []
    requires forall m :: m in proof.blockingMismatches ==> m.blocking
    ensures Decide(env, log, c, proposalEvent, proofEvent, proof, mismatchEvents, at, o).result.Ok?
       <==> AreFresh(EventIds(log), LastIds(env, |log|, |proof.blockingMismatches|, o))
  {
    hide AppendEvent, IsBlank, NextEventId, ValidTime, IdUsed, TailFits, AreFresh, Adds, TailOptions, DecideRelease,
      ValidProof, ValidCandidate, Filter;
    DecisionIsValid(c, proof);
    FilterKeepsAll(proof.blockingMismatches, (m: Mismatch) => m.blocking);
    var decision, count := DecideRelease(c, proof), |proof.blockingMismatches|;
    assert decision.status.Released? <==> count == 0;
    var cause := proofEvent.eventId;
    var last := if count == 0 then [IdUsed(env, |log| + 1, o.finalReleasedEventId, "FinalReleased")] else [];
    TailAppends(env, log, ReleaseDecided(decision), o, o.releaseEventId, at, cause, last);
    var out := AppendEvent(env, log, ReleaseDecided(decision), TailOptions(o, o.releaseEventId, at, cause), at);
    if out.result.Ok? {
      NoneAreFresh(EventIds(out.log));
      if count == 0 {
        Longer(log, out.log, [out.result.value.eventId]);
        TailAppends(env, out.log, FinalReleased(decision, c), o, o.finalReleasedEventId, at,
                    out.result.value.eventId, []);
        var end := AppendEvent(env, out.log, FinalReleased(decision, c),
                               TailOptions(o, o.finalReleasedEventId, at, out.result.value.eventId), at);
        assert last + [] == last;
        if end.result.Ok? { NoneAreFresh(EventIds(end.log)); }
      }
    }
  }

  lemma AllMismatchesComplete(env: Env, log: seq<RunEvent>, mismatches: seq<Mismatch>, o: FinalOptions, at: Timestamp,
                              cause: string)
    requires TailFits(env, log, o, at, cause)
    requires forall m :: m in mismatches ==> ValidMismatch(m)
    ensures var out := AppendMismatches(env, log, mismatches, 0, o, at, cause);
      if !EnoughIds(o, |mismatches|) then out.result.Err?
      else
        var ids := MismatchIds(env, |log|, 0, |mismatches|, o);
        && (out.result.Ok? <==> AreFresh(EventIds(log), ids))
        && (out.result.Ok? ==> Adds(log, out.log, ids) && TailFits(env, out.log, o, at, cause))
  {
    hide TailFits, ValidMismatch, AppendEvent, IsBlank, IdUsed, TailOptions, NextEventId;
    MismatchesComplete(env, log, mismatches, 0, o, at, cause);
  }

  lemma ConcludeCompletes(env: Env, log: seq<RunEvent>, c: FinalCandidate, proposalEvent: RunEvent, o: FinalOptions)
    requires ValidCandidate(c) && ValidTime(o.generatedAt.GetOr(proposalEvent.occurredAt)) && o.proofId != Some("")
    requires TailFits(env, log, o, o.generatedAt.GetOr(proposalEvent.occurredAt), proposalEvent.eventId)
    ensures var input := ProofInputOf(Fold(log), c, o.generatedAt.GetOr(proposalEvent.occurredAt), o.proofId);
      var count := |EvaluateProof(env.hash, input).blockingMismatches|;
      Conclude(env, log, c, proposalEvent, o).result.Ok?
      <==> EnoughIds(o, count) && AreFresh(EventIds(log), TailIds(env, |log|, count, o))
  {
    hide AppendEvent, IsBlank, NextEventId, ValidTime, IdUsed, TailFits, AreFresh, Adds, TailOptions, ValidCandidate,
      EvaluateProof, Fold, AppendMismatches, Decide, MismatchIds, LastIds, IsSupported;
    var at := o.generatedAt.GetOr(proposalEvent.occurredAt);
    var input := ProofInputOf(Fold(log), c, at, o.proofId);
    var proof := EvaluateProof(env.hash, input);
    var count := |proof.blockingMismatches|;
    ProofIsValid(env.hash, input);
    VerdictMeaning(env.hash, input);
    var rest := if EnoughIds(o, count)
      then MismatchIds(env, |log| + 1, 0, count, o) + LastIds(env, |log| + 1 + count, count, o) else [];
    TailAppends(env, log, ProofGenerated(proof), o, o.proofEventId, at, proposalEvent.eventId, rest);
    var out := AppendEvent(env, log, ProofGenerated(proof),
                           TailOptions(o, o.proofEventId, at, proposalEvent.eventId), at);
    if out.result.Ok? {
      var e := out.result.value;
      Longer(log, out.log, [e.eventId]);
      AllMismatchesComplete(env, out.log, proof.blockingMismatches, o, at, e.eventId);
      var mid := AppendMismatches(env, out.log, proof.blockingMismatches, 0, o, at, e.eventId);
      if EnoughIds(o, count) {
        var ids, last := MismatchIds(env, |out.log|, 0, count, o), LastIds(env, |out.log| + count, count, o);
        FreshSplit(EventIds(out.log), ids, last);
        if mid.result.Ok? {
          Longer(out.log, mid.log, ids);
          DecideCompletes(env, mid.log, c, proposalEvent, e, proof, mid.result.value, at, o);
        }
      }
    }
  }

  lemma InvalidProofStops(env: Env, log: seq<RunEvent>, c: FinalCandidate, proposalEvent: RunEvent, o: FinalOptions)
    requires ValidCandidate(c)
    requires !ValidTime(o.generatedAt.GetOr(proposalEvent.occurredAt)) || o.proofId == Some("")
    ensures Conclude(env, log, c, proposalEvent, o) == Outcome(log, Err(SchemaInvalid))
  {
    hide AppendEvent, Fold, EvaluateProof, ValidProof, ValidCandidate, ValidTime, Decide, AppendMismatches;
    ProofIsValid(env.hash, ProofInputOf(Fold(log), c, o.generatedAt.GetOr(proposalEvent.occurredAt), o.proofId));
  }

  /** The first of a submission's events, seen from the ones behind it. */
  lemma ProposalAppends(env: Env, log: seq<RunEvent>, c: FinalCandidate, o: FinalOptions, clock: Timestamp)
    requires ValidCandidate(c)
    ensures var payload, options := ProposalReceived(FinalProposal(c)), WithDefaultCausation(Fold(log), o.event);
      var out, id := AppendEvent(env, log, payload, options, clock),
                     IdUsed(env, |log|, o.event.eventId, "ProposalReceived");
      && (out.result.Ok? <==>
            && ReferencesFit(log, options) && HashFits(env, payload, o.event) && !IsBlank(env.runId)
            && !IsBlank(id) && id !in EventIds(log) && ValidTime(ProposedAt(o, clock)))
      && (out.result.Ok? ==>
            && Adds(log, out.log, [id])
            && out.result.value.eventId == id && out.result.value.occurredAt == ProposedAt(o, clock)
            && (forall at :: ValidTime(at) ==> TailFits(env, out.log, o, at, id))
            && Fold(out.log).effectReceipts == Fold(log).effectReceipts
            && Fold(out.log).observations == Fold(log).observations)
  {
    hide AppendEvent, IsBlank, NextEventId, ValidTime, Fold, ValidCandidate;
    var payload, options := ProposalReceived(FinalProposal(c)), WithDefaultCausation(Fold(log), o.event);
    AppendSucceeds(env, log, payload, options, clock);
    var out := AppendEvent(env, log, payload, options, clock);
    if out.result.Ok? {
      AppendedFields(env, log, payload, options, clock);
      FoldAppend(log, out.result.value);
    }
  }

  function ProposedAt(o: FinalOptions, clock: Timestamp): Timestamp {
    o.event.occurredAt.GetOr(clock)
  }

  /** What the engine is given when the candidate is submitted now. */
  function SubmissionInput(log: seq<RunEvent>, c: FinalCandidate, o: FinalOptions, clock: Timestamp): ProofInput {
    ProofInputOf(Fold(log), c, o.generatedAt.GetOr(ProposedAt(o, clock)), o.proofId)
  }

  /** Everything a caller has to see to. */
  predicate IsSubmittable(env: Env, log: seq<RunEvent>, c: FinalCandidate, o: FinalOptions, clock: Timestamp) {
    var input := SubmissionInput(log, c, o, clock);
    var count := |EvaluateProof(env.hash, input).blockingMismatches|;
    && Fold(log).started.Some? && ValidCandidate(c) && c.runId == env.runId && !IsBlank(env.runId)
    && ReferencesFit(log, WithDefaultCausation(Fold(log), o.event))
    && HashFits(env, ProposalReceived(FinalProposal(c)), o.event)
    && ValidTime(ProposedAt(o, clock)) && ValidTime(input.generatedAt) && o.proofId != Some("")
    && EnoughIds(o, count) && AreFresh(EventIds(log), SubmissionIds(env, |log|, count, o))
  }

  /**
   * Exactly when a final submission completes: the run has started, the candidate is valid and of this run, its times,
   * references, hash and proof id are usable, there are enough mismatch ids, and the ids of all its events are fresh.
   */
  lemma SubmissionCompletes(env: Env, log: seq<RunEvent>, c: FinalCandidate, o: FinalOptions, clock: Timestamp)
    ensures SubmitFinal(env, log, c, o, clock).result.Ok? <==> IsSubmittable(env, log, c, o, clock)
  {
    hide AppendEvent, IsBlank, NextEventId, ValidTime, AreFresh, Adds, ValidCandidate, EvaluateProof, Fold, Conclude,
      IsSupported, TailIds, EventIds, ReferencesFit, HashFits, IdUsed, TailFits;
    if Fold(log).started.Some? && ValidCandidate(c) && c.runId == env.runId {
      var options := WithDefaultCausation(Fold(log), o.event);
      var id := IdUsed(env, |log|, o.event.eventId, "ProposalReceived");
      var count := |EvaluateProof(env.hash, SubmissionInput(log, c, o, clock)).blockingMismatches|;
      ProposalAppends(env, log, c, o, clock);
      var rest := if EnoughIds(o, count) then TailIds(env, |log| + 1, count, o) else [];
      FreshSplit(EventIds(log), [id], rest);
      FreshOne(EventIds(log), id);
      var out := AppendEvent(env, log, ProposalReceived(FinalProposal(c)), options, clock);
      if out.result.Ok? {
        var e := out.result.value;
        Longer(log, out.log, [id]);
        if ValidTime(o.generatedAt.GetOr(e.occurredAt)) && o.proofId != Some("") {
          ConcludeCompletes(env, out.log, c, e, o);
        } else {
          InvalidProofStops(env, out.log, c, e, o);
        }
      }
    }
  }

  lemma ConcludeDecides(env: Env, log: seq<RunEvent>, c: FinalCandidate, proposalEvent: RunEvent, o: FinalOptions)
    requires Conclude(env, log, c, proposalEvent, o).result.Ok?
    ensures var r := Conclude(env, log, c, proposalEvent, o).result.value;
      var input := ProofInputOf(Fold(log), c, o.generatedAt.GetOr(proposalEvent.occurredAt), o.proofId);
      && r.proof == EvaluateProof(env.hash, input) && r.decision == DecideRelease(c, r.proof)
      && (r.finalReleasedEvent.Some? <==> r.decision.status.Released?)
  {
    hide AppendEvent, Fold, EvaluateProof, ValidProof, Decide, AppendMismatches, TailOptions, DecideRelease;
    var at := o.generatedAt.GetOr(proposalEvent.occurredAt);
    var proof := EvaluateProof(env.hash, ProofInputOf(Fold(log), c, at, o.proofId));
    var out := AppendEvent(env, log, ProofGenerated(proof),
                           TailOptions(o, o.proofEventId, at, proposalEvent.eventId), at);
    var e := out.result.value;
    var mid := AppendMismatches(env, out.log, proof.blockingMismatches, 0, o, at, e.eventId);
    DecideReports(env, mid.log, c, proposalEvent, e, proof, mid.result.value, at, o);
  }

  /** A completed submission releases its candidate exactly when what was recorded before supports every claim. */
  lemma ReleasesTheSupported(env: Env, log: seq<RunEvent>, c: FinalCandidate, o: FinalOptions, clock: Timestamp)
    requires SubmitFinal(env, log, c, o, clock).result.Ok?
    ensures SubmitFinal(env, log, c, o, clock).result.value.finalReleasedEvent.Some?
       <==> forall claim :: claim in c.claims ==> IsSupported(env.hash, SubmissionInput(log, c, o, clock), claim)
  {
    hide AppendEvent, Conclude, Fold, ValidCandidate, EvaluateProof, IsSupported, DecideRelease, HashFits,
      ReferencesFit, TailFits, Adds, IdUsed;
    ProposalAppends(env, log, c, o, clock);
    var payload, options := ProposalReceived(FinalProposal(c)), WithDefaultCausation(Fold(log), o.event);
    var out := AppendEvent(env, log, payload, options, clock);
    ConcludeDecides(env, out.log, c, out.result.value, o);
    GateReleasesSupported(env.hash, SubmissionInput(log, c, o, clock));
  }

  /** The candidate itself is recorded, whatever becomes of the events behind it. */
  predicate ProposalIsStored(env: Env, log: seq<RunEvent>, c: FinalCandidate, o: FinalOptions) {
    var id := IdUsed(env, |log|, o.event.eventId, "ProposalReceived");
    && Fold(log).started.Some? && ValidCandidate(c) && c.runId == env.runId && !IsBlank(env.runId)
    && ReferencesFit(log, WithDefaultCausation(Fold(log), o.event))
    && HashFits(env, ProposalReceived(FinalProposal(c)), o.event) && !IsBlank(id) && id !in EventIds(log)
  }

  /** A submission leaves the log as it was exactly when its candidate cannot be recorded. */
  lemma SubmissionStores(env: Env, log: seq<RunEvent>, c: FinalCandidate, o: FinalOptions, clock: Timestamp)
    ensures SubmitFinal(env, log, c, o, clock).log == log <==> !ProposalIsStored(env, log, c, o)
  {
    hide AppendEvent, Conclude, Fold, ValidCandidate, IsBlank, ReferencesFit, IdUsed, EventIds;
    if Fold(log).started.Some? && ValidCandidate(c) && c.runId == env.runId {
      var payload, options := ProposalReceived(FinalProposal(c)), WithDefaultCausation(Fold(log), o.event);
      AppendStores(env, log, payload, options, clock);
      var out := AppendEvent(env, log, payload, options, clock);
      if out.result.Ok? {
        AppendSucceeds(env, log, payload, options, clock);
        ConcludeGenerates(env, out.log, c, out.result.value, o);
      }
    }
  }

  /** A submission that would complete, given an empty proof id instead, throws and leaves its first event behind. */
  lemma SubmissionIsNotAtomic(env: Env, log: seq<RunEvent>, c: FinalCandidate, o: FinalOptions, clock: Timestamp)
    requires IsSubmittable(env, log, c, o, clock)
    ensures var out := SubmitFinal(env, log, c, o.(proofId := Some("")), clock);
      out.result == Err(SchemaInvalid) && |out.log| == |log| + 1 && log <= out.log
  {
    hide AppendEvent, Conclude, Fold, ValidCandidate, IsBlank, ReferencesFit, HashFits, IdUsed, EventIds, AreFresh,
      TailIds, ValidTime, EvaluateProof, TailFits;
    var again := o.(proofId := Some(""));
    var id := IdUsed(env, |log|, o.event.eventId, "ProposalReceived");
    var count := |EvaluateProof(env.hash, SubmissionInput(log, c, o, clock)).blockingMismatches|;
    FreshSplit(EventIds(log), [id], TailIds(env, |log| + 1, count, o));
    FreshOne(EventIds(log), id);
    ProposalAppends(env, log, c, again, clock);
    var payload, options := ProposalReceived(FinalProposal(c)), WithDefaultCausation(Fold(log), again.event);
    AppendGenerates(env, log, payload, options, clock);
    var out := AppendEvent(env, log, payload, options, clock);
    InvalidProofStops(env, out.log, c, out.result.value, again);
  }
}
