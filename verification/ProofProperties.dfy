// What a proof means, stated without the engine's control flow, and what its
// verdict does not depend on.
module ProofProperties {
  import opened Wrappers
  import opened Protocol
  import opened Contracts
  import opened EventLog
  import opened EvidenceResolver
  import opened ProofEngine
  import opened ReleaseGate
  import opened ClaimTerms

  /** A receipt stands behind a reference of this claim. */
  ghost predicate ReceiptBehind(hash: Hasher, input: ProofInput, claim: Claim, ref: EvidenceRef, r: EffectReceipt) {
    && ref in claim.evidenceRefs && ref.kind == EffectReceiptEvidence
    && r in input.effectReceipts && IsSoundReceipt(hash, input.candidate.runId, r)
    && IsNamedIn(ref, r.evidence)
  }

  ghost predicate ObservationBehind(hash: Hasher, input: ProofInput, claim: Claim, ref: EvidenceRef,
                              o: ExternalStateObservation) {
    && ref in claim.evidenceRefs && ref.kind == ExternalObservationEvidence
    && o in input.observations && IsSoundObservation(hash, input.candidate.runId, o)
    && IsNamedIn(ref, o.evidence)
  }

  /**
   * The meaning of support.  A receipt claim needs a matching receipt behind it, and every receipt behind it
   * must have succeeded; a state claim needs one observation that is about its subject, recent and satisfying.
   */
  ghost predicate IsSupported(hash: Hasher, input: ProofInput, claim: Claim) {
    && IsOfItsType(claim)
    && if claim.condition.CurrentState? then
         exists ref, o :: && ObservationBehind(hash, input, claim, ref, o)
                          && ObservationShows(o, claim.condition, input.generatedAt)
       else
         && (exists ref, r :: ReceiptBehind(hash, input, claim, ref, r) && ReceiptShows(r, claim.condition))
         && (forall ref, r :: ReceiptBehind(hash, input, claim, ref, r) ==> r.status == Succeeded)
  }

  lemma ReceiptsBehind(hash: Hasher, input: ProofInput, claim: Claim)
    ensures var resolved :=
        Resolve(RefsOfKind(claim, EffectReceiptEvidence), AdmittedReceipts(hash, input), ReceiptEvidence());
      && (forall x :: x in resolved ==> ReceiptBehind(hash, input, claim, x.claimRef, x.source))
      && (forall ref, r :: ReceiptBehind(hash, input, claim, ref, r) ==>
            exists x :: x in resolved && x.source == r && x.claimRef == ref)
  {
    hide AdmittedReceipt, IsSoundReceipt, Carries, IsNamedIn;
    EvidenceMeaning(hash, input.candidate.runId);
    var refs, receipts := RefsOfKind(claim, EffectReceiptEvidence), AdmittedReceipts(hash, input);
    ResolveMembers(refs, receipts, ReceiptEvidence());
    forall ref, r | ReceiptBehind(hash, input, claim, ref, r)
      ensures exists x :: x in Resolve(refs, receipts, ReceiptEvidence()) && x.source == r && x.claimRef == ref
    {
      assert ref in refs && r in receipts && Carries(ref, ReceiptEvidence()(r));
    }
  }

  lemma ObservationsBehind(hash: Hasher, input: ProofInput, claim: Claim)
    ensures var resolved := Resolve(RefsOfKind(claim, ExternalObservationEvidence),
                                    AdmittedObservations(hash, input), ObservationEvidence());
      && (forall x :: x in resolved ==> ObservationBehind(hash, input, claim, x.claimRef, x.source))
      && (forall ref, o :: ObservationBehind(hash, input, claim, ref, o) ==>
            exists x :: x in resolved && x.source == o && x.claimRef == ref)
  {
    hide AdmittedObservation, IsSoundObservation, Carries, IsNamedIn;
    EvidenceMeaning(hash, input.candidate.runId);
    var refs, sources := RefsOfKind(claim, ExternalObservationEvidence), AdmittedObservations(hash, input);
    ResolveMembers(refs, sources, ObservationEvidence());
    forall ref, o | ObservationBehind(hash, input, claim, ref, o)
      ensures exists x :: x in Resolve(refs, sources, ObservationEvidence()) && x.source == o && x.claimRef == ref
    {
      assert ref in refs && o in sources && Carries(ref, ObservationEvidence()(o));
    }
  }

  lemma ReceiptSearchMeaning(hash: Hasher, input: ProofInput, claim: Claim)
    requires claim.claimType == KindOf(claim.condition) && !claim.condition.CurrentState?
    ensures var resolved :=
        Resolve(RefsOfKind(claim, EffectReceiptEvidence), AdmittedReceipts(hash, input), ReceiptEvidence());
      (!SomeUnsuccessful(resolved) && MatchingReceipt(resolved, claim.condition).Some?)
      <==> IsSupported(hash, input, claim)
  {
    hide ReceiptMatches, ReceiptShows, ReceiptBehind, Resolve;
    TypeMeaning(claim);
    ReceiptsBehind(hash, input, claim);
    forall r: EffectReceipt
      ensures ReceiptMatches(r, claim.condition) <==> ReceiptShows(r, claim.condition)
    {
      ReceiptMeaning(r, claim.condition);
    }
    var resolved :=
      Resolve(RefsOfKind(claim, EffectReceiptEvidence), AdmittedReceipts(hash, input), ReceiptEvidence());
    var hit := MatchingReceipt(resolved, claim.condition);
    if !SomeUnsuccessful(resolved) && hit.Some? {
      assert ReceiptBehind(hash, input, claim, hit.value.claimRef, hit.value.source);
    }
    if IsSupported(hash, input, claim) {
      var ref, r :| ReceiptBehind(hash, input, claim, ref, r) && ReceiptShows(r, claim.condition);
      var x :| x in resolved && x.source == r && x.claimRef == ref;
      assert hit.Some?;
    }
  }

  lemma ReceiptClaimMeaning(hash: Hasher, input: ProofInput, claim: Claim, index: nat)
    requires claim.claimType == KindOf(claim.condition) && !claim.condition.CurrentState?
    ensures var e := EvaluateReceiptClaim(hash, input, claim, index);
      && e.claimProof.supported == IsSupported(hash, input, claim)
      && e.claimProof.claimId == claim.claimId
      && (e.claimProof.supported ==> e.mismatches == [])
      && (!e.claimProof.supported ==> |e.mismatches| == 1 && e.mismatches[0].blocking)
  {
    ReceiptSearchMeaning(hash, input, claim);
    var refs := RefsOfKind(claim, EffectReceiptEvidence);
    if refs == [] {
      assert Resolve(refs, AdmittedReceipts(hash, input), ReceiptEvidence()) == [];
    }
  }

  lemma StateClaimMeaning(hash: Hasher, input: ProofInput, claim: Claim, index: nat)
    requires claim.condition.CurrentState? && claim.claimType == KindOf(claim.condition)
    ensures var e := EvaluateStateClaim(hash, input, claim, index);
      && e.claimProof.supported == IsSupported(hash, input, claim)
      && e.claimProof.claimId == claim.claimId
      && (e.claimProof.supported ==> e.mismatches == [])
      && (!e.claimProof.supported ==> |e.mismatches| == 1 && e.mismatches[0].blocking)
  {
    hide IsSoundObservation, IsNamedIn, ObservationShows, IdentityMatches, IsFresh, StateSatisfies, Resolve,
      AdmittedObservation;
    TypeMeaning(claim);
    ObservationsBehind(hash, input, claim);
    var p := claim.condition;
    forall o: ExternalStateObservation
      ensures IdentityMatches(o, p) && IsFresh(o, p.freshnessRequirementMs, input.generatedAt) && StateSatisfies(o, p)
         <==> ObservationShows(o, p, input.generatedAt)
    {
      ObservationMeaning(o, p, input.generatedAt);
    }
    var refs := RefsOfKind(claim, ExternalObservationEvidence);
    var resolved := Resolve(refs, AdmittedObservations(hash, input), ObservationEvidence());
    var identity := Filter(resolved, (x: Resolved<ExternalStateObservation>) => IdentityMatches(x.source, p));
    var recent := Filter(identity, (x: Resolved<ExternalStateObservation>) =>
                           IsFresh(x.source, p.freshnessRequirementMs, input.generatedAt));
    var hit := Find(recent, (x: Resolved<ExternalStateObservation>) => StateSatisfies(x.source, p));
    var e := EvaluateStateClaim(hash, input, claim, index);
    if e.claimProof.supported {
      assert hit.Some? && hit.value in recent && hit.value in identity && hit.value in resolved;
      assert ObservationBehind(hash, input, claim, hit.value.claimRef, hit.value.source);
    }
    if IsSupported(hash, input, claim) {
      var ref, o :| ObservationBehind(hash, input, claim, ref, o) && ObservationShows(o, p, input.generatedAt);
      var x :| x in resolved && x.source == o && x.claimRef == ref;
      assert ref in refs && x in identity && x in recent;
      assert hit.Some?;
    }
  }

  /** One claim: supported exactly when its evidence means support, with one blocking mismatch otherwise. */
  lemma ClaimMeaning(hash: Hasher, input: ProofInput, claim: Claim, index: nat)
    ensures var e := EvaluateClaim(hash, input, claim, index);
      && e.claimProof.supported == IsSupported(hash, input, claim)
      && e.claimProof.claimId == claim.claimId
      && (e.claimProof.supported ==> e.mismatches == [])
      && (!e.claimProof.supported ==> |e.mismatches| == 1 && e.mismatches[0].blocking)
  {
    TypeMeaning(claim);
    if claim.claimType == KindOf(claim.condition) {
      if claim.condition.CurrentState? {
        StateClaimMeaning(hash, input, claim, index);
      } else {
        ReceiptClaimMeaning(hash, input, claim, index);
      }
    }
  }

  /** An evaluation says yes without mismatches or no with one blocking mismatch. */
  predicate IsDecided(e: ClaimEvaluation) {
    if e.claimProof.supported then e.mismatches == [] else |e.mismatches| == 1 && e.mismatches[0].blocking
  }

  lemma {:induction false} BlockingMeaning(es: seq<ClaimEvaluation>)
    requires forall e :: e in es ==> IsDecided(e)
    ensures BlockingOf(es) == [] <==> forall e :: e in es ==> e.claimProof.supported
    ensures forall m :: m in BlockingOf(es) ==> m.blocking
  {
    if es != [] {
      var front, last := es[..|es| - 1], es[|es| - 1];
      assert es == front + [last];
      BlockingMeaning(front);
      assert IsDecided(last);
      var blocking := Filter(last.mismatches, (m: Mismatch) => m.blocking);
      if !last.claimProof.supported {
        assert last.mismatches[0] in blocking;
      }
    }
  }

  lemma {:induction false} EvaluationAt(hash: Hasher, input: ProofInput, n: nat, i: nat)
    requires i < n <= |input.candidate.claims|
    ensures Evaluations(hash, input, n)[i] == EvaluateClaim(hash, input, input.candidate.claims[i], i)
  {
    if i < n - 1 {
      EvaluationAt(hash, input, n - 1, i);
    }
  }

  /** The verdict is pass exactly when every claim is supported; the approved and rejected ids say which. */
  lemma VerdictMeaning(hash: Hasher, input: ProofInput)
    ensures var proof := EvaluateProof(hash, input);
      && (proof.verdict == Pass <==> forall c :: c in input.candidate.claims ==> IsSupported(hash, input, c))
      && (proof.verdict == Pass || proof.verdict == Fail)
      && (proof.verdict == Pass <==> proof.blockingMismatches == [])
      && (forall m :: m in proof.blockingMismatches ==> m.blocking)
      && |proof.claims| == |input.candidate.claims|
      && (forall i :: 0 <= i < |proof.claims| ==>
            proof.claims[i].claimId == input.candidate.claims[i].claimId
            && proof.claims[i].supported == IsSupported(hash, input, input.candidate.claims[i]))
  {
    hide IsSupported, EvaluateClaim, BuildProofId;
    var n := |input.candidate.claims|;
    var es := Evaluations(hash, input, n);
    var proof := EvaluateProof(hash, input);
    forall i | 0 <= i < n
      ensures IsDecided(es[i])
      ensures es[i].claimProof.claimId == input.candidate.claims[i].claimId
      ensures es[i].claimProof.supported == IsSupported(hash, input, input.candidate.claims[i])
    {
      EvaluationAt(hash, input, n, i);
      ClaimMeaning(hash, input, input.candidate.claims[i], i);
    }
    BlockingMeaning(es);
    if proof.verdict == Pass {
      forall c | c in input.candidate.claims
        ensures IsSupported(hash, input, c)
      {
        var i :| 0 <= i < n && input.candidate.claims[i] == c;
        assert es[i] in es;
      }
    }
  }

  /** The gate releases exactly the candidates whose every claim is supported. */
  lemma GateReleasesSupported(hash: Hasher, input: ProofInput)
    ensures DecideRelease(input.candidate, EvaluateProof(hash, input)).status.Released?
       <==> forall c :: c in input.candidate.claims ==> IsSupported(hash, input, c)
  {
    hide EvaluateProof, IsSupported, RenderApprovedClaims, RepairMessages, ReasonFor;
    VerdictMeaning(hash, input);
    var proof := EvaluateProof(hash, input);
    if proof.blockingMismatches != [] {
      assert proof.blockingMismatches[0] in BlockingMismatches(proof);
    }
  }

  /** A supported claim's proof names one reference of the claim, of evidence that shows the claim. */
  lemma SupportNamesEvidence(hash: Hasher, input: ProofInput, claim: Claim, index: nat)
    requires EvaluateClaim(hash, input, claim, index).claimProof.supported
    ensures var refs := EvaluateClaim(hash, input, claim, index).claimProof.evidenceRefs;
      |refs| == 1
      && if claim.condition.CurrentState? then
           exists o :: ObservationBehind(hash, input, claim, refs[0], o)
             && ObservationShows(o, claim.condition, input.generatedAt)
         else exists r :: ReceiptBehind(hash, input, claim, refs[0], r) && ReceiptShows(r, claim.condition)
  {
    hide ReceiptMatches, ReceiptShows, ReceiptBehind, ObservationBehind, ObservationShows, IdentityMatches, IsFresh,
      StateSatisfies, Resolve;
    if claim.condition.CurrentState? {
      ObservationsBehind(hash, input, claim);
      forall o: ExternalStateObservation
        ensures IdentityMatches(o, claim.condition) && StateSatisfies(o, claim.condition)
             && IsFresh(o, claim.condition.freshnessRequirementMs, input.generatedAt)
           <==> ObservationShows(o, claim.condition, input.generatedAt)
      {
        ObservationMeaning(o, claim.condition, input.generatedAt);
      }
    } else {
      ReceiptsBehind(hash, input, claim);
      forall r: EffectReceipt
        ensures ReceiptMatches(r, claim.condition) <==> ReceiptShows(r, claim.condition)
      {
        ReceiptMeaning(r, claim.condition);
      }
    }
  }

  lemma {:induction false} IdsOfProofs(proofs: seq<ClaimProof>, supported: bool, id: string)
    ensures id in ClaimIds(proofs, supported)
       <==> exists i :: 0 <= i < |proofs| && proofs[i].supported == supported && proofs[i].claimId == id
  {
    var chosen := Filter(proofs, (p: ClaimProof) => p.supported == supported);
    var ids := Map(chosen, (p: ClaimProof) => p.claimId);
    if id in ids {
      var k :| 0 <= k < |ids| && ids[k] == id;
      assert chosen[k] in chosen && chosen[k] in proofs;
      var i :| 0 <= i < |proofs| && proofs[i] == chosen[k];
    }
    if i :| 0 <= i < |proofs| && proofs[i].supported == supported && proofs[i].claimId == id {
      assert proofs[i] in chosen;
      var k :| 0 <= k < |chosen| && chosen[k] == proofs[i];
      assert ids[k] == id;
    }
  }

  /** Approved are the ids of supported claims, and rejected those of the others. */
  lemma IdsMeaning(hash: Hasher, input: ProofInput, id: string)
    ensures var proof, claims := EvaluateProof(hash, input), input.candidate.claims;
      && (id in proof.approvedClaimIds <==>
            exists i :: 0 <= i < |claims| && claims[i].claimId == id && IsSupported(hash, input, claims[i]))
      && (id in proof.rejectedClaimIds <==>
            exists i :: 0 <= i < |claims| && claims[i].claimId == id && !IsSupported(hash, input, claims[i]))
  {
    hide IsSupported, EvaluateClaim, Evaluations, BlockingOf, ClaimIds;
    VerdictMeaning(hash, input);
    var proof, claims := EvaluateProof(hash, input), input.candidate.claims;
    IdsOfProofs(proof.claims, true, id);
    IdsOfProofs(proof.claims, false, id);
    assert forall i :: 0 <= i < |claims| ==> (proof.claims[i].supported <==> IsSupported(hash, input, claims[i]));
  }

  // Why a claim is rejected

  ghost predicate HasRefs(claim: Claim, kind: EvidenceKind) {
    exists ref :: ref in claim.evidenceRefs && ref.kind == kind
  }

  /** Some observation behind the claim is about its subject. */
  ghost predicate SubjectWasObserved(hash: Hasher, input: ProofInput, claim: Claim)
    requires claim.condition.CurrentState?
  {
    exists ref, o :: ObservationBehind(hash, input, claim, ref, o) && IsAbout(o, claim.condition)
  }

  predicate IsAbout(o: ExternalStateObservation, p: ClaimPredicate)
    requires p.CurrentState?
  {
    o.observationType == p.observationType && o.subjectType == p.subjectType && o.subjectId == p.subjectId
  }

  /** And one of them was made in time. */
  ghost predicate SubjectWasObservedInTime(hash: Hasher, input: ProofInput, claim: Claim)
    requires claim.condition.CurrentState?
  {
    exists ref, o :: ObservationBehind(hash, input, claim, ref, o) && IsAbout(o, claim.condition)
      && WasMadeWithin(o, input.generatedAt, claim.condition.freshnessRequirementMs)
  }

  /** The mismatch that is reported for a claim that is not supported. */
  ghost function ReasonOf(hash: Hasher, input: ProofInput, claim: Claim): MismatchType {
    if !IsOfItsType(claim) then UnsupportedClaim
    else if claim.condition.CurrentState? then
      if !HasRefs(claim, ExternalObservationEvidence) then MissingEvidence
      else if SubjectWasObserved(hash, input, claim) && !SubjectWasObservedInTime(hash, input, claim) then
        StaleExternalState
      else UnsupportedClaim
    else if !HasRefs(claim, EffectReceiptEvidence) then MissingEvidence
    else if exists ref, r :: ReceiptBehind(hash, input, claim, ref, r) && r.status != Succeeded then UnverifiedReceipt
    else if exists ref, r :: ReceiptBehind(hash, input, claim, ref, r) then UnsupportedClaim
    else UnverifiedReceipt
  }

  lemma RefsMeaning(claim: Claim, kind: EvidenceKind)
    ensures HasRefs(claim, kind) <==> RefsOfKind(claim, kind) != []
  {
    var refs := RefsOfKind(claim, kind);
    if refs != [] {
      assert refs[0] in refs;
    }
  }

  lemma ReceiptReason(hash: Hasher, input: ProofInput, claim: Claim, index: nat)
    requires claim.claimType == KindOf(claim.condition) && !claim.condition.CurrentState?
    requires !IsSupported(hash, input, claim)
    ensures var e := EvaluateReceiptClaim(hash, input, claim, index);
      |e.mismatches| == 1 && e.mismatches[0].mismatchType == ReasonOf(hash, input, claim)
  {
    hide ReceiptMatches, ReceiptBehind, Resolve, HasRefs, IsSupported;
    TypeMeaning(claim);
    RefsMeaning(claim, EffectReceiptEvidence);
    ReceiptsBehind(hash, input, claim);
    ReceiptSearchMeaning(hash, input, claim);
    var resolved :=
      Resolve(RefsOfKind(claim, EffectReceiptEvidence), AdmittedReceipts(hash, input), ReceiptEvidence());
    if resolved != [] {
      assert resolved[0] in resolved;
    }
  }

  lemma StateReason(hash: Hasher, input: ProofInput, claim: Claim, index: nat)
    requires claim.claimType == KindOf(claim.condition) && claim.condition.CurrentState?
    requires !IsSupported(hash, input, claim)
    ensures var e := EvaluateStateClaim(hash, input, claim, index);
      |e.mismatches| == 1 && e.mismatches[0].mismatchType == ReasonOf(hash, input, claim)
  {
    hide ObservationBehind, Resolve, HasRefs, StateSatisfies, IsSupported;
    TypeMeaning(claim);
    RefsMeaning(claim, ExternalObservationEvidence);
    ObservationsBehind(hash, input, claim);
    StateClaimMeaning(hash, input, claim, index);
    var p := claim.condition;
    var resolved := Resolve(RefsOfKind(claim, ExternalObservationEvidence), AdmittedObservations(hash, input),
                            ObservationEvidence());
    var identity := Filter(resolved, (x: Resolved<ExternalStateObservation>) => IdentityMatches(x.source, p));
    var recent := Filter(identity, (x: Resolved<ExternalStateObservation>) =>
                           IsFresh(x.source, p.freshnessRequirementMs, input.generatedAt));
    assert SubjectWasObserved(hash, input, claim) <==> identity != [] by {
      if identity != [] {
        assert identity[0] in identity && identity[0] in resolved;
      }
    }
    assert SubjectWasObservedInTime(hash, input, claim) <==> recent != [] by {
      if recent != [] {
        assert recent[0] in recent && recent[0] in identity && recent[0] in resolved;
      }
    }
  }

  /** Why a claim was rejected, in terms of its evidence. */
  lemma RejectionMeaning(hash: Hasher, input: ProofInput, claim: Claim, index: nat)
    requires !IsSupported(hash, input, claim)
    ensures var e := EvaluateClaim(hash, input, claim, index);
      |e.mismatches| == 1 && e.mismatches[0].mismatchType == ReasonOf(hash, input, claim)
      && e.mismatches[0].claimId == Some(claim.claimId) && e.mismatches[0].runId == input.candidate.runId
      && e.claimProof.mismatchIds == [e.mismatches[0].mismatchId]
  {
    hide IsSupported, Resolve;
    TypeMeaning(claim);
    ClaimMeaning(hash, input, claim, index);
    if claim.claimType == KindOf(claim.condition) {
      if claim.condition.CurrentState? {
        StateReason(hash, input, claim, index);
      } else {
        ReceiptReason(hash, input, claim, index);
      }
    }
  }

  /** How many of the first n claims are not supported. */
  ghost function UnsupportedCount(hash: Hasher, input: ProofInput, n: nat): nat
    requires n <= |input.candidate.claims|
  {
    if n == 0 then 0
    else
      UnsupportedCount(hash, input, n - 1) + if IsSupported(hash, input, input.candidate.claims[n - 1]) then 0 else 1
  }

  lemma {:induction false} BlockingCount(hash: Hasher, input: ProofInput, n: nat)
    requires n <= |input.candidate.claims|
    ensures |BlockingOf(Evaluations(hash, input, n))| == UnsupportedCount(hash, input, n)
  {
    hide EvaluateClaim, IsSupported;
    if n > 0 {
      var es := Evaluations(hash, input, n);
      var last := EvaluateClaim(hash, input, input.candidate.claims[n - 1], n - 1);
      assert es[..n - 1] == Evaluations(hash, input, n - 1) && es[n - 1] == last;
      BlockingCount(hash, input, n - 1);
      ClaimMeaning(hash, input, input.candidate.claims[n - 1], n - 1);
      if last.mismatches != [] {
        FilterKeepsAll(last.mismatches, (m: Mismatch) => m.blocking);
      }
    }
  }

  /** There is one blocking mismatch for each claim that is not supported. */
  lemma OneMismatchEach(hash: Hasher, input: ProofInput)
    ensures |EvaluateProof(hash, input).blockingMismatches|
         == UnsupportedCount(hash, input, |input.candidate.claims|)
  {
    BlockingCount(hash, input, |input.candidate.claims|);
  }

  function IdOfClaim(): Claim -> string {
    (c: Claim) => c.claimId
  }

  lemma {:induction false} AllApproved(proofs: seq<ClaimProof>, claims: seq<Claim>)
    requires |proofs| == |claims|
    requires forall i :: 0 <= i < |proofs| ==> proofs[i].supported && proofs[i].claimId == claims[i].claimId
    ensures ClaimIds(proofs, true) == Map(claims, IdOfClaim())
  {
    FilterKeepsAll(proofs, (p: ClaimProof) => p.supported == true);
  }

  /** A release approves every claim of its candidate, in order, and its message has one line for each of them. */
  lemma ReleaseIsWhole(hash: Hasher, input: ProofInput)
    requires EvaluateProof(hash, input).verdict == Pass
    ensures var d, claims := DecideRelease(input.candidate, EvaluateProof(hash, input)), input.candidate.claims;
      && d.approvedClaimIds == Map(claims, IdOfClaim()) && d.blockingMismatchIds == []
      && d.status == Released(if claims == [] then None else Some(Map(claims, RenderClaim)))
  {
    hide IsSupported, EvaluateClaim, Evaluations;
    VerdictMeaning(hash, input);
    var proof, claims := EvaluateProof(hash, input), input.candidate.claims;
    forall i | 0 <= i < |claims|
      ensures proof.claims[i].supported
    {
      assert claims[i] in claims;
    }
    AllApproved(proof.claims, claims);
    assert proof.approvedClaimIds == Map(claims, IdOfClaim());
    forall k | k in claims
      ensures ApprovedIn(proof.approvedClaimIds)(k)
    {
      var i :| 0 <= i < |claims| && claims[i] == k;
      assert proof.approvedClaimIds[i] == k.claimId;
    }
    FilterKeepsAll(claims, ApprovedIn(proof.approvedClaimIds));
  }

  // Narrative non-interference

  /** Equal up to statement and criticality. */
  predicate SameClaim(a: Claim, b: Claim) {
    a == b.(statement := a.statement, criticality := a.criticality)
  }

  /** Equal up to the texts a model may write freely. */
  predicate SameSubstance(a: FinalCandidate, b: FinalCandidate) {
    && a.candidateId == b.candidateId && a.runId == b.runId && |a.claims| == |b.claims|
    && forall i :: 0 <= i < |a.claims| ==> SameClaim(a.claims[i], b.claims[i])
  }

  lemma SameClaimEvaluation(hash: Hasher, a: ProofInput, b: ProofInput, x: Claim, y: Claim, index: nat)
    requires a.effectReceipts == b.effectReceipts && a.observations == b.observations
    requires a.generatedAt == b.generatedAt && a.candidate.runId == b.candidate.runId
    requires SameClaim(x, y)
    ensures EvaluateClaim(hash, a, x, index) == EvaluateClaim(hash, b, y, index)
  {
    hide ReceiptMatches, StateSatisfies, IsFresh, Resolve, AdmittedReceipt, AdmittedObservation;
    assert AdmittedReceipts(hash, a) == AdmittedReceipts(hash, b);
    assert AdmittedObservations(hash, a) == AdmittedObservations(hash, b);
    assert RefsOfKind(x, EffectReceiptEvidence) == RefsOfKind(y, EffectReceiptEvidence);
    assert RefsOfKind(x, ExternalObservationEvidence) == RefsOfKind(y, ExternalObservationEvidence);
  }

  lemma {:induction false} SameEvaluations(hash: Hasher, a: ProofInput, b: ProofInput, n: nat)
    requires a.effectReceipts == b.effectReceipts && a.observations == b.observations
    requires a.generatedAt == b.generatedAt && SameSubstance(a.candidate, b.candidate)
    requires n <= |a.candidate.claims|
    ensures Evaluations(hash, a, n) == Evaluations(hash, b, n)
  {
    hide EvaluateClaim;
    if n > 0 {
      SameEvaluations(hash, a, b, n - 1);
      SameClaimEvaluation(hash, a, b, a.candidate.claims[n - 1], b.candidate.claims[n - 1], n - 1);
    }
  }

  lemma {:induction false} SameRendering(a: seq<Claim>, b: seq<Claim>, approved: seq<string>)
    requires |a| == |b| && forall i :: 0 <= i < |a| ==> SameClaim(a[i], b[i])
    ensures Map(Filter(a, ApprovedIn(approved)), RenderClaim) == Map(Filter(b, ApprovedIn(approved)), RenderClaim)
  {
    if a != [] {
      var p := ApprovedIn(approved);
      assert SameClaim(a[0], b[0]);
      SameRendering(a[1..], b[1..], approved);
      assert RenderClaim(a[0]) == RenderClaim(b[0]) && p(a[0]) == p(b[0]);
      var x, y := Filter(a[1..], p), Filter(b[1..], p);
      if p(a[0]) {
        assert Map([a[0]] + x, RenderClaim) == [RenderClaim(a[0])] + Map(x, RenderClaim);
        assert Map([b[0]] + y, RenderClaim) == [RenderClaim(b[0])] + Map(y, RenderClaim);
      }
    }
  }

  lemma SameProof(hash: Hasher, a: ProofInput, b: ProofInput)
    requires SameSubstance(a.candidate, b.candidate) && a == b.(candidate := a.candidate)
    ensures var p, q := EvaluateProof(hash, a), EvaluateProof(hash, b);
      p == q.(evaluatedClaims := p.evaluatedClaims)
  {
    hide EvaluateClaim, SameClaim, SanitizeIdPart, BlockingOf, ClaimIds;
    SameEvaluations(hash, a, b, |a.candidate.claims|);
  }

  lemma SameDecision(a: FinalCandidate, b: FinalCandidate, p: ProofObject, q: ProofObject)
    requires SameSubstance(a, b) && p == q.(evaluatedClaims := p.evaluatedClaims)
    ensures DecideRelease(a, p) == DecideRelease(b, q)
  {
    hide SameClaim;
    SameRendering(a.claims, b.claims, p.approvedClaimIds);
    assert BlockingMismatches(p) == BlockingMismatches(q);
  }

  /** What a candidate's prose says changes neither its proof, its decision nor its final message. */
  lemma NarrativeIsInert(hash: Hasher, a: ProofInput, b: ProofInput)
    requires SameSubstance(a.candidate, b.candidate) && a == b.(candidate := a.candidate)
    ensures var p, q := EvaluateProof(hash, a), EvaluateProof(hash, b);
      p == q.(evaluatedClaims := p.evaluatedClaims)
      && DecideRelease(a.candidate, p) == DecideRelease(b.candidate, q)
  {
    hide EvaluateProof, DecideRelease, SameSubstance;
    SameProof(hash, a, b);
    SameDecision(a.candidate, b.candidate, EvaluateProof(hash, a), EvaluateProof(hash, b));
  }
}
