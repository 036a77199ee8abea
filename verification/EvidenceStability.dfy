// In a reachable log a reference names at most one source, the engine re-admits
// everything the kernel admitted, and later recordings change no evaluation.
module EvidenceStability {
  import opened Wrappers
  import opened Protocol
  import opened Contracts
  import opened EventLog
  import opened LogHistory
  import opened EvidenceResolver
  import opened ProofEngine
  import opened KernelSpec
  import opened ReleaseGate
  import opened KernelInvariants
  import opened ReleaseSafety
  import opened RunGrowth

  /** The engine's admission re-check drops nothing the kernel admitted. */
  lemma AdmissionDropsNothing(env: Env, requests: seq<Request>, c: FinalCandidate, at: Timestamp)
    requires c.runId == env.runId
    ensures var f := Fold(Run(env, requests));
      var input := ProofInputOf(f, c, at, None);
      AdmittedReceipts(env.hash, input) == f.effectReceipts
      && AdmittedObservations(env.hash, input) == f.observations
  {
    hide Fold, Run, WellFormed, AllJustified;
    var log := Run(env, requests);
    RunJustified(env, requests);
    assert log[..|log|] == log;
    var f := Fold(log);
    forall r | r in f.effectReceipts
      ensures AdmittedReceipt(env.hash, c.runId, r)
    {
      var j := ReceiptAdmitted(env, log, |log|, r);
    }
    forall o | o in f.observations
      ensures AdmittedObservation(env.hash, c.runId, o)
    {
      var j := ObservationAdmitted(env, log, |log|, o);
    }
    FilterKeepsAll(f.effectReceipts, (r: EffectReceipt) => AdmittedReceipt(env.hash, c.runId, r));
    FilterKeepsAll(f.observations, (o: ExternalStateObservation) => AdmittedObservation(env.hash, c.runId, o));
  }

  /** How many receipts and observations a reference resolves to. */
  function Sources(f: Fields, ref: EvidenceRef): nat {
    |ResolveRef(ref, f.effectReceipts, ReceiptEvidence())| + |ResolveRef(ref, f.observations, ObservationEvidence())|
  }

  /** New evidence can only answer references to its own event. */
  lemma EvidenceNamesItsEvent(env: Env, log: seq<RunEvent>, i: nat, ref: EvidenceRef)
    requires AllJustified(env, log) && i < |log|
    ensures log[i].payload.EffectReceiptRecorded? && Carries(ref, log[i].payload.receipt.evidence)
        ==> ref.sourceEventId == log[i].eventId
    ensures log[i].payload.ExternalStateObserved? && Carries(ref, log[i].payload.observation.evidence)
        ==> ref.sourceEventId == log[i].eventId
  {
    hide Fold, WellFormed, AllJustified, CheckEffectRequest, CheckObjectHash;
    if log[i].payload.EffectReceiptRecorded? || log[i].payload.ExternalStateObserved? {
      var call, at := CallBehind(env, log, i);
    }
  }

  lemma EventIdsGrow(log: seq<RunEvent>, n: nat)
    requires 0 < n <= |log|
    ensures EventIds(log[..n]) == EventIds(log[..n - 1]) + {log[n - 1].eventId}
  {
    assert log[..n] == log[..n - 1] + [log[n - 1]];
  }

  lemma NothingResolves(ref: EvidenceRef)
    ensures Sources(NoFields, ref) == 0
  {
  }

  lemma {:induction false} ReferenceResolvesOnceAt(env: Env, log: seq<RunEvent>, n: nat, ref: EvidenceRef)
    requires AllJustified(env, log) && n <= |log|
    ensures Sources(Fold(log[..n]), ref) <= 1
    ensures Sources(Fold(log[..n]), ref) == 1 ==> ref.sourceEventId in EventIds(log[..n])
  {
    hide WellFormed, EventIds, IsRecorded, IsProof, IsMismatch, IsDecision, IsRelease, Carries, ResolveRef;
    if n == 0 {
      NothingResolves(ref);
    } else {
      ReferenceResolvesOnceAt(env, log, n - 1, ref);
      var f, e := Fold(log[..n - 1]), log[n - 1];
      assert log[..n] == log[..n - 1] + [e];
      FoldAppend(log[..n - 1], e);
      EventIdsGrow(log, n);
      assert Justified(env, log, n - 1);
      EvidenceNamesItsEvent(env, log, n - 1, ref);
      if WellFormed(e) && e.payload.EffectReceiptRecorded? {
        ResolveRefOneMore(ref, f.effectReceipts, e.payload.receipt, ReceiptEvidence());
      } else if WellFormed(e) && e.payload.ExternalStateObserved? {
        ResolveRefOneMore(ref, f.observations, e.payload.observation, ObservationEvidence());
      }
    }
  }

  /** Resolution is functional: one reference, at most one receipt or observation, in every run. */
  lemma ReferenceResolvesOnce(env: Env, requests: seq<Request>, ref: EvidenceRef)
    ensures Sources(Fold(Run(env, requests)), ref) <= 1
  {
    hide Fold, Run, AllJustified, Sources;
    var log := Run(env, requests);
    RunJustified(env, requests);
    ReferenceResolvesOnceAt(env, log, |log|, ref);
    assert log[..|log|] == log;
  }

  // Stability

  predicate NamesOnly(claim: Claim, ids: set<string>) {
    forall ref :: ref in claim.evidenceRefs ==> ref.sourceEventId in ids
  }

  lemma AdmitOneMore<T>(sources: seq<T>, extra: T, p: T -> bool)
    ensures Filter(sources + [extra], p) == Filter(sources, p) + if p(extra) then [extra] else []
  {
    FilterSplit(sources, [extra], p);
    assert [extra][1..] == [];
  }

  lemma SameReceiptEvaluation(hash: Hasher, a: ProofInput, b: ProofInput, claim: Claim, index: nat)
    requires a.candidate == b.candidate
    requires var refs := RefsOfKind(claim, EffectReceiptEvidence);
      Resolve(refs, AdmittedReceipts(hash, a), ReceiptEvidence())
      == Resolve(refs, AdmittedReceipts(hash, b), ReceiptEvidence())
    ensures EvaluateReceiptClaim(hash, a, claim, index) == EvaluateReceiptClaim(hash, b, claim, index)
  {
    hide Resolve, AdmittedReceipts, RefsOfKind, MatchingReceipt, SomeUnsuccessful, BuildMismatchId;
  }

  lemma SameStateEvaluation(hash: Hasher, a: ProofInput, b: ProofInput, claim: Claim, index: nat)
    requires claim.condition.CurrentState? && a.candidate == b.candidate && a.generatedAt == b.generatedAt
    requires var refs := RefsOfKind(claim, ExternalObservationEvidence);
      Resolve(refs, AdmittedObservations(hash, a), ObservationEvidence())
      == Resolve(refs, AdmittedObservations(hash, b), ObservationEvidence())
    ensures EvaluateStateClaim(hash, a, claim, index) == EvaluateStateClaim(hash, b, claim, index)
  {
    hide Resolve, AdmittedObservations, RefsOfKind, BuildMismatchId, IdentityMatches, IsFresh, StateSatisfies, Filter,
      Find;
  }

  lemma ReceiptIgnored(hash: Hasher, input: ProofInput, r: EffectReceipt, claim: Claim, index: nat)
    requires forall ref :: ref in claim.evidenceRefs ==> !Carries(ref, r.evidence)
    ensures EvaluateClaim(hash, input.(effectReceipts := input.effectReceipts + [r]), claim, index)
         == EvaluateClaim(hash, input, claim, index)
  {
    hide AdmittedReceipt, AdmittedObservation, Carries, EvaluateReceiptClaim, EvaluateStateClaim, BuildMismatchId,
      Resolve;
    var wider := input.(effectReceipts := input.effectReceipts + [r]);
    var p := (x: EffectReceipt) => AdmittedReceipt(hash, input.candidate.runId, x);
    AdmitOneMore(input.effectReceipts, r, p);
    assert AdmittedReceipts(hash, wider) == AdmittedReceipts(hash, input) + if p(r) then [r] else [];
    ResolveIgnores(RefsOfKind(claim, EffectReceiptEvidence), AdmittedReceipts(hash, input), r, ReceiptEvidence());
    assert AdmittedReceipts(hash, input) + [] == AdmittedReceipts(hash, input);
    SameReceiptEvaluation(hash, wider, input, claim, index);
    if claim.condition.CurrentState? {
      assert AdmittedObservations(hash, wider) == AdmittedObservations(hash, input);
      SameStateEvaluation(hash, wider, input, claim, index);
    }
  }

  lemma ObservationIgnored(hash: Hasher, input: ProofInput, o: ExternalStateObservation, claim: Claim, index: nat)
    requires forall ref :: ref in claim.evidenceRefs ==> !Carries(ref, o.evidence)
    ensures EvaluateClaim(hash, input.(observations := input.observations + [o]), claim, index)
         == EvaluateClaim(hash, input, claim, index)
  {
    hide AdmittedReceipt, AdmittedObservation, Carries, EvaluateReceiptClaim, EvaluateStateClaim, BuildMismatchId,
      Resolve;
    var wider := input.(observations := input.observations + [o]);
    var p := (x: ExternalStateObservation) => AdmittedObservation(hash, input.candidate.runId, x);
    AdmitOneMore(input.observations, o, p);
    assert AdmittedObservations(hash, wider) == AdmittedObservations(hash, input) + if p(o) then [o] else [];
    ResolveIgnores(RefsOfKind(claim, ExternalObservationEvidence), AdmittedObservations(hash, input), o,
                   ObservationEvidence());
    assert AdmittedObservations(hash, input) + [] == AdmittedObservations(hash, input);
    assert AdmittedReceipts(hash, wider) == AdmittedReceipts(hash, input);
    SameReceiptEvaluation(hash, wider, input, claim, index);
    if claim.condition.CurrentState? {
      SameStateEvaluation(hash, wider, input, claim, index);
    }
  }

  function EvaluateAt(env: Env, f: Fields, input: ProofInput, claim: Claim, index: nat): ClaimEvaluation {
    EvaluateClaim(env.hash, input.(effectReceipts := f.effectReceipts, observations := f.observations), claim, index)
  }

  /** One more event leaves a claim's evaluation alone when the claim does not name that event. */
  lemma EvaluationKept(env: Env, log: seq<RunEvent>, i: nat, input: ProofInput, claim: Claim, index: nat)
    requires AllJustified(env, log) && i < |log|
    requires forall ref :: ref in claim.evidenceRefs ==> ref.sourceEventId != log[i].eventId
    ensures EvaluateAt(env, Fold(log[..i + 1]), input, claim, index)
         == EvaluateAt(env, Fold(log[..i]), input, claim, index)
  {
    hide WellFormed, EvaluateClaim, Carries, AllJustified, Fold;
    var f, e := Fold(log[..i]), log[i];
    assert log[..i + 1] == log[..i] + [e];
    FoldAppend(log[..i], e);
    forall ref | ref in claim.evidenceRefs
      ensures e.payload.EffectReceiptRecorded? ==> !Carries(ref, e.payload.receipt.evidence)
      ensures e.payload.ExternalStateObserved? ==> !Carries(ref, e.payload.observation.evidence)
    {
      EvidenceNamesItsEvent(env, log, i, ref);
    }
    var at := input.(effectReceipts := f.effectReceipts, observations := f.observations);
    if WellFormed(e) && e.payload.EffectReceiptRecorded? {
      ReceiptIgnored(env.hash, at, e.payload.receipt, claim, index);
    } else if WellFormed(e) && e.payload.ExternalStateObserved? {
      ObservationIgnored(env.hash, at, e.payload.observation, claim, index);
    }
  }

  lemma {:induction false} EvaluationStableAt(env: Env, log: seq<RunEvent>, n: nat, m: nat, input: ProofInput,
                                              claim: Claim, index: nat)
    requires AllJustified(env, log) && n <= m <= |log| && NamesOnly(claim, EventIds(log[..n]))
    ensures EvaluateAt(env, Fold(log[..n]), input, claim, index) == EvaluateAt(env, Fold(log[..m]), input, claim, index)
    decreases m
  {
    hide WellFormed, EvaluateAt, EventIds, Fold, IsRecorded, IsProof, IsMismatch, IsDecision, IsRelease;
    if n < m {
      EvaluationStableAt(env, log, n, m - 1, input, claim, index);
      EarlierIds(log, n, m - 1);
      assert Justified(env, log, m - 1);
      EvaluationKept(env, log, m - 1, input, claim, index);
    }
  }

  lemma EarlierIds(log: seq<RunEvent>, n: nat, m: nat)
    requires n <= m <= |log|
    ensures EventIds(log[..n]) <= EventIds(log[..m])
  {
    assert log[..n] == log[..m][..n];
  }

  /**
   * Once every reference of a claim names an event already in the log, nothing recorded later changes how the
   * claim is evaluated at the same instant.
   */
  lemma EvaluationIsStable(env: Env, requests: seq<Request>, more: seq<Request>, input: ProofInput, claim: Claim,
                           index: nat)
    requires NamesOnly(claim, EventIds(Run(env, requests)))
    ensures EvaluateAt(env, Fold(Run(env, requests)), input, claim, index)
         == EvaluateAt(env, Fold(Run(env, requests + more)), input, claim, index)
  {
    hide Fold, Run, AllJustified, EvaluateAt, EventIds;
    var log, n := Run(env, requests + more), |Run(env, requests)|;
    RunExtends(env, requests, more);
    RunJustified(env, requests + more);
    assert log[..n] == Run(env, requests) && log[..|log|] == log;
    EvaluationStableAt(env, log, n, |log|, input, claim, index);
  }
}
