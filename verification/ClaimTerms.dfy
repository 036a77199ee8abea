// What a claim asks of its evidence, field by field, without the engine's
// matchers; and that the matchers ask exactly this.
module ClaimTerms {
  import opened Wrappers
  import opened Protocol
  import opened EvidenceResolver
  import opened ProofEngine

  // Values

  predicate IsScalar(j: Json) {
    j.Str? || j.Num? || j.Bool?
  }

  /** Somewhere in the first text the second one stands. */
  ghost predicate HasPart(whole: string, part: string) {
    exists before, after :: whole == before + part + after
  }

  /** A text contains its parts, and an array the scalars among its items. */
  ghost predicate HasValue(observed: Json, expected: Json) {
    || (observed.Str? && expected.Str? && HasPart(observed.s, expected.s))
    || (observed.Arr? && IsScalar(expected) && exists i :: 0 <= i < |observed.items| && observed.items[i] == expected)
  }

  /** The observed value makes "it equals", "it does not equal" or "it contains" the expected value true. */
  ghost predicate ValueShows(observed: Json, operator: StateOperator, expected: Json) {
    && (operator == Equals ==> IsScalar(observed) && observed == expected)
    && (operator == NotEquals ==> IsScalar(observed) && observed != expected)
    && (operator == Contains ==> HasValue(observed, expected))
  }

  lemma PartsAreInfixes(whole: string, part: string)
    ensures HasPart(whole, part) <==> IsInfix(part, whole)
  {
    if IsInfix(part, whole) {
      var i: nat :| i <= |whole| && OccursAt(part, whole, i);
      assert whole == whole[..i] + part + whole[i + |part|..];
    }
    if HasPart(whole, part) {
      var before, after :| whole == before + part + after;
      assert OccursAt(part, whole, |before|);
    }
  }

  /** The engine's comparison of values says this for each of the operators. */
  lemma ValueMeaning(observed: Json, operator: StateOperator, expected: Json)
    ensures ValueSatisfies(observed, operator, expected) <==> ValueShows(observed, operator, expected)
  {
    if observed.Str? && expected.Str? {
      PartsAreInfixes(observed.s, expected.s);
    }
  }

  // Receipts

  /** The payload has this text in this field. */
  predicate Says(payload: JsonObject, field: string, text: string) {
    field in payload && payload[field].Str? && payload[field].s == text
  }

  /** What a succeeded receipt has to say for the claim to be true. */
  predicate ReceiptShows(r: EffectReceipt, p: ClaimPredicate) {
    && r.status == Succeeded && !p.CurrentState?
    && r.receiptType == p.requiredReceiptType && r.capabilityId == p.capabilityId
    && (p.TestResult? ==>
          && Says(r.payload, "result", p.expectedStatus)
          && (p.testSuiteId.Some? ==> Says(r.payload, "testSuiteId", p.testSuiteId.value)))
    && (p.HistoricalAction? ==>
          && Says(r.payload, "actionVerb", p.actionVerb)
          && Says(r.payload, "subjectType", p.subjectType)
          && Says(r.payload, "targetType", p.targetType)
          && (p.maybeSubjectId.Some? ==> Says(r.payload, "subjectId", p.maybeSubjectId.value))
          && (p.maybeTargetId.Some? ==> Says(r.payload, "targetId", p.maybeTargetId.value)))
  }

  lemma ReceiptMeaning(r: EffectReceipt, p: ClaimPredicate)
    ensures ReceiptMatches(r, p) <==> ReceiptShows(r, p)
  {
  }

  // Observations

  /** It was made at most this long before the given time, and not after it. */
  predicate WasMadeWithin(o: ExternalStateObservation, at: Timestamp, ms: int) {
    && o.observedAt.parsed.Some? && at.parsed.Some?
    && o.observedAt.parsed.value <= at.parsed.value <= o.observedAt.parsed.value + ms
  }

  /** What an observation has to show for the claim to be true at a time. */
  ghost predicate ObservationShows(o: ExternalStateObservation, p: ClaimPredicate, at: Timestamp)
    requires p.CurrentState?
  {
    && o.observationType == p.observationType && o.subjectType == p.subjectType && o.subjectId == p.subjectId
    && WasMadeWithin(o, at, p.freshnessRequirementMs)
    && p.property in o.observedState && ValueShows(o.observedState[p.property], p.operator, p.expectedValue)
  }

  lemma ObservationMeaning(o: ExternalStateObservation, p: ClaimPredicate, at: Timestamp)
    requires p.CurrentState?
    ensures IdentityMatches(o, p) && IsFresh(o, p.freshnessRequirementMs, at) && StateSatisfies(o, p)
       <==> ObservationShows(o, p, at)
  {
    hide ValueSatisfies, ValueShows;
    if p.property in o.observedState {
      ValueMeaning(o.observedState[p.property], p.operator, p.expectedValue);
    }
  }

  // Evidence

  /** Both references name the same piece of evidence. */
  predicate NameTheSame(a: EvidenceRef, b: EvidenceRef) {
    a.evidenceId == b.evidenceId && a.kind == b.kind && a.sourceEventId == b.sourceEventId && a.hash == b.hash
  }

  predicate IsNamedIn(ref: EvidenceRef, evidence: seq<EvidenceRef>) {
    exists i :: 0 <= i < |evidence| && NameTheSame(ref, evidence[i])
  }

  /** All of the evidence is of one kind and carries one hash. */
  predicate IsUniform(evidence: seq<EvidenceRef>, kind: EvidenceKind, hash: Digest) {
    forall i :: 0 <= i < |evidence| ==> evidence[i].kind == kind && evidence[i].hash == hash
  }

  /** A receipt of this run whose hash is that of its payload, and whose evidence carries it. */
  predicate IsSoundReceipt(hash: Hasher, runId: string, r: EffectReceipt) {
    && r.runId == runId && hash(OfObject(r.payload)) == r.payloadHash
    && IsUniform(r.evidence, EffectReceiptEvidence, r.payloadHash)
  }

  predicate IsSoundObservation(hash: Hasher, runId: string, o: ExternalStateObservation) {
    && o.runId == runId && hash(OfObject(o.observedState)) == o.payloadHash
    && IsUniform(o.evidence, ExternalObservationEvidence, o.payloadHash)
  }

  lemma UniformMeaning(evidence: seq<EvidenceRef>, kind: EvidenceKind, hash: Digest)
    ensures IsUniform(evidence, kind, hash) <==> forall e :: e in evidence ==> e.kind == kind && e.hash == hash
  {
    if IsUniform(evidence, kind, hash) {
      forall e | e in evidence
        ensures e.kind == kind && e.hash == hash
      {
        var i :| 0 <= i < |evidence| && evidence[i] == e;
      }
    }
  }

  lemma SoundReceiptMeaning(hash: Hasher, runId: string, r: EffectReceipt)
    ensures AdmittedReceipt(hash, runId, r) <==> IsSoundReceipt(hash, runId, r)
  {
    hide IsUniform;
    UniformMeaning(r.evidence, EffectReceiptEvidence, r.payloadHash);
  }

  lemma SoundObservationMeaning(hash: Hasher, runId: string, o: ExternalStateObservation)
    ensures AdmittedObservation(hash, runId, o) <==> IsSoundObservation(hash, runId, o)
  {
    hide IsUniform;
    UniformMeaning(o.evidence, ExternalObservationEvidence, o.payloadHash);
  }

  lemma NamedMeaning(ref: EvidenceRef, evidence: seq<EvidenceRef>)
    ensures Carries(ref, evidence) <==> IsNamedIn(ref, evidence)
  {
    if Carries(ref, evidence) {
      var r :| r in evidence && RefsMatch(ref, r);
      var i :| 0 <= i < |evidence| && evidence[i] == r;
      assert NameTheSame(ref, evidence[i]);
    }
    if IsNamedIn(ref, evidence) {
      var i :| 0 <= i < |evidence| && NameTheSame(ref, evidence[i]);
      assert RefsMatch(ref, evidence[i]);
    }
  }

  /** The engine's admission and its matching of references, in these terms. */
  lemma EvidenceMeaning(hash: Hasher, runId: string)
    ensures forall r :: AdmittedReceipt(hash, runId, r) <==> IsSoundReceipt(hash, runId, r)
    ensures forall o :: AdmittedObservation(hash, runId, o) <==> IsSoundObservation(hash, runId, o)
    ensures forall ref, evidence :: Carries(ref, evidence) <==> IsNamedIn(ref, evidence)
  {
    hide AdmittedReceipt, AdmittedObservation, Carries, IsSoundReceipt, IsSoundObservation, IsNamedIn;
    forall r ensures AdmittedReceipt(hash, runId, r) <==> IsSoundReceipt(hash, runId, r) {
      SoundReceiptMeaning(hash, runId, r);
    }
    forall o ensures AdmittedObservation(hash, runId, o) <==> IsSoundObservation(hash, runId, o) {
      SoundObservationMeaning(hash, runId, o);
    }
    forall ref, evidence ensures Carries(ref, evidence) <==> IsNamedIn(ref, evidence) {
      NamedMeaning(ref, evidence);
    }
  }

  /** The claim's type is the kind of its predicate. */
  predicate IsOfItsType(c: Claim) {
    && (c.condition.HistoricalAction? ==> c.claimType == HistoricalActionType)
    && (c.condition.TestResult? ==> c.claimType == TestResultType)
    && (c.condition.CurrentState? ==> c.claimType == CurrentStateType)
  }

  lemma TypeMeaning(c: Claim)
    ensures c.claimType == KindOf(c.condition) <==> IsOfItsType(c)
  {
  }
}
