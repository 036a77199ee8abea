// Resolving the evidence a claim names to the receipts and observations that
// carry it.  The source has one copy of the resolver for each of the two.
module EvidenceResolver {
  import opened Wrappers
  import opened Protocol

  datatype Resolved<+T> = Resolved(source: T, claimRef: EvidenceRef, sourceRef: EvidenceRef)

  predicate RefsMatch(claimRef: EvidenceRef, sourceRef: EvidenceRef) {
    && claimRef.evidenceId == sourceRef.evidenceId
    && claimRef.kind == sourceRef.kind
    && claimRef.sourceEventId == sourceRef.sourceEventId
    && claimRef.hash == sourceRef.hash
  }

  function MatchIn(claimRef: EvidenceRef, evidence: seq<EvidenceRef>): Option<EvidenceRef> {
    Find(evidence, (r: EvidenceRef) => RefsMatch(claimRef, r))
  }

  /** The sources that carry one reference, in order. */
  function ResolveRef<T>(claimRef: EvidenceRef, sources: seq<T>, evidenceOf: T -> seq<EvidenceRef>)
    : seq<Resolved<T>>
  {
    if sources == [] then []
    else
      var rest := ResolveRef(claimRef, sources[..|sources| - 1], evidenceOf);
      var s := sources[|sources| - 1];
      var hit := MatchIn(claimRef, evidenceOf(s));
      if hit.Some? then rest + [Resolved(s, claimRef, hit.value)] else rest
  }

  function Resolve<T>(refs: seq<EvidenceRef>, sources: seq<T>, evidenceOf: T -> seq<EvidenceRef>)
    : seq<Resolved<T>>
  {
    if refs == [] then []
    else Resolve(refs[..|refs| - 1], sources, evidenceOf) + ResolveRef(refs[|refs| - 1], sources, evidenceOf)
  }

  /** The nested loops of `resolveEffectReceipts` and `resolveExternalStateObservations`. */
  method ResolveEvidence<T>(refs: seq<EvidenceRef>, sources: seq<T>, evidenceOf: T -> seq<EvidenceRef>)
    returns (resolved: seq<Resolved<T>>)
    ensures resolved == Resolve(refs, sources, evidenceOf)
  {
    resolved := [];
    for i := 0 to |refs|
      invariant resolved == Resolve(refs[..i], sources, evidenceOf)
    {
      ghost var before := resolved;
      for j := 0 to |sources|
        invariant resolved == before + ResolveRef(refs[i], sources[..j], evidenceOf)
      {
        var hit := MatchIn(refs[i], evidenceOf(sources[j]));
        assert sources[..j + 1][..j] == sources[..j];
        if hit.Some? {
          resolved := resolved + [Resolved(sources[j], refs[i], hit.value)];
        }
      }
      assert sources[..|sources|] == sources;
      assert refs[..i + 1][..i] == refs[..i];
    }
    assert refs[..|refs|] == refs;
  }

  /** A source carries a reference when one of its own references agrees with it. */
  predicate Carries(claimRef: EvidenceRef, evidence: seq<EvidenceRef>) {
    exists r :: r in evidence && RefsMatch(claimRef, r)
  }

  lemma {:induction false} ResolveRefMembers<T>(ref: EvidenceRef, sources: seq<T>, evidenceOf: T -> seq<EvidenceRef>)
    ensures forall x :: x in ResolveRef(ref, sources, evidenceOf) ==>
              x.claimRef == ref && x.source in sources && Carries(ref, evidenceOf(x.source))
    ensures forall s :: s in sources && Carries(ref, evidenceOf(s)) ==>
              exists x :: x in ResolveRef(ref, sources, evidenceOf) && x.source == s && x.claimRef == ref
  {
    if sources != [] {
      var n := |sources| - 1;
      var s := sources[n];
      ResolveRefMembers(ref, sources[..n], evidenceOf);
      var rest := ResolveRef(ref, sources[..n], evidenceOf);
      var all := ResolveRef(ref, sources, evidenceOf);
      assert sources == sources[..n] + [s];
      var hit := MatchIn(ref, evidenceOf(s));
      forall t | t in sources && Carries(ref, evidenceOf(t))
        ensures exists x :: x in all && x.source == t && x.claimRef == ref
      {
        if t in sources[..n] {
          var x :| x in rest && x.source == t && x.claimRef == ref;
          assert x in all;
        } else {
          assert t == s && hit.Some?;
          assert all[|all| - 1] == Resolved(s, ref, hit.value);
        }
      }
    }
  }

  /** What a resolution contains, both ways. */
  lemma {:induction false} ResolveMembers<T>(refs: seq<EvidenceRef>, sources: seq<T>,
                                             evidenceOf: T -> seq<EvidenceRef>)
    ensures forall x :: x in Resolve(refs, sources, evidenceOf) ==>
              x.claimRef in refs && x.source in sources && Carries(x.claimRef, evidenceOf(x.source))
    ensures forall ref, s :: ref in refs && s in sources && Carries(ref, evidenceOf(s)) ==>
              exists x :: x in Resolve(refs, sources, evidenceOf) && x.source == s && x.claimRef == ref
  {
    if refs != [] {
      var n := |refs| - 1;
      ResolveMembers(refs[..n], sources, evidenceOf);
      ResolveRefMembers(refs[n], sources, evidenceOf);
      var all := Resolve(refs, sources, evidenceOf);
      var front := Resolve(refs[..n], sources, evidenceOf);
      var back := ResolveRef(refs[n], sources, evidenceOf);
      assert refs == refs[..n] + [refs[n]];
      assert forall x :: x in all <==> x in front || x in back;
      forall ref, s | ref in refs && s in sources && Carries(ref, evidenceOf(s))
        ensures exists x :: x in all && x.source == s && x.claimRef == ref
      {
        if ref in refs[..n] {
          var x :| x in front && x.source == s && x.claimRef == ref;
          assert x in all;
        } else {
          var x :| x in back && x.source == s && x.claimRef == ref;
          assert x in all;
        }
      }
    }
  }

  /** One more source counts exactly when it carries the reference. */
  lemma ResolveRefOneMore<T>(ref: EvidenceRef, sources: seq<T>, extra: T, evidenceOf: T -> seq<EvidenceRef>)
    ensures |ResolveRef(ref, sources + [extra], evidenceOf)|
         == |ResolveRef(ref, sources, evidenceOf)| + if Carries(ref, evidenceOf(extra)) then 1 else 0
  {
    assert (sources + [extra])[..|sources|] == sources;
  }

  /** A source that carries none of the references changes nothing. */
  lemma {:induction false} ResolveIgnores<T>(refs: seq<EvidenceRef>, sources: seq<T>, extra: T,
                                             evidenceOf: T -> seq<EvidenceRef>)
    requires forall ref :: ref in refs ==> !Carries(ref, evidenceOf(extra))
    ensures Resolve(refs, sources + [extra], evidenceOf) == Resolve(refs, sources, evidenceOf)
  {
    if refs != [] {
      var n := |refs| - 1;
      assert refs[n] in refs;
      ResolveIgnores(refs[..n], sources, extra, evidenceOf);
      assert (sources + [extra])[..|sources|] == sources;
      assert ResolveRef(refs[n], sources + [extra], evidenceOf) == ResolveRef(refs[n], sources, evidenceOf);
    }
  }
}
