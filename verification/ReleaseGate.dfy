// The release gate: from a proof object to a decision and a final message.
module ReleaseGate {
  import opened Wrappers
  import opened Protocol
  import opened Contracts

  const INCONSISTENT_PROOF := "release_gate_inconsistent_proof"

  function BlockingMismatches(p: ProofObject): seq<Mismatch> {
    Filter(p.blockingMismatches, (m: Mismatch) => m.blocking)
  }

  function BlockingMismatchIds(p: ProofObject): seq<string> {
    var ids := Map(BlockingMismatches(p), (m: Mismatch) => m.mismatchId);
    if |ids| > 0 || p.verdict == Pass then ids else [INCONSISTENT_PROOF]
  }

  function RenderClaim(c: Claim): MessageLine {
    match c.condition
    case TestResult(_, status, _, suite) => TestLine(suite, status == "passed")
    case HistoricalAction(verb, _, targetType, _, _, _, targetId) => ActionLine(targetType, targetId, verb)
    case CurrentState(subjectType, subjectId, property, operator, value, _, _) =>
      StateLine(subjectType, subjectId, property, operator, value)
  }

  function ApprovedIn(approved: seq<string>): Claim -> bool {
    (k: Claim) => k.claimId in approved
  }

  function RenderApprovedClaims(c: FinalCandidate, approved: seq<string>): Option<seq<MessageLine>> {
    var lines := Map(Filter(c.claims, ApprovedIn(approved)), RenderClaim);
    if lines == [] then None else Some(lines)
  }

  function RepairMessages(p: ProofObject): seq<RepairHint> {
    var hints := Map(BlockingMismatches(p), (m: Mismatch) => ResolveMismatch(m.mismatchType, m.mismatchId, m.claimId));
    if hints == [] then [ResolveVerdict(p.proofId, p.verdict)] else hints
  }

  function ReasonFor(p: ProofObject): QuarantineReason {
    if exists m :: m in BlockingMismatches(p) && m.mismatchType == UncertainEffect then UncertainOutcome
    else InconsistentEvidence
  }

  function DecideRelease(candidate: FinalCandidate, p: ProofObject): ReleaseDecision {
    var ids := BlockingMismatchIds(p);
    var status :=
      if |ids| == 0 && p.verdict == Pass then Released(RenderApprovedClaims(candidate, p.approvedClaimIds))
      else if p.verdict == Repair then NeedsRepair(RepairMessages(p))
      else if p.verdict == Quarantine then ReleaseQuarantined(ReasonFor(p))
      else Blocked(RepairMessages(p));
    ReleaseDecision(status, p.runId, p.proofId, p.approvedClaimIds, ids)
  }

  /** Every decision the gate makes fits its schema: released without blockers, or held with some. */
  lemma DecisionIsValid(candidate: FinalCandidate, p: ProofObject)
    requires ValidProof(p)
    ensures ValidDecision(DecideRelease(candidate, p))
    ensures var d := DecideRelease(candidate, p);
      d.status.Released? <==> p.verdict == Pass && BlockingMismatches(p) == []
  {
    var ids := BlockingMismatchIds(p);
    forall id | id in ids
      ensures NonEmpty(id)
    {
      if id != INCONSISTENT_PROOF {
        var i :| 0 <= i < |BlockingMismatches(p)| && BlockingMismatches(p)[i].mismatchId == id;
        assert BlockingMismatches(p)[i] in p.blockingMismatches;
      }
    }
    assert |ids| == 0 ==> |BlockingMismatches(p)| == 0;
  }

  /** Some mismatch of the proof blocks. */
  predicate SomethingBlocks(p: ProofObject) {
    exists m :: m in p.blockingMismatches && m.blocking
  }

  lemma BlocksOrNot(p: ProofObject)
    ensures SomethingBlocks(p) <==> BlockingMismatches(p) != []
  {
    var blocking := BlockingMismatches(p);
    if blocking != [] {
      assert blocking[0] in blocking;
    }
  }

  /** Which of the four decisions is made, and what it lists, from the verdict and the mismatches alone. */
  lemma DecisionMeaning(candidate: FinalCandidate, p: ProofObject)
    ensures var d := DecideRelease(candidate, p);
      && d.runId == p.runId && d.proofId == p.proofId && d.approvedClaimIds == p.approvedClaimIds
      && (d.status.Released? <==> p.verdict == Pass && !SomethingBlocks(p))
      && (d.status.NeedsRepair? <==> p.verdict == Repair)
      && (d.status.ReleaseQuarantined? <==> p.verdict == Quarantine)
      && (d.status.Blocked? <==> p.verdict == Fail || (p.verdict == Pass && SomethingBlocks(p)))
      && (d.status.ReleaseQuarantined? ==>
            (d.status.reason == UncertainOutcome
             <==> exists m :: m in p.blockingMismatches && m.blocking && m.mismatchType == UncertainEffect))
    ensures var d := DecideRelease(candidate, p);
      forall id :: id in d.blockingMismatchIds <==>
        || (exists m :: m in p.blockingMismatches && m.blocking && m.mismatchId == id)
        || (id == "release_gate_inconsistent_proof" && p.verdict != Pass && !SomethingBlocks(p))
  {
    var blocking := BlockingMismatches(p);
    BlocksOrNot(p);
    var ids := Map(blocking, (m: Mismatch) => m.mismatchId);
    forall id
      ensures id in ids <==> exists m :: m in p.blockingMismatches && m.blocking && m.mismatchId == id
    {
      if id in ids {
        var i :| 0 <= i < |ids| && ids[i] == id;
        assert blocking[i] in blocking;
      }
      if m :| m in p.blockingMismatches && m.blocking && m.mismatchId == id {
        assert m in blocking;
        var i :| 0 <= i < |blocking| && blocking[i] == m;
        assert ids[i] == id;
      }
    }
  }

  /** What is to be done about a proof that is held: one hint for each blocking mismatch, or one for its verdict. */
  lemma HintMeaning(p: ProofObject)
    ensures SomethingBlocks(p) ==>
      forall h :: h in RepairMessages(p) <==>
        exists m :: && m in p.blockingMismatches && m.blocking
                    && h == ResolveMismatch(m.mismatchType, m.mismatchId, m.claimId)
    ensures !SomethingBlocks(p) ==> RepairMessages(p) == [ResolveVerdict(p.proofId, p.verdict)]
  {
    var blocking := BlockingMismatches(p);
    var hints := Map(blocking, (m: Mismatch) => ResolveMismatch(m.mismatchType, m.mismatchId, m.claimId));
    BlocksOrNot(p);
    forall h
      ensures h in hints <==>
        exists m :: && m in p.blockingMismatches && m.blocking
                    && h == ResolveMismatch(m.mismatchType, m.mismatchId, m.claimId)
    {
      if h in hints {
        var i :| 0 <= i < |hints| && hints[i] == h;
        assert blocking[i] in blocking;
      }
      if m :| && m in p.blockingMismatches && m.blocking
              && h == ResolveMismatch(m.mismatchType, m.mismatchId, m.claimId) {
        var i :| 0 <= i < |blocking| && blocking[i] == m;
        assert hints[i] == h;
      }
    }
  }

  /** The line of a claim says what its predicate says. */
  predicate IsLineOf(line: MessageLine, c: Claim) {
    var p := c.condition;
    && (p.TestResult? ==>
          line.TestLine? && line.suite == p.testSuiteId && line.passed == (p.expectedStatus == "passed"))
    && (p.HistoricalAction? ==>
          line.ActionLine? && line.targetType == p.targetType && line.targetId == p.maybeTargetId
          && line.verb == p.actionVerb)
    && (p.CurrentState? ==>
          line.StateLine? && line.subjectType == p.subjectType && line.subjectId == p.subjectId
          && line.property == p.property && line.operator == p.operator && line.value == p.expectedValue)
  }

  lemma LineMeaning(c: Claim)
    ensures IsLineOf(RenderClaim(c), c)
  {
  }
}
