// What the kernel asks of each call and what it then records, field by field and
// without the guards' own searches.
module GuardMeaning {
  import opened Wrappers
  import opened Protocol
  import opened Contracts
  import opened EventLog
  import opened KernelSpec
  import opened RunGrowth
  import opened RecordingOutcome

  // Preflights

  /** The decision is about what this candidate is about. */
  predicate Decides(d: WritePreflightDecision, c: WritePreflightCandidate) {
    && c.preflightId == d.preflightId && c.runId == d.runId && c.commandId == d.commandId
    && c.capabilityId == d.capabilityId && c.toolId == d.toolId && c.sideEffectClass == d.sideEffectClass
    && c.idempotencyKey == d.idempotencyKey
  }

  /** The quarantine is about what this candidate is about. */
  predicate IsHeldFor(q: WriteQuarantineState, c: WritePreflightCandidate) {
    && c.preflightId == q.preflightId && c.runId == q.runId && c.commandId == q.commandId
    && c.capabilityId == q.capabilityId && c.toolId == q.toolId && c.sideEffectClass == q.sideEffectClass
    && c.idempotencyKey == q.idempotencyKey
  }

  /** The quarantine is about what the decision that carries it is about. */
  predicate IsCarriedBy(q: WriteQuarantineState, d: WritePreflightDecision) {
    && q.preflightId == d.preflightId && q.runId == d.runId && q.commandId == d.commandId
    && q.capabilityId == d.capabilityId && q.toolId == d.toolId && q.sideEffectClass == d.sideEffectClass
    && q.idempotencyKey == d.idempotencyKey
  }

  /** The candidate recorded first under this preflight id. */
  predicate IsCandidateFor(f: Fields, preflightId: string, i: nat) {
    && i < |f.preflightCandidates| && f.preflightCandidates[i].preflightId == preflightId
    && forall j :: 0 <= j < i ==> f.preflightCandidates[j].preflightId != preflightId
  }

  /** What an approval of a critical write has to be an approval of. */
  function ScopeOf(d: WritePreflightDecision): ApprovalScope {
    WritePreflightScope(d.preflightId, d.commandId, d.capabilityId, d.toolId, d.sideEffectClass, d.idempotencyKey)
  }

  /** Both instants are known and the first is not later. */
  predicate IsInTime(at: Timestamp, deadline: Timestamp) {
    ValidTime(at) && ValidTime(deadline) && at.parsed.value <= deadline.parsed.value
  }

  /** The decision's approval was granted first under its id, for this scope, and is neither withdrawn nor over. */
  predicate IsApprovedBy(env: Env, f: Fields, d: WritePreflightDecision, k: nat) {
    && d.status.Allowed? && d.status.approvalId.Some? && k < |f.approvalGrants|
    && var id, g := d.status.approvalId.value, f.approvalGrants[k];
       && g.approvalId == id && (forall j :: 0 <= j < k ==> f.approvalGrants[j].approvalId != id)
       && env.hash(OfScope(g.scope)) == env.hash(OfScope(ScopeOf(d)))
       && (forall x :: x in f.approvalDenials ==> x.approvalId != id)
       && (forall x :: x in f.approvalExpiries ==> x.approvalId != id)
       && IsInTime(d.decidedAt, g.expiresAt)
  }

  ghost predicate MayDecide(env: Env, f: Fields, d: WritePreflightDecision) {
    && (exists i: nat :: IsCandidateFor(f, d.preflightId, i) && Decides(d, f.preflightCandidates[i]))
    && (d.status.Quarantined? ==> IsCarriedBy(d.status.quarantine, d))
    && (d.status.Allowed? && d.sideEffectClass == CriticalWrite ==> exists k: nat :: IsApprovedBy(env, f, d, k))
  }

  predicate Carries(d: WritePreflightDecision, q: WriteQuarantineState) {
    d.status.Quarantined? && d.preflightId == q.preflightId && d.status.quarantine.quarantineId == q.quarantineId
  }

  ghost predicate MayQuarantine(env: Env, f: Fields, q: WriteQuarantineState) {
    && (exists i: nat :: IsCandidateFor(f, q.preflightId, i) && IsHeldFor(q, f.preflightCandidates[i]))
    && exists k :: && 0 <= k < |f.preflightDecisions| && Carries(f.preflightDecisions[k], q)
                   && (forall j :: 0 <= j < k ==> !Carries(f.preflightDecisions[j], q))
                   && env.hash(OfQuarantine(f.preflightDecisions[k].status.quarantine)) == env.hash(OfQuarantine(q))
  }

  lemma {:induction false} FindIs<T>(s: seq<T>, p: T -> bool, i: nat)
    requires i < |s| && p(s[i]) && forall j :: 0 <= j < i ==> !p(s[j])
    ensures Find(s, p) == Some(s[i])
  {
    FindFirst(s, p, i);
  }

  lemma {:induction false} FoundAt<T>(s: seq<T>, p: T -> bool) returns (i: nat)
    requires Find(s, p).Some?
    ensures i < |s| && p(s[i]) && Find(s, p) == Some(s[i]) && forall j :: 0 <= j < i ==> !p(s[j])
  {
    if p(s[0]) {
      i := 0;
    } else {
      i := FoundAt(s[1..], p);
      i := i + 1;
    }
  }

  lemma CandidateMeaning(f: Fields, preflightId: string)
    ensures forall i: nat :: IsCandidateFor(f, preflightId, i) ==>
              CandidateById(f, preflightId) == Some(f.preflightCandidates[i])
    ensures CandidateById(f, preflightId).Some? ==> exists i: nat :: IsCandidateFor(f, preflightId, i)
  {
    var p := (c: WritePreflightCandidate) => c.preflightId == preflightId;
    forall i: nat | IsCandidateFor(f, preflightId, i)
      ensures CandidateById(f, preflightId) == Some(f.preflightCandidates[i])
    {
      FindIs(f.preflightCandidates, p, i);
      assert CandidateById(f, preflightId) == Find(f.preflightCandidates, p);
    }
    if CandidateById(f, preflightId).Some? {
      assert CandidateById(f, preflightId) == Find(f.preflightCandidates, p);
      var i := FoundAt(f.preflightCandidates, p);
      assert IsCandidateFor(f, preflightId, i);
    }
  }

  lemma CriticalMeaning(env: Env, f: Fields, d: WritePreflightDecision)
    ensures CheckCriticalApproval(env, f, d).None?
       <==> (d.status.Allowed? && d.sideEffectClass == CriticalWrite ==> exists k: nat :: IsApprovedBy(env, f, d, k))
  {
    hide ValidTime;
    if d.status.Allowed? && d.sideEffectClass == CriticalWrite && d.status.approvalId.Some? {
      var id := d.status.approvalId.value;
      var p := (g: ApprovalGrant) => g.approvalId == id;
      assert GrantById(f, id) == Find(f.approvalGrants, p);
      if k: nat :| IsApprovedBy(env, f, d, k) {
        FindIs(f.approvalGrants, p, k);
      }
      if CheckCriticalApproval(env, f, d).None? {
        var k := FoundAt(f.approvalGrants, p);
        assert IsApprovedBy(env, f, d, k);
      }
    }
  }

  lemma DecisionMeaning(env: Env, f: Fields, d: WritePreflightDecision)
    ensures CheckDecision(f, d).None? && CheckCriticalApproval(env, f, d).None? <==> MayDecide(env, f, d)
  {
    hide CheckCriticalApproval, IsApprovedBy, CandidateById, IsCandidateFor;
    CriticalMeaning(env, f, d);
    CandidateMeaning(f, d.preflightId);
    if i: nat :| IsCandidateFor(f, d.preflightId, i) {
      CandidateIs(f, d.preflightId, i);
    }
  }

  lemma CandidateIs(f: Fields, preflightId: string, i: nat)
    requires IsCandidateFor(f, preflightId, i)
    ensures i < |f.preflightCandidates| && f.preflightCandidates[i].preflightId == preflightId
  {
  }

  lemma QuarantineMeaning(env: Env, f: Fields, q: WriteQuarantineState)
    ensures CheckQuarantine(env, f, q).None? <==> MayQuarantine(env, f, q)
  {
    hide CandidateById, IsCandidateFor;
    CandidateMeaning(f, q.preflightId);
    if i: nat :| IsCandidateFor(f, q.preflightId, i) {
      CandidateIs(f, q.preflightId, i);
    }
    var p := (d: WritePreflightDecision) =>
      d.status.Quarantined? && d.preflightId == q.preflightId && d.status.quarantine.quarantineId == q.quarantineId;
    assert QuarantineDecisionFor(f, q) == Find(f.preflightDecisions, p);
    if MayQuarantine(env, f, q) {
      var k :| && 0 <= k < |f.preflightDecisions| && Carries(f.preflightDecisions[k], q)
               && (forall j :: 0 <= j < k ==> !Carries(f.preflightDecisions[j], q))
               && env.hash(OfQuarantine(f.preflightDecisions[k].status.quarantine)) == env.hash(OfQuarantine(q));
      FindIs(f.preflightDecisions, p, k);
    }
    if QuarantineDecisionFor(f, q).Some? {
      var k := FoundAt(f.preflightDecisions, p);
      assert forall j :: 0 <= j < k ==> !Carries(f.preflightDecisions[j], q);
    }
  }

  // Approvals

  /** The request recorded first under this id. */
  predicate IsRequestFor(f: Fields, approvalId: string, i: nat) {
    && i < |f.approvalRequests| && f.approvalRequests[i].approvalId == approvalId
    && forall j :: 0 <= j < i ==> f.approvalRequests[j].approvalId != approvalId
  }

  /** It is of this run and scope, and in time. */
  predicate MatchesRequest(env: Env, r: ApprovalRequest, runId: string, scope: ApprovalScope,
                           grantedAt: Option<Timestamp>) {
    && r.runId == runId && env.hash(OfScope(r.scope)) == env.hash(OfScope(scope))
    && (grantedAt.Some? ==> IsInTime(grantedAt.value, r.expiresAt))
  }

  ghost predicate WasRequested(env: Env, f: Fields, approvalId: string, runId: string, scope: ApprovalScope,
                               grantedAt: Option<Timestamp>) {
    exists i: nat :: IsRequestFor(f, approvalId, i)
      && MatchesRequest(env, f.approvalRequests[i], runId, scope, grantedAt)
  }

  lemma RequestMeaning(f: Fields, approvalId: string)
    ensures forall i: nat :: IsRequestFor(f, approvalId, i) ==>
              RequestById(f, approvalId) == Some(f.approvalRequests[i])
    ensures RequestById(f, approvalId).Some? ==> exists i: nat :: IsRequestFor(f, approvalId, i)
  {
    var p := (r: ApprovalRequest) => r.approvalId == approvalId;
    assert RequestById(f, approvalId) == Find(f.approvalRequests, p);
    forall i: nat | IsRequestFor(f, approvalId, i)
      ensures RequestById(f, approvalId) == Some(f.approvalRequests[i])
    {
      FindIs(f.approvalRequests, p, i);
    }
    if RequestById(f, approvalId).Some? {
      var i := FoundAt(f.approvalRequests, p);
      assert IsRequestFor(f, approvalId, i);
    }
  }

  lemma ApprovalMeaning(env: Env, f: Fields, approvalId: string, runId: string, scope: ApprovalScope,
                        grantedAt: Option<Timestamp>)
    ensures CheckApproval(env, f, approvalId, runId, scope, grantedAt).None?
       <==> WasRequested(env, f, approvalId, runId, scope, grantedAt)
  {
    hide RequestById;
    RequestMeaning(f, approvalId);
  }

  // Mutations

  /** The command's hash is that of the command without its hash. */
  predicate IsSealed(env: Env, c: MutationCommandRequest) {
    c.payloadHash
    == env.hash(OfCommandBody(MutationCommandRequest(
         c.commandId, c.mutationId, c.runId, c.stateRef, c.operation, c.expectedRevision, c.provenance, c.requestedAt,
         Sha256(""), c.metadata)))
  }

  predicate Proposes(p: Proposal, c: MutationCommandRequest) {
    p.MutationProposal? && p.mutation.commandId == c.commandId && p.mutation.mutationId == c.mutationId
  }

  /** The proposal recorded first under the command's two ids. */
  predicate IsProposalOf(f: Fields, c: MutationCommandRequest, i: nat) {
    && i < |f.proposals| && Proposes(f.proposals[i], c) && forall j :: 0 <= j < i ==> !Proposes(f.proposals[j], c)
  }

  /** Sealed, proposed first under its ids as it is, as far as the hash can tell, and for the current revision. */
  ghost predicate MayCommit(env: Env, f: Fields, c: MutationCommandRequest, at: Timestamp) {
    && IsSealed(env, c) && ValidTime(at)
    && (exists i: nat :: IsProposalOf(f, c, i)
          && env.hash(OfCommand(f.proposals[i].mutation)) == env.hash(OfCommand(c)))
    && c.expectedRevision == (if c.stateRef in f.revisions then f.revisions[c.stateRef] else 0)
  }

  lemma SealMeaning(env: Env, c: MutationCommandRequest)
    ensures CheckCommandHash(env, c).None? <==> IsSealed(env, c)
  {
  }

  lemma ProposalMeaning(f: Fields, c: MutationCommandRequest)
    ensures forall i: nat :: IsProposalOf(f, c, i) ==> ProposalFor(f, c) == Some(f.proposals[i])
    ensures ProposalFor(f, c).Some? ==> exists i: nat :: IsProposalOf(f, c, i)
  {
    var p := (x: Proposal) =>
      x.MutationProposal? && x.mutation.commandId == c.commandId && x.mutation.mutationId == c.mutationId;
    assert ProposalFor(f, c) == Find(f.proposals, p);
    forall i: nat | IsProposalOf(f, c, i)
      ensures ProposalFor(f, c) == Some(f.proposals[i])
    {
      FindIs(f.proposals, p, i);
    }
    if ProposalFor(f, c).Some? {
      var i := FoundAt(f.proposals, p);
      assert IsProposalOf(f, c, i);
    }
  }

  lemma CommitMeaning(env: Env, f: Fields, c: MutationCommandRequest, at: Timestamp)
    ensures CheckCall(env, f, CommitMutation(c), "", at).None? <==> MayCommit(env, f, c, at)
  {
    hide ValidTime, IsSealed, CheckCommandHash, ProposalFor;
    SealMeaning(env, c);
    ProposalMeaning(f, c);
  }

  // Evidence

  /** The evidence names this event and carries this kind and hash. */
  predicate IsEvidenceOf(evidence: seq<EvidenceRef>, eventId: string, kind: EvidenceKind, hash: Digest) {
    forall i :: 0 <= i < |evidence| ==>
      evidence[i].sourceEventId == eventId && evidence[i].kind == kind && evidence[i].hash == hash
  }

  lemma OwnEvidenceMeaning(evidence: seq<EvidenceRef>, eventId: string, kind: EvidenceKind, hash: Digest)
    ensures CheckEvidence(evidence, eventId, kind, hash).None? <==> IsEvidenceOf(evidence, eventId, kind, hash)
  {
    if !IsEvidenceOf(evidence, eventId, kind, hash) {
      var i :| 0 <= i < |evidence|
        && !(evidence[i].sourceEventId == eventId && evidence[i].kind == kind && evidence[i].hash == hash);
      assert evidence[i] in evidence;
    }
  }

  /** Requested first under its effect id for its capability, with its payload's hash and its own event's evidence. */
  ghost predicate MayReceive(env: Env, f: Fields, r: EffectReceipt, eventId: string) {
    && (exists i :: && 0 <= i < |f.effectRequests| && f.effectRequests[i].effectId == r.effectId
                    && (forall j :: 0 <= j < i ==> f.effectRequests[j].effectId != r.effectId)
                    && f.effectRequests[i].capabilityId == r.capabilityId)
    && r.payloadHash == env.hash(OfObject(r.payload))
    && IsEvidenceOf(r.evidence, eventId, EffectReceiptEvidence, r.payloadHash)
  }

  lemma ReceiptGuardMeaning(env: Env, f: Fields, r: EffectReceipt, eventId: string)
    ensures CheckReceipt(env, f, r, eventId).None? <==> MayReceive(env, f, r, eventId)
  {
    hide CheckEvidence, IsEvidenceOf;
    OwnEvidenceMeaning(r.evidence, eventId, EffectReceiptEvidence, r.payloadHash);
    var p := (q: EffectRequest) => q.effectId == r.effectId;
    if i :| && 0 <= i < |f.effectRequests| && f.effectRequests[i].effectId == r.effectId
            && (forall j :: 0 <= j < i ==> f.effectRequests[j].effectId != r.effectId)
            && f.effectRequests[i].capabilityId == r.capabilityId {
      FindIs(f.effectRequests, p, i);
    }
    if Find(f.effectRequests, p).Some? {
      var i := FoundAt(f.effectRequests, p);
    }
  }

  predicate MayObserve(env: Env, o: ExternalStateObservation, eventId: string) {
    && o.payloadHash == env.hash(OfObject(o.observedState))
    && IsEvidenceOf(o.evidence, eventId, ExternalObservationEvidence, o.payloadHash)
  }

  lemma ObservationGuardMeaning(env: Env, o: ExternalStateObservation, eventId: string)
    ensures CheckObservation(env, o, eventId).None? <==> MayObserve(env, o, eventId)
  {
    hide CheckEvidence, IsEvidenceOf;
    OwnEvidenceMeaning(o.evidence, eventId, ExternalObservationEvidence, o.payloadHash);
  }

  // All calls

  /** What the kernel asks of a call, given what it holds. */
  ghost predicate IsAdmissible(env: Env, f: Fields, call: Call, eventId: string, at: Timestamp) {
    if call.StartRun? then f.started.None?
    else
      && f.started.Some? && ValidCall(call)
      && match call
         case StartRun(_, _) => true
         case SubmitToolCommand(t) => t.runId == env.runId
         case SubmitMutationCommand(c) => c.runId == env.runId && IsSealed(env, c)
         case RecordEffectRequest(q) => q.runId == env.runId
         case RecordPreflightRequested(c) => c.runId == env.runId
         case RecordPreflightDecided(d) => d.runId == env.runId && MayDecide(env, f, d)
         case RecordQuarantined(q) => q.runId == env.runId && MayQuarantine(env, f, q)
         case RecordApprovalRequested(r) => r.runId == env.runId
         case RecordApprovalGranted(g) =>
           g.runId == env.runId && WasRequested(env, f, g.approvalId, g.runId, g.scope, Some(g.grantedAt))
         case RecordApprovalDenied(d) =>
           d.runId == env.runId && WasRequested(env, f, d.approvalId, d.runId, d.scope, None)
         case RecordApprovalExpired(x) =>
           x.runId == env.runId && WasRequested(env, f, x.approvalId, x.runId, x.scope, None)
         case CommitMutation(c) => c.runId == env.runId && MayCommit(env, f, c, at)
         case RecordEffectReceipt(r) => r.runId == env.runId && MayReceive(env, f, r, eventId)
         case RecordObservation(o) => o.runId == env.runId && MayObserve(env, o, eventId)
  }

  /** The guards admit exactly these calls. */
  lemma AdmissionMeaning(env: Env, f: Fields, call: Call, eventId: string, at: Timestamp)
    ensures Admit(env, f, call, eventId, at).None? <==> IsAdmissible(env, f, call, eventId, at)
  {
    hide ValidCall, MayDecide, MayQuarantine, WasRequested, MayCommit, MayReceive, MayObserve, IsSealed, CheckDecision,
      CheckCriticalApproval, CheckQuarantine, CheckApproval, CheckReceipt, CheckObservation, CheckCommandHash,
      CheckProposed, CheckRevision, ValidTime;
    match call {
      case SubmitMutationCommand(c) => SealMeaning(env, c);
      case RecordPreflightDecided(d) => DecisionMeaning(env, f, d);
      case RecordQuarantined(q) => QuarantineMeaning(env, f, q);
      case RecordApprovalGranted(g) => ApprovalMeaning(env, f, g.approvalId, g.runId, g.scope, Some(g.grantedAt));
      case RecordApprovalDenied(d) => ApprovalMeaning(env, f, d.approvalId, d.runId, d.scope, None);
      case RecordApprovalExpired(x) => ApprovalMeaning(env, f, x.approvalId, x.runId, x.scope, None);
      case CommitMutation(c) => CommitMeaning(env, f, c, at);
      case RecordEffectReceipt(r) => ReceiptGuardMeaning(env, f, r, eventId);
      case RecordObservation(o) => ObservationGuardMeaning(env, o, eventId);
      case _ =>
    }
  }

  // What is recorded

  /** The payload an admitted call records. */
  predicate Records(env: Env, f: Fields, call: Call, at: Timestamp, p: Payload) {
    match call
    case StartRun(profile, metadata) => p == RunStarted(env.runId, profile, metadata)
    case SubmitToolCommand(t) => p == ProposalReceived(ToolProposal(t))
    case SubmitMutationCommand(c) => p == ProposalReceived(MutationProposal(c))
    case RecordEffectRequest(q) => p == EffectRequested(q)
    case RecordPreflightRequested(c) => p == WritePreflightRequested(c)
    case RecordPreflightDecided(d) => p == WritePreflightDecided(d)
    case RecordQuarantined(q) => p == WriteQuarantined(q)
    case RecordApprovalRequested(r) => p == ApprovalRequested(r)
    case RecordApprovalGranted(g) => p == ApprovalGranted(g)
    case RecordApprovalDenied(d) => p == ApprovalDenied(d)
    case RecordApprovalExpired(x) => p == ApprovalExpired(x)
    case CommitMutation(c) =>
      && p.MutationCommittedEvent?
      && var m := p.mutation;
         && m.mutationId == c.mutationId && m.commandId == c.commandId && m.runId == c.runId
         && m.stateRef == c.stateRef && m.operation == c.operation && m.provenance == c.provenance
         && m.metadata == c.metadata && m.committedAt == at
         && m.previousRevision == c.expectedRevision && m.newRevision == c.expectedRevision + 1
         && m.payloadHash
            == env.hash(OfMutationBody(m.mutationId, m.commandId, m.runId, m.stateRef, m.previousRevision,
                                       m.newRevision, m.operation, m.provenance, m.metadata))
    case RecordEffectReceipt(r) => p == EffectReceiptRecorded(r)
    case RecordObservation(o) => p == ExternalStateObserved(o)
  }

  /**
   * The event of a call that returns: its payload, its own id or the next one, its place, its cause, which is the start
   * of the run when none is given, and its hash and times.
   */
  lemma RecordedEvent(env: Env, log: seq<RunEvent>, call: Call, o: EventOptions, clock: Timestamp,
                      clockAgain: Timestamp)
    requires Record(env, log, call, o, clock, clockAgain).result.Ok?
    ensures var e := Record(env, log, call, o, clock, clockAgain).result.value;
      && Records(env, Fold(log), call, o.occurredAt.GetOr(clock), e.payload)
      && e.runId == env.runId && e.sequence == |log| + 1 && e.payloadHash == env.hash(OfPayload(e.payload))
      && (o.eventId.Some? ==> e.eventId == o.eventId.value)
      && e.causationId == (if o.causationId.Some? then o.causationId.value else Fold(log).started)
      && e.correlationId == (if o.correlationId.Some? then o.correlationId.value else None)
      && e.occurredAt == (if o.occurredAt.Some? then o.occurredAt.value else clockAgain)
  {
    hide Fold, Admit, WellFormed, AppendEvent, NextEventId, IsBlank, TypeName, Records, PayloadOf;
    var f, at := Fold(log), o.occurredAt.GetOr(clock);
    var payload := PayloadOf(env, f, call, at);
    var id := o.eventId.GetOr(NextEventId(env.runId, |log|, TypeName(payload)));
    AppendedFields(env, log, payload, WithDefaultCausation(f, o.(eventId := Some(id))), clockAgain);
    PayloadMeaning(env, f, call, id, at);
  }

  lemma PayloadMeaning(env: Env, f: Fields, call: Call, eventId: string, at: Timestamp)
    requires Admit(env, f, call, eventId, at).None?
    ensures Records(env, f, call, at, PayloadOf(env, f, call, at))
  {
    hide ValidCall, CheckDecision, CheckCriticalApproval, CheckQuarantine, CheckApproval, CheckReceipt,
      CheckObservation, CheckCommandHash, CheckProposed;
  }
}
