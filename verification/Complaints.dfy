// What each error means: whichever one is raised, the thing it names is wrong.
module Complaints {
  import opened Wrappers
  import opened Protocol
  import opened Contracts
  import opened EventLog
  import opened KernelSpec
  import opened GuardMeaning
  import EventOrder
  import SemanticLedger

  // Streams

  ghost predicate IsTaken(before: seq<RunEvent>, eventId: string) {
    exists e :: e in before && e.eventId == eventId
  }

  lemma TakenMeaning(before: seq<RunEvent>, eventId: string)
    ensures eventId in EventIds(before) <==> IsTaken(before, eventId)
  {
  }

  /** The complaints of `orderAndValidateRunEvents` about the next event. */
  lemma OrderComplaints(hash: Hasher, runId: string, before: seq<RunEvent>, e: RunEvent)
    ensures var r := EventOrder.CheckNextEvent(hash, runId, before, e);
      && (r == Some(EmptyEventId) <==> IsBlank(e.eventId))
      && (r == Some(EmptyRunId) ==> IsBlank(e.runId))
      && (r == Some(RunIdMismatch) ==> e.runId != runId)
      && (r == Some(DuplicateEventId) ==> IsTaken(before, e.eventId))
      && (r == Some(InvalidSequence) ==> e.sequence != |before| + 1)
      && (r == Some(PayloadHashMismatch) ==> e.payloadHash != hash(OfPayload(e.payload)))
      && (r == Some(InvalidCausationId) ==> e.causationId.Some? && !IsTaken(before, e.causationId.value))
      && (r.Some? ==> r.value in {EmptyEventId, EmptyRunId, RunIdMismatch, DuplicateEventId, InvalidSequence,
                                  PayloadHashMismatch, InvalidCausationId})
  {
    hide IsBlank, EventIds;
    TakenMeaning(before, e.eventId);
    if e.causationId.Some? {
      TakenMeaning(before, e.causationId.value);
    }
  }

  /** A sequence error is a fault of the sequence, and a hash error of the hash. */
  predicate IsTrueOf(error: SemanticLedger.LedgerError, hash: Hasher, before: seq<RunEvent>, e: RunEvent) {
    match error
    case EmptyEventId => IsBlank(e.eventId)
    case EmptyRunId => IsBlank(e.runId)
    case InvalidSequence => e.sequence == 0
    case IntegrityViolation => e.occurredAt.text == ""
    case PayloadHashMismatch => e.payloadHash != hash(OfPayload(e.payload))
    case DuplicateEventId => exists x :: x in before && x.eventId == e.eventId
    case DuplicateSequence => exists x :: x in before && x.sequence == e.sequence
    case NonContiguousSequence => e.sequence != |before| + 1 && forall x :: x in before ==> x.sequence != e.sequence
    case InvalidCausationId =>
      e.causationId.Some? && forall x :: x in before ==> x.eventId != e.causationId.value
    case _ => false
  }

  /** The complaints of the semantic ledger about an append. */
  lemma AppendComplaints(hash: Hasher, before: seq<RunEvent>, e: RunEvent)
    ensures var r := SemanticLedger.CheckAppend(hash, before, e); r.Some? ==> IsTrueOf(r.value, hash, before, e)
  {
    hide IsBlank;
  }

  /** And those of its validator, which also looks at the run. */
  lemma ValidatorComplaints(hash: Hasher, runId: string, before: seq<RunEvent>, e: RunEvent)
    ensures var r := SemanticLedger.CheckOrdered(hash, runId, before, e);
      r.Some? ==> if r.value == SemanticLedger.RunIdMismatch then e.runId != runId
                  else IsTrueOf(r.value, hash, before, e)
  {
    hide IsBlank;
  }

  // Appending to the kernel's ledger

  /** The complaints of `append` and of the kernel in front of it. */
  lemma KernelAppendComplaints(env: Env, log: seq<RunEvent>, payload: Payload, o: EventOptions, now: Timestamp)
    requires AppendEvent(env, log, payload, o, now).result.Err?
    ensures var r := AppendEvent(env, log, payload, o, now).result.error;
      var id := o.eventId.GetOr(NextEventId(env.runId, |log|, TypeName(payload)));
      && (r == DuplicateEventId ==> IsTaken(log, id))
      && (r == EmptyEventId ==> IsBlank(id)) && (r == EmptyRunId ==> IsBlank(env.runId))
      && (r == PayloadHashMismatch ==>
            o.payloadHash.Some? && o.payloadHash.value != env.hash(OfPayload(payload)))
      && (r == InvalidCorrelationId ==>
            o.correlationId.GetOr(None).Some? && IsBlank(o.correlationId.value.value))
      && (r == InvalidCausationId ==>
            o.causationId.GetOr(None).Some?
            && (IsBlank(o.causationId.value.value) || !IsTaken(log, o.causationId.value.value)))
      && (r == SchemaInvalid ==>
            !ValidTime(o.occurredAt.GetOr(now)) || !ValidPayload(payload) || id == "" || env.runId == ""
            || o.causationId == Some(Some("")) || o.correlationId == Some(Some("")))
      && r in {DuplicateEventId, EmptyEventId, EmptyRunId, PayloadHashMismatch, InvalidCorrelationId,
               InvalidCausationId, SchemaInvalid}
  {
    hide IsBlank, ValidPayload, NextEventId, TypeName, EventIds, ValidTime;
    var id := o.eventId.GetOr(NextEventId(env.runId, |log|, TypeName(payload)));
    TakenMeaning(log, id);
    if o.causationId.GetOr(None).Some? {
      TakenMeaning(log, o.causationId.value.value);
    }
  }

  // Guards

  /** Some denial of this approval is held. */
  predicate WasDenied(f: Fields, approvalId: string) {
    exists d :: d in f.approvalDenials && d.approvalId == approvalId
  }

  /** What each refusal of a decision says. */
  lemma DecisionComplaints(env: Env, f: Fields, d: WritePreflightDecision)
    ensures var r := FirstError(CheckDecision(f, d), CheckCriticalApproval(env, f, d));
      && (r == Some(PreflightRequestNotFound) <==>
            forall c :: c in f.preflightCandidates ==> c.preflightId != d.preflightId)
      && (r == Some(QuarantineMismatch) ==> d.status.Quarantined? && !IsCarriedBy(d.status.quarantine, d))
      && (r == Some(ApprovalRequired) ==>
            d.status.Allowed? && d.sideEffectClass == CriticalWrite
            && (d.status.approvalId.None?
                || forall g :: g in f.approvalGrants ==> g.approvalId != d.status.approvalId.value))
      && (r == Some(ApprovalScopeMismatch) ==>
            d.status.Allowed? && d.status.approvalId.Some?
            && exists g :: && g in f.approvalGrants && g.approvalId == d.status.approvalId.value
                           && env.hash(OfScope(g.scope)) != env.hash(OfScope(ScopeOf(d))))
      && (r == Some(IsDenied) ==>
            d.status.Allowed? && d.status.approvalId.Some? && WasDenied(f, d.status.approvalId.value))
      && (r == Some(IsExpired) ==> d.status.Allowed? && d.status.approvalId.Some?)
      && (r.Some? ==> r.value in {PreflightRequestNotFound, PreflightMismatch, QuarantineMismatch, ApprovalRequired,
                                  ApprovalScopeMismatch, IsDenied, IsExpired})
  {
    hide DecisionFitsCandidate, NotAfter;
  }

  /** What each refusal of a quarantine says. */
  lemma QuarantineComplaints(env: Env, f: Fields, q: WriteQuarantineState)
    ensures var r := CheckQuarantine(env, f, q);
      && (r == Some(PreflightRequestNotFound) <==>
            forall c :: c in f.preflightCandidates ==> c.preflightId != q.preflightId)
      && (r == Some(PreflightDecisionNotFound) ==> forall d :: d in f.preflightDecisions ==> !Carries(d, q))
      && (r.Some? ==> r.value in {PreflightRequestNotFound, PreflightDecisionNotFound, QuarantineMismatch})
  {
    hide QuarantineFitsCandidate;
  }

  /** What each refusal of a grant, a denial or an expiry says. */
  lemma ApprovalComplaints(env: Env, f: Fields, approvalId: string, runId: string, scope: ApprovalScope,
                           grantedAt: Option<Timestamp>)
    ensures var r := CheckApproval(env, f, approvalId, runId, scope, grantedAt);
      && (r == Some(ApprovalRequestNotFound) <==> forall q :: q in f.approvalRequests ==> q.approvalId != approvalId)
      && (r == Some(ApprovalScopeMismatch) ==>
            exists q :: && q in f.approvalRequests && q.approvalId == approvalId
                        && (q.runId != runId || env.hash(OfScope(q.scope)) != env.hash(OfScope(scope))))
      && (r == Some(IsExpired) ==>
            grantedAt.Some? && exists q :: && q in f.approvalRequests && q.approvalId == approvalId
                                           && !IsInTime(grantedAt.value, q.expiresAt))
      && (r.Some? ==> r.value in {ApprovalRequestNotFound, ApprovalScopeMismatch, IsExpired})
  {
    hide ValidTime;
  }

  /** What each refusal of a receipt says. */
  lemma ReceiptComplaints(env: Env, f: Fields, r: EffectReceipt, eventId: string)
    ensures var x := CheckReceipt(env, f, r, eventId);
      && (x == Some(EffectRequestNotFound) <==> forall q :: q in f.effectRequests ==> q.effectId != r.effectId)
      && (x == Some(EffectRequestMismatch) ==>
            exists q :: q in f.effectRequests && q.effectId == r.effectId && q.capabilityId != r.capabilityId)
      && (x == Some(PayloadHashMismatch) ==> r.payloadHash != env.hash(OfObject(r.payload)))
      && (x == Some(EvidenceSourceEventMismatch) ==> exists e :: e in r.evidence && e.sourceEventId != eventId)
      && (x == Some(EvidenceKindMismatch) ==> exists e :: e in r.evidence && e.kind != EffectReceiptEvidence)
      && (x == Some(EvidenceHashMismatch) ==> exists e :: e in r.evidence && e.hash != r.payloadHash)
      && (x.Some? ==> x.value in {EffectRequestNotFound, EffectRequestMismatch, PayloadHashMismatch,
                                  EvidenceSourceEventMismatch, EvidenceKindMismatch, EvidenceHashMismatch})
  {
  }

  /** What each refusal of a commit says. */
  lemma CommitComplaints(env: Env, f: Fields, c: MutationCommandRequest, at: Timestamp)
    ensures var x := CheckCall(env, f, CommitMutation(c), "", at);
      && (x == Some(MutationProposalNotFound) ==> forall p :: p in f.proposals ==> !Proposes(p, c))
      && (x == Some(MutationHashMismatch) ==>
            !IsSealed(env, c)
            || exists p :: && p in f.proposals && Proposes(p, c)
                           && env.hash(OfCommand(p.mutation)) != env.hash(OfCommand(c)))
      && (x == Some(MutationStaleRevision) ==> c.expectedRevision != Revision(f, c.stateRef))
      && (x == Some(SchemaInvalid) ==> !ValidTime(at))
      && (x.Some? ==> x.value in {MutationProposalNotFound, MutationHashMismatch, MutationStaleRevision, SchemaInvalid})
  {
    hide ValidTime, IsSealed, CheckCommandHash;
    SealMeaning(env, c);
    HashComplaint(env, c);
  }

  lemma HashComplaint(env: Env, c: MutationCommandRequest)
    ensures CheckCommandHash(env, c).Some? ==> CheckCommandHash(env, c) == Some(MutationHashMismatch)
  {
  }

  /** In front of all guards: the run, the schema and the run id. */
  lemma CallComplaints(env: Env, f: Fields, call: Call, eventId: string, at: Timestamp)
    ensures var x := Admit(env, f, call, eventId, at);
      && (x == Some(RunAlreadyStarted) <==> call.StartRun? && f.started.Some?)
      && (x == Some(RunNotStarted) <==> !call.StartRun? && f.started.None?)
      && (x == Some(RunIdMismatch) ==> RunIdOf(env, call) != env.runId)
      && (x == Some(SchemaInvalid) && !call.CommitMutation? ==> !ValidCall(call))
  {
    hide ValidCall, CheckCommandHash;
    if call.CommitMutation? || call.SubmitMutationCommand? {
      HashComplaint(env, call.command);
    }
  }
}
