// What every run's log says about approvals, quarantines and mutations.
module GovernanceHistory {
  import opened Wrappers
  import opened Protocol
  import opened Contracts
  import opened EventLog
  import opened LogHistory
  import opened KernelSpec
  import opened KernelInvariants
  import opened RunGrowth
  import opened ReleaseSafety
  import opened GuardMeaning

  // Critical writes

  predicate AskedFor(log: seq<RunEvent>, n: nat, d: WritePreflightDecision)
    requires n <= |log|
  {
    exists j :: && 0 <= j < n && log[j].payload.WritePreflightRequested?
                && Decides(d, log[j].payload.candidate)
  }

  /** An approval request, then a grant of the same id and scope that is still open when the decision is made. */
  predicate ApprovedBefore(env: Env, log: seq<RunEvent>, n: nat, d: WritePreflightDecision, id: string)
    requires n <= |log|
  {
    exists q, g :: && 0 <= q < g < n && log[q].payload.ApprovalRequested? && log[g].payload.ApprovalGranted?
      && log[q].payload.request.approvalId == id && log[g].payload.grant.approvalId == id
      && env.hash(OfScope(log[q].payload.request.scope)) == env.hash(OfScope(ScopeOf(d)))
      && env.hash(OfScope(log[g].payload.grant.scope)) == env.hash(OfScope(ScopeOf(d)))
      && IsInTime(log[g].payload.grant.grantedAt, log[q].payload.request.expiresAt)
      && IsInTime(d.decidedAt, log[g].payload.grant.expiresAt)
  }

  predicate NeverWithdrawn(log: seq<RunEvent>, n: nat, id: string)
    requires n <= |log|
  {
    forall k :: 0 <= k < n && WellFormed(log[k]) ==>
      && (log[k].payload.ApprovalDenied? ==> log[k].payload.denial.approvalId != id)
      && (log[k].payload.ApprovalExpired? ==> log[k].payload.expiry.approvalId != id)
  }

  lemma NotWithdrawn(log: seq<RunEvent>, n: nat, id: string)
    requires n <= |log| && !IsDeniedApproval(Fold(log[..n]), id) && !IsExpiredApproval(Fold(log[..n]), id)
    ensures NeverWithdrawn(log, n, id)
  {
    hide WellFormed, Fold;
    forall k | 0 <= k < n && WellFormed(log[k])
      ensures log[k].payload.ApprovalDenied? ==> log[k].payload.denial.approvalId != id
      ensures log[k].payload.ApprovalExpired? ==> log[k].payload.expiry.approvalId != id
    {
      assert log[..n][k] == log[k];
      if log[k].payload.ApprovalDenied? || log[k].payload.ApprovalExpired? {
        HoldsIsRecorded(log[..n], log[k].payload);
      }
    }
  }

  lemma GrantWasRequested(env: Env, log: seq<RunEvent>, n: nat, g: ApprovalGrant) returns (i: nat, q: nat)
    requires AllJustified(env, log) && n <= |log| && g in Fold(log[..n]).approvalGrants
    ensures q < i < n && log[i].payload == ApprovalGranted(g) && log[q].payload.ApprovalRequested?
    ensures log[q].payload.request.approvalId == g.approvalId
    ensures env.hash(OfScope(log[q].payload.request.scope)) == env.hash(OfScope(g.scope))
    ensures log[q].payload.request.runId == g.runId && IsInTime(g.grantedAt, log[q].payload.request.expiresAt)
  {
    hide WellFormed, Fold, AllJustified, ValidCall;
    i := RecordedBefore(log, n, ApprovalGranted(g));
    var f := Fold(log[..i]);
    var call, at := CallBehind(env, log, i);
    var r := RequestById(f, g.approvalId).value;
    q := RecordedBefore(log, i, ApprovalRequested(r));
  }

  /** A denial or an expiry follows a request of its id, run and scope, too. */
  lemma WithdrawalWasRequested(env: Env, log: seq<RunEvent>, i: nat) returns (q: nat)
    requires AllJustified(env, log) && i < |log| && (log[i].payload.ApprovalDenied? || log[i].payload.ApprovalExpired?)
    ensures q < i && log[q].payload.ApprovalRequested?
    ensures var p, r := log[i].payload, log[q].payload.request;
      if p.ApprovalDenied? then
        && r.approvalId == p.denial.approvalId && r.runId == p.denial.runId
        && env.hash(OfScope(r.scope)) == env.hash(OfScope(p.denial.scope))
      else
        && r.approvalId == p.expiry.approvalId && r.runId == p.expiry.runId
        && env.hash(OfScope(r.scope)) == env.hash(OfScope(p.expiry.scope))
  {
    hide WellFormed, Fold, AllJustified, ValidCall;
    var f, p := Fold(log[..i]), log[i].payload;
    var call, at := CallBehind(env, log, i);
    var r := RequestById(f, if p.ApprovalDenied? then p.denial.approvalId else p.expiry.approvalId).value;
    q := RecordedBefore(log, i, ApprovalRequested(r));
  }

  lemma DecisionGuards(env: Env, log: seq<RunEvent>, i: nat, d: WritePreflightDecision)
    requires AllJustified(env, log) && i < |log| && log[i].payload == WritePreflightDecided(d)
    ensures CheckDecision(Fold(log[..i]), d).None? && CheckCriticalApproval(env, Fold(log[..i]), d).None?
  {
    hide WellFormed, Fold, CheckDecision, CheckCriticalApproval, ValidCall, AllJustified;
    var call, at := CallBehind(env, log, i);
  }

  /** No critical write is ever allowed without a matching request and a live, never withdrawn approval. */
  lemma CriticalWriteIsApproved(env: Env, requests: seq<Request>, i: nat, d: WritePreflightDecision)
    requires i < |Run(env, requests)| && Run(env, requests)[i].payload == WritePreflightDecided(d)
    requires d.status.Allowed? && d.sideEffectClass == CriticalWrite
    ensures AskedFor(Run(env, requests), i, d)
    ensures d.status.approvalId.Some?
    ensures ApprovedBefore(env, Run(env, requests), i, d, d.status.approvalId.value)
    ensures NeverWithdrawn(Run(env, requests), i, d.status.approvalId.value)
  {
    hide WellFormed, Fold, Run, AllJustified;
    var log := Run(env, requests);
    RunJustified(env, requests);
    DecisionGuards(env, log, i, d);
    var f := Fold(log[..i]);
    var c := DecisionAsked(f, d);
    var j := RecordedBefore(log, i, WritePreflightRequested(c));
    var id := d.status.approvalId.value;
    var g := GrantById(f, id).value;
    var k, q := GrantWasRequested(env, log, i, g);
    assert 0 <= q < k < i;
    NotWithdrawn(log, i, id);
  }

  /** Unless its scope collides with that of a grant of the run, the grant is for exactly this decision. */
  lemma CriticalScopeIsExact(env: Env, requests: seq<Request>, i: nat, d: WritePreflightDecision)
    requires i < |Run(env, requests)| && Run(env, requests)[i].payload == WritePreflightDecided(d)
    requires forall g :: 0 <= g < i && Run(env, requests)[g].payload.ApprovalGranted? ==>
               NoCollision(env.hash, OfScope(Run(env, requests)[g].payload.grant.scope), OfScope(ScopeOf(d)))
    requires d.status.Allowed? && d.sideEffectClass == CriticalWrite
    ensures exists g :: && 0 <= g < i && Run(env, requests)[g].payload.ApprovalGranted?
              && Run(env, requests)[g].payload.grant.approvalId == d.status.approvalId.GetOr("")
              && Run(env, requests)[g].payload.grant.scope == ScopeOf(d)
  {
    hide WellFormed, Fold, Run;
    CriticalWriteIsApproved(env, requests, i, d);
  }

  // Quarantines

  /** A quarantine is recorded only after the quarantined decision that carries it. */
  lemma QuarantineWasDecided(env: Env, requests: seq<Request>, i: nat, q: WriteQuarantineState)
    requires i < |Run(env, requests)| && Run(env, requests)[i].payload == WriteQuarantined(q)
    ensures var log := Run(env, requests);
      exists j, k :: && 0 <= k < j < i && log[j].payload.WritePreflightDecided?
        && log[j].payload.preflight.status.Quarantined?
        && env.hash(OfQuarantine(log[j].payload.preflight.status.quarantine)) == env.hash(OfQuarantine(q))
        && log[j].payload.preflight.status.quarantine.quarantineId == q.quarantineId
        && IsCarriedBy(log[j].payload.preflight.status.quarantine, log[j].payload.preflight)
        && log[k].payload.WritePreflightRequested?
        && Decides(log[j].payload.preflight, log[k].payload.candidate)
  {
    hide WellFormed, Fold, Run, ValidCall, AllJustified, CheckQuarantine, CheckDecision;
    var log := Run(env, requests);
    RunJustified(env, requests);
    var f := Fold(log[..i]);
    var call, at := CallBehind(env, log, i);
    var d := QuarantineDecided(env, f, q);
    var j := RecordedBefore(log, i, WritePreflightDecided(d));
    DecisionGuards(env, log, j, d);
    var c := DecisionAsked(Fold(log[..j]), d);
    var k := RecordedBefore(log, j, WritePreflightRequested(c));
  }

  /** Unless it collides with the quarantine of a decision of the run, it is the very quarantine that was decided. */
  lemma QuarantineIsDecided(env: Env, requests: seq<Request>, i: nat, q: WriteQuarantineState)
    requires i < |Run(env, requests)| && Run(env, requests)[i].payload == WriteQuarantined(q)
    requires forall j ::
               0 <= j < i && Run(env, requests)[j].payload.WritePreflightDecided?
               && Run(env, requests)[j].payload.preflight.status.Quarantined? ==>
                 NoCollision(env.hash, OfQuarantine(Run(env, requests)[j].payload.preflight.status.quarantine),
                             OfQuarantine(q))
    ensures exists j :: && 0 <= j < i && Run(env, requests)[j].payload.WritePreflightDecided?
                        && Run(env, requests)[j].payload.preflight.status == Quarantined(q)
                        && IsCarriedBy(q, Run(env, requests)[j].payload.preflight)
  {
    hide Run, IsCarriedBy, Decides;
    QuarantineWasDecided(env, requests, i, q);
  }

  lemma QuarantineDecided(env: Env, f: Fields, q: WriteQuarantineState) returns (d: WritePreflightDecision)
    requires CheckQuarantine(env, f, q).None?
    ensures d in f.preflightDecisions && d.status.Quarantined?
    ensures env.hash(OfQuarantine(d.status.quarantine)) == env.hash(OfQuarantine(q))
    ensures d.status.quarantine.quarantineId == q.quarantineId
  {
    d := QuarantineDecisionFor(f, q).value;
  }

  lemma DecisionAsked(f: Fields, d: WritePreflightDecision) returns (c: WritePreflightCandidate)
    requires CheckDecision(f, d).None?
    ensures c in f.preflightCandidates && Decides(d, c)
    ensures d.status.Quarantined? ==> IsCarriedBy(d.status.quarantine, d)
  {
    c := CandidateById(f, d.preflightId).value;
  }

  // Mutations

  /** The event at i commits this command. */
  predicate Commits(env: Env, log: seq<RunEvent>, i: nat, c: MutationCommandRequest)
    requires i < |log|
  {
    && log[i].payload.MutationCommittedEvent? && WellFormed(log[i])
    && var m := log[i].payload.mutation;
       && Admit(env, Fold(log[..i]), CommitMutation(c), log[i].eventId, m.committedAt).None?
       && m == Committed(env, c.expectedRevision, c, m.committedAt)
  }

  lemma CommitIsCommitted(env: Env, log: seq<RunEvent>, i: nat) returns (c: MutationCommandRequest)
    requires AllJustified(env, log) && i < |log| && log[i].payload.MutationCommittedEvent? && WellFormed(log[i])
    ensures Commits(env, log, i, c) && Revision(Fold(log[..i]), c.stateRef) == c.expectedRevision
  {
    hide WellFormed, Fold, ValidCall, AllJustified, CheckProposed;
    var call, at := CallBehind(env, log, i);
    c := call.command;
  }

  function MutationsOf(f: Fields, stateRef: string): seq<MutationCommitted> {
    Filter(f.mutations, (m: MutationCommitted) => m.stateRef == stateRef)
  }

  /** The commits of a state reference carry revisions 0, 1, 2, ... and its revision counts them. */
  predicate IsGapless(f: Fields, stateRef: string) {
    var ms := MutationsOf(f, stateRef);
    && Revision(f, stateRef) == |ms|
    && forall k :: 0 <= k < |ms| ==> ms[k].previousRevision == k && ms[k].newRevision == k + 1
  }

  lemma CommitKeepsGapless(f: Fields, m: MutationCommitted, eventId: string, stateRef: string)
    requires IsGapless(f, stateRef) && m.previousRevision == Revision(f, m.stateRef)
    requires m.newRevision == m.previousRevision + 1
    ensures IsGapless(ApplyPayload(f, eventId, MutationCommittedEvent(m)), stateRef)
  {
    FilterSplit(f.mutations, [m], (x: MutationCommitted) => x.stateRef == stateRef);
    assert [m][1..] == [];
  }

  lemma {:induction false} HistoryIsGapless(env: Env, log: seq<RunEvent>, n: nat, stateRef: string)
    requires AllJustified(env, log) && n <= |log|
    ensures IsGapless(Fold(log[..n]), stateRef)
  {
    hide WellFormed, AllJustified, IsGapless;
    if n == 0 {
      assert IsGapless(NoFields, stateRef) by { NothingIsGapless(stateRef); }
    } else {
      HistoryIsGapless(env, log, n - 1, stateRef);
      var f, e := Fold(log[..n - 1]), log[n - 1];
      assert log[..n] == log[..n - 1] + [e];
      FoldAppend(log[..n - 1], e);
      if WellFormed(e) {
        if e.payload.MutationCommittedEvent? {
          var c := CommitIsCommitted(env, log, n - 1);
          CommitKeepsGapless(f, e.payload.mutation, e.eventId, stateRef);
        } else {
          OthersKeepGapless(f, e.eventId, e.payload, stateRef);
        }
      }
    }
  }

  lemma NothingIsGapless(stateRef: string)
    ensures IsGapless(NoFields, stateRef)
  {
  }

  lemma OthersKeepGapless(f: Fields, eventId: string, p: Payload, stateRef: string)
    requires IsGapless(f, stateRef) && !p.MutationCommittedEvent?
    ensures IsGapless(ApplyPayload(f, eventId, p), stateRef)
  {
    assert ApplyPayload(f, eventId, p).mutations == f.mutations;
    assert ApplyPayload(f, eventId, p).revisions == f.revisions;
  }

  /** In every run the revisions of every state reference are gapless and counted. */
  lemma MutationHistory(env: Env, requests: seq<Request>, stateRef: string)
    ensures IsGapless(Fold(Run(env, requests)), stateRef)
  {
    hide Fold, Run, IsGapless;
    var log := Run(env, requests);
    RunJustified(env, requests);
    HistoryIsGapless(env, log, |log|, stateRef);
    assert log[..|log|] == log;
  }

  /** A committed mutation's command was proposed before it, unchanged as far as the hash can tell. */
  lemma CommitWasProposed(env: Env, requests: seq<Request>, i: nat)
    requires i < |Run(env, requests)| && Run(env, requests)[i].payload.MutationCommittedEvent?
    requires WellFormed(Run(env, requests)[i])
    ensures var log := Run(env, requests);
      exists c, j :: && 0 <= j < i && Commits(env, log, i, c)
        && log[j].payload.ProposalReceived? && log[j].payload.proposal.MutationProposal?
        && log[j].payload.proposal.mutation.mutationId == c.mutationId
        && log[j].payload.proposal.mutation.commandId == c.commandId
        && env.hash(OfCommand(log[j].payload.proposal.mutation)) == env.hash(OfCommand(c))
  {
    hide WellFormed, Fold, Run, AllJustified, ValidCall, CheckRevision;
    var log := Run(env, requests);
    RunJustified(env, requests);
    var c := CommitIsCommitted(env, log, i);
    var p := ProposalFor(Fold(log[..i]), c).value;
    var j := RecordedBefore(log, i, ProposalReceived(p));
  }

  /** Revisions only grow. */
  lemma {:induction false} RevisionGrows(env: Env, log: seq<RunEvent>, i: nat, j: nat, stateRef: string)
    requires AllJustified(env, log) && i <= j <= |log|
    ensures Revision(Fold(log[..i]), stateRef) <= Revision(Fold(log[..j]), stateRef)
  {
    hide WellFormed, AllJustified;
    if i < j {
      RevisionGrows(env, log, i, j - 1, stateRef);
      var f, e := Fold(log[..j - 1]), log[j - 1];
      assert log[..j] == log[..j - 1] + [e];
      FoldAppend(log[..j - 1], e);
      if WellFormed(e) && e.payload.MutationCommittedEvent? {
        var c := CommitIsCommitted(env, log, j - 1);
      }
    }
  }

  /** No mutation command ever commits twice. */
  lemma CommitsOnce(env: Env, requests: seq<Request>, c: MutationCommandRequest, i: nat, j: nat)
    requires i < |Run(env, requests)| && j < |Run(env, requests)|
    requires Commits(env, Run(env, requests), i, c) && Commits(env, Run(env, requests), j, c)
    ensures i == j
  {
    hide WellFormed, Run, ValidCall, Fold, AllJustified, CheckProposed;
    var log := Run(env, requests);
    RunJustified(env, requests);
    if i != j {
      var a, b := if i < j then i else j, if i < j then j else i;
      var f, e := Fold(log[..a]), log[a];
      assert log[..a + 1] == log[..a] + [e];
      FoldAppend(log[..a], e);
      RevisionGrows(env, log, a + 1, b, c.stateRef);
    }
  }

  // Commands, as they were requested

  /** The kth request asks for a commit. */
  predicate AsksToCommit(requests: seq<Request>, k: nat)
    requires k < |requests|
  {
    requests[k].Recording? && requests[k].call.CommitMutation?
  }

  lemma RecordedCommit(env: Env, log: seq<RunEvent>, call: Call, o: EventOptions, clock: Timestamp, again: Timestamp)
    requires var after := Record(env, log, call, o, clock, again).log;
      |after| > |log| && after[|log|].payload.MutationCommittedEvent? && WellFormed(after[|log|])
    ensures var after := Record(env, log, call, o, clock, again).log;
      call.CommitMutation? && |after| == |log| + 1 && after[..|log|] == log && Commits(env, after, |log|, call.command)
  {
    hide WellFormed, Fold, ValidCall, CheckProposed, CheckCommandHash, Envelope, AppendEvent, NextEventId, TypeName,
      PayloadOf, Admit;
    var committedAt := o.occurredAt.GetOr(clock);
    var payload := PayloadOf(env, Fold(log), call, committedAt);
    var eventId := o.eventId.GetOr(NextEventId(env.runId, |log|, TypeName(payload)));
    var options := WithDefaultCausation(Fold(log), o.(eventId := Some(eventId)));
    AppendedEnvelope(env, log, payload, options, again);
    AppendedFields(env, log, payload, options, again);
    CommitPayload(env, Fold(log), call, eventId, committedAt);
    var after := Record(env, log, call, o, clock, again).log;
    assert after[..|log|] == log;
  }

  lemma CommitPayload(env: Env, f: Fields, call: Call, eventId: string, at: Timestamp)
    requires Admit(env, f, call, eventId, at).None? && PayloadOf(env, f, call, at).MutationCommittedEvent?
    ensures call.CommitMutation? && PayloadOf(env, f, call, at).mutation.committedAt == at
    ensures PayloadOf(env, f, call, at).mutation == Committed(env, call.command.expectedRevision, call.command, at)
  {
    hide ValidCall, CheckProposed, CheckCommandHash;
  }

  /** Every commit of a run was asked for by a request of the run. */
  lemma {:induction false} CommitWasRequested(env: Env, requests: seq<Request>, i: nat) returns (k: nat)
    requires i < |Run(env, requests)| && Run(env, requests)[i].payload.MutationCommittedEvent?
    requires WellFormed(Run(env, requests)[i])
    ensures k < |requests| && AsksToCommit(requests, k)
    ensures Commits(env, Run(env, requests), i, requests[k].call.command)
  {
    hide WellFormed, Record, SubmitFinal, Fold, Admit, Committed;
    if requests != [] {
      var n := |requests| - 1;
      var before, log := Run(env, requests[..n]), Run(env, requests);
      CallExtends(env, before, requests[n]);
      if i < |before| {
        k := CommitWasRequested(env, requests[..n], i);
        assert log[..i] == before[..i];
      } else {
        k := n;
        match requests[n] {
          case Recording(call, o, clock, again) =>
            RecordAddsOne(env, before, call, o, clock, again);
            RecordedCommit(env, before, call, o, clock, again);
          case Submission(c, o, clock) => SubmitGenerates(env, before, c, o, clock);
        }
      }
    }
  }

  lemma RecordAddsOne(env: Env, log: seq<RunEvent>, call: Call, o: EventOptions, clock: Timestamp, again: Timestamp)
    ensures |Record(env, log, call, o, clock, again).log| <= |log| + 1
  {
    hide Fold, Admit, PayloadOf, WellFormed, Envelope, NextEventId;
  }

  /** No command of a commit request is confused with a proposal of the run. */
  predicate CommandsAreTold(env: Env, requests: seq<Request>) {
    forall k, j ::
      0 <= k < |requests| && AsksToCommit(requests, k) && 0 <= j < |Run(env, requests)|
      && IsMutationProposal(Run(env, requests)[j]) ==>
        NoCollision(env.hash, OfCommand(Run(env, requests)[j].payload.proposal.mutation),
                    OfCommand(requests[k].call.command))
  }

  predicate IsMutationProposal(e: RunEvent) {
    e.payload.ProposalReceived? && e.payload.proposal.MutationProposal?
  }

  /** Unless hashes collide, the requested command of a commit is the very one that the kernel finds proposed. */
  lemma CommitIsAsProposed(env: Env, requests: seq<Request>, i: nat) returns (k: nat, j: nat)
    requires i < |Run(env, requests)| && Run(env, requests)[i].payload.MutationCommittedEvent?
    requires WellFormed(Run(env, requests)[i]) && CommandsAreTold(env, requests)
    ensures k < |requests| && AsksToCommit(requests, k)
    ensures Commits(env, Run(env, requests), i, requests[k].call.command)
    ensures j < i && Run(env, requests)[j].payload == ProposalReceived(MutationProposal(requests[k].call.command))
    ensures ProposalFor(Fold(Run(env, requests)[..i]), requests[k].call.command)
         == Some(MutationProposal(requests[k].call.command))
  {
    hide WellFormed, Fold, Run, ValidCall, CheckRevision, Committed;
    k := CommitWasRequested(env, requests, i);
    var log, c := Run(env, requests), requests[k].call.command;
    var p := ProposalFor(Fold(log[..i]), c).value;
    j := RecordedBefore(log, i, ProposalReceived(p));
    assert IsMutationProposal(log[j]);
    assert NoCollision(env.hash, OfCommand(p.mutation), OfCommand(c));
  }

  /** What the kernel once found proposed under these ids it goes on finding. */
  lemma {:induction false} ProposalStays(log: seq<RunEvent>, i: nat, j: nat, c: MutationCommandRequest)
    requires i <= j <= |log| && ProposalFor(Fold(log[..i]), c).Some?
    ensures ProposalFor(Fold(log[..j]), c) == ProposalFor(Fold(log[..i]), c)
  {
    hide WellFormed, Fold;
    if i < j {
      ProposalStays(log, i, j - 1, c);
      var p := (p: Proposal) => p.MutationProposal? && p.mutation.commandId == c.commandId
        && p.mutation.mutationId == c.mutationId;
      var f, e := Fold(log[..j - 1]), log[j - 1];
      assert log[..j] == log[..j - 1] + [e];
      FoldAppend(log[..j - 1], e);
      assert ProposalFor(f, c) == Find(f.proposals, p);
      if WellFormed(e) && e.payload.ProposalReceived? {
        FindAppend(f.proposals, e.payload.proposal, p);
        assert ProposalFor(Fold(log[..j]), c) == Find(f.proposals + [e.payload.proposal], p);
      }
    }
  }

  lemma SameIdsSameProposal(f: Fields, a: MutationCommandRequest, b: MutationCommandRequest)
    requires a.commandId == b.commandId && a.mutationId == b.mutationId
    ensures ProposalFor(f, a) == ProposalFor(f, b)
  {
    FindAgrees(f.proposals,
               (p: Proposal) => p.MutationProposal? && p.mutation.commandId == a.commandId
                 && p.mutation.mutationId == a.mutationId,
               (p: Proposal) => p.MutationProposal? && p.mutation.commandId == b.commandId
                 && p.mutation.mutationId == b.mutationId);
  }

  /** Unless hashes collide, no two commits of a run carry the same command and mutation ids. */
  lemma CommitIdsDiffer(env: Env, requests: seq<Request>, i: nat, j: nat)
    requires i < j < |Run(env, requests)| && CommandsAreTold(env, requests)
    requires WellFormed(Run(env, requests)[i]) && WellFormed(Run(env, requests)[j])
    requires Run(env, requests)[i].payload.MutationCommittedEvent?
    requires Run(env, requests)[j].payload.MutationCommittedEvent?
    ensures Run(env, requests)[i].payload.mutation.commandId == Run(env, requests)[j].payload.mutation.commandId ==>
      Run(env, requests)[i].payload.mutation.mutationId != Run(env, requests)[j].payload.mutation.mutationId
  {
    hide WellFormed, Fold, Run, Admit, ProposalFor, CommandsAreTold;
    var log := Run(env, requests);
    var k, m := CommitIsAsProposed(env, requests, i);
    var l, n := CommitIsAsProposed(env, requests, j);
    var a, b := requests[k].call.command, requests[l].call.command;
    if a.commandId == b.commandId && a.mutationId == b.mutationId {
      ProposalStays(log, i, j, a);
      SameIdsSameProposal(Fold(log[..j]), a, b);
      CommitsOnce(env, requests, a, i, j);
    }
  }
}
