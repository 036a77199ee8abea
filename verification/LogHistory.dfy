// From what a fold holds back to the events it came from.
module LogHistory {
  import opened Wrappers
  import opened Protocol
  import opened Contracts
  import opened EventLog

  /** The fields hold what a recording payload says. */
  predicate Holds(f: Fields, p: Payload) {
    match p
    case ProposalReceived(x) => x in f.proposals
    case EffectRequested(x) => x in f.effectRequests
    case WritePreflightRequested(x) => x in f.preflightCandidates
    case WritePreflightDecided(x) => x in f.preflightDecisions
    case WriteQuarantined(x) => x in f.quarantines
    case MutationCommittedEvent(x) => x in f.mutations
    case ApprovalRequested(x) => x in f.approvalRequests
    case ApprovalGranted(x) => x in f.approvalGrants
    case ApprovalDenied(x) => x in f.approvalDenials
    case ApprovalExpired(x) => x in f.approvalExpiries
    case EffectReceiptRecorded(x) => x in f.effectReceipts
    case ExternalStateObserved(x) => x in f.observations
    case RunStarted(_, _, _) => false
    case ProofGenerated(_) => false
    case MismatchDetected(_) => false
    case ReleaseDecided(_) => false
    case FinalReleased(_, _) => false
  }

  predicate IsKept(p: Payload) {
    !(p.RunStarted? || p.ProofGenerated? || p.MismatchDetected? || p.ReleaseDecided? || p.FinalReleased?)
  }

  /** A payload is recorded in a log when a well-formed event carries it. */
  predicate Recorded(log: seq<RunEvent>, p: Payload) {
    exists j :: 0 <= j < |log| && log[j].payload == p && WellFormed(log[j])
  }

  lemma ApplyHolds(f: Fields, eventId: string, p: Payload, q: Payload)
    requires IsKept(q)
    ensures Holds(ApplyPayload(f, eventId, p), q) <==> Holds(f, q) || p == q
  {
  }

  /** The fields hold exactly the payloads the log records. */
  lemma {:induction false} HoldsIsRecorded(log: seq<RunEvent>, p: Payload)
    requires IsKept(p)
    ensures Holds(Fold(log), p) <==> Recorded(log, p)
  {
    hide WellFormed, Holds, ApplyPayload, IsKept;
    if log == [] {
      NothingHeld(p);
    } else {
      var front, e := log[..|log| - 1], log[|log| - 1];
      HoldsIsRecorded(front, p);
      ApplyHolds(Fold(front), e.eventId, e.payload, p);
      assert forall j :: 0 <= j < |front| ==> front[j] == log[j];
    }
  }

  lemma NothingHeld(p: Payload)
    ensures !Holds(NoFields, p)
  {
  }

  lemma RecordedEarlier(log: seq<RunEvent>, n: nat, p: Payload)
    requires n <= |log| && Recorded(log[..n], p)
    ensures exists j :: 0 <= j < n && log[j].payload == p && WellFormed(log[j])
  {
    var j :| 0 <= j < n && log[..n][j].payload == p && WellFormed(log[..n][j]);
    assert log[j] == log[..n][j];
  }
}
