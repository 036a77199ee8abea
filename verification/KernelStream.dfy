// Every log a kernel produces is a run's stream, whichever of the source's
// validators is asked.
module KernelStream {
  import opened Wrappers
  import opened Protocol
  import opened Contracts
  import opened EventLog
  import opened EventOrder
  import opened KernelSpec
  import opened KernelInvariants
  import SemanticLedger

  lemma JustifiedIsChain(env: Env, log: seq<RunEvent>)
    requires AllJustified(env, log)
    ensures IsChain(env.hash, env.runId, log)
  {
    hide IsBlank, IsRecorded, IsCandidate, IsProof, IsMismatch, IsDecision, IsRelease, IsCaused;
    forall i | 0 <= i < |log|
      ensures Envelope(env, log[..i], log[i])
      ensures IsCaused(log, i)
      ensures forall j :: 0 <= j < i ==> log[j].eventId != log[i].eventId
    {
      assert Justified(env, log, i);
      NextIsCaused(log, i);
    }
  }

  /** `replay()` of the kernel's ledger gives back its log. */
  lemma KernelReplaysItself(env: Env, requests: seq<Request>, localeCompare: (string, string) -> int)
    ensures IsChain(env.hash, env.runId, Run(env, requests))
    ensures OrderAndValidate(env.hash, localeCompare, Run(env, requests), Some(env.runId)) == Ok(Run(env, requests))
  {
    hide OrderAndValidate, IsChain, AllJustified, Run;
    RunJustified(env, requests);
    JustifiedIsChain(env, Run(env, requests));
    OrderRecoversChain(env.hash, localeCompare, Run(env, requests), Some(env.runId), Run(env, requests), env.runId);
  }

  /** A semantic ledger takes a whole kernel log, event by event, when its events are well-formed. */
  lemma LedgerTakesRun(env: Env, log: seq<RunEvent>)
    requires AllJustified(env, log) && forall i :: 0 <= i < |log| ==> WellFormed(log[i])
    ensures SemanticLedger.IsStream(env.hash, env.runId, log)
    ensures SemanticLedger.AppendAll(env.hash, [], log) == Ok(log)
  {
    hide SemanticLedger.AppendAll, SemanticLedger.ValidateOrdered, IsChain, AllJustified, WellFormed;
    JustifiedIsChain(env, log);
    forall e | e in log
      ensures e.runId == env.runId && e.occurredAt.text != ""
    {
      OneRun(env, log, e);
      HasTime(e);
    }
    SemanticLedger.ValidatorsAgree(env.hash, env.runId, log);
    SemanticLedger.EmptyStream(env.hash, env.runId);
    SemanticLedger.AppendAllIsStream(env.hash, env.runId, [], log);
    assert [] + log == log;
  }

  lemma HasTime(e: RunEvent)
    requires WellFormed(e)
    ensures e.occurredAt.text != ""
  {
  }

  lemma OneRun(env: Env, log: seq<RunEvent>, e: RunEvent)
    requires IsChain(env.hash, env.runId, log) && e in log
    ensures e.runId == env.runId
  {
    hide IsBlank, IsCaused;
    var i :| 0 <= i < |log| && log[i] == e;
    assert log[i].runId == env.runId;
  }
}
