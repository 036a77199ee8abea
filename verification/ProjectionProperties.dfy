// A projection against the kernel that recorded its events.
module ProjectionProperties {
  import opened Wrappers
  import opened Protocol
  import opened Contracts
  import opened EventLog
  import opened EventOrder
  import opened ProofEngine
  import opened ReleaseGate
  import opened KernelSpec
  import opened KernelInvariants
  import opened KernelStream
  import opened ReleaseSafety
  import opened Projection

  /** The projection's inputs are the kernel's. */
  predicate SameInputs(p: RunProjection, f: Fields) {
    && p.proposals == f.proposals && p.effectRequests == f.effectRequests && p.receipts == f.effectReceipts
    && p.observations == f.observations
  }

  lemma OneMoreSameInputs(p: RunProjection, f: Fields, e: RunEvent)
    requires SameInputs(p, f)
    ensures SameInputs(Applied(p, e), ApplyPayload(f, e.eventId, e.payload))
  {
  }

  lemma {:induction false} ProjectionFollowsFold(events: seq<RunEvent>, n: nat)
    requires 1 <= n <= |events| && events[0].payload.RunStarted?
    requires forall i :: 0 <= i < |events| ==> WellFormed(events[i])
    ensures SameInputs(Project(events[..n]), Fold(events[..n]))
  {
    hide WellFormed, Applied, ApplyPayload;
    var e := events[n - 1];
    assert events[..n] == events[..n - 1] + [e];
    FoldAppend(events[..n - 1], e);
    if n == 1 {
      assert events[..0] == [];
      StartHasNoInputs(e);
    } else {
      ProjectionFollowsFold(events, n - 1);
      OneMoreSameInputs(Project(events[..n - 1]), Fold(events[..n - 1]), e);
    }
  }

  lemma StartHasNoInputs(e: RunEvent)
    requires e.payload.RunStarted?
    ensures SameInputs(Started(e), ApplyPayload(NoFields, e.eventId, e.payload))
  {
  }

  /** What a projection says about its release is what the last events of the log say. */
  predicate TellsRelease(p: RunProjection, events: seq<RunEvent>) {
    && (p.finalReleased <==> exists e :: e in events && e.payload.FinalReleased?)
    && (p.finalReleasedCandidate.Some? <==> p.finalReleased)
    && (p.finalReleased ==>
          exists i :: && 0 <= i < |events| && events[i].payload.FinalReleased?
                      && p.finalReleasedCandidate == Some(events[i].payload.released)
                      && forall j :: i < j < |events| ==> !events[j].payload.FinalReleased?)
    && (p.Status().Concluded? <==> exists e :: e in events && e.payload.ReleaseDecided?)
    && |p.eventIds| == |events|
  }

  lemma {:induction false} ProjectionTellsRelease(events: seq<RunEvent>)
    requires events != [] && events[0].payload.RunStarted?
    ensures TellsRelease(Project(events), events)
  {
    hide Applied, TellsRelease;
    var n := |events| - 1;
    if n == 0 {
      StartTellsRelease(events);
    } else {
      ProjectionTellsRelease(events[..n]);
      assert events == events[..n] + [events[n]];
      OneMoreTellsRelease(Project(events[..n]), events[..n], events[n]);
    }
  }

  lemma StartTellsRelease(events: seq<RunEvent>)
    requires |events| == 1 && events[0].payload.RunStarted?
    ensures TellsRelease(Started(events[0]), events)
  {
  }

  lemma OneMoreTellsRelease(p: RunProjection, events: seq<RunEvent>, e: RunEvent)
    requires TellsRelease(p, events)
    ensures TellsRelease(Applied(p, e), events + [e])
  {
    hide Applied, RunProjection.Status;
    NotedMore(p, e);
    AppliedRelease(p, e);
    assert Applied(p, e).Status().Concluded? <==> p.Status().Concluded? || e.payload.ReleaseDecided? by {
      ConcludedMore(p, e);
    }
    var q, now := Applied(p, e), events + [e];
    assert now[|events|] == e && forall x :: x in now <==> x in events || x == e;
    if e.payload.FinalReleased? {
      assert q.finalReleasedCandidate == Some(now[|events|].payload.released);
    } else if p.finalReleased {
      var i :| && 0 <= i < |events| && events[i].payload.FinalReleased?
               && p.finalReleasedCandidate == Some(events[i].payload.released)
               && forall j :: i < j < |events| ==> !events[j].payload.FinalReleased?;
      assert now[i] == events[i];
    }
  }

  lemma AppliedRelease(p: RunProjection, e: RunEvent)
    ensures var q := Applied(p, e);
      && q.finalReleased == (p.finalReleased || e.payload.FinalReleased?)
      && q.finalReleasedCandidate
         == if e.payload.FinalReleased? then Some(e.payload.released) else p.finalReleasedCandidate
  {
  }

  lemma ConcludedMore(p: RunProjection, e: RunEvent)
    ensures Applied(p, e).Status().Concluded? <==> p.Status().Concluded? || e.payload.ReleaseDecided?
  {
  }

  /** The ith event is the last decision. */
  predicate IsLastDecision(events: seq<RunEvent>, i: nat) {
    && i < |events| && events[i].payload.ReleaseDecided?
    && forall j :: i < j < |events| ==> !events[j].payload.ReleaseDecided?
  }

  /** The status is that of the last decision; before any, it says whether there is more than the start. */
  ghost predicate IsStatusOf(p: RunProjection, events: seq<RunEvent>) {
    && p.eventIds != [] && (|events| == 1 <==> |p.eventIds| == 1)
    && (forall i: nat :: IsLastDecision(events, i) ==>
          p.Status() == Concluded(events[i].payload.decision.status))
    && ((forall e :: e in events ==> !e.payload.ReleaseDecided?) ==>
          p.Status() == if |events| == 1 then OnlyStarted else Running)
  }

  lemma {:induction false} StatusMeaning(events: seq<RunEvent>)
    requires events != [] && events[0].payload.RunStarted?
    ensures IsStatusOf(Project(events), events)
  {
    hide Applied, IsStatusOf;
    var n := |events| - 1;
    if n == 0 {
      StatusOfStart(events);
    } else {
      StatusMeaning(events[..n]);
      assert events == events[..n] + [events[n]];
      StatusOfNext(Project(events[..n]), events[..n], events[n]);
    }
  }

  lemma StatusOfStart(events: seq<RunEvent>)
    requires |events| == 1 && events[0].payload.RunStarted?
    ensures IsStatusOf(Started(events[0]), events)
  {
  }

  lemma StatusOfNext(p: RunProjection, events: seq<RunEvent>, e: RunEvent)
    requires IsStatusOf(p, events) && events != []
    ensures IsStatusOf(Applied(p, e), events + [e])
  {
    hide Applied;
    var now := events + [e];
    StatusOfMore(p, e);
    NotedMore(p, e);
    assert now[|events|] == e && (forall x :: x in now <==> x in events || x == e);
    forall i: nat | IsLastDecision(now, i)
      ensures Applied(p, e).Status() == Concluded(now[i].payload.decision.status)
    {
      if i < |events| {
        assert now[|events|] == e && !e.payload.ReleaseDecided?;
        LastStays(events, e, i);
      }
    }
  }

  lemma LastStays(events: seq<RunEvent>, e: RunEvent, i: nat)
    requires i < |events| && IsLastDecision(events + [e], i)
    ensures IsLastDecision(events, i) && !e.payload.ReleaseDecided?
  {
    assert (events + [e])[|events|] == e;
    assert forall j :: 0 <= j < |events| ==> (events + [e])[j] == events[j];
  }

  lemma NotedMore(p: RunProjection, e: RunEvent)
    ensures |Applied(p, e).eventIds| == |p.eventIds| + 1
  {
  }

  lemma StatusOfMore(p: RunProjection, e: RunEvent)
    ensures e.payload.ReleaseDecided? ==> Applied(p, e).Status() == Concluded(e.payload.decision.status)
    ensures !e.payload.ReleaseDecided? && p.Status().Concluded? ==> Applied(p, e).Status() == p.Status()
    ensures !e.payload.ReleaseDecided? && !p.Status().Concluded? && p.eventIds != [] ==>
      Applied(p, e).Status() == Running
  {
  }

  /** A kernel's log begins with its start. */
  lemma RunBeginsWithStart(env: Env, requests: seq<Request>)
    ensures var log := Run(env, requests);
      log != [] ==> log[0].payload.RunStarted? && log[0].payload.runId == env.runId
  {
    hide Run, WellFormed, ValidCall, CheckCall, EvaluateProof, DecideRelease, Envelope;
    var log := Run(env, requests);
    RunJustified(env, requests);
    if log != [] {
      assert Justified(env, log, 0) && log[..0] == [];
    }
  }

  /**
   * Projection agrees with the kernel: every kernel log of well-formed events rebuilds, with exactly the kernel's
   * proposals, requests, receipts and observations, and it says released exactly when the log does, with the
   * candidate of the last release.
   */
  lemma ProjectionAgreesWithKernel(env: Env, requests: seq<Request>)
    requires Run(env, requests) != []
    requires forall i :: 0 <= i < |Run(env, requests)| ==> WellFormed(Run(env, requests)[i])
    ensures var log := Run(env, requests);
      && IsAccepted(env.hash, log[0].runId, log) && log[0].payload.RunStarted?
      && SameInputs(Project(log), Fold(log)) && TellsRelease(Project(log), log)
      && Project(log).runId == env.runId
  {
    hide Run, WellFormed, Fold, AllJustified, Project, TellsRelease, SameInputs;
    var log := Run(env, requests);
    RunBeginsWithStart(env, requests);
    RunJustified(env, requests);
    JustifiedIsChain(env, log);
    ChainNames(env, log);
    assert log[..|log|] == log;
    ProjectionFollowsFold(log, |log|);
    ProjectionTellsRelease(log);
    ProjectionKeepsRun(log);
  }

  lemma ChainNames(env: Env, log: seq<RunEvent>)
    requires IsChain(env.hash, env.runId, log) && log != []
    ensures log[0].runId == env.runId && IsLinked(env.hash, env.runId, log)
  {
    hide IsBlank, IsCaused;
  }

  lemma {:induction false} ProjectionKeepsRun(events: seq<RunEvent>)
    requires events != [] && events[0].payload.RunStarted?
    ensures Project(events).runId == events[0].payload.runId
  {
    if |events| > 1 {
      ProjectionKeepsRun(events[..|events| - 1]);
    }
  }

  /** In every run a projection that says released rests on a safe release. */
  lemma ProjectedReleaseIsSafe(env: Env, requests: seq<Request>)
    requires Run(env, requests) != [] && Run(env, requests)[0].payload.RunStarted?
    requires Project(Run(env, requests)).finalReleased
    ensures exists i :: && 0 <= i < |Run(env, requests)| && IsSafeRelease(env, Run(env, requests), i)
                        && Project(Run(env, requests)).finalReleasedCandidate
                           == Some(Run(env, requests)[i].payload.released)
  {
    hide Run, Project, IsBacked;
    var log := Run(env, requests);
    ProjectionTellsRelease(log);
    var i :| 0 <= i < |log| && log[i].payload.FinalReleased?
      && Project(log).finalReleasedCandidate == Some(log[i].payload.released);
    ReleaseSafety.ReleaseSafety(env, requests, i);
  }
}
