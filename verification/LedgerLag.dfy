// Calls after which the durable ledger stays behind the kernel for good, and
// exactly which calls those are.
module LedgerLag {
  import opened Wrappers
  import opened Protocol
  import opened Contracts
  import opened EventLog
  import opened KernelSpec
  import opened KernelInvariants
  import opened RunGrowth
  import opened LedgerBacked
  import opened Resubmission
  import opened RecordingOutcome
  import opened SubmissionOutcome
  import SemanticLedger

  // For good

  /** The event the ledger is waiting for is in the log, and nobody will ever append it. */
  ghost predicate IsStuck(env: Env, s: State) {
    && IsDurable(env, s) && |s.stored| < |s.log|
    && (forall t :: 0 <= t < |s.tasks| ==> NoneIsNext(s.stored, s.tasks[t].pending))
    && NoneIsNext(s.stored, s.strays)
  }

  predicate NoneIsNext(stored: seq<RunEvent>, events: seq<RunEvent>) {
    forall e :: e in events ==> e.sequence != |stored| + 1
  }

  lemma OnlyNextIsAccepted(env: Env, stored: seq<RunEvent>, e: RunEvent)
    requires LedgerAccepts(env, stored, e)
    ensures e.sequence == |stored| + 1
  {
    hide IsBlank, SemanticLedger.CheckShape, SemanticLedger.CheckHash, SemanticLedger.CheckCause;
  }

  /** New events come after the one that is missing. */
  lemma ReturnedAreLater(env: Env, log: seq<RunEvent>, request: Request)
    requires AllJustified(env, log)
    ensures forall e :: e in ReturnedEvents(env, log, request) ==> e.sequence > |log|
  {
    hide AllJustified, ReturnedEvents, After;
    ReturnedAreAt(env, log, request);
    var events, longer := ReturnedEvents(env, log, request), After(env, log, request);
    forall e | e in events
      ensures e.sequence > |log|
    {
      var i :| 0 <= i < |events| && events[i] == e;
      assert longer[|log| + i] == e;
      NumberedOnce(env, longer, e, |log| + i);
    }
  }

  lemma NumberedOnce(env: Env, log: seq<RunEvent>, e: RunEvent, i: nat)
    requires AllJustified(env, log) && i < |log| && log[i] == e
    ensures e.sequence == i + 1
  {
    hide WellFormed, IsBlank, IsRecorded, IsCandidate, IsProof, IsMismatch, IsDecision, IsRelease;
    assert Justified(env, log, i);
  }

  lemma StepStaysStuck(env: Env, s: State, step: Step)
    requires IsStuck(env, s)
    ensures IsStuck(env, Next(env, s, step)) && Next(env, s, step).stored == s.stored
  {
    hide AllJustified, ReturnedEvents, After, LedgerAccepts;
    StepIsDurable(env, s, step);
    var next := Next(env, s, step);
    match step {
      case Enter(request) =>
        ReturnedAreAt(env, s.log, request);
        ReturnedAreLater(env, s.log, request);
        forall t | 0 <= t < |next.tasks|
          ensures NoneIsNext(next.stored, next.tasks[t].pending)
        {
          assert t < |s.tasks| ==> next.tasks[t] == s.tasks[t];
        }
      case Land(t, io) =>
        if t < |s.tasks| && s.tasks[t].pending != [] {
          var e := s.tasks[t].pending[0];
          assert e.sequence != |s.stored| + 1;
          if LedgerAccepts(env, s.stored, e) {
            OnlyNextIsAccepted(env, s.stored, e);
          }
        }
      case Arrive(k) =>
        if k < |s.strays| {
          assert s.strays[k] in s.strays;
          if LedgerAccepts(env, s.stored, s.strays[k]) {
            OnlyNextIsAccepted(env, s.stored, s.strays[k]);
          }
        }
      case Resume(t) =>
        if t < |s.tasks| && |s.tasks[t].pending| > 1 {
          assert forall e :: e in s.tasks[t].pending[1..] ==> e in s.tasks[t].pending;
        }
    }
  }

  /** A ledger that is stuck stays behind whatever is called, however the calls overlap and however appends go. */
  lemma {:induction false} StuckForGood(env: Env, s: State, steps: seq<Step>)
    requires IsStuck(env, s)
    ensures IsStuck(env, Steps(env, s, steps)) && Steps(env, s, steps).stored == s.stored
  {
    hide IsStuck, Next;
    if steps != [] {
      StuckForGood(env, s, steps[..|steps| - 1]);
      StepStaysStuck(env, Steps(env, s, steps[..|steps| - 1]), steps[|steps| - 1]);
    }
  }

  /** One call that threw behind something it recorded is enough, with awaited calls and whatever the I/O does. */
  lemma OneCallIsEnough(env: Env, s: State, request: Request, io: nat -> Io, steps: seq<Step>)
    requires AllJustified(env, s.log) && IsSettled(s) && !LeavesNothingUnreturned(env, s.log, request)
    ensures IsStuck(env, Awaited(env, s, request, io))
    ensures var later := Steps(env, Awaited(env, s, request, io), steps);
      later.stored == s.stored && |later.stored| < |later.log|
  {
    hide AllJustified, ReturnedEvents, After;
    ReturnedAreAt(env, s.log, request);
    assert Awaited(env, s, request, io) == s.(log := After(env, s.log, request));
    StuckForGood(env, Awaited(env, s, request, io), steps);
  }

  // Which calls

  /** What a caller can see to before a call, so that the call does not leave the ledger behind. */
  predicate KeepsLedgerUp(env: Env, log: seq<RunEvent>, request: Request) {
    match request
    case Recording(call, o, clock, clockAgain) =>
      EventIsStored(env, log, call, o, clock) ==> ParsesLater(call, o, clockAgain)
    case Submission(c, o, clock) =>
      ProposalIsStored(env, log, c, o) ==> IsSubmittable(env, log, c, o, clock)
  }

  lemma KeepsUpExactly(env: Env, log: seq<RunEvent>, request: Request)
    ensures LeavesNothingUnreturned(env, log, request) <==> KeepsLedgerUp(env, log, request)
  {
    hide Record, SubmitFinal, EventIsStored, ParsesLater, ProposalIsStored, IsSubmittable, Emitted;
    match request {
      case Recording(call, o, clock, clockAgain) => RecordingReturns(env, log, call, o, clock, clockAgain);
      case Submission(c, o, clock) =>
        SubmissionCompletes(env, log, c, o, clock);
        SubmissionStores(env, log, c, o, clock);
        if SubmitFinal(env, log, c, o, clock).result.Ok? {
          SomethingEmitted(SubmitFinal(env, log, c, o, clock).result.value);
        }
    }
  }

  lemma SomethingEmitted(r: FinalResult)
    ensures Emitted(r) != []
  {
  }

  /**
   * From a ledger that holds the whole log, an awaited call whose appends work leaves it so exactly when the caller saw
   * to these conditions; otherwise the ledger never catches up.
   */
  lemma KeepsUpOrNever(env: Env, s: State, request: Request, io: nat -> Io)
    requires AllJustified(env, s.log) && IsSettled(s) && forall i :: io(i) == Works
    ensures var after := Awaited(env, s, request, io);
      && (KeepsLedgerUp(env, s.log, request) ==> IsSettled(after))
      && (!KeepsLedgerUp(env, s.log, request) ==>
            forall steps :: Steps(env, after, steps).stored == s.stored && s.stored < Steps(env, after, steps).log)
  {
    hide AllJustified, Awaited, Steps, KeepsLedgerUp, LeavesNothingUnreturned;
    KeepsUpExactly(env, s.log, request);
    AwaitedKeepsUp(env, s, request, io);
    if !KeepsLedgerUp(env, s.log, request) {
      forall steps
        ensures Steps(env, Awaited(env, s, request, io), steps).stored == s.stored
        ensures s.stored < Steps(env, Awaited(env, s, request, io), steps).log
      {
        OneCallIsEnough(env, s, request, io, steps);
        StuckForGood(env, Awaited(env, s, request, io), steps);
      }
    }
  }

  predicate AllKeepUp(env: Env, requests: seq<Request>) {
    forall n :: 0 <= n < |requests| ==> KeepsLedgerUp(env, Run(env, requests[..n]), requests[n])
  }

  lemma LastKeepsUp(env: Env, requests: seq<Request>)
    requires requests != []
    ensures var n := |requests| - 1;
      AllKeepUp(env, requests)
      <==> AllKeepUp(env, requests[..n]) && KeepsLedgerUp(env, Run(env, requests[..n]), requests[n])
  {
    hide Run, KeepsLedgerUp;
    var n := |requests| - 1;
    assert forall m :: 0 <= m < n ==> requests[..n][..m] == requests[..m] && requests[..n][m] == requests[m];
  }

  /**
   * Awaiting any calls in turn, with working appends, ends with the whole log in the ledger when every caller saw to
   * the conditions, and with a ledger that never catches up when one did not.
   */
  lemma {:induction false} AwaitedCallsKeepUp(env: Env, requests: seq<Request>, io: nat -> Io)
    requires forall i :: io(i) == Works
    ensures if AllKeepUp(env, requests) then
              IsSettled(AwaitAll(env, requests, io)) && AwaitAll(env, requests, io).log == Run(env, requests)
            else IsStuck(env, AwaitAll(env, requests, io))
  {
    hide Awaited, KeepsLedgerUp, LeavesNothingUnreturned, After, AllKeepUp, IsStuck, AllJustified;
    if requests == [] {
      assert AllKeepUp(env, []) by { NothingToKeepUp(env); }
    } else {
      var n := |requests| - 1;
      var before, last := AwaitAll(env, requests[..n], io), requests[n];
      LastKeepsUp(env, requests);
      AwaitedCallsKeepUp(env, requests[..n], io);
      if AllKeepUp(env, requests[..n]) {
        RunJustified(env, requests[..n]);
        KeepsUpExactly(env, before.log, last);
        AwaitedKeepsUp(env, before, last, io);
        if !KeepsLedgerUp(env, before.log, last) {
          OneCallIsEnough(env, before, last, io, []);
        }
      } else {
        var steps := AwaitedIsSteps(env, before, last, io);
        StuckForGood(env, before, steps);
      }
    }
  }

  lemma NothingToKeepUp(env: Env)
    ensures AllKeepUp(env, [])
  {
  }

  /** It takes one call: a start with an empty profile is stored, and then refused. */
  lemma EmptyProfileLeavesLedgerBehind(env: Env, at: Timestamp, io: nat -> Io)
    requires !IsBlank(env.runId) && ValidTime(at)
    ensures var o := EventOptions(Some("evt_start"), Some(at), None, None, None);
      IsStuck(env, Awaited(env, Initial, Recording(Call.StartRun(Some(""), None), o, at, at), io))
  {
    hide Awaited, IsStuck, Record, IsBlank;
    var start, o := Call.StartRun(Some(""), None), EventOptions(Some("evt_start"), Some(at), None, None, None);
    NothingToJustify(env);
    assert !IsSpace("evt_start"[0]);
    assert !IsBlank("evt_start") by { NotBlank("evt_start"); }
    assert EventIsStored(env, [], start, o, at);
    KeepsUpExactly(env, [], Recording(start, o, at, at));
    OneCallIsEnough(env, Initial, Recording(start, o, at, at), io, []);
  }
}
