// A kernel whose events are handed to a durable ledger after each call, as the
// steps that overlapping calls can interleave.
module LedgerBacked {
  import opened Wrappers
  import opened Protocol
  import opened Contracts
  import opened EventLog
  import opened EventOrder
  import opened KernelSpec
  import opened KernelInvariants
  import opened RunGrowth
  import opened Resubmission
  import opened KernelStream
  import SemanticLedger

  /**
   * How one append goes: through, lost on the way, stored although the caller is told it failed, or still on its way
   * when the caller is told so.
   */
  datatype Io = Works | FailsBefore | FailsAfter | FailsInFlight

  /** What the ledger's side of an append has done so far. */
  datatype Landing = Waiting | Stored | Rejected

  /** A call that is still persisting: the events it has left, the first of them with the ledger. */
  datatype Task = Task(pending: seq<RunEvent>, landing: Landing)

  /** `strays` are the appends that may still reach the ledger, after their callers were told that they failed. */
  datatype State = State(log: seq<RunEvent>, stored: seq<RunEvent>, failed: bool, tasks: seq<Task>,
                         strays: seq<RunEvent>)

  datatype Step =
    | Enter(request: Request)       // a caller enters: the latch is checked and the kernel is called
    | Land(task: nat, io: Io)       // the ledger handles the append of that task
    | Resume(task: nat)             // the task learns of it and goes on
    | Arrive(stray: nat)            // an append its caller has given up on reaches the ledger after all

  const Initial := State([], [], false, [], [])

  /** The events a kernel call returns to be persisted; a call that threw returns none. */
  function ReturnedEvents(env: Env, log: seq<RunEvent>, request: Request): seq<RunEvent> {
    match request
    case Recording(call, options, clock, again) =>
      var r := Record(env, log, call, options, clock, again).result;
      if r.Ok? then [r.value] else []
    case Submission(c, options, clock) =>
      var r := SubmitFinal(env, log, c, options, clock).result;
      if r.Ok? then Emitted(r.value) else []
  }

  function Without(tasks: seq<Task>, t: nat): seq<Task>
    requires t < |tasks|
  {
    tasks[..t] + tasks[t + 1..]
  }

  predicate LedgerAccepts(env: Env, stored: seq<RunEvent>, e: RunEvent) {
    !IsBlank(e.runId) && SemanticLedger.CheckAppend(env.hash, stored, e).None?
  }

  /** The append reaches the ledger before its caller learns of it. */
  predicate Reaches(io: Io) {
    io.Works? || io.FailsAfter?
  }

  function Next(env: Env, s: State, step: Step): State {
    match step
    case Enter(request) =>
      if s.failed then s
      else
        var events := ReturnedEvents(env, s.log, request);
        s.(log := After(env, s.log, request),
           tasks := if events == [] then s.tasks else s.tasks + [Task(events, Waiting)])
    case Land(t, io) =>
      if t >= |s.tasks| || s.tasks[t].landing != Waiting || s.tasks[t].pending == [] then s
      else
        var e := s.tasks[t].pending[0];
        var kept := LedgerAccepts(env, s.stored, e) && Reaches(io);
        s.(stored := if kept then s.stored + [e] else s.stored,
           strays := if io.FailsInFlight? then s.strays + [e] else s.strays,
           tasks := s.tasks[t := s.tasks[t].(landing := if kept && io == Works then Stored else Rejected)])
    case Resume(t) =>
      if t >= |s.tasks| || s.tasks[t].pending == [] then s
      else
        (match s.tasks[t].landing
         case Waiting => s
         case Rejected => s.(failed := true, tasks := Without(s.tasks, t))
         case Stored =>
           if |s.tasks[t].pending| == 1 then s.(tasks := Without(s.tasks, t))
           else s.(tasks := s.tasks[t := Task(s.tasks[t].pending[1..], Waiting)]))
    case Arrive(k) =>
      if k < |s.strays| && LedgerAccepts(env, s.stored, s.strays[k]) then s.(stored := s.stored + [s.strays[k]]) else s
  }

  function Steps(env: Env, s: State, steps: seq<Step>): State {
    if steps == [] then s else Next(env, Steps(env, s, steps[..|steps| - 1]), steps[|steps| - 1])
  }

  // The durable prefix

  /** The event stands in the log where its sequence says. */
  predicate IsAt(log: seq<RunEvent>, e: RunEvent) {
    1 <= e.sequence <= |log| && log[e.sequence - 1] == e
  }

  ghost predicate IsDurable(env: Env, s: State) {
    && AllJustified(env, s.log)
    && s.stored <= s.log
    && (forall t :: 0 <= t < |s.tasks| ==> forall e :: e in s.tasks[t].pending ==> IsAt(s.log, e))
    && forall e :: e in s.strays ==> IsAt(s.log, e)
  }

  lemma {:induction false} ReturnedAreAt(env: Env, log: seq<RunEvent>, request: Request)
    requires AllJustified(env, log)
    ensures AllJustified(env, After(env, log, request)) && log <= After(env, log, request)
    ensures forall e :: e in ReturnedEvents(env, log, request) ==> IsAt(After(env, log, request), e)
    ensures ReturnedEvents(env, log, request) != []
        ==> After(env, log, request) == log + ReturnedEvents(env, log, request)
  {
    hide AllJustified, Record, SubmitFinal, Emitted, IsLinked, IsBlank;
    CallExtends(env, log, request);
    match request {
      case Recording(call, o, clock, again) =>
        RecordJustified(env, log, call, o, clock, again);
        RecordReports(env, log, call, o, clock, again);
      case Submission(c, o, clock) =>
        SubmitJustified(env, log, c, o, clock);
        if SubmitFinal(env, log, c, o, clock).result.Ok? {
          SubmissionReports(env, log, c, o, clock);
        }
    }
    var longer := After(env, log, request);
    JustifiedIsChain(env, longer);
    Numbered(env, longer);
    forall e | e in ReturnedEvents(env, log, request)
      ensures IsAt(longer, e)
    {
      assert e in longer;
      var i :| 0 <= i < |longer| && longer[i] == e;
    }
  }

  lemma Numbered(env: Env, log: seq<RunEvent>)
    requires IsChain(env.hash, env.runId, log)
    ensures IsNumbered(log)
  {
    hide IsBlank, IsCaused;
  }

  lemma RecordReports(env: Env, log: seq<RunEvent>, call: Call, o: EventOptions, clock: Timestamp, again: Timestamp)
    ensures var out := Record(env, log, call, o, clock, again);
      out.result.Ok? ==> out.log == log + [out.result.value]
  {
    hide Fold, Admit, PayloadOf, WellFormed, Envelope, NextEventId;
  }

  lemma StepIsDurable(env: Env, s: State, step: Step)
    requires IsDurable(env, s)
    ensures IsDurable(env, Next(env, s, step))
  {
    hide AllJustified, ReturnedEvents, After, IsBlank, SemanticLedger.CheckShape, SemanticLedger.CheckHash;
    var next := Next(env, s, step);
    match step {
      case Enter(request) =>
        ReturnedAreAt(env, s.log, request);
        forall t, e | 0 <= t < |next.tasks| && e in next.tasks[t].pending
          ensures IsAt(next.log, e)
        {
          assert t < |s.tasks| ==> next.tasks[t] == s.tasks[t];
        }
      case Land(t, io) =>
        if t < |s.tasks| && s.tasks[t].pending != [] {
          assert IsAt(s.log, s.tasks[t].pending[0]);
        }
      case Arrive(k) =>
        if k < |s.strays| {
          assert IsAt(s.log, s.strays[k]);
        }
      case Resume(t) =>
        if t < |s.tasks| && |s.tasks[t].pending| > 1 {
          assert forall e :: e in s.tasks[t].pending[1..] ==> e in s.tasks[t].pending;
        }
    }
  }

  /**
   * The durable prefix: however calls overlap, whatever throws and whichever appends fail, before they took effect,
   * after it or long before it, what the ledger holds is always a prefix of the kernel's log.
   */
  lemma {:induction false} DurablePrefix(env: Env, steps: seq<Step>)
    ensures IsDurable(env, Steps(env, Initial, steps))
    ensures Steps(env, Initial, steps).stored <= Steps(env, Initial, steps).log
  {
    hide Next, AllJustified;
    if steps == [] {
      assert AllJustified(env, []) by { NothingToJustify(env); }
    } else {
      var n := |steps| - 1;
      DurablePrefix(env, steps[..n]);
      StepIsDurable(env, Steps(env, Initial, steps[..n]), steps[n]);
    }
  }

  lemma NothingToJustify(env: Env)
    ensures AllJustified(env, [])
  {
  }

  /** Once a caller has learned of a failure no later caller reaches the kernel. */
  lemma {:induction false} FailureIsLatched(env: Env, s: State, steps: seq<Step>)
    requires s.failed
    ensures Steps(env, s, steps).failed && Steps(env, s, steps).log == s.log
  {
    if steps != [] {
      FailureIsLatched(env, s, steps[..|steps| - 1]);
    }
  }

  // Awaited calls

  /** The only task appends its events in turn; `io(k)` is how the append of its kth event from here goes. */
  function Drain(env: Env, s: State, io: nat -> Io, k: nat): State
    requires |s.tasks| == 1 ==> s.tasks[0].landing == Waiting
    decreases if |s.tasks| == 1 then |s.tasks[0].pending| else 0
  {
    if |s.tasks| != 1 || s.tasks[0].pending == [] then s
    else Drain(env, Next(env, Next(env, s, Land(0, io(k))), Resume(0)), io, k + 1)
  }

  /** A call that is awaited before anything else happens. */
  function Awaited(env: Env, s: State, request: Request, io: nat -> Io): State
    requires s.tasks == []
  {
    Drain(env, Next(env, s, Enter(request)), io, 0)
  }

  lemma {:induction false} StepsThen(env: Env, s: State, first: seq<Step>, second: seq<Step>)
    ensures Steps(env, Steps(env, s, first), second) == Steps(env, s, first + second)
  {
    hide Next;
    if second == [] {
      assert first + second == first;
    } else {
      var n := |second| - 1;
      StepsThen(env, s, first, second[..n]);
      assert (first + second)[..|first| + n] == first + second[..n];
    }
  }

  lemma OneStep(env: Env, s: State, step: Step)
    ensures Steps(env, s, [step]) == Next(env, s, step)
  {
    hide Next;
    assert [step][..0] == [];
  }

  lemma {:induction false} DrainIsSteps(env: Env, s: State, io: nat -> Io, k: nat) returns (steps: seq<Step>)
    requires |s.tasks| == 1 ==> s.tasks[0].landing == Waiting
    ensures Drain(env, s, io, k) == Steps(env, s, steps)
    decreases if |s.tasks| == 1 then |s.tasks[0].pending| else 0
  {
    hide LedgerAccepts, After, ReturnedEvents;
    if |s.tasks| != 1 || s.tasks[0].pending == [] {
      steps := [];
    } else {
      var next := Next(env, Next(env, s, Land(0, io(k))), Resume(0));
      OneStep(env, s, Land(0, io(k)));
      OneStep(env, Next(env, s, Land(0, io(k))), Resume(0));
      StepsThen(env, s, [Land(0, io(k))], [Resume(0)]);
      var rest := DrainIsSteps(env, next, io, k + 1);
      StepsThen(env, s, [Land(0, io(k))] + [Resume(0)], rest);
      steps := [Land(0, io(k))] + [Resume(0)] + rest;
    }
  }

  /** An awaited call is one of the interleavings. */
  lemma AwaitedIsSteps(env: Env, s: State, request: Request, io: nat -> Io) returns (steps: seq<Step>)
    requires s.tasks == []
    ensures Awaited(env, s, request, io) == Steps(env, s, steps)
  {
    hide After, ReturnedEvents;
    var entered := Next(env, s, Enter(request));
    OneStep(env, s, Enter(request));
    var rest := DrainIsSteps(env, entered, io, 0);
    StepsThen(env, s, [Enter(request)], rest);
    steps := [Enter(request)] + rest;
  }

  /** Nothing is lost: the ledger holds the whole log and nobody is still persisting. */
  predicate IsSettled(s: State) {
    s.stored == s.log && !s.failed && s.tasks == [] && s.strays == []
  }

  /** The kernel call returned, or threw without leaving an event behind. */
  predicate LeavesNothingUnreturned(env: Env, log: seq<RunEvent>, request: Request) {
    ReturnedEvents(env, log, request) != [] || After(env, log, request) == log
  }

  lemma {:induction false} DrainKeepsUp(env: Env, s: State, io: nat -> Io, k: nat)
    requires AllJustified(env, s.log) && !s.failed && |s.tasks| == 1 && s.tasks[0].landing == Waiting
    requires s.log == s.stored + s.tasks[0].pending && s.tasks[0].pending != []
    requires forall i :: |s.stored| <= i < |s.log| ==> WellFormed(s.log[i])
    requires forall i :: io(i) == Works
    ensures Drain(env, s, io, k) == State(s.log, s.log, false, [], s.strays)
    decreases |s.tasks[0].pending|
  {
    hide AllJustified, WellFormed, LedgerAccepts, After, ReturnedEvents;
    var pending := s.tasks[0].pending;
    NextIsAccepted(env, s.log, |s.stored|);
    assert s.log[..|s.stored|] == s.stored && s.log[|s.stored|] == pending[0];
    var next := Next(env, Next(env, s, Land(0, io(k))), Resume(0));
    assert s.stored + pending == (s.stored + [pending[0]]) + pending[1..];
    if |pending| == 1 {
      assert next == State(s.log, s.log, false, [], s.strays);
      assert Drain(env, next, io, k + 1) == next;
    } else {
      assert next == State(s.log, s.stored + [pending[0]], false, [Task(pending[1..], Waiting)], s.strays);
      DrainKeepsUp(env, next, io, k + 1);
    }
  }

  /** The ledger is ready for the next event of a kernel's log. */
  lemma NextIsAccepted(env: Env, log: seq<RunEvent>, n: nat)
    requires AllJustified(env, log) && n < |log| && WellFormed(log[n])
    ensures LedgerAccepts(env, log[..n], log[n])
  {
    hide WellFormed, IsBlank, IsRecorded, IsCandidate, IsProof, IsMismatch, IsDecision, IsRelease;
    assert Justified(env, log, n);
    HasTime(log[n]);
    forall e | e in log[..n]
      ensures e.sequence != n + 1
    {
      var i :| 0 <= i < n && log[i] == e;
      assert Justified(env, log, i);
    }
  }

  lemma ReturnedAreWellFormed(env: Env, log: seq<RunEvent>, request: Request)
    requires AllJustified(env, log)
    ensures forall e :: e in ReturnedEvents(env, log, request) ==> WellFormed(e)
  {
    hide Fold, Admit, PayloadOf, WellFormed, Envelope, NextEventId, AllJustified, SubmitFinal, Emitted;
    if request.Submission? {
      var out := SubmitFinal(env, log, request.candidate, request.finalOptions, request.clock);
      if out.result.Ok? {
        SubmissionReports(env, log, request.candidate, request.finalOptions, request.clock);
        ReportIsWellFormed(request.candidate, out.result.value);
      }
    }
  }

  lemma ReportIsWellFormed(c: FinalCandidate, r: FinalResult)
    requires IsReport(c, r)
    ensures forall e :: e in Emitted(r) ==> WellFormed(e)
  {
    hide WellFormed;
  }

  /** With working appends a settled ledger stays settled exactly when the call returned all it recorded. */
  lemma AwaitedKeepsUp(env: Env, s: State, request: Request, io: nat -> Io)
    requires AllJustified(env, s.log) && IsSettled(s) && (forall i :: io(i) == Works)
    ensures Awaited(env, s, request, io).log == After(env, s.log, request)
    ensures IsSettled(Awaited(env, s, request, io)) <==> LeavesNothingUnreturned(env, s.log, request)
  {
    hide AllJustified, WellFormed, LedgerAccepts, After, ReturnedEvents;
    var events := ReturnedEvents(env, s.log, request);
    ReturnedAreAt(env, s.log, request);
    if events != [] {
      ReturnedAreWellFormed(env, s.log, request);
      var entered := Next(env, s, Enter(request));
      assert entered.tasks == [Task(events, Waiting)];
      forall i | |s.log| <= i < |entered.log|
        ensures WellFormed(entered.log[i])
      {
        assert entered.log[i] == events[i - |s.log|];
      }
      DrainKeepsUp(env, entered, io, 0);
    }
  }

  /** Awaiting every call in turn. */
  function AwaitAll(env: Env, requests: seq<Request>, io: nat -> Io): (s: State)
    ensures s.tasks == []
  {
    if requests == [] then Initial
    else
      var before := AwaitAll(env, requests[..|requests| - 1], io);
      AwaitedSettles(env, before, requests[|requests| - 1], io);
      Awaited(env, before, requests[|requests| - 1], io)
  }

  lemma {:induction false} DrainSettles(env: Env, s: State, io: nat -> Io, k: nat)
    requires |s.tasks| <= 1 && (|s.tasks| == 1 ==> s.tasks[0].landing == Waiting && s.tasks[0].pending != [])
    ensures Drain(env, s, io, k).tasks == []
    decreases if |s.tasks| == 1 then |s.tasks[0].pending| else 0
  {
    hide LedgerAccepts;
    if |s.tasks| == 1 {
      DrainSettles(env, Next(env, Next(env, s, Land(0, io(k))), Resume(0)), io, k + 1);
    }
  }

  lemma AwaitedSettles(env: Env, s: State, request: Request, io: nat -> Io)
    requires s.tasks == []
    ensures Awaited(env, s, request, io).tasks == []
  {
    hide After, ReturnedEvents;
    DrainSettles(env, Next(env, s, Enter(request)), io, 0);
  }

  /**
   * With awaited calls and no I/O failure the ledger never refuses: it equals the kernel's log after every call, as
   * long as no call threw after it had already recorded something.
   */
  lemma {:induction false} AwaitedIsDurable(env: Env, requests: seq<Request>, io: nat -> Io)
    requires forall i :: io(i) == Works
    requires forall n :: 0 <= n < |requests| ==> LeavesNothingUnreturned(env, Run(env, requests[..n]), requests[n])
    ensures IsSettled(AwaitAll(env, requests, io)) && AwaitAll(env, requests, io).log == Run(env, requests)
  {
    hide Awaited, LeavesNothingUnreturned, After;
    if requests != [] {
      var n := |requests| - 1;
      forall m | 0 <= m < n
        ensures LeavesNothingUnreturned(env, Run(env, requests[..n][..m]), requests[..n][m])
      {
        assert requests[..n][..m] == requests[..m];
      }
      AwaitedIsDurable(env, requests[..n], io);
      RunJustified(env, requests[..n]);
      AwaitedKeepsUp(env, AwaitAll(env, requests[..n], io), requests[n], io);
    }
  }
}
