// The ledger-backed kernel as an object whose calls are awaited: it is one of
// the interleavings of its protocol.
module LedgerBackedKernel {
  import opened Wrappers
  import opened Protocol
  import opened EventLog
  import opened EventOrder
  import opened KernelSpec
  import opened KernelInvariants
  import opened KernelStream
  import opened LedgerBacked
  import RunKernel
  import SemanticLedger

  datatype CallError = Refused(error: KernelError) | LedgerAppendFailed

  class LedgerBackedRunKernel {
    const env: Env
    const kernel: RunKernel.InMemoryRunKernel
    const sink: SemanticLedger.InMemorySemanticLedger
    var appendFailed: bool
    ghost var strays: seq<RunEvent>    // the appends still on their way after they were reported as failed

    /** What the protocol sees of this object between awaited calls. */
    ghost function Now(): State
      reads this, kernel.ledger, sink
    {
      State(kernel.Log(), sink.Events(env.runId), appendFailed, [], strays)
    }

    ghost predicate Valid()
      reads this, kernel, kernel.ledger, sink
    {
      kernel.env == env && kernel.Valid() && sink.hash == env.hash && sink.Valid() && IsDurable(env, Now())
    }

    constructor (env: Env, sink: SemanticLedger.InMemorySemanticLedger)
      requires !IsBlank(env.runId) && sink.hash == env.hash && sink.Valid() && sink.Events(env.runId) == []
      ensures Valid() && Now() == Initial && this.env == env && this.sink == sink
      ensures fresh(kernel) && fresh(kernel.ledger)
    {
      hide IsBlank;
      this.env, this.sink, appendFailed, strays := env, sink, false, [];
      kernel := new RunKernel.InMemoryRunKernel(env);
      new;
      NothingToJustify(env);
    }

    /** One `appendAcceptedEvent` of the sink; true when the caller sees it succeed. */
    method AppendToSink(event: RunEvent, io: Io) returns (ok: bool)
      requires sink.Valid() && sink.hash == env.hash && event.runId == env.runId
      modifies sink
      ensures sink.Valid()
      ensures var kept := LedgerAccepts(env, old(sink.Events(env.runId)), event) && Reaches(io);
        && sink.Events(env.runId) == old(sink.Events(env.runId)) + (if kept then [event] else [])
        && ok == (kept && io == Works)
    {
      hide IsBlank, SemanticLedger.CheckAppend, SemanticLedger.IsStream;
      if !Reaches(io) {
        return false;
      }
      var stored := sink.AppendAcceptedEventToRun(event.runId, event);
      ok := stored.Ok? && io == Works;
    }

    /** Hands the events to the ledger one by one; `io` is how each append goes. */
    method PersistAcceptedEvents(events: seq<RunEvent>, io: nat -> Io) returns (r: Result<(), CallError>)
      requires sink.Valid() && sink.hash == env.hash && !appendFailed
      requires events != [] && forall e :: e in events ==> e.runId == env.runId
      modifies this`appendFailed, this`strays, sink
      ensures sink.Valid()
      ensures Now() == Drain(env, old(Now()).(tasks := [Task(events, Waiting)]), io, 0)
      ensures r.Err? <==> appendFailed
    {
      hide LedgerAccepts, SemanticLedger.InMemorySemanticLedger.Valid, SemanticLedger.InMemorySemanticLedger.Events,
        Drain;
      ghost var whole := Drain(env, Now().(tasks := [Task(events, Waiting)]), io, 0);
      assert events[0..] == events;
      for k := 0 to |events|
        invariant sink.Valid() && !appendFailed
        invariant if k < |events| then whole == Drain(env, Now().(tasks := [Task(events[k..], Waiting)]), io, k)
                  else whole == Now()
      {
        DrainFirst(env, Now(), events[k..], io, k);
        assert events[k..][1..] == events[k + 1..];
        var ok := AppendToSink(events[k], io(k));
        strays := strays + if io(k).FailsInFlight? then [events[k]] else [];
        if !ok {
          appendFailed := true;
          return Err(LedgerAppendFailed);
        }
      }
      r := Ok(());
    }

    /** The thirteen recording methods share this shape. */
    method Record(call: Call, o: EventOptions, clock: Timestamp, clockAgain: Timestamp, io: nat -> Io)
      returns (r: Result<RunEvent, CallError>)
      requires Valid()
      modifies this, kernel, kernel.ledger, sink
      ensures Valid()
      ensures Now() == Awaited(env, old(Now()), Recording(call, o, clock, clockAgain), io)
      ensures old(appendFailed) ==> r == Err(LedgerAppendFailed)
      ensures r.Ok? ==> r.value in kernel.Log() && !appendFailed
    {
      hide IsDurable, KernelSpec.Record, Fold, SemanticLedger.InMemorySemanticLedger.Valid,
        RunKernel.InMemoryRunKernel.Valid, AllJustified, Awaited, Drain;
      ghost var request, before := Recording(call, o, clock, clockAgain), Now();
      AwaitedIsDurableStep(env, before, request, io);
      AwaitedUnfolds(env, before, request, io);
      if appendFailed {
        return Err(LedgerAppendFailed);
      }
      var event := RunKernel.Perform(kernel, call, o, clock, clockAgain);
      if event.Err? {
        return Err(Refused(event.error));
      }
      ReturnedAreOfRun(env, before, request);
      var persisted := PersistAcceptedEvents([event.value], io);
      r := if persisted.Err? then Err(persisted.error) else Ok(event.value);
    }

    method SubmitFinalCandidate(candidate: FinalCandidate, o: FinalOptions, clock: Timestamp, io: nat -> Io)
      returns (r: Result<FinalResult, CallError>)
      requires Valid()
      modifies this, kernel, kernel.ledger, sink
      ensures Valid()
      ensures Now() == Awaited(env, old(Now()), Submission(candidate, o, clock), io)
      ensures old(appendFailed) ==> r == Err(LedgerAppendFailed)
      ensures r.Ok? ==> kernel.Log() == old(kernel.Log()) + Emitted(r.value) && !appendFailed
    {
      hide IsDurable, SubmitFinal, Fold, SemanticLedger.InMemorySemanticLedger.Valid,
        RunKernel.InMemoryRunKernel.Valid, AllJustified, Emitted, Awaited, Drain;
      ghost var request, before := Submission(candidate, o, clock), Now();
      AwaitedIsDurableStep(env, before, request, io);
      AwaitedUnfolds(env, before, request, io);
      if appendFailed {
        return Err(LedgerAppendFailed);
      }
      var result := kernel.SubmitFinalCandidate(candidate, o, clock);
      if result.Err? {
        return Err(Refused(result.error));
      }
      ReturnedAreOfRun(env, before, request);
      SomethingEmitted(result.value);
      var persisted := PersistAcceptedEvents(Emitted(result.value), io);
      r := if persisted.Err? then Err(persisted.error) else Ok(result.value);
    }
  }

  lemma AwaitedUnfolds(env: Env, s: State, request: Request, io: nat -> Io)
    requires s.tasks == []
    ensures var events := ReturnedEvents(env, s.log, request);
      Awaited(env, s, request, io)
      == if s.failed then s
         else if events == [] then s.(log := After(env, s.log, request))
         else Drain(env, s.(log := After(env, s.log, request), tasks := [Task(events, Waiting)]), io, 0)
  {
    hide After, ReturnedEvents;
  }

  lemma SomethingEmitted(r: FinalResult)
    ensures Emitted(r) != []
  {
  }

  /** One event's share of a drain. */
  lemma DrainFirst(env: Env, s: State, events: seq<RunEvent>, io: nat -> Io, k: nat)
    requires events != [] && s.tasks == []
    ensures var kept := LedgerAccepts(env, s.stored, events[0]) && Reaches(io(k));
      var now := s.(stored := s.stored + (if kept then [events[0]] else []),
                    strays := s.strays + if io(k).FailsInFlight? then [events[0]] else []);
      Drain(env, s.(tasks := [Task(events, Waiting)]), io, k)
      == if !(kept && io(k) == Works) then now.(failed := true)
         else if |events| == 1 then now
         else Drain(env, now.(tasks := [Task(events[1..], Waiting)]), io, k + 1)
  {
    hide LedgerAccepts;
    var kept := LedgerAccepts(env, s.stored, events[0]) && Reaches(io(k));
    var now := s.(stored := s.stored + (if kept then [events[0]] else []),
                  strays := s.strays + if io(k).FailsInFlight? then [events[0]] else []);
    var t := s.(tasks := [Task(events, Waiting)]);
    var landed := Next(env, t, Land(0, io(k)));
    var next := Next(env, landed, Resume(0));
    assert s.stored + [] == s.stored && s.strays + [] == s.strays;
    assert Without(landed.tasks, 0) == [];
    if kept && io(k) == Works && |events| > 1 {
      assert next == now.(tasks := [Task(events[1..], Waiting)]);
    } else {
      assert Drain(env, next, io, k + 1) == next;
    }
  }

  lemma AwaitedIsDurableStep(env: Env, s: State, request: Request, io: nat -> Io)
    requires IsDurable(env, s) && s.tasks == []
    ensures IsDurable(env, Awaited(env, s, request, io))
  {
    hide IsDurable, Awaited;
    var steps := AwaitedIsSteps(env, s, request, io);
    StepsAreDurable(env, s, steps);
  }

  lemma {:induction false} StepsAreDurable(env: Env, s: State, steps: seq<Step>)
    requires IsDurable(env, s)
    ensures IsDurable(env, Steps(env, s, steps))
  {
    hide IsDurable, Next;
    if steps != [] {
      StepsAreDurable(env, s, steps[..|steps| - 1]);
      StepIsDurable(env, Steps(env, s, steps[..|steps| - 1]), steps[|steps| - 1]);
    }
  }

  /** What a call returns is in the log it left, and of its run. */
  lemma ReturnedAreOfRun(env: Env, s: State, request: Request)
    requires IsDurable(env, s)
    ensures var events := ReturnedEvents(env, s.log, request);
      && (forall e :: e in events ==> e.runId == env.runId && e in After(env, s.log, request))
      && (events != [] ==> After(env, s.log, request) == s.log + events)
  {
    hide AllJustified, ReturnedEvents, After;
    ReturnedAreAt(env, s.log, request);
    var longer := After(env, s.log, request);
    JustifiedIsChain(env, longer);
    forall e | e in ReturnedEvents(env, s.log, request)
      ensures e.runId == env.runId && e in longer
    {
      assert IsAt(longer, e);
      OneRun(env, longer, e);
    }
  }
}
