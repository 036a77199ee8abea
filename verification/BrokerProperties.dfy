// The broker over its whole life: what its cache keeps, how often a write can
// run, and which writes run at all.
module BrokerProperties {
  import opened Wrappers
  import opened Protocol
  import opened Contracts
  import opened EffectSdk
  import opened EffectBroker

  // Everything that can happen to a broker

  datatype Action =
    | AddCapability(capability: Capability)
    | AddAdapter(adapter: Adapter)
    | AskPreflight(command: ToolCommandRequest, preflightOptions: PreflightOptions, clock: Timestamp,
                   clockAgain: Timestamp)
    | BeginCall(command: ToolCommandRequest, options: DispatchOptions, presented: Option<WritePreflightDecision>,
                clock: Timestamp)
    | FinishCall(which: nat, outcome: AdapterOutcome, clock: Timestamp)

  /** What the broker did: decisions it persisted and adapter executions it started. */
  datatype Happening =
    | Issued(command: ToolCommandRequest, decision: WritePreflightDecision)
    | Executed(flight: Flight)

  /** A broker with its history; `finished` names the executions that have returned or thrown. */
  datatype World = World(broker: State, history: seq<Happening>, finished: set<nat>)

  const NewWorld := World(State(map[], map[], map[], map[]), [], {})

  predicate IsOpen(w: World, i: nat) {
    i < |w.history| && w.history[i].Executed? && i !in w.finished
  }

  function Next(settings: Settings, w: World, a: Action): World {
    match a
    case AddCapability(c) => w.(broker := w.broker.(capabilities := w.broker.capabilities[c.capabilityId := c]))
    case AddAdapter(x) =>
      if CheckCertification(x, settings.allowedKinds).Some? then w
      else w.(broker := w.broker.(adapters := w.broker.adapters[AdapterKey(x.capabilityId, x.toolId) := x]))
    case AskPreflight(t, o, clock, again) =>
      var (s, r) := Preflight(settings, w.broker, t, o, clock, again);
      if r.Ok? then w.(broker := s, history := w.history + [Issued(t, r.value)]) else w
    case BeginCall(t, o, presented, clock) =>
      var r := Begin(settings, w.broker, t, o, presented, clock);
      if r.Executing? then w.(history := w.history + [Executed(r.flight)]) else w
    case FinishCall(i, outcome, clock) =>
      if !IsOpen(w, i) then w
      else
        var (s, r) := Finish(settings, w.broker, w.history[i].flight, outcome, clock);
        w.(broker := s, finished := w.finished + {i})
  }

  function After(settings: Settings, w: World, actions: seq<Action>): World {
    if actions == [] then w
    else Next(settings, After(settings, w, actions[..|actions| - 1]), actions[|actions| - 1])
  }

  // Idempotency

  /** The happening is the execution of a write under this key. */
  predicate IsWriteOf(h: Happening, key: string) {
    h.Executed? && IsWrite(h.flight.command.sideEffectClass) && h.flight.command.idempotencyKey == Some(key)
  }

  predicate WritesTwice(w: World, key: string) {
    exists i, j :: 0 <= i < j < |w.history| && IsWriteOf(w.history[i], key) && IsWriteOf(w.history[j], key)
  }

  /** The action starts a write under this key while another one is still open. */
  predicate Overlaps(settings: Settings, w: World, a: Action, key: string) {
    && a.BeginCall?
    && var r := Begin(settings, w.broker, a.command, a.options, a.presented, a.clock);
       && r.Executing? && IsWriteOf(Executed(r.flight), key)
       && exists i :: 0 <= i < |w.history| && IsOpen(w, i) && IsWriteOf(w.history[i], key)
  }

  /** Every write was governed, and every one that has ended has left its key in the cache. */
  predicate EndedWritesAreCached(w: World) {
    && (forall i :: i in w.finished ==> i < |w.history|)
    && forall i :: 0 <= i < |w.history| && w.history[i].Executed? ==>
         var f := w.history[i].flight;
         IsWrite(f.command.sideEffectClass) ==>
           && f.decision.Some? && f.command.idempotencyKey.Some?
           && (i in w.finished ==> f.command.idempotencyKey.value in w.broker.cache)
  }

  /** What the idempotency cache compares of a command. */
  function EffectInput(t: ToolCommandRequest): HashInput {
    OfEffect(t.args, t.capabilityId, t.runId, t.sideEffectClass, t.toolId, t.idempotencyKey)
  }

  /** What an execution says about the call that started it. */
  lemma FlightOfCall(settings: Settings, s: State, t: ToolCommandRequest, o: DispatchOptions,
                     presented: Option<WritePreflightDecision>, clock: Timestamp)
    requires Begin(settings, s, t, o, presented, clock).Executing?
    ensures var f := Begin(settings, s, t, o, presented, clock).flight;
      && f.command == t && f.decision == presented
      && f.request == RequestOf(t, o, clock) && f.fingerprint == settings.hash(EffectInput(t))
      && ToolFor(settings, s, t) == Ok(f.tool)
      && (t.idempotencyKey.Some? ==> t.idempotencyKey.value !in s.cache)
      && (IsWrite(t.sideEffectClass) ==>
            presented.Some? && t.idempotencyKey.Some? && IsGovernedWrite(t.sideEffectClass)
            && CheckDecisionAllows(settings, s, t, presented.value).None?)
  {
    hide ToolFor, ValidToolCommand, ValidPreflightDecision, ValidEffectRequest, CheckDecisionAllows;
  }

  /** However an execution of a write ends, its key is cached. */
  lemma FinishCaches(settings: Settings, s: State, f: Flight, outcome: AdapterOutcome, clock: Timestamp)
    ensures var (next, r) := Finish(settings, s, f, outcome, clock);
      && s.cache.Keys <= next.cache.Keys
      && (f.decision.Some? && IsWrite(f.command.sideEffectClass) && f.command.idempotencyKey.Some? ==>
            f.command.idempotencyKey.value in next.cache)
      && next.capabilities == s.capabilities && next.adapters == s.adapters && next.decisions == s.decisions
      && (forall k :: k in s.cache && f.command.idempotencyKey != Some(k) ==> next.cache[k] == s.cache[k])
      && (forall k :: k in next.cache && k !in s.cache ==> f.command.idempotencyKey == Some(k))
  {
    hide CheckOutcome, DispatchQuarantine;
  }

  lemma NextKeepsCached(settings: Settings, w: World, a: Action)
    requires EndedWritesAreCached(w)
    ensures EndedWritesAreCached(Next(settings, w, a))
  {
    hide Begin, Preflight, Finish, CheckCertification;
    match a {
      case BeginCall(t, o, presented, clock) =>
        if Begin(settings, w.broker, t, o, presented, clock).Executing? {
          FlightOfCall(settings, w.broker, t, o, presented, clock);
        }
      case FinishCall(i, outcome, clock) =>
        if IsOpen(w, i) {
          FinishCaches(settings, w.broker, w.history[i].flight, outcome, clock);
        }
      case AskPreflight(t, o, clock, again) => PreflightKeepsRest(settings, w.broker, t, o, clock, again);
      case _ =>
    }
  }

  lemma PreflightKeepsRest(settings: Settings, s: State, t: ToolCommandRequest, o: PreflightOptions, clock: Timestamp,
                           again: Timestamp)
    ensures var (next, r) := Preflight(settings, s, t, o, clock, again);
      && next.cache == s.cache && next.capabilities == s.capabilities && next.adapters == s.adapters
      && (r.Err? ==> next == s)
      && (r.Ok? ==> r.value.preflightId == PreflightIdOf(t, o)
                    && next.decisions == s.decisions[PreflightIdOf(t, o) :=
                         PersistedDecision(r.value, settings.hash(OfDecision(r.value)),
                                           PreflightFingerprint(settings.hash, t))])
  {
    hide ValidToolCommand, ValidPreflightCandidate, ValidPreflightDecision, StatusOf;
  }

  /** A write runs a second time exactly when this action overlaps it. */
  lemma SecondWriteOverlaps(settings: Settings, w: World, a: Action, key: string)
    requires EndedWritesAreCached(w)
    ensures WritesTwice(Next(settings, w, a), key) <==> WritesTwice(w, key) || Overlaps(settings, w, a, key)
  {
    hide Begin, Preflight, Finish, CheckCertification;
    var next := Next(settings, w, a);
    var n := |w.history|;
    if a.BeginCall? {
      var r := Begin(settings, w.broker, a.command, a.options, a.presented, a.clock);
      if r.Executing? {
        FlightOfCall(settings, w.broker, a.command, a.options, a.presented, a.clock);
        assert next.history == w.history + [Executed(r.flight)];
        assert next.history[n] == Executed(r.flight);
        if IsWriteOf(next.history[n], key) {
          forall i | 0 <= i < n && IsWriteOf(w.history[i], key)
            ensures IsOpen(w, i)
          {
          }
          if i :| 0 <= i < n && IsOpen(w, i) && IsWriteOf(w.history[i], key) {
            assert IsWriteOf(next.history[i], key);
          }
        }
      }
    }
    if WritesTwice(w, key) {
      var i, j :| 0 <= i < j < n && IsWriteOf(w.history[i], key) && IsWriteOf(w.history[j], key);
      assert next.history[i] == w.history[i] && next.history[j] == w.history[j];
    }
  }

  lemma {:induction false} EndedWritesStayCached(settings: Settings, actions: seq<Action>)
    ensures EndedWritesAreCached(After(settings, NewWorld, actions))
  {
    hide Next;
    if actions != [] {
      EndedWritesStayCached(settings, actions[..|actions| - 1]);
      NextKeepsCached(settings, After(settings, NewWorld, actions[..|actions| - 1]), actions[|actions| - 1]);
    }
  }

  /** The nth action of a broker's life overlaps an open write under this key. */
  predicate OverlapsAt(settings: Settings, actions: seq<Action>, n: nat, key: string)
    requires n < |actions|
  {
    Overlaps(settings, After(settings, NewWorld, actions[..n]), actions[n], key)
  }

  lemma OverlapsInFront(settings: Settings, actions: seq<Action>, m: nat, n: nat, key: string)
    requires n < m <= |actions|
    ensures OverlapsAt(settings, actions[..m], n, key) == OverlapsAt(settings, actions, n, key)
  {
    hide After, Overlaps;
    assert actions[..m][..n] == actions[..n] && actions[..m][n] == actions[n];
  }

  /**
   * At most once, exactly: over a broker's whole life, the adapter runs twice for writes under one key if and only if
   * such a write was started while another was still open.
   */
  lemma {:induction false} WritesAtMostOnce(settings: Settings, actions: seq<Action>, key: string)
    ensures WritesTwice(After(settings, NewWorld, actions), key)
       <==> exists n :: 0 <= n < |actions| && OverlapsAt(settings, actions, n, key)
  {
    hide Next, Overlaps, WritesTwice, EndedWritesAreCached;
    if actions == [] {
      assert !WritesTwice(NewWorld, key) by { NothingWritten(key); }
    } else {
      var m := |actions| - 1;
      WritesAtMostOnce(settings, actions[..m], key);
      EndedWritesStayCached(settings, actions[..m]);
      SecondWriteOverlaps(settings, After(settings, NewWorld, actions[..m]), actions[m], key);
      forall n | 0 <= n < m
        ensures OverlapsAt(settings, actions[..m], n, key) == OverlapsAt(settings, actions, n, key)
      {
        OverlapsInFront(settings, actions, m, n, key);
      }
      assert OverlapsAt(settings, actions, m, key)
        == Overlaps(settings, After(settings, NewWorld, actions[..m]), actions[m], key);
    }
  }

  lemma NothingWritten(key: string)
    ensures !WritesTwice(NewWorld, key)
  {
  }

  // The cache

  /** No dispatch begins while one with the same key is open. */
  predicate BeginsAlone(w: World, a: Action) {
    a.BeginCall? && a.command.idempotencyKey.Some? ==>
      forall i :: 0 <= i < |w.history| && IsOpen(w, i) ==>
        w.history[i].flight.command.idempotencyKey != a.command.idempotencyKey
  }

  predicate NeverOverlaps(settings: Settings, w: World, actions: seq<Action>) {
    forall n :: 0 <= n < |actions| ==> BeginsAlone(After(settings, w, actions[..n]), actions[n])
  }

  /** What a caller can see to: while dispatches with one key are awaited in turn, no write runs twice under any key. */
  lemma AloneWritesOnce(settings: Settings, actions: seq<Action>, key: string)
    requires NeverOverlaps(settings, NewWorld, actions)
    ensures !WritesTwice(After(settings, NewWorld, actions), key)
  {
    hide After, BeginsAlone, Overlaps, WritesTwice;
    WritesAtMostOnce(settings, actions, key);
    forall n | 0 <= n < |actions|
      ensures !OverlapsAt(settings, actions, n, key)
    {
      AloneIsNoOverlap(settings, After(settings, NewWorld, actions[..n]), actions[n], key);
    }
  }

  lemma AloneIsNoOverlap(settings: Settings, w: World, a: Action, key: string)
    requires BeginsAlone(w, a)
    ensures !Overlaps(settings, w, a, key)
  {
    hide Begin;
    if a.BeginCall? && Begin(settings, w.broker, a.command, a.options, a.presented, a.clock).Executing? {
      FlightOfCall(settings, w.broker, a.command, a.options, a.presented, a.clock);
    }
  }

  /** Open executions have keys of their own, not in the cache yet. */
  predicate OpenKeysAreFree(w: World) {
    && (forall i :: 0 <= i < |w.history| && IsOpen(w, i) && w.history[i].flight.command.idempotencyKey.Some? ==>
          w.history[i].flight.command.idempotencyKey.value !in w.broker.cache)
    && (forall i, j | 0 <= i < j < |w.history| && IsOpen(w, i) && IsOpen(w, j) ::
          w.history[i].flight.command.idempotencyKey.Some? ==>
            w.history[i].flight.command.idempotencyKey != w.history[j].flight.command.idempotencyKey)
    && (forall i :: i in w.finished ==> i < |w.history|)
  }

  lemma EntriesStayAt(settings: Settings, w: World, a: Action, key: string)
    requires OpenKeysAreFree(w) && BeginsAlone(w, a)
    ensures OpenKeysAreFree(Next(settings, w, a))
    ensures key in w.broker.cache ==>
      key in Next(settings, w, a).broker.cache && Next(settings, w, a).broker.cache[key] == w.broker.cache[key]
  {
    hide Begin, Preflight, Finish, CheckCertification;
    var next := Next(settings, w, a);
    assert forall i :: 0 <= i < |w.history| ==> next.history[i] == w.history[i];
    match a {
      case BeginCall(t, o, presented, clock) =>
        if Begin(settings, w.broker, t, o, presented, clock).Executing? {
          FlightOfCall(settings, w.broker, t, o, presented, clock);
        }
      case FinishCall(i, outcome, clock) =>
        if IsOpen(w, i) {
          FinishCaches(settings, w.broker, w.history[i].flight, outcome, clock);
          assert forall j :: 0 <= j < |next.history| && IsOpen(next, j) ==> IsOpen(w, j) && j != i;
        }
      case AskPreflight(t, o, clock, again) => PreflightKeepsRest(settings, w.broker, t, o, clock, again);
      case _ =>
    }
  }

  /** Without overlap an entry of the cache, once set, never changes. */
  lemma {:induction false} EntriesNeverChange(settings: Settings, w: World, actions: seq<Action>, key: string)
    requires OpenKeysAreFree(w) && NeverOverlaps(settings, w, actions)
    ensures OpenKeysAreFree(After(settings, w, actions))
    ensures key in w.broker.cache ==>
      && key in After(settings, w, actions).broker.cache
      && After(settings, w, actions).broker.cache[key] == w.broker.cache[key]
  {
    hide Next, BeginsAlone, OpenKeysAreFree;
    if actions != [] {
      var m := |actions| - 1;
      assert forall n :: 0 <= n < m ==> actions[..m][..n] == actions[..n] && actions[..m][n] == actions[n];
      EntriesNeverChange(settings, w, actions[..m], key);
      EntriesStayAt(settings, After(settings, w, actions[..m]), actions[m], key);
    }
  }

  lemma NewWorldIsFree()
    ensures OpenKeysAreFree(NewWorld)
  {
  }

  lemma {:induction false} AfterThen(settings: Settings, w: World, first: seq<Action>, more: seq<Action>)
    ensures After(settings, After(settings, w, first), more) == After(settings, w, first + more)
  {
    hide Next;
    if more == [] {
      assert first + more == first;
    } else {
      var n := |more| - 1;
      AfterThen(settings, w, first, more[..n]);
      assert (first + more)[..|first| + n] == first + more[..n];
    }
  }

  lemma LaterNeverOverlaps(settings: Settings, w: World, first: seq<Action>, more: seq<Action>)
    requires NeverOverlaps(settings, w, first + more)
    ensures NeverOverlaps(settings, w, first) && NeverOverlaps(settings, After(settings, w, first), more)
  {
    hide Next, BeginsAlone, After;
    var all := first + more;
    forall n | 0 <= n < |first|
      ensures BeginsAlone(After(settings, w, first[..n]), first[n])
    {
      assert all[..n] == first[..n] && all[n] == first[n];
    }
    forall n | 0 <= n < |more|
      ensures BeginsAlone(After(settings, After(settings, w, first), more[..n]), more[n])
    {
      AfterThen(settings, w, first, more[..n]);
      assert all[..|first| + n] == first + more[..n] && all[|first| + n] == more[n];
    }
  }

  /**
   * A settled key is settled for good: without overlap, once a key is cached, no call with it ever reaches an adapter
   * again, and whatever result or quarantine it is answered with is the one cached first.
   */
  lemma SettledKeysStaySettled(settings: Settings, first: seq<Action>, more: seq<Action>, key: string,
                               t: ToolCommandRequest, o: DispatchOptions, presented: Option<WritePreflightDecision>,
                               clock: Timestamp)
    requires NeverOverlaps(settings, NewWorld, first + more)
    requires key in After(settings, NewWorld, first).broker.cache && t.idempotencyKey == Some(key)
    ensures var entry := After(settings, NewWorld, first).broker.cache[key];
      var r := Begin(settings, After(settings, NewWorld, first + more).broker, t, o, presented, clock);
      && !r.Executing?
      && (r.Answered? ==> entry.CachedResult? && r.result == entry.result.(cached := true))
      && (r.Refused? && r.error.WriteIsQuarantined? ==>
            entry.CachedQuarantine? && r.error.state == entry.quarantine)
      && (r.Refused? && r.error == KeyConflict ==> entry.fingerprint != settings.hash(EffectInput(t)))
  {
    hide After, Begin, NeverOverlaps, OpenKeysAreFree;
    NewWorldIsFree();
    LaterNeverOverlaps(settings, NewWorld, first, more);
    EntriesNeverChange(settings, NewWorld, first, key);
    EntriesNeverChange(settings, After(settings, NewWorld, first), more, key);
    AfterThen(settings, NewWorld, first, more);
    CachedKeysAnswer(settings, After(settings, NewWorld, first + more).broker, t, o, presented, clock, key);
  }

  /**
   * Once a key is cached no call with that key reaches an adapter again: it is refused on other grounds, raises a
   * conflict when it asks for a different effect, raises the cached quarantine, or is given the cached result.
   */
  lemma CachedKeysAnswer(settings: Settings, s: State, t: ToolCommandRequest, o: DispatchOptions,
                         presented: Option<WritePreflightDecision>, clock: Timestamp, key: string)
    requires t.idempotencyKey == Some(key) && key in s.cache
    ensures var r := Begin(settings, s, t, o, presented, clock);
      && !r.Executing?
      && (r.Answered? ==>
            && s.cache[key].CachedResult? && r.result == s.cache[key].result.(cached := true)
            && s.cache[key].fingerprint == settings.hash(EffectInput(t)))
      && (r.Refused? && r.error.WriteIsQuarantined? ==>
            s.cache[key].CachedQuarantine? && r.error.state == s.cache[key].quarantine)
      && (r.Refused? && r.error == KeyConflict ==>
            s.cache[key].fingerprint != settings.hash(EffectInput(t)))
  {
    hide ValidToolCommand, ValidPreflightDecision, CheckCertification, CheckCapabilityFits, CheckAdapterFits,
      CheckDeclarations;
    ToolErrorsAreOther(settings, s, t);
  }

  /** Finding the tool raises neither a conflict nor a quarantine. */
  lemma ToolErrorsAreOther(settings: Settings, s: State, t: ToolCommandRequest)
    ensures var r := ToolFor(settings, s, t); r.Err? ==> r.error != KeyConflict && !r.error.WriteIsQuarantined?
  {
  }

  /** A write that fails leaves a quarantine under its key; a read that fails leaves the broker as it was. */
  lemma FailuresAreContained(settings: Settings, s: State, f: Flight, outcome: AdapterOutcome, clock: Timestamp)
    requires CheckOutcome(settings.hash, outcome, f.request, f.tool.capability, f.tool.certification).Some?
    ensures var (next, r) := Finish(settings, s, f, outcome, clock);
      && r.Err?
      && (!IsWrite(f.command.sideEffectClass) || f.decision.None? ==> next == s && !r.error.WriteIsQuarantined?)
      && (IsWrite(f.command.sideEffectClass) && f.decision.Some? && f.command.idempotencyKey.Some? ==>
            && r.error.WriteIsQuarantined?
            && next.cache == s.cache[f.command.idempotencyKey.value := CachedQuarantine(f.fingerprint, r.error.state)]
            && r.error.state.preflightId == f.decision.value.preflightId
            && r.error.state.commandId == f.command.commandId
            && r.error.state.reason == UncertainExternalEffect)
  {
    hide CheckReceiptCandidate, CheckObservationCandidate;
    ReceiptErrorsAreOther(settings.hash, outcome, f.request, f.tool.capability, f.tool.certification);
  }

  lemma ReceiptErrorsAreOther(hash: Hasher, outcome: AdapterOutcome, request: EffectRequest, capability: Capability,
                              c: Certification)
    ensures var r := CheckOutcome(hash, outcome, request, capability, c); r.Some? ==> !r.value.WriteIsQuarantined?
  {
  }

  // Governance

  /** Every persisted decision was issued for a command it agrees with. */
  predicate IsIssue(h: Happening, settings: Settings, p: PersistedDecision) {
    && h.Issued? && p == PersistedDecision(h.decision, settings.hash(OfDecision(h.decision)),
                                           PreflightFingerprint(settings.hash, h.command))
  }

  predicate DecisionsWereIssued(settings: Settings, w: World) {
    forall id :: id in w.broker.decisions ==>
      exists i :: 0 <= i < |w.history| && IsIssue(w.history[i], settings, w.broker.decisions[id])
  }

  /** The write that started at i had been allowed, as far as the hashes can tell, by a decision issued before. */
  predicate WasAllowed(settings: Settings, history: seq<Happening>, i: nat)
    requires i < |history| && history[i].Executed?
  {
    var f := history[i].flight;
    && f.decision.Some? && f.decision.value.status.Allowed? && IsGovernedWrite(f.command.sideEffectClass)
    && f.decision.value.runId == f.command.runId && f.decision.value.commandId == f.command.commandId
    && f.decision.value.capabilityId == f.command.capabilityId && f.decision.value.toolId == f.command.toolId
    && f.decision.value.sideEffectClass == f.command.sideEffectClass
    && f.decision.value.idempotencyKey == f.command.idempotencyKey
    && exists j :: 0 <= j < i && IsIssueFor(settings, history[j], f.decision.value, f.command)
  }

  predicate IsIssueFor(settings: Settings, h: Happening, d: WritePreflightDecision, t: ToolCommandRequest) {
    && h.Issued? && settings.hash(OfDecision(h.decision)) == settings.hash(OfDecision(d))
    && PreflightFingerprint(settings.hash, h.command) == PreflightFingerprint(settings.hash, t)
  }

  predicate WritesWereAllowed(settings: Settings, w: World) {
    forall i | 0 <= i < |w.history| && w.history[i].Executed? ::
      IsWrite(w.history[i].flight.command.sideEffectClass) ==> WasAllowed(settings, w.history, i)
  }

  lemma NextIsGoverned(settings: Settings, w: World, a: Action)
    requires DecisionsWereIssued(settings, w) && WritesWereAllowed(settings, w)
    ensures DecisionsWereIssued(settings, Next(settings, w, a)) && WritesWereAllowed(settings, Next(settings, w, a))
  {
    hide Begin, Preflight, Finish, CheckCertification, IsIssueFor;
    var next, n := Next(settings, w, a), |w.history|;
    assert forall i :: 0 <= i < n ==> next.history[i] == w.history[i];
    match a {
      case BeginCall(t, o, presented, clock) =>
        if Begin(settings, w.broker, t, o, presented, clock).Executing? {
          FlightOfCall(settings, w.broker, t, o, presented, clock);
          if IsWrite(t.sideEffectClass) {
            AllowedWasIssued(settings, w, t, presented.value);
            assert WasAllowed(settings, next.history, n);
          }
        }
      case FinishCall(i, outcome, clock) =>
        if IsOpen(w, i) {
          FinishCaches(settings, w.broker, w.history[i].flight, outcome, clock);
        }
      case AskPreflight(t, o, clock, again) =>
        PreflightKeepsRest(settings, w.broker, t, o, clock, again);
        var (s, r) := Preflight(settings, w.broker, t, o, clock, again);
        if r.Ok? {
          assert next.history[n] == Issued(t, r.value);
          assert IsIssue(next.history[n], settings, s.decisions[PreflightIdOf(t, o)]);
        }
      case _ =>
    }
    forall i | 0 <= i < n && w.history[i].Executed? && WasAllowed(settings, w.history, i)
      ensures WasAllowed(settings, next.history, i)
    {
      var j :| 0 <= j < i && IsIssueFor(settings, w.history[j], w.history[i].flight.decision.value,
                                        w.history[i].flight.command);
      assert IsIssueFor(settings, next.history[j], next.history[i].flight.decision.value,
                        next.history[i].flight.command);
    }
  }

  lemma AllowedWasIssued(settings: Settings, w: World, t: ToolCommandRequest, d: WritePreflightDecision)
    requires DecisionsWereIssued(settings, w) && CheckDecisionAllows(settings, w.broker, t, d).None?
    ensures d.status.Allowed? && IsWrite(t.sideEffectClass)
    ensures d.runId == t.runId && d.commandId == t.commandId && d.capabilityId == t.capabilityId
      && d.toolId == t.toolId && d.sideEffectClass == t.sideEffectClass && d.idempotencyKey == t.idempotencyKey
    ensures exists j :: 0 <= j < |w.history| && IsIssueFor(settings, w.history[j], d, t)
  {
    var p := w.broker.decisions[d.preflightId];
    var j :| 0 <= j < |w.history| && IsIssue(w.history[j], settings, p);
    assert IsIssueFor(settings, w.history[j], d, t);
  }

  /** In every life of a broker, each write that ran had been allowed before, and none was critical. */
  lemma {:induction false} WritesAreGoverned(settings: Settings, actions: seq<Action>)
    ensures DecisionsWereIssued(settings, After(settings, NewWorld, actions))
    ensures WritesWereAllowed(settings, After(settings, NewWorld, actions))
  {
    hide Next, DecisionsWereIssued, WritesWereAllowed;
    if actions == [] {
      NothingToGovern(settings);
    } else {
      WritesAreGoverned(settings, actions[..|actions| - 1]);
      NextIsGoverned(settings, After(settings, NewWorld, actions[..|actions| - 1]), actions[|actions| - 1]);
    }
  }

  lemma NothingToGovern(settings: Settings)
    ensures DecisionsWereIssued(settings, NewWorld) && WritesWereAllowed(settings, NewWorld)
  {
  }

  function PreflightInput(hash: Hasher, t: ToolCommandRequest): HashInput {
    OfPreflight(hash(OfObject(t.args)), t.capabilityId, t.commandId, t.runId, t.sideEffectClass, t.toolId,
                t.idempotencyKey)
  }

  /** None of the three hashes that are compared confuses this issued decision and its command with those. */
  predicate AreToldApart(hash: Hasher, h: Happening, d: WritePreflightDecision, t: ToolCommandRequest) {
    h.Issued? ==>
      && NoCollision(hash, OfDecision(h.decision), OfDecision(d))
      && NoCollision(hash, OfObject(h.command.args), OfObject(t.args))
      && NoCollision(hash, PreflightInput(hash, h.command), PreflightInput(hash, t))
  }

  /** Unless hashes collide, the allowing decision is the presented one, made for this very effect. */
  lemma AllowedForThisEffect(settings: Settings, actions: seq<Action>, i: nat)
    requires var h := After(settings, NewWorld, actions).history;
      && i < |h| && h[i].Executed? && IsWrite(h[i].flight.command.sideEffectClass)
      && (h[i].flight.decision.Some? ==>
            forall j :: 0 <= j < i ==>
              AreToldApart(settings.hash, h[j], h[i].flight.decision.value, h[i].flight.command))
    ensures var h := After(settings, NewWorld, actions).history;
      var t := h[i].flight.command;
      exists j :: && 0 <= j < i && h[j].Issued? && h[i].flight.decision == Some(h[j].decision)
                  && h[j].decision.status.Allowed?
                  && t == h[j].command.(requiredEvidence := t.requiredEvidence)
  {
    hide After, AreToldApart;
    WritesAreGoverned(settings, actions);
    var h := After(settings, NewWorld, actions).history;
    assert WasAllowed(settings, h, i);
    var d, t := h[i].flight.decision.value, h[i].flight.command;
    var j :| 0 <= j < i && IsIssueFor(settings, h[j], d, t);
    SameEffect(settings, h[j], d, t);
  }

  lemma SameEffect(settings: Settings, h: Happening, d: WritePreflightDecision, t: ToolCommandRequest)
    requires IsIssueFor(settings, h, d, t) && AreToldApart(settings.hash, h, d, t)
    ensures h.decision == d && t == h.command.(requiredEvidence := t.requiredEvidence)
  {
    assert PreflightInput(settings.hash, h.command) == PreflightInput(settings.hash, t);
  }

  // The other way round

  /** No registration and no newer preflight of this id. */
  predicate Undisturbed(actions: seq<Action>, preflightId: string) {
    forall a :: a in actions ==>
      && !a.AddCapability? && !a.AddAdapter?
      && (a.AskPreflight? ==> PreflightIdOf(a.command, a.preflightOptions) != preflightId)
  }

  lemma {:induction false} UndisturbedKeeps(settings: Settings, w: World, actions: seq<Action>, preflightId: string)
    requires Undisturbed(actions, preflightId) && preflightId in w.broker.decisions
    ensures var s := After(settings, w, actions).broker;
      && s.capabilities == w.broker.capabilities && s.adapters == w.broker.adapters
      && preflightId in s.decisions && s.decisions[preflightId] == w.broker.decisions[preflightId]
  {
    hide Preflight, Finish, Begin;
    if actions != [] {
      var front, a := actions[..|actions| - 1], actions[|actions| - 1];
      UndisturbedKeeps(settings, w, front, preflightId);
      var before := After(settings, w, front);
      assert a in actions;
      match a {
        case AskPreflight(t, o, clock, again) => PreflightKeepsRest(settings, before.broker, t, o, clock, again);
        case FinishCall(i, outcome, clock) =>
          if IsOpen(before, i) {
            FinishCaches(settings, before.broker, before.history[i].flight, outcome, clock);
          }
        case _ =>
      }
    }
  }

  /** An allowed preflight means that the tool was found fit for a governed write with a key. */
  lemma AllowedMeansFit(settings: Settings, s: State, t: ToolCommandRequest, o: PreflightOptions, clock: Timestamp,
                        again: Timestamp)
    requires var (next, r) := Preflight(settings, s, t, o, clock, again); r.Ok? && r.value.status.Allowed?
    ensures ValidToolCommand(t) && ToolFor(settings, s, t).Ok?
    ensures IsGovernedWrite(t.sideEffectClass) && t.idempotencyKey.Some?
    ensures var (next, r) := Preflight(settings, s, t, o, clock, again);
      && ValidPreflightDecision(r.value)
      && r.value.runId == t.runId && r.value.commandId == t.commandId && r.value.capabilityId == t.capabilityId
      && r.value.toolId == t.toolId && r.value.sideEffectClass == t.sideEffectClass
      && r.value.idempotencyKey == t.idempotencyKey
  {
    hide ValidToolCommand, ValidPreflightCandidate, ValidPreflightDecision, ToolFor, CriticalQuarantine;
  }

  /**
   * An allowed decision is honoured: presented with the same command, after any calls but a registration or a newer
   * preflight of its id, with a valid request and while its key is not cached, it always reaches the adapter.
   */
  lemma AllowedReachesAdapter(settings: Settings, w: World, t: ToolCommandRequest, po: PreflightOptions,
                              clock: Timestamp, again: Timestamp, between: seq<Action>, o: DispatchOptions,
                              dispatchClock: Timestamp)
    requires Preflight(settings, w.broker, t, po, clock, again).1.Ok?
    requires Preflight(settings, w.broker, t, po, clock, again).1.value.status.Allowed?
    requires Undisturbed(between, PreflightIdOf(t, po))
    requires ValidEffectRequest(RequestOf(t, o, dispatchClock))
    requires t.idempotencyKey.GetOr("")
      !in After(settings, Next(settings, w, AskPreflight(t, po, clock, again)), between).broker.cache
    ensures var d := Preflight(settings, w.broker, t, po, clock, again).1.value;
      var s := After(settings, Next(settings, w, AskPreflight(t, po, clock, again)), between).broker;
      Begin(settings, s, t, o, Some(d), dispatchClock).Executing?
  {
    hide Preflight, After, ValidToolCommand, ValidEffectRequest, RequestOf, ValidPreflightDecision, CheckCertification,
      CheckCapabilityFits, CheckAdapterFits, CheckDeclarations;
    var issued := Next(settings, w, AskPreflight(t, po, clock, again));
    PreflightKeepsRest(settings, w.broker, t, po, clock, again);
    AllowedMeansFit(settings, w.broker, t, po, clock, again);
    UndisturbedKeeps(settings, issued, between, PreflightIdOf(t, po));
  }

  // Overlap is what breaks at-most-once

  /** Two overlapping dispatches of one allowed write both reach the adapter. */
  lemma OverlapRunsTwice(settings: Settings, w: World, t: ToolCommandRequest, d: WritePreflightDecision,
                         o: DispatchOptions, clock: Timestamp)
    requires Begin(settings, w.broker, t, o, Some(d), clock).Executing? && IsWrite(t.sideEffectClass)
    ensures t.idempotencyKey.Some?
    ensures var call := BeginCall(t, o, Some(d), clock);
      WritesTwice(After(settings, w, [call, call]), t.idempotencyKey.value)
  {
    hide Begin;
    FlightOfCall(settings, w.broker, t, o, Some(d), clock);
    var call := BeginCall(t, o, Some(d), clock);
    var f := Begin(settings, w.broker, t, o, Some(d), clock).flight;
    assert [call, call][..1] == [call] && [call][..0] == [];
    var once := Next(settings, w, call);
    assert After(settings, w, [call]) == once && once.broker == w.broker;
    var twice := Next(settings, once, call);
    assert After(settings, w, [call, call]) == twice;
    assert twice.history == w.history + [Executed(f), Executed(f)];
    assert IsWriteOf(twice.history[|w.history|], t.idempotencyKey.value);
    assert IsWriteOf(twice.history[|w.history| + 1], t.idempotencyKey.value);
  }

  const NOW := Timestamp("2026-01-01T00:00:00.000Z", Some(1767225600000))

  const SAMPLE_TOOL := Adapter("mailer", "mail", "send", {}, Certified(Certification(
    "mailer", "deterministic_fake", "mail", "send", IdempotentWrite, ["sent"], [], RequiredForWrites,
    Some(WriteLifecycle("required_before_dispatch", "tool_command_required", "broker_governed",
                        "receipt_candidate_or_quarantine_required",
                        ["proof_authority", "receipt_admission", "release_authority"])))))

  const SAMPLE_COMMAND :=
    ToolCommandRequest("send-1", "run-1", "mail", "send", map[], IdempotentWrite, Some("key-1"), [])

  const SAMPLE_CAPABILITY := Capability("mail", IdempotentWrite, [ReceiptOf("sent")])

  const SAMPLE_PREFLIGHT :=
    AskPreflight(SAMPLE_COMMAND, PreflightOptions(None, None, Some("p"), None, None), NOW, NOW)

  function SampleSettings(hash: Hasher): Settings {
    Settings(hash, {"deterministic_fake"})
  }

  /** The broker with the sample's capability and adapter registered. */
  function SampleWorld(hash: Hasher): World {
    Next(SampleSettings(hash), Next(SampleSettings(hash), NewWorld, AddCapability(SAMPLE_CAPABILITY)),
         AddAdapter(SAMPLE_TOOL))
  }

  lemma SampleToolFits(hash: Hasher)
    ensures ToolFor(SampleSettings(hash), SampleWorld(hash).broker, SAMPLE_COMMAND).Ok?
  {
    var c := SAMPLE_TOOL.certification.certification;
    assert CheckLifecycle(c).None?;
    assert CheckCertification(SAMPLE_TOOL, SampleSettings(hash).allowedKinds).None?;
  }

  lemma SamplePreflightIsAllowed(hash: Hasher)
    ensures var r := Preflight(SampleSettings(hash), SampleWorld(hash).broker, SAMPLE_COMMAND,
                               SAMPLE_PREFLIGHT.preflightOptions, NOW, NOW).1;
      r.Ok? && r.value.status.Allowed?
    ensures SampleWorld(hash).broker.cache == map[]
  {
    hide ToolFor, CheckCertification;
    SampleToolFits(hash);
  }

  /**
   * A new broker, a certified mailer, one allowed preflight and two overlapping dispatches: whatever the hash, the same
   * key is written twice.
   */
  lemma AtMostOnceNeedsAlone(hash: Hasher)
    ensures exists d ::
      var call := BeginCall(SAMPLE_COMMAND, DispatchOptions(Some("e"), None), d, NOW);
      WritesTwice(After(SampleSettings(hash), NewWorld,
                        [AddCapability(SAMPLE_CAPABILITY), AddAdapter(SAMPLE_TOOL), SAMPLE_PREFLIGHT, call, call]),
                  "key-1")
  {
    hide After, Begin, Next, Preflight, WritesTwice, SampleWorld;
    var settings, w, o := SampleSettings(hash), SampleWorld(hash), DispatchOptions(Some("e"), None);
    SamplePreflightIsAllowed(hash);
    var d := Preflight(settings, w.broker, SAMPLE_COMMAND, SAMPLE_PREFLIGHT.preflightOptions, NOW, NOW).1.value;
    var issued := Next(settings, w, SAMPLE_PREFLIGHT);
    NothingAfter(settings, issued);
    NothingCached(hash);
    AllowedReachesAdapter(settings, w, SAMPLE_COMMAND, SAMPLE_PREFLIGHT.preflightOptions, NOW, NOW, [], o, NOW);
    OverlapRunsTwice(settings, issued, SAMPLE_COMMAND, d, o, NOW);
    var call := BeginCall(SAMPLE_COMMAND, o, Some(d), NOW);
    SampleBegins(hash);
    AfterThen(settings, NewWorld, [AddCapability(SAMPLE_CAPABILITY), AddAdapter(SAMPLE_TOOL), SAMPLE_PREFLIGHT],
              [call, call]);
    assert [AddCapability(SAMPLE_CAPABILITY), AddAdapter(SAMPLE_TOOL), SAMPLE_PREFLIGHT] + [call, call]
        == [AddCapability(SAMPLE_CAPABILITY), AddAdapter(SAMPLE_TOOL), SAMPLE_PREFLIGHT, call, call];
  }

  lemma NothingCached(hash: Hasher)
    ensures Next(SampleSettings(hash), SampleWorld(hash), SAMPLE_PREFLIGHT).broker.cache == map[]
  {
    hide Preflight, CheckCertification;
    PreflightKeepsRest(SampleSettings(hash), SampleWorld(hash).broker, SAMPLE_COMMAND,
                       SAMPLE_PREFLIGHT.preflightOptions, NOW, NOW);
  }

  lemma SampleBegins(hash: Hasher)
    ensures After(SampleSettings(hash), NewWorld,
                  [AddCapability(SAMPLE_CAPABILITY), AddAdapter(SAMPLE_TOOL), SAMPLE_PREFLIGHT])
         == Next(SampleSettings(hash), SampleWorld(hash), SAMPLE_PREFLIGHT)
  {
    hide Next, After;
    var settings := SampleSettings(hash);
    var a, b, c := AddCapability(SAMPLE_CAPABILITY), AddAdapter(SAMPLE_TOOL), SAMPLE_PREFLIGHT;
    NothingAfter(settings, NewWorld);
    OneMoreAction(settings, NewWorld, [], a);
    OneMoreAction(settings, NewWorld, [a], b);
    OneMoreAction(settings, NewWorld, [a, b], c);
    assert [] + [a] == [a] && [a] + [b] == [a, b] && [a, b] + [c] == [a, b, c];
  }

  lemma OneMoreAction(settings: Settings, w: World, actions: seq<Action>, a: Action)
    ensures After(settings, w, actions + [a]) == Next(settings, After(settings, w, actions), a)
  {
    hide Next;
    assert (actions + [a])[..|actions|] == actions;
  }

  lemma NothingAfter(settings: Settings, w: World)
    ensures After(settings, w, []) == w
  {
  }
}
