// Appending to the Postgres ledger: the queries of many clients' transactions,
// interleaved in any order.
module PostgresLedger {
  import opened Wrappers
  import opened Protocol
  import opened Contracts
  import EventLog
  import opened EventOrder
  import opened SemanticLedger

  /** How far a client's transaction has come; each phase ends with an awaited query. */
  datatype Phase =
    | Idle
    | Begun
    | Locked
    | HasRead(rows: seq<RunEvent>)
    | Validated
    | Inserted

  /** One connection, with the append in flight on it. */
  datatype Client = Client(phase: Phase, runId: string, event: RunEvent)

  /** The committed rows in order of commit, the clients, and the appends that were reported as done. */
  datatype Database = Database(table: seq<RunEvent>, clients: seq<Client>, acknowledged: seq<RunEvent>)

  /** The answer to COMMIT: it may get lost whether or not the commit took effect. */
  datatype CommitAnswer = Acknowledged | LostAfterCommit | LostBeforeCommit

  datatype Query =
    | BeginAppend(client: nat, runId: string, event: RunEvent)
    | TakeLock(client: nat)
    | SelectRows(client: nat)
    | Validate(client: nat)
    | InsertRow(client: nat)
    | Commit(client: nat, answer: CommitAnswer)
    | QueryFails(client: nat)    // an error anywhere: the transaction is rolled back

  function RowsOf(table: seq<RunEvent>, runId: string): seq<RunEvent> {
    Filter(table, (e: RunEvent) => e.runId == runId)
  }

  /** `SELECT ... WHERE run_id = $1 ORDER BY sequence ASC`. */
  function Select(table: seq<RunEvent>, runId: string): seq<RunEvent> {
    Sort(RowsOf(table, runId), (a: string, b: string) => 0)
  }

  /** The transaction holds its run's advisory lock. */
  predicate Holds(c: Client) {
    c.phase.Locked? || c.phase.HasRead? || c.phase.Validated? || c.phase.Inserted?
  }

  /** `lockKey` is the 64-bit hash of the run id; two runs may share a key. */
  predicate LockIsFree(db: Database, lockKey: string -> int, runId: string) {
    forall k :: 0 <= k < |db.clients| && Holds(db.clients[k]) ==> lockKey(db.clients[k].runId) != lockKey(runId)
  }

  /** `selectRunEvents` after the rows have come: every row parses and the run validates. */
  predicate ReadsBack(hash: Hasher, runId: string, rows: seq<RunEvent>) {
    (forall e :: e in rows ==> WellFormed(e)) && ValidateOrdered(hash, rows, Some(runId)).Ok?
  }

  /** The throw-away in-memory ledger: it is filled with the rows and asked for one more append. */
  predicate ValidatorAccepts(hash: Hasher, runId: string, rows: seq<RunEvent>, e: RunEvent) {
    && AppendAll(hash, [], rows).Ok?
    && e.runId == runId
    && CheckAppend(hash, AppendAll(hash, [], rows).value, e).None?
  }

  function WithPhase(db: Database, k: nat, phase: Phase): Database
    requires k < |db.clients|
  {
    db.(clients := db.clients[k := db.clients[k].(phase := phase)])
  }

  function NextState(hash: Hasher, lockKey: string -> int, db: Database, q: Query): Database {
    var k := q.client;
    if k >= |db.clients| then db
    else
      var c := db.clients[k];
      match q
      case BeginAppend(_, runId, event) =>
        if c.phase.Idle? && !EventLog.IsBlank(runId) && WellFormed(event) then
          db.(clients := db.clients[k := Client(Begun, runId, event)])
        else db
      case TakeLock(_) =>
        if c.phase.Begun? && LockIsFree(db, lockKey, c.runId) then WithPhase(db, k, Locked) else db
      case SelectRows(_) =>
        if !c.phase.Locked? then db
        else
          var rows := Select(db.table, c.runId);
          WithPhase(db, k, if ReadsBack(hash, c.runId, rows) then HasRead(rows) else Idle)
      case Validate(_) =>
        if !c.phase.HasRead? then db
        else WithPhase(db, k, if ValidatorAccepts(hash, c.runId, c.phase.rows, c.event) then Validated else Idle)
      case InsertRow(_) => if c.phase.Validated? then WithPhase(db, k, Inserted) else db
      case Commit(_, answer) =>
        if !c.phase.Inserted? then db
        else
          var table := if answer.LostBeforeCommit? then db.table else db.table + [c.event];
          var acknowledged := if answer.Acknowledged? then db.acknowledged + [c.event] else db.acknowledged;
          WithPhase(db, k, Idle).(table := table, acknowledged := acknowledged)
      case QueryFails(_) => if c.phase.Idle? then db else WithPhase(db, k, Idle)
  }

  function Execute(hash: Hasher, lockKey: string -> int, db: Database, qs: seq<Query>): Database {
    if qs == [] then db
    else NextState(hash, lockKey, Execute(hash, lockKey, db, qs[..|qs| - 1]), qs[|qs| - 1])
  }

  /** No rows yet, and n connections with nothing in flight. */
  predicate IsFresh(db: Database) {
    db.table == [] && db.acknowledged == [] && forall k :: 0 <= k < |db.clients| ==> db.clients[k].phase.Idle?
  }

  // Safety

  /** Every run's rows read back as a stream of well-formed events. */
  ghost predicate IsSound(hash: Hasher, table: seq<RunEvent>) {
    && (forall runId :: IsStream(hash, runId, RowsOf(table, runId)))
    && (forall e :: e in table ==> WellFormed(e))
  }

  predicate MayBeNext(hash: Hasher, table: seq<RunEvent>, c: Client) {
    WellFormed(c.event) && c.event.runId == c.runId && CheckAppend(hash, RowsOf(table, c.runId), c.event).None?
  }

  /** What a transaction in flight knows is still true of the table. */
  predicate IsCurrent(hash: Hasher, table: seq<RunEvent>, c: Client) {
    && (!c.phase.Idle? ==> WellFormed(c.event) && !EventLog.IsBlank(c.runId))
    && (c.phase.HasRead? ==> c.phase.rows == RowsOf(table, c.runId))
    && (c.phase.Validated? || c.phase.Inserted? ==> MayBeNext(hash, table, c))
  }

  predicate LocksExclude(lockKey: string -> int, clients: seq<Client>) {
    forall i, j :: 0 <= i < j < |clients| && Holds(clients[i]) && Holds(clients[j]) ==>
      lockKey(clients[i].runId) != lockKey(clients[j].runId)
  }

  ghost predicate IsConsistent(hash: Hasher, lockKey: string -> int, db: Database) {
    && IsSound(hash, db.table)
    && LocksExclude(lockKey, db.clients)
    && forall k :: 0 <= k < |db.clients| ==> IsCurrent(hash, db.table, db.clients[k])
  }

  /** Selecting by sequence finds a sound run as it was committed. */
  lemma SelectIsRows(hash: Hasher, table: seq<RunEvent>, runId: string)
    requires IsSound(hash, table)
    ensures Select(table, runId) == RowsOf(table, runId)
  {
    hide WellFormed, EventLog.IsBlank, IsCaused;
    var rows := RowsOf(table, runId);
    assert IsStream(hash, runId, rows);
    SortIsSorted(rows, (a: string, b: string) => 0);
    NumberedOrderIsUnique(Sort(rows, (a: string, b: string) => 0), rows);
  }

  lemma OneMoreRow(table: seq<RunEvent>, e: RunEvent, runId: string)
    ensures RowsOf(table + [e], runId) == if e.runId == runId then RowsOf(table, runId) + [e] else RowsOf(table, runId)
  {
    FilterSplit(table, [e], (x: RunEvent) => x.runId == runId);
    assert [e][1..] == [];
    assert RowsOf(table, runId) + [] == RowsOf(table, runId);
  }

  /** A sound run reads back, and the validator's verdict is the ledger's verdict on the rows. */
  lemma SoundRunReadsBack(hash: Hasher, table: seq<RunEvent>, runId: string, e: RunEvent)
    requires IsSound(hash, table) && !EventLog.IsBlank(runId)
    ensures ReadsBack(hash, runId, RowsOf(table, runId))
    ensures ValidatorAccepts(hash, runId, RowsOf(table, runId), e)
       <==> e.runId == runId && CheckAppend(hash, RowsOf(table, runId), e).None?
  {
    hide WellFormed, EventLog.IsBlank, IsStream, CheckAppend, AppendAll, ValidateOrdered;
    var rows := RowsOf(table, runId);
    assert IsStream(hash, runId, rows);
    EmptyStream(hash, runId);
    AppendAllIsStream(hash, runId, [], rows);
    assert [] + rows == rows;
    ValidatorsAgree(hash, runId, rows);
  }

  /** Committing a validated row keeps every run a stream. */
  lemma CommitIsSound(hash: Hasher, table: seq<RunEvent>, c: Client)
    requires IsSound(hash, table) && MayBeNext(hash, table, c)
    ensures IsSound(hash, table + [c.event])
  {
    hide WellFormed, IsStream, CheckAppend, RowsOf;
    forall runId
      ensures IsStream(hash, runId, RowsOf(table + [c.event], runId))
    {
      OneMoreRow(table, c.event, runId);
      assert IsStream(hash, runId, RowsOf(table, runId));
      if c.runId == runId {
        NextInStream(hash, runId, RowsOf(table, runId), c.event);
      }
    }
  }

  /** One client's commit does not disturb a client of another run. */
  lemma CommitIsLocal(hash: Hasher, table: seq<RunEvent>, e: RunEvent, other: Client)
    requires IsCurrent(hash, table, other) && (Holds(other) ==> other.runId != e.runId)
    ensures IsCurrent(hash, table + [e], other)
  {
    hide WellFormed, CheckAppend, RowsOf;
    OneMoreRow(table, e, other.runId);
  }

  lemma CommitKeepsConsistent(hash: Hasher, lockKey: string -> int, db: Database, k: nat, answer: CommitAnswer)
    requires IsConsistent(hash, lockKey, db) && k < |db.clients| && db.clients[k].phase.Inserted?
    ensures IsConsistent(hash, lockKey, NextState(hash, lockKey, db, Commit(k, answer)))
  {
    hide WellFormed, IsSound, CheckAppend, RowsOf;
    var c := db.clients[k];
    assert IsCurrent(hash, db.table, c);
    CommitIsSound(hash, db.table, c);
    var next := NextState(hash, lockKey, db, Commit(k, answer));
    forall j | 0 <= j < |next.clients|
      ensures IsCurrent(hash, next.table, next.clients[j])
    {
      if j != k {
        assert IsCurrent(hash, db.table, db.clients[j]);
        assert Holds(db.clients[j]) ==> lockKey(db.clients[j].runId) != lockKey(c.runId);
        CommitIsLocal(hash, db.table, c.event, db.clients[j]);
      }
    }
  }

  lemma ReadKeepsConsistent(hash: Hasher, lockKey: string -> int, db: Database, k: nat)
    requires IsConsistent(hash, lockKey, db) && k < |db.clients|
    ensures IsConsistent(hash, lockKey, NextState(hash, lockKey, db, SelectRows(k)))
  {
    hide WellFormed, IsSound, CheckAppend, RowsOf, ReadsBack, Select;
    SelectIsRows(hash, db.table, db.clients[k].runId);
  }

  lemma ValidateKeepsConsistent(hash: Hasher, lockKey: string -> int, db: Database, k: nat)
    requires IsConsistent(hash, lockKey, db) && k < |db.clients|
    ensures IsConsistent(hash, lockKey, NextState(hash, lockKey, db, Validate(k)))
  {
    hide WellFormed, IsStream, CheckAppend, RowsOf, ValidatorAccepts, EventLog.IsBlank;
    var c := db.clients[k];
    assert IsCurrent(hash, db.table, c);
    if c.phase.HasRead? && ValidatorAccepts(hash, c.runId, c.phase.rows, c.event) {
      AcceptedMayBeNext(hash, db.table, c);
    }
  }

  lemma AcceptedMayBeNext(hash: Hasher, table: seq<RunEvent>, c: Client)
    requires IsSound(hash, table) && WellFormed(c.event)
    requires ValidatorAccepts(hash, c.runId, RowsOf(table, c.runId), c.event)
    ensures MayBeNext(hash, table, c)
  {
    hide WellFormed, CheckAppend, IsStream;
    var rows := RowsOf(table, c.runId);
    assert IsStream(hash, c.runId, rows);
    EmptyStream(hash, c.runId);
    AppendAllIsStream(hash, c.runId, [], rows);
    assert [] + rows == rows;
  }

  lemma StepKeepsConsistent(hash: Hasher, lockKey: string -> int, db: Database, q: Query)
    requires IsConsistent(hash, lockKey, db)
    ensures IsConsistent(hash, lockKey, NextState(hash, lockKey, db, q))
  {
    hide WellFormed, IsSound, CheckAppend, RowsOf, ReadsBack, ValidatorAccepts, Select, EventLog.IsBlank;
    var k := q.client;
    if k < |db.clients| {
      match q {
        case SelectRows(_) => ReadKeepsConsistent(hash, lockKey, db, k);
        case Validate(_) => ValidateKeepsConsistent(hash, lockKey, db, k);
        case Commit(_, answer) =>
          if db.clients[k].phase.Inserted? {
            CommitKeepsConsistent(hash, lockKey, db, k, answer);
          }
        case _ =>
          var next := NextState(hash, lockKey, db, q);
          assert forall j :: 0 <= j < |db.clients| ==> IsCurrent(hash, db.table, db.clients[j]);
      }
    }
  }

  /**
   * Concurrent appends are safe: whatever the clients do, in whatever interleaving, and whichever queries fail, each
   * run's committed rows are contiguous, duplicate-free, causally ordered and consistent with their hashes.
   */
  lemma {:induction false} AppendsAreSafe(hash: Hasher, lockKey: string -> int, db: Database, qs: seq<Query>)
    requires IsFresh(db)
    ensures IsConsistent(hash, lockKey, Execute(hash, lockKey, db, qs))
  {
    hide NextState, IsConsistent;
    if qs == [] {
      FreshIsConsistent(hash, lockKey, db);
    } else {
      AppendsAreSafe(hash, lockKey, db, qs[..|qs| - 1]);
      StepKeepsConsistent(hash, lockKey, Execute(hash, lockKey, db, qs[..|qs| - 1]), qs[|qs| - 1]);
    }
  }

  lemma FreshIsConsistent(hash: Hasher, lockKey: string -> int, db: Database)
    requires IsFresh(db)
    ensures IsConsistent(hash, lockKey, db)
  {
    hide WellFormed, IsStream;
    forall runId
      ensures IsStream(hash, runId, RowsOf(db.table, runId))
    {
      EmptyStream(hash, runId);
    }
  }

  /** Only a commit adds a row, the row of its own append; a transaction that ends otherwise leaves none. */
  lemma OnlyCommitsAddRows(hash: Hasher, lockKey: string -> int, db: Database, q: Query)
    ensures var next := NextState(hash, lockKey, db, q);
      || next.table == db.table
      || (q.Commit? && q.client < |db.clients| && db.clients[q.client].phase.Inserted?
          && next.table == db.table + [db.clients[q.client].event])
  {
    hide ReadsBack, ValidatorAccepts, Select, LockIsFree, WellFormed, EventLog.IsBlank;
  }

  predicate NoAnswerIsLost(qs: seq<Query>) {
    forall q :: q in qs && q.Commit? ==> q.answer.Acknowledged?
  }

  /** The committed rows are the acknowledged appends in order, unless the answer to a commit was lost. */
  lemma {:induction false} RowsAreAcknowledged(hash: Hasher, lockKey: string -> int, db: Database, qs: seq<Query>)
    requires IsFresh(db)
    ensures NoAnswerIsLost(qs) ==>
      Execute(hash, lockKey, db, qs).table == Execute(hash, lockKey, db, qs).acknowledged
    ensures forall e :: e in Execute(hash, lockKey, db, qs).acknowledged ==> e in Execute(hash, lockKey, db, qs).table
  {
    hide ReadsBack, ValidatorAccepts, Select, LockIsFree, WellFormed, EventLog.IsBlank;
    if qs != [] {
      RowsAreAcknowledged(hash, lockKey, db, qs[..|qs| - 1]);
    }
  }

  /** A committed run always reads back whole, and an append is refused only when the ledger would refuse it now. */
  lemma VerdictsAreExact(hash: Hasher, lockKey: string -> int, db: Database, qs: seq<Query>, k: nat)
    requires IsFresh(db) && k < |Execute(hash, lockKey, db, qs).clients|
    ensures var now := Execute(hash, lockKey, db, qs);
      var c := now.clients[k];
      && (c.phase.Locked? ==> NextState(hash, lockKey, now, SelectRows(k)).clients[k].phase.HasRead?)
      && (c.phase.HasRead? ==>
            (NextState(hash, lockKey, now, Validate(k)).clients[k].phase.Validated?
             <==> c.event.runId == c.runId && CheckAppend(hash, RowsOf(now.table, c.runId), c.event).None?))
  {
    hide WellFormed, IsSound, CheckAppend, RowsOf, ReadsBack, ValidatorAccepts, Select, EventLog.IsBlank, Execute;
    var now := Execute(hash, lockKey, db, qs);
    AppendsAreSafe(hash, lockKey, db, qs);
    var c := now.clients[k];
    assert IsCurrent(hash, now.table, c);
    SelectIsRows(hash, now.table, c.runId);
    if !c.phase.Idle? {
      SoundRunReadsBack(hash, now.table, c.runId, c.event);
    }
  }
}
