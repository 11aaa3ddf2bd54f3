/**
 * The Postgres execution journal (src/journal/postgres-execution-journal.ts). An append reads
 * the latest row of its session, then inserts the next one; other appends may run in between.
 * The table enforces PRIMARY KEY (session_id, sequence), UNIQUE (session_id, event_id) and the
 * range of INTEGER, and nothing else orders the appends.
 */
module PostgresJournal {
  import opened Common
  import opened Sorting
  import opened Records
  import opened Json
  import opened JournalHash
  import opened InMemoryJournal

  const INT4_MAX := 2147483647

  /** The latest row as the SELECT returns it: its sequence and its hash. */
  type Latest = Option<(int, string)>

  datatype Refusal = OutOfRange | DuplicateSequence | DuplicateEventId

  /** One `appendEvent` call: about to read, between its two queries, or finished. */
  datatype Appender =
    | Ready(input: AppendInput)
    | HasRead(input: AppendInput, latest: Latest)
    | Stored(event: StoredEvent)
    | Refused(why: Refusal)

  /** `committed` is a history variable: the inputs of the inserts that succeeded, in order. */
  datatype Db = Db(table: seq<StoredEvent>, calls: map<nat, Appender>, committed: seq<AppendInput>)

  /** `jsonb` is what a JSONB column does to a record: it may list the keys in another order. */
  datatype Env = Env(digest: Digest, jsonb: Record -> Record)

  ghost predicate RespectsKeyOrder(digest: Digest) {
    forall a, b :: SameEvent(a, b) ==> digest(a) == digest(b)
  }

  ghost predicate Lawful(env: Env) {
    && IgnoresHashSelf(env.digest) && RespectsKeyOrder(env.digest)
    && forall r: Record :: Same(Obj(r), Obj(env.jsonb(r)))
  }

  /** The hash the source uses is lawful, whatever order JSONB gives the keys. */
  lemma ContentHashIsLawful(h: string -> string, jsonb: Record -> Record)
    requires forall r: Record :: Same(Obj(r), Obj(jsonb(r)))
    ensures Lawful(Env(ContentHash(h), jsonb))
  {
    ContentHashIgnoresHashSelf(h);
    forall a, b | SameEvent(a, b) ensures ContentHash(h)(a) == ContentHash(h)(b) {
      SameEventSameHash(h, a, b);
    }
  }

  // ---- queries ---------------------------------------------------------------------------

  function RowsOf(table: seq<StoredEvent>, session: string): seq<StoredEvent> {
    if table == [] then []
    else
      var before := RowsOf(table[..|table| - 1], session);
      if table[|table| - 1].sessionId == session then before + [table[|table| - 1]] else before
  }

  predicate SequenceLeq(a: StoredEvent, b: StoredEvent) {
    a.sequence <= b.sequence
  }

  /** SELECT ... WHERE session_id = $1 ORDER BY sequence ASC. */
  function LoadSession(table: seq<StoredEvent>, session: string): seq<StoredEvent> {
    Sort(SequenceLeq, RowsOf(table, session))
  }

  /** SELECT sequence, hash_self ... ORDER BY sequence DESC LIMIT 1. */
  function ReadLatest(table: seq<StoredEvent>, session: string): Latest {
    var rows := LoadSession(table, session);
    if rows == [] then None else Some((rows[|rows| - 1].sequence, rows[|rows| - 1].hashSelf))
  }

  // ---- the steps of an append ------------------------------------------------------------

  /** The event an append computes from what it read. */
  function Prepared(env: Env, input: AppendInput, latest: Latest): StoredEvent {
    match latest
    case None => Seal(env.digest, 1, None, input)
    case Some((sequence, hash)) => Seal(env.digest, sequence + 1, Some(hash), input)
  }

  /** The row that ends up in the table. */
  function Row(env: Env, e: StoredEvent): StoredEvent {
    e.(payload := env.jsonb(e.payload),
       metadata := if e.metadata.Some? then Some(env.jsonb(e.metadata.value)) else None)
  }

  function InsertRefusal(table: seq<StoredEvent>, e: StoredEvent): Option<Refusal> {
    if e.sequence > INT4_MAX then Some(OutOfRange)
    else if exists i | 0 <= i < |table| :: table[i].sessionId == e.sessionId && table[i].sequence == e.sequence then
      Some(DuplicateSequence)
    else if exists i | 0 <= i < |table| :: table[i].sessionId == e.sessionId && table[i].eventId == e.eventId then
      Some(DuplicateEventId)
    else None
  }

  datatype Action = Call(id: nat, event: AppendInput) | Read(id: nat) | Insert(id: nat)

  /** One atomic step; a step that is not enabled leaves everything as it is. */
  function Step(env: Env, db: Db, action: Action): Db {
    match action
    case Call(id, event) =>
      if id in db.calls || Normalize(event).Err? then db
      else db.(calls := db.calls[id := Ready(Normalize(event).value)])
    case Read(id) =>
      if id in db.calls && db.calls[id].Ready? then
        var input := db.calls[id].input;
        db.(calls := db.calls[id := HasRead(input, ReadLatest(db.table, input.sessionId))])
      else db
    case Insert(id) =>
      if id in db.calls && db.calls[id].HasRead? then
        var input := db.calls[id].input;
        var e := Prepared(env, input, db.calls[id].latest);
        var refusal := InsertRefusal(db.table, e);
        if refusal.Some? then db.(calls := db.calls[id := Refused(refusal.value)])
        else Db(db.table + [Row(env, e)], db.calls[id := Stored(e)], db.committed + [input])
      else db
  }

  const EMPTY := Db([], map[], [])

  /** Any interleaving of any appends: the steps of `schedule`, one after another. */
  function Execute(env: Env, schedule: seq<Action>): Db {
    if schedule == [] then EMPTY
    else Step(env, Execute(env, schedule[..|schedule| - 1]), schedule[|schedule| - 1])
  }

  // ---- what one append after another, in memory, would have built ------------------------

  /** The session an in-memory journal holds after appending `inputs` in order. */
  function InMemorySession(digest: Digest, inputs: seq<AppendInput>, session: string): seq<StoredEvent> {
    if inputs == [] then []
    else
      var before := InMemorySession(digest, inputs[..|inputs| - 1], session);
      var input := inputs[|inputs| - 1];
      if input.sessionId == session then before + [NextEvent(digest, before, input)] else before
  }

  lemma {:induction false} InMemorySessionValid(digest: Digest, inputs: seq<AppendInput>, session: string)
    requires IgnoresHashSelf(digest)
    ensures ValidChain(digest, InMemorySession(digest, inputs, session))
  {
    if inputs != [] {
      var before := InMemorySession(digest, inputs[..|inputs| - 1], session);
      InMemorySessionValid(digest, inputs[..|inputs| - 1], session);
      NextEventExtends(digest, before, inputs[|inputs| - 1]);
    }
  }

  ghost predicate SameChain(a: seq<StoredEvent>, b: seq<StoredEvent>) {
    |a| == |b| && forall i | 0 <= i < |a| :: SameEvent(a[i], b[i])
  }

  // ---- the invariant ---------------------------------------------------------------------

  /** What a reader sees when `n` events of `chain` are committed. */
  function Snapshot(chain: seq<StoredEvent>, n: nat): Latest
    requires n <= |chain|
  {
    if n == 0 then None else Some((n, chain[n - 1].hashSelf))
  }

  ghost predicate IsSnapshot(chain: seq<StoredEvent>, latest: Latest) {
    exists n | 0 <= n <= |chain| :: latest == Snapshot(chain, n)
  }

  /** The rows of every session are the in-memory session of the committed inputs. */
  ghost predicate TableMatches(env: Env, db: Db) {
    forall s :: SameChain(RowsOf(db.table, s), InMemorySession(env.digest, db.committed, s))
  }

  /** What an appender read is the state of its session at some earlier moment. */
  ghost predicate ReadsAreSnapshots(env: Env, db: Db) {
    forall id | id in db.calls && db.calls[id].HasRead? ::
      IsSnapshot(InMemorySession(env.digest, db.committed, db.calls[id].input.sessionId), db.calls[id].latest)
  }

  ghost predicate Inv(env: Env, db: Db) {
    TableMatches(env, db) && ReadsAreSnapshots(env, db)
  }

  /** The columns the queries and the constraints look at. */
  ghost predicate Aligned(rows: seq<StoredEvent>, chain: seq<StoredEvent>) {
    && |rows| == |chain|
    && forall i | 0 <= i < |rows| ::
      rows[i].sequence == i + 1 && rows[i].eventId == chain[i].eventId && rows[i].hashSelf == chain[i].hashSelf
  }

  lemma TableAligned(env: Env, db: Db, session: string)
    requires Lawful(env) && TableMatches(env, db)
    ensures Aligned(RowsOf(db.table, session), InMemorySession(env.digest, db.committed, session))
  {
    var rows, chain := RowsOf(db.table, session), InMemorySession(env.digest, db.committed, session);
    InMemorySessionValid(env.digest, db.committed, session);
    assert SameChain(rows, chain);
    forall i | 0 <= i < |rows| ensures rows[i].sequence == i + 1 {
      assert SameEvent(rows[i], chain[i]) && Linked(env.digest, chain, i);
    }
  }

  /** Rows already in sequence order are what ORDER BY returns. */
  lemma LoadIsRows(table: seq<StoredEvent>, session: string, chain: seq<StoredEvent>)
    requires Aligned(RowsOf(table, session), chain)
    ensures LoadSession(table, session) == RowsOf(table, session)
    ensures ReadLatest(table, session) == Snapshot(chain, |chain|)
  {
    SortOfOrdered(SequenceLeq, RowsOf(table, session));
  }

  /** Events that differ in key order only verify alike. */
  lemma SameChainValid(digest: Digest, a: seq<StoredEvent>, b: seq<StoredEvent>)
    requires RespectsKeyOrder(digest) && SameChain(a, b) && ValidChain(digest, b)
    ensures ValidChain(digest, a)
  {
    forall i | 0 <= i < |a| ensures Linked(digest, a, i) {
      assert Linked(digest, b, i) && SameEvent(a[i], b[i]);
      if i > 0 {
        assert SameEvent(a[i - 1], b[i - 1]);
        assert a[..i][i - 1] == a[i - 1] && b[..i][i - 1] == b[i - 1];
      }
    }
  }

  lemma {:induction false} RowsOfMembers(table: seq<StoredEvent>, session: string)
    ensures forall e :: e in RowsOf(table, session) <==> e in table && e.sessionId == session
  {
    if table != [] {
      RowsOfMembers(table[..|table| - 1], session);
      assert table == table[..|table| - 1] + [table[|table| - 1]];
    }
  }

  lemma RowsOfAppend(table: seq<StoredEvent>, e: StoredEvent, session: string)
    ensures RowsOf(table + [e], session) ==
            if e.sessionId == session then RowsOf(table, session) + [e] else RowsOf(table, session)
  {
    assert (table + [e])[..|table|] == table;
  }

  lemma InMemoryAppend(digest: Digest, inputs: seq<AppendInput>, input: AppendInput, session: string)
    ensures InMemorySession(digest, inputs + [input], session) ==
            var before := InMemorySession(digest, inputs, session);
            if input.sessionId == session then before + [NextEvent(digest, before, input)] else before
  {
    assert (inputs + [input])[..|inputs|] == inputs;
  }

  /** An event id is taken exactly when the in-memory session already has it. */
  ghost predicate EventIdTaken(chain: seq<StoredEvent>, eventId: string) {
    exists i | 0 <= i < |chain| :: chain[i].eventId == eventId
  }

  /**
   * The insert of an appender that read the first `n` events of its session is accepted exactly
   * when those are all the events there are, the event id is new and the sequence fits.
   */
  lemma InsertAcceptedIff(env: Env, table: seq<StoredEvent>, chain: seq<StoredEvent>, input: AppendInput, n: nat)
    requires Aligned(RowsOf(table, input.sessionId), chain) && n <= |chain|
    ensures InsertRefusal(table, Prepared(env, input, Snapshot(chain, n))).None?
            <==> n == |chain| && n < INT4_MAX && !EventIdTaken(chain, input.eventId)
  {
    RowsOfMembers(table, input.sessionId);
    PreparedFields(env, input, chain, n);
    RefusalIff(table, RowsOf(table, input.sessionId), chain, Prepared(env, input, Snapshot(chain, n)), n);
  }

  lemma PreparedFields(env: Env, input: AppendInput, chain: seq<StoredEvent>, n: nat)
    requires n <= |chain|
    ensures
      var e := Prepared(env, input, Snapshot(chain, n));
      e.sequence == n + 1 && e.sessionId == input.sessionId && e.eventId == input.eventId
    ensures n == |chain| ==> Prepared(env, input, Snapshot(chain, n)) == NextEvent(env.digest, chain, input)
  {
  }

  lemma RefusalIff(table: seq<StoredEvent>, rows: seq<StoredEvent>, chain: seq<StoredEvent>, e: StoredEvent, n: nat)
    requires forall r :: r in rows <==> r in table && r.sessionId == e.sessionId
    requires Aligned(rows, chain) && e.sequence == n + 1 && n <= |chain|
    ensures InsertRefusal(table, e).None? <==> n == |chain| && n < INT4_MAX && !EventIdTaken(chain, e.eventId)
  {
    SequenceTakenIff(table, rows, e.sessionId, n + 1);
    EventIdTakenIff(table, rows, chain, e.sessionId, e.eventId);
  }

  lemma SequenceTakenIff(table: seq<StoredEvent>, rows: seq<StoredEvent>, session: string, sequence: int)
    requires forall e :: e in rows <==> e in table && e.sessionId == session
    requires forall i | 0 <= i < |rows| :: rows[i].sequence == i + 1
    ensures (exists i | 0 <= i < |table| :: table[i].sessionId == session && table[i].sequence == sequence)
            <==> 1 <= sequence <= |rows|
  {
    if 1 <= sequence <= |rows| {
      assert rows[sequence - 1] in table;
    }
    forall i | 0 <= i < |table| && table[i].sessionId == session ensures 1 <= table[i].sequence <= |rows| {
      assert table[i] in rows;
    }
  }

  lemma EventIdTakenIff(
    table: seq<StoredEvent>, rows: seq<StoredEvent>, chain: seq<StoredEvent>, session: string, eventId: string)
    requires forall e :: e in rows <==> e in table && e.sessionId == session
    requires Aligned(rows, chain)
    ensures (exists i | 0 <= i < |table| :: table[i].sessionId == session && table[i].eventId == eventId)
            <==> EventIdTaken(chain, eventId)
  {
    if EventIdTaken(chain, eventId) {
      var i :| 0 <= i < |chain| && chain[i].eventId == eventId;
      assert rows[i] in table;
    }
    forall i | 0 <= i < |table| && table[i].sessionId == session && table[i].eventId == eventId
      ensures EventIdTaken(chain, eventId)
    {
      assert table[i] in rows;
      var j :| 0 <= j < |rows| && rows[j] == table[i];
    }
  }

  /** What an accepted insert stores is what an in-memory append to the session would make. */
  lemma AcceptedIsInMemoryAppend(
    env: Env, table: seq<StoredEvent>, chain: seq<StoredEvent>, input: AppendInput, latest: Latest)
    requires Aligned(RowsOf(table, input.sessionId), chain) && IsSnapshot(chain, latest)
    requires InsertRefusal(table, Prepared(env, input, latest)).None?
    ensures Prepared(env, input, latest) == NextEvent(env.digest, chain, input)
  {
    var n :| 0 <= n <= |chain| && latest == Snapshot(chain, n);
    InsertAcceptedIff(env, table, chain, input, n);
    PreparedFields(env, input, chain, n);
  }

  lemma RowIsSame(env: Env, e: StoredEvent)
    requires Lawful(env)
    ensures SameEvent(Row(env, e), e)
  {
    SameSymmetric(Obj(e.payload), Obj(env.jsonb(e.payload)));
    if e.metadata.Some? { SameSymmetric(Obj(e.metadata.value), Obj(env.jsonb(e.metadata.value))); }
  }

  lemma SameSymmetric(a: Json, b: Json)
    requires WellFormed(a) && WellFormed(b) && Same(a, b)
    ensures Same(b, a)
  {
    SameIffSortKeys(a, b);
    SameIffSortKeys(b, a);
  }

  // ---- every interleaving ----------------------------------------------------------------

  lemma SameChainAppend(a: seq<StoredEvent>, b: seq<StoredEvent>, e: StoredEvent, f: StoredEvent)
    requires SameChain(a, b) && SameEvent(e, f)
    ensures SameChain(a + [e], b + [f])
  {
  }

  lemma InsertKeepsTable(env: Env, db: Db, input: AppendInput, e: StoredEvent, s: string)
    requires Lawful(env) && TableMatches(env, db)
    requires e == NextEvent(env.digest, InMemorySession(env.digest, db.committed, input.sessionId), input)
    ensures SameChain(RowsOf(db.table + [Row(env, e)], s), InMemorySession(env.digest, db.committed + [input], s))
  {
    var rows, chain := RowsOf(db.table, s), InMemorySession(env.digest, db.committed, s);
    RowsOfAppend(db.table, Row(env, e), s);
    InMemoryAppend(env.digest, db.committed, input, s);
    assert SameChain(rows, chain);
    RowIsSame(env, e);
    SameChainAppend(rows, chain, Row(env, e), e);
  }

  lemma InsertKeepsInv(env: Env, db: Db, id: nat)
    requires Lawful(env) && Inv(env, db) && id in db.calls && db.calls[id].HasRead?
    requires InsertRefusal(db.table, Prepared(env, db.calls[id].input, db.calls[id].latest)).None?
    ensures Inv(env, Step(env, db, Insert(id)))
  {
    var input := db.calls[id].input;
    var chain := InMemorySession(env.digest, db.committed, input.sessionId);
    var e := Prepared(env, input, db.calls[id].latest);
    var db' := Step(env, db, Insert(id));
    TableAligned(env, db, input.sessionId);
    AcceptedIsInMemoryAppend(env, db.table, chain, input, db.calls[id].latest);
    forall s ensures SameChain(RowsOf(db'.table, s), InMemorySession(env.digest, db'.committed, s)) {
      InsertKeepsTable(env, db, input, e, s);
    }
    forall k | k in db'.calls && db'.calls[k].HasRead?
      ensures IsSnapshot(InMemorySession(env.digest, db'.committed, db'.calls[k].input.sessionId), db'.calls[k].latest)
    {
      assert k in db.calls && db.calls[k] == db'.calls[k];
      SnapshotStays(env.digest, db.committed, input, db.calls[k].input.sessionId, db.calls[k].latest);
    }
  }

  /** A snapshot of a session is still one after more is committed. */
  lemma SnapshotStays(digest: Digest, inputs: seq<AppendInput>, input: AppendInput, session: string, latest: Latest)
    requires IsSnapshot(InMemorySession(digest, inputs, session), latest)
    ensures IsSnapshot(InMemorySession(digest, inputs + [input], session), latest)
  {
    InMemoryAppend(digest, inputs, input, session);
    var chain, more := InMemorySession(digest, inputs, session), InMemorySession(digest, inputs + [input], session);
    var n :| 0 <= n <= |chain| && latest == Snapshot(chain, n);
    assert latest == Snapshot(more, n);
  }

  lemma StepKeepsInv(env: Env, db: Db, action: Action)
    requires Lawful(env) && Inv(env, db)
    ensures Inv(env, Step(env, db, action))
  {
    match action
    case Call(id, event) =>
    case Read(id) =>
      if id in db.calls && db.calls[id].Ready? {
        var s := db.calls[id].input.sessionId;
        TableAligned(env, db, s);
        LoadIsRows(db.table, s, InMemorySession(env.digest, db.committed, s));
      }
    case Insert(id) =>
      if id in db.calls && db.calls[id].HasRead? {
        if InsertRefusal(db.table, Prepared(env, db.calls[id].input, db.calls[id].latest)).None? {
          InsertKeepsInv(env, db, id);
        }
      }
  }

  lemma {:induction false} ExecuteKeepsInv(env: Env, schedule: seq<Action>)
    requires Lawful(env)
    ensures Inv(env, Execute(env, schedule))
  {
    if schedule != [] {
      ExecuteKeepsInv(env, schedule[..|schedule| - 1]);
      StepKeepsInv(env, Execute(env, schedule[..|schedule| - 1]), schedule[|schedule| - 1]);
    }
  }

  /**
   * Under every interleaving of concurrent appends, each session loads as a verified chain,
   * and it is the session an in-memory journal builds from the committed inputs in order.
   */
  lemma EveryInterleavingIsAChain(env: Env, schedule: seq<Action>, session: string)
    requires Lawful(env)
    ensures
      var db := Execute(env, schedule);
      && ValidChain(env.digest, LoadSession(db.table, session))
      && SameChain(LoadSession(db.table, session), InMemorySession(env.digest, db.committed, session))
  {
    var db := Execute(env, schedule);
    ExecuteKeepsInv(env, schedule);
    TableAligned(env, db, session);
    LoadIsRows(db.table, session, InMemorySession(env.digest, db.committed, session));
    InMemorySessionValid(env.digest, db.committed, session);
    SameChainValid(env.digest, RowsOf(db.table, session), InMemorySession(env.digest, db.committed, session));
  }

  /**
   * The fate of an insert in any reachable state. It is accepted exactly when no other append
   * to the session was committed since this one read, the event id is new and the sequence fits;
   * then the caller gets the event an in-memory append would return, and the table gains its
   * row. Otherwise the table and the committed inputs are untouched.
   */
  lemma InsertOutcome(env: Env, schedule: seq<Action>, id: nat)
    requires Lawful(env)
    requires id in Execute(env, schedule).calls && Execute(env, schedule).calls[id].HasRead?
    ensures
      var db := Execute(env, schedule);
      var db' := Step(env, db, Insert(id));
      var input := db.calls[id].input;
      var chain := InMemorySession(env.digest, db.committed, input.sessionId);
      if db.calls[id].latest == ReadLatest(db.table, input.sessionId)
         && |chain| < INT4_MAX && !EventIdTaken(chain, input.eventId)
      then
        && db'.calls[id] == Stored(NextEvent(env.digest, chain, input))
        && db'.table == db.table + [Row(env, NextEvent(env.digest, chain, input))]
        && db'.committed == db.committed + [input]
      else
        db'.calls[id].Refused? && db'.table == db.table && db'.committed == db.committed
  {
    var db := Execute(env, schedule);
    ExecuteKeepsInv(env, schedule);
    var input := db.calls[id].input;
    var chain := InMemorySession(env.digest, db.committed, input.sessionId);
    TableAligned(env, db, input.sessionId);
    var n :| 0 <= n <= |chain| && db.calls[id].latest == Snapshot(chain, n);
    SnapshotOutcome(env, db.table, chain, input, n);
  }

  lemma SnapshotOutcome(env: Env, table: seq<StoredEvent>, chain: seq<StoredEvent>, input: AppendInput, n: nat)
    requires Aligned(RowsOf(table, input.sessionId), chain) && n <= |chain|
    ensures InsertRefusal(table, Prepared(env, input, Snapshot(chain, n))).None?
            <==> Snapshot(chain, n) == ReadLatest(table, input.sessionId)
                 && |chain| < INT4_MAX && !EventIdTaken(chain, input.eventId)
    ensures Snapshot(chain, n) == ReadLatest(table, input.sessionId) ==>
            Prepared(env, input, Snapshot(chain, n)) == NextEvent(env.digest, chain, input)
  {
    LoadIsRows(table, input.sessionId, chain);
    InsertAcceptedIff(env, table, chain, input, n);
    PreparedFields(env, input, chain, n);
  }

  lemma StepGrows(env: Env, db: Db, action: Action)
    ensures db.table <= Step(env, db, action).table
  {
  }

  /** Committed history is never rewritten: more steps only extend the table. */
  lemma {:induction false} TableOnlyGrows(env: Env, schedule: seq<Action>, n: nat)
    requires n <= |schedule|
    ensures Execute(env, schedule[..n]).table <= Execute(env, schedule).table
  {
    if n < |schedule| {
      var m := |schedule| - 1;
      TableOnlyGrows(env, schedule[..m], n);
      assert schedule[..m][..n] == schedule[..n];
      StepGrows(env, Execute(env, schedule[..m]), schedule[m]);
    } else {
      assert schedule[..n] == schedule;
    }
  }
}
