/**
 * What concurrent appends leave in the table (src/journal/postgres-execution-journal.ts), in the
 * words of the inputs: which call each row records, and what it records of it.
 */
module JournalContents {
  import opened Common
  import opened JsStrings
  import opened Records
  import opened Json
  import opened JournalHash
  import opened InMemoryJournal
  import opened PostgresJournal

  /** The row records the input, its payload and metadata up to key order. */
  ghost predicate RowRecords(e: StoredEvent, input: AppendInput) {
    && e.eventId == Trim(input.eventId) && e.sessionId == Trim(input.sessionId) && e.timestamp == Trim(input.timestamp)
    && e.typ == input.typ && Same(Obj(e.payload), Obj(input.payload)) && SameRecord(e.metadata, input.metadata)
  }

  /** A normalized input: what `Normalize` returns for some call. */
  ghost predicate IsNormalized(input: AppendInput) {
    Normalize(input) == Ok(input)
  }

  lemma NormalizeTwice(event: AppendInput)
    requires Normalize(event).Ok?
    ensures IsNormalized(Normalize(event).value)
  {
    TrimTwice(event.eventId);
    TrimTwice(event.sessionId);
    TrimTwice(event.timestamp);
  }

  lemma TrimTwice(s: string)
    ensures Trim(Trim(s)) == Trim(s)
  {
    TrimIsTrimmed(s);
    TrimOfTrimmed(Trim(s));
  }

  // ---- where the committed inputs come from ----------------------------------------------

  /** The schedule holds a call whose input normalizes to this one. */
  ghost predicate Called(schedule: seq<Action>, input: AppendInput) {
    exists k | 0 <= k < |schedule| :: schedule[k].Call? && Normalize(schedule[k].event) == Ok(input)
  }

  ghost predicate FromCalls(schedule: seq<Action>, db: Db) {
    && (forall id | id in db.calls && (db.calls[id].Ready? || db.calls[id].HasRead?) :: Called(schedule, db.calls[id].input))
    && (forall i | 0 <= i < |db.committed| :: Called(schedule, db.committed[i]))
  }

  lemma CalledLonger(schedule: seq<Action>, action: Action, input: AppendInput)
    requires Called(schedule, input)
    ensures Called(schedule + [action], input)
  {
    var k :| 0 <= k < |schedule| && schedule[k].Call? && Normalize(schedule[k].event) == Ok(input);
    assert (schedule + [action])[k] == schedule[k];
  }

  lemma FromCallsLonger(schedule: seq<Action>, action: Action, db: Db)
    requires FromCalls(schedule, db)
    ensures FromCalls(schedule + [action], db)
  {
    forall id | id in db.calls && (db.calls[id].Ready? || db.calls[id].HasRead?)
      ensures Called(schedule + [action], db.calls[id].input)
    {
      CalledLonger(schedule, action, db.calls[id].input);
    }
    forall i | 0 <= i < |db.committed| ensures Called(schedule + [action], db.committed[i]) {
      CalledLonger(schedule, action, db.committed[i]);
    }
  }

  lemma StepFromCalls(env: Env, schedule: seq<Action>, db: Db, action: Action)
    requires FromCalls(schedule, db) && (action.Call? && Normalize(action.event).Ok? ==> Called(schedule, Normalize(action.event).value))
    ensures FromCalls(schedule, Step(env, db, action))
  {
  }

  lemma {:induction false} ExecuteFromCalls(env: Env, schedule: seq<Action>)
    ensures FromCalls(schedule, Execute(env, schedule))
  {
    if schedule != [] {
      var rest, last := schedule[..|schedule| - 1], schedule[|schedule| - 1];
      ExecuteFromCalls(env, rest);
      FromCallsLonger(rest, last, Execute(env, rest));
      assert rest + [last] == schedule;
      StepFromCalls(env, schedule, Execute(env, rest), last);
    }
  }

  // ---- what the rows record --------------------------------------------------------------

  /** The inputs of one session, in order. */
  function InputsOf(inputs: seq<AppendInput>, session: string): seq<AppendInput> {
    if inputs == [] then []
    else
      var before := InputsOf(inputs[..|inputs| - 1], session);
      if inputs[|inputs| - 1].sessionId == session then before + [inputs[|inputs| - 1]] else before
  }

  lemma {:induction false} InputsOfAre(inputs: seq<AppendInput>, session: string)
    ensures forall i | 0 <= i < |InputsOf(inputs, session)| ::
      InputsOf(inputs, session)[i] in inputs && InputsOf(inputs, session)[i].sessionId == session
  {
    if inputs != [] { InputsOfAre(inputs[..|inputs| - 1], session); }
  }

  /** The event takes the fields of an input that is normalized already. */
  ghost predicate Takes(e: StoredEvent, input: AppendInput) {
    && e.eventId == input.eventId && e.sessionId == input.sessionId && e.timestamp == input.timestamp
    && e.typ == input.typ && e.payload == input.payload && e.metadata == input.metadata
  }

  /** The `i`-th event of a session built in memory takes the fields of its `i`-th input. */
  lemma {:induction false} SessionTakes(digest: Digest, inputs: seq<AppendInput>, session: string)
    ensures |InMemorySession(digest, inputs, session)| == |InputsOf(inputs, session)|
    ensures forall i | 0 <= i < |InputsOf(inputs, session)| ::
      Takes(InMemorySession(digest, inputs, session)[i], InputsOf(inputs, session)[i])
  {
    if inputs != [] { SessionTakes(digest, inputs[..|inputs| - 1], session); }
  }

  lemma RowRecordsInput(row: StoredEvent, e: StoredEvent, input: AppendInput)
    requires SameEvent(row, e) && Takes(e, input) && IsNormalized(input)
    ensures RowRecords(row, input)
  {
  }

  /**
   * After any interleaving the rows of a session are as many as the inputs committed to it, and
   * the `i`-th row records the `i`-th of them: its texts, type, payload and metadata.
   */
  lemma RowsRecordInputs(env: Env, schedule: seq<Action>, session: string)
    requires Lawful(env)
    ensures
      var db := Execute(env, schedule);
      var rows, inputs := LoadSession(db.table, session), InputsOf(db.committed, session);
      && |rows| == |inputs|
      && forall i | 0 <= i < |rows| :: RowRecords(rows[i], inputs[i]) && rows[i].sequence == i + 1
  {
    var db := Execute(env, schedule);
    EveryInterleavingIsAChain(env, schedule, session);
    SessionTakes(env.digest, db.committed, session);
    ExecuteFromCalls(env, schedule);
    InputsOfAre(db.committed, session);
    var rows, inputs := LoadSession(db.table, session), InputsOf(db.committed, session);
    forall i | 0 <= i < |rows| ensures RowRecords(rows[i], inputs[i]) && rows[i].sequence == i + 1 {
      CommittedNormalized(schedule, db, inputs[i]);
      RowRecordsInput(rows[i], InMemorySession(env.digest, db.committed, session)[i], inputs[i]);
      assert Linked(env.digest, rows, i);
    }
  }

  lemma CommittedNormalized(schedule: seq<Action>, db: Db, input: AppendInput)
    requires FromCalls(schedule, db) && input in db.committed
    ensures IsNormalized(input)
  {
    var i :| 0 <= i < |db.committed| && db.committed[i] == input;
    assert Called(schedule, input);
    var k :| 0 <= k < |schedule| && schedule[k].Call? && Normalize(schedule[k].event) == Ok(input);
    NormalizeTwice(schedule[k].event);
  }

  /** Nothing is invented: every row records the input of some call of the schedule. */
  lemma RowsRecordCalls(env: Env, schedule: seq<Action>, session: string, i: nat)
    requires Lawful(env) && i < |LoadSession(Execute(env, schedule).table, session)|
    ensures exists k | 0 <= k < |schedule| ::
      schedule[k].Call? && RowRecords(LoadSession(Execute(env, schedule).table, session)[i], schedule[k].event)
  {
    var db := Execute(env, schedule);
    RowsRecordInputs(env, schedule, session);
    ExecuteFromCalls(env, schedule);
    var inputs := InputsOf(db.committed, session);
    InputsOfAre(db.committed, session);
    var j :| 0 <= j < |db.committed| && db.committed[j] == inputs[i];
    assert Called(schedule, inputs[i]);
    var k :| 0 <= k < |schedule| && schedule[k].Call? && Normalize(schedule[k].event) == Ok(inputs[i]);
    RowOfCall(LoadSession(db.table, session)[i], inputs[i], schedule[k].event);
  }

  lemma RowOfCall(row: StoredEvent, input: AppendInput, event: AppendInput)
    requires RowRecords(row, input) && Normalize(event) == Ok(input)
    ensures RowRecords(row, event)
  {
    TrimTwice(event.eventId);
    TrimTwice(event.sessionId);
    TrimTwice(event.timestamp);
  }

  /**
   * What an accepted insert returns and stores: the event that records the caller's input in the
   * next place of its session, and the row that records it in the table.
   */
  lemma AcceptedInsertRecords(env: Env, schedule: seq<Action>, id: nat)
    requires Lawful(env)
    requires id in Execute(env, schedule).calls && Execute(env, schedule).calls[id].HasRead?
    requires Step(env, Execute(env, schedule), Insert(id)).calls[id].Stored?
    ensures
      var db := Execute(env, schedule);
      var db' := Step(env, db, Insert(id));
      var input := db.calls[id].input;
      var e := db'.calls[id].event;
      && RecordsInput(e, input) && Follows(env.digest, InMemorySession(env.digest, db.committed, input.sessionId), e)
      && |db'.table| == |db.table| + 1 && db'.table[..|db.table|] == db.table
      && RowRecords(db'.table[|db.table|], input) && SameEvent(db'.table[|db.table|], e)
  {
    var db := Execute(env, schedule);
    var input := db.calls[id].input;
    var chain := InMemorySession(env.digest, db.committed, input.sessionId);
    InsertOutcome(env, schedule, id);
    ExecuteFromCalls(env, schedule);
    var k :| 0 <= k < |schedule| && schedule[k].Call? && Normalize(schedule[k].event) == Ok(input);
    NormalizeTwice(schedule[k].event);
    AppendedIs(env.digest, chain, input, NextEvent(env.digest, chain, input));
    RowIsSame(env, NextEvent(env.digest, chain, input));
  }

  /** Why an insert of a reader of the first `n` events of its session is refused, if it is. */
  ghost predicate Explains(why: Refusal, chain: seq<StoredEvent>, input: AppendInput, n: nat) {
    match why
    case OutOfRange => n >= 2147483647
    case DuplicateSequence => n < 2147483647 && n < |chain|
    case DuplicateEventId => n < 2147483647 && n == |chain| && exists i | 0 <= i < |chain| :: chain[i].eventId == input.eventId
  }

  lemma SnapshotRefusal(env: Env, table: seq<StoredEvent>, chain: seq<StoredEvent>, input: AppendInput, n: nat)
    requires Aligned(RowsOf(table, input.sessionId), chain) && n <= |chain|
    requires InsertRefusal(table, Prepared(env, input, Snapshot(chain, n))).Some?
    ensures Explains(InsertRefusal(table, Prepared(env, input, Snapshot(chain, n))).value, chain, input, n)
  {
    var rows := RowsOf(table, input.sessionId);
    RowsOfMembers(table, input.sessionId);
    PreparedFields(env, input, chain, n);
    SequenceTakenIff(table, rows, input.sessionId, n + 1);
    EventIdTakenIff(table, rows, chain, input.sessionId, input.eventId);
  }

  /**
   * A refused insert says why: its number is out of range, or else the session has grown since it
   * was read, or else the session has the event id already.
   */
  lemma RefusedInsertTells(env: Env, schedule: seq<Action>, id: nat) returns (n: nat)
    requires Lawful(env)
    requires id in Execute(env, schedule).calls && Execute(env, schedule).calls[id].HasRead?
    requires Step(env, Execute(env, schedule), Insert(id)).calls[id].Refused?
    ensures
      var db := Execute(env, schedule);
      var input := db.calls[id].input;
      var chain := InMemorySession(env.digest, db.committed, input.sessionId);
      && n <= |chain| && db.calls[id].latest == Snapshot(chain, n)
      && Explains(Step(env, db, Insert(id)).calls[id].why, chain, input, n)
  {
    var db := Execute(env, schedule);
    var input := db.calls[id].input;
    ExecuteKeepsInv(env, schedule);
    TableAligned(env, db, input.sessionId);
    var chain := InMemorySession(env.digest, db.committed, input.sessionId);
    n :| 0 <= n <= |chain| && db.calls[id].latest == Snapshot(chain, n);
    SnapshotRefusal(env, db.table, chain, input, n);
  }
}
