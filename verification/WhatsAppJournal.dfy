/**
 * The message loop of the webhook over a journal that can refuse: every call of `appendEvent` reads
 * the latest row of its session and inserts the next one (src/journal/postgres-execution-journal.ts),
 * and a refused insert throws, which ends the loop (src/http/handlers/whatsapp-webhook-async.ts).
 */
module WhatsAppJournal {
  import opened Common
  import opened JsStrings
  import opened Records
  import opened Json
  import opened WhatsAppWebhook
  import opened PostgresJournal
  import JournalHash
  import InMemoryJournal

  type Table = seq<JournalHash.StoredEvent>

  /** The table's columns and hash, and the request id every event of a request carries. */
  datatype Journal = Journal(env: Env, requestId: Option<string>)

  // ---- one append ------------------------------------------------------------------------

  function Metadata(j: Journal): Record {
    var v := JournalHash.OptionalText(j.requestId);
    assert WellFormed(v);
    [Entry("requestId", v)]
  }

  function InputOf(j: Journal, call: JournalCall): InMemoryJournal.AppendInput
    requires WellFormed(Obj(call.payload))
  {
    InMemoryJournal.AppendInput(call.eventId, call.sessionId, call.timestamp, call.typ, call.payload, Some(Metadata(j)))
  }

  /** `appendEvent`, with nothing between its read and its insert; `None` when it throws. */
  function Append(j: Journal, table: Table, call: JournalCall): Option<Table>
    requires WellFormed(Obj(call.payload))
  {
    match InMemoryJournal.Normalize(InputOf(j, call))
    case Err(_) => None
    case Ok(input) =>
      var e := Prepared(j.env, input, ReadLatest(table, input.sessionId));
      if InsertRefusal(table, e).Some? then None else Some(table + [Row(j.env, e)])
  }

  /** The row an accepted append adds records the call, under the request's id. */
  lemma AppendRecords(j: Journal, table: Table, call: JournalCall)
    requires WellFormed(Obj(call.payload)) && Lawful(j.env) && Append(j, table, call).Some?
    ensures var next := Append(j, table, call).value;
      && |next| == |table| + 1 && next[..|table|] == table
      && var row := next[|table|];
        && row.eventId == Trim(call.eventId) && row.sessionId == Trim(call.sessionId) && row.timestamp == Trim(call.timestamp)
        && row.typ == call.typ && Same(Obj(row.payload), Obj(call.payload)) && row.metadata.Some?
        && Same(Obj(row.metadata.value), Obj([Entry("requestId", if j.requestId.Some? then Str(j.requestId.value) else Null)]))
  {
    var input := InMemoryJournal.Normalize(InputOf(j, call)).value;
    RowIsSame(j.env, Prepared(j.env, input, ReadLatest(table, input.sessionId)));
  }

  lemma FlatRecord(es: seq<Entry<Json>>, names: seq<string>)
    requires |es| == |names| && forall i | 0 <= i < |es| :: es[i].key == names[i] && WellFormed(es[i].value)
    requires forall i, j | 0 <= i < j < |names| :: names[i] != names[j]
    ensures WellFormed(Obj(es))
  {
  }

  lemma ReceivedWellFormed(m: Message)
    ensures WellFormed(Obj(ReceivedCall(m).payload))
  {
    FlatRecord(ReceivedCall(m).payload, ["channel", "customerId", "channelMessageId", "text"]);
  }

  lemma ProcessedWellFormed(m: Message, duplicate: bool, status: string, o: Option<Output>)
    ensures WellFormed(Obj(ProcessedCall(m, duplicate, status, o).payload))
  {
    FlatRecord(ProcessedCall(m, duplicate, status, o).payload,
               ["channel", "customerId", "channelMessageId", "duplicate", "deliveryStatus", "responseId", "resolvedIntentId",
                "stage", "status", "humanInterventionRequired"]);
  }

  lemma HandoffWellFormed(m: Message, o: Output)
    ensures WellFormed(Obj(HandoffCall(m, o).payload))
  {
    FlatRecord(HandoffCall(m, o).payload,
               ["channel", "customerId", "channelMessageId", "handoffId", "responseId", "resolvedIntentId", "stage", "status",
                "handoffReasonCode", "handoffQueue"]);
  }

  function AppendReceived(j: Journal, table: Table, m: Message): Option<Table> {
    ReceivedWellFormed(m);
    Append(j, table, ReceivedCall(m))
  }

  function AppendProcessed(j: Journal, table: Table, m: Message, duplicate: bool, status: string, o: Option<Output>): Option<Table> {
    ProcessedWellFormed(m, duplicate, status, o);
    Append(j, table, ProcessedCall(m, duplicate, status, o))
  }

  /** The handoff event, when one is due. */
  function AppendHandoff(j: Journal, table: Table, m: Message, o: Output): Option<Table> {
    HandoffWellFormed(m, o);
    if AsksForHandoff(o) then Append(j, table, HandoffCall(m, o)) else Some(table)
  }

  // ---- one message -----------------------------------------------------------------------

  /** Where the handler stands: what it changed, the table, and whether an append has thrown. */
  datatype Ledger = Ledger(world: World, table: Table, stopped: bool)

  function DuplicateOn(j: Journal, cfg: Config, w: World, table: Table, m: Message): Ledger {
    match AppendProcessed(j, table, m, true, "skipped", None)
    case None => Ledger(w.(journal := w.journal + [ReceivedCall(m)]), table, true)
    case Some(next) => Ledger(Duplicate(cfg, w, m), next, false)
  }

  /** The world when the handoff event is due: everything is saved but the mark of the message. */
  function BeforeHandoff(cfg: Config, w: World, m: Message): World {
    var (session, o) := cfg.bridge(SessionOf(cfg, w.store, m.customerId), m);
    World(HandedOver(Talked(w.store, m, session, o), m, o), Send(cfg, w, m, o).0, w.journal + [ReceivedCall(m)],
          w.raised + (if AsksForHandoff(o) then [HandoffOf(m, o)] else []), w.results)
  }

  /** The world when the processed event is due. */
  function BeforeProcessed(cfg: Config, w: World, m: Message): World {
    var done := Answer(cfg, w, m);
    done.(journal := done.journal[..|done.journal| - 1], results := w.results)
  }

  function AnswerOn(j: Journal, cfg: Config, w: World, table: Table, m: Message): Ledger {
    var (session, o) := cfg.bridge(SessionOf(cfg, w.store, m.customerId), m);
    match AppendHandoff(j, table, m, o)
    case None => Ledger(BeforeHandoff(cfg, w, m), table, true)
    case Some(handed) =>
      match AppendProcessed(j, handed, m, false, Send(cfg, w, m, o).1, Some(o))
      case None => Ledger(BeforeProcessed(cfg, w, m), handed, true)
      case Some(next) => Ledger(Answer(cfg, w, m), next, false)
  }

  /** One turn of the loop; after a throw there are no more. */
  function ReceiveOn(j: Journal, cfg: Config, l: Ledger, m: Message): Ledger {
    if l.stopped then l
    else
      match AppendReceived(j, l.table, m)
      case None => l.(stopped := true)
      case Some(table) =>
        if m.channelMessageId in l.world.store.processed then DuplicateOn(j, cfg, l.world, table, m)
        else AnswerOn(j, cfg, l.world, table, m)
  }

  type LedgerTurn = (Ledger, Message) -> Ledger

  function LedgerTurns(j: Journal, cfg: Config): LedgerTurn {
    (l: Ledger, m: Message) => ReceiveOn(j, cfg, l, m)
  }

  function Run(turn: LedgerTurn, l: Ledger, ms: seq<Message>, n: nat): Ledger
    requires n <= |ms|
  {
    if n == 0 then l else turn(Run(turn, l, ms, n - 1), ms[n - 1])
  }

  /** The handler on one batch. */
  function RunAll(j: Journal, cfg: Config, l: Ledger, ms: seq<Message>): Ledger {
    Run(LedgerTurns(j, cfg), l, ms, |ms|)
  }

  // ---- the loop --------------------------------------------------------------------------

  class JournalTable {
    var rows: Table

    constructor ()
      ensures rows == []
    {
      rows := [];
    }

    /** `appendEvent`; the answer is whether it returned. */
    method AppendEvent(j: Journal, call: JournalCall) returns (ok: bool)
      requires WellFormed(Obj(call.payload))
      modifies this
      ensures ok <==> Append(j, old(rows), call).Some?
      ensures rows == if ok then Append(j, old(rows), call).value else old(rows)
    {
      var input := InMemoryJournal.Normalize(InputOf(j, call));
      if input.Err? {
        return false;
      }
      var latest := ReadLatest(rows, input.value.sessionId);
      var e := Prepared(j.env, input.value, latest);
      if InsertRefusal(rows, e).Some? {
        return false;
      }
      rows := rows + [Row(j.env, e)];
      return true;
    }
  }

  /** What the loop has gathered beside the store. */
  datatype Gathered = Gathered(sent: seq<Outbound>, journal: seq<JournalCall>, raised: seq<Handoff>, results: seq<Delivery>)

  function WorldOf(store: Store, g: Gathered): World {
    World(store, g.sent, g.journal, g.raised, g.results)
  }

  method AnswerOnTable(store: WhatsAppStore, table: JournalTable, j: Journal, cfg: Config, m: Message, before: Gathered)
    returns (after: Gathered, stopped: bool)
    modifies store, table
    ensures Ledger(WorldOf(store.Current(), after), table.rows, stopped)
         == AnswerOn(j, cfg, WorldOf(old(store.Current()), before), old(table.rows), m)
  {
    ghost var w := WorldOf(store.Current(), before);
    var sent, status, session, o := Respond(store, cfg, m, w, before.sent);
    after := Gathered(sent, before.journal + [ReceivedCall(m)],
                      before.raised + (if AsksForHandoff(o) then [HandoffOf(m, o)] else []), before.results);
    assert WorldOf(store.Current(), after) == BeforeHandoff(cfg, w, m);
    var ok := JournalHandoff(table, j, m, o);
    if !ok {
      return after, true;
    }
    after := after.(journal := after.journal + (if AsksForHandoff(o) then [HandoffCall(m, o)] else []));
    store.MarkMessageProcessed(m.channelMessageId);
    LastCall(after.journal, ProcessedCall(m, false, status, Some(o)));
    assert WorldOf(store.Current(), after) == BeforeProcessed(cfg, w, m);
    ok := JournalProcessed(table, j, m, false, status, Some(o));
    if !ok {
      return after, true;
    }
    after := after.(journal := after.journal + [ProcessedCall(m, false, status, Some(o))],
                    results := after.results + [Delivery(m, false, Some(o), status, session)]);
    assert WorldOf(store.Current(), after) == Answer(cfg, w, m);
    return after, false;
  }

  method JournalHandoff(table: JournalTable, j: Journal, m: Message, o: Output) returns (ok: bool)
    modifies table
    ensures ok <==> AppendHandoff(j, old(table.rows), m, o).Some?
    ensures table.rows == if ok then AppendHandoff(j, old(table.rows), m, o).value else old(table.rows)
  {
    if !AsksForHandoff(o) {
      return true;
    }
    HandoffWellFormed(m, o);
    ok := table.AppendEvent(j, HandoffCall(m, o));
  }

  method JournalProcessed(table: JournalTable, j: Journal, m: Message, duplicate: bool, status: string, o: Option<Output>)
    returns (ok: bool)
    modifies table
    ensures ok <==> AppendProcessed(j, old(table.rows), m, duplicate, status, o).Some?
    ensures table.rows == if ok then AppendProcessed(j, old(table.rows), m, duplicate, status, o).value else old(table.rows)
  {
    ProcessedWellFormed(m, duplicate, status, o);
    ok := table.AppendEvent(j, ProcessedCall(m, duplicate, status, o));
  }

  lemma LastCall(calls: seq<JournalCall>, call: JournalCall)
    ensures (calls + [call])[..|calls + [call]| - 1] == calls
  {
  }

  method ReceiveOnTable(store: WhatsAppStore, table: JournalTable, j: Journal, cfg: Config, m: Message, before: Gathered)
    returns (after: Gathered, stopped: bool)
    modifies store, table
    ensures Ledger(WorldOf(store.Current(), after), table.rows, stopped)
         == ReceiveOn(j, cfg, Ledger(WorldOf(old(store.Current()), before), old(table.rows), false), m)
  {
    ReceivedWellFormed(m);
    var ok := table.AppendEvent(j, ReceivedCall(m));
    if !ok {
      return before, true;
    }
    var duplicate := store.HasProcessedMessage(m.channelMessageId);
    if !duplicate {
      after, stopped := AnswerOnTable(store, table, j, cfg, m, before);
      return;
    }
    var session := store.LoadSession(cfg, m.customerId);
    var call := ProcessedCall(m, true, "skipped", None);
    ok := JournalProcessed(table, j, m, true, "skipped", None);
    if !ok {
      return before.(journal := before.journal + [ReceivedCall(m)]), true;
    }
    return before.(journal := before.journal + [ReceivedCall(m), call],
                   results := before.results + [Delivery(m, true, None, "skipped", session)]), false;
  }

  /** Once stopped, nothing happens. */
  ghost predicate Freezes(turn: LedgerTurn) {
    forall l: Ledger, m | l.stopped :: turn(l, m) == l
  }

  lemma {:induction false} StoppedStays(turn: LedgerTurn, l: Ledger, ms: seq<Message>, k: nat, n: nat)
    requires k <= n <= |ms| && Run(turn, l, ms, k).stopped && Freezes(turn)
    ensures Run(turn, l, ms, n) == Run(turn, l, ms, k)
  {
    if k < n { StoppedStays(turn, l, ms, k, n - 1); }
  }

  lemma OneTurn(j: Journal, cfg: Config, start: Ledger, ms: seq<Message>, i: nat, now: Ledger)
    requires i < |ms| && now == Run(LedgerTurns(j, cfg), start, ms, i)
    ensures Run(LedgerTurns(j, cfg), start, ms, i + 1) == ReceiveOn(j, cfg, now, ms[i])
    ensures ReceiveOn(j, cfg, now, ms[i]).stopped ==> RunAll(j, cfg, start, ms) == ReceiveOn(j, cfg, now, ms[i])
  {
    if ReceiveOn(j, cfg, now, ms[i]).stopped { StoppedStays(LedgerTurns(j, cfg), start, ms, i + 1, |ms|); }
  }

  method HandleOnTable(store: WhatsAppStore, table: JournalTable, j: Journal, cfg: Config, ms: seq<Message>)
    returns (gathered: Gathered, stopped: bool)
    modifies store, table
    ensures Ledger(WorldOf(store.Current(), gathered), table.rows, stopped)
         == RunAll(j, cfg, Ledger(WorldOf(old(store.Current()), Gathered([], [], [], [])), old(table.rows), false), ms)
  {
    gathered, stopped := Gathered([], [], [], []), false;
    ghost var start := Ledger(WorldOf(store.Current(), gathered), table.rows, false);
    for i := 0 to |ms|
      invariant !stopped
      invariant Ledger(WorldOf(store.Current(), gathered), table.rows, false) == Run(LedgerTurns(j, cfg), start, ms, i)
    {
      OneTurn(j, cfg, start, ms, i, Ledger(WorldOf(store.Current(), gathered), table.rows, false));
      gathered, stopped := ReceiveOnTable(store, table, j, cfg, ms[i], gathered);
      if stopped {
        return;
      }
    }
  }

  // ---- what the table knows --------------------------------------------------------------

  function SessionId(customerId: string): string {
    "whatsapp:" + customerId
  }

  function EventIdOf(customerId: string, messageId: string, suffix: string): string {
    "journal:" + customerId + ":" + messageId + ":" + suffix
  }

  /** The table holds this event of the message, in the session of the customer. */
  predicate Journaled(table: Table, customerId: string, messageId: string, suffix: string) {
    exists i | 0 <= i < |table| ::
      table[i].sessionId == SessionId(customerId) && table[i].eventId == EventIdOf(customerId, messageId, suffix)
  }

  const SUFFIXES := {"received", "processed", "handoff"}

  lemma SuffixTells(x: string, s: string, y: string, t: string)
    requires s in SUFFIXES && t in SUFFIXES && x + ":" + s == y + ":" + t
    ensures x == y && s == t
  {
    var u := x + ":" + s;
    assert u[|u| - 1] == s[|s| - 1] == t[|t| - 1];
    assert u[|u| - 7] == s[|s| - 7] == t[|t| - 7];
    assert x == u[..|u| - |s| - 1] && y == (y + ":" + t)[..|u| - |t| - 1];
  }

  /** Within a session, the event id tells message and kind apart; between sessions, nothing has to. */
  lemma EventIdTells(c: string, x: string, s: string, y: string, t: string)
    requires s in SUFFIXES && t in SUFFIXES && EventIdOf(c, x, s) == EventIdOf(c, y, t)
    ensures x == y && s == t
  {
    var n := |"journal:" + c + ":"|;
    assert EventIdOf(c, x, s)[n..] == x + ":" + s && EventIdOf(c, y, t)[n..] == y + ":" + t;
    SuffixTells(x, s, y, t);
  }

  lemma SessionTells(c: string, d: string)
    requires SessionId(c) == SessionId(d)
    ensures c == d
  {
    assert SessionId(c)[9..] == c && SessionId(d)[9..] == d;
  }

  /** Every session is numbered from 1 in the order of its rows, as every reachable table is. */
  ghost predicate Numbered(table: Table) {
    forall s :: Aligned(RowsOf(table, s), RowsOf(table, s))
  }

  /** No event of a message without its received event: what the handler itself writes. */
  ghost predicate ReceivedFirst(table: Table) {
    forall c, x, s | s in SUFFIXES && Journaled(table, c, x, s) :: Journaled(table, c, x, "received")
  }

  ghost predicate Sound(table: Table) {
    Numbered(table) && ReceivedFirst(table)
  }

  /** What any interleaving of appends leaves is numbered. */
  lemma ReachableIsNumbered(env: Env, schedule: seq<Action>)
    requires Lawful(env)
    ensures Numbered(Execute(env, schedule).table)
  {
    ExecuteKeepsInv(env, schedule);
    forall s ensures Aligned(RowsOf(Execute(env, schedule).table, s), RowsOf(Execute(env, schedule).table, s)) {
      TableAligned(env, Execute(env, schedule), s);
    }
  }

  lemma {:induction false} RowsAreFew(table: Table, s: string)
    ensures |RowsOf(table, s)| <= |table|
  {
    if table != [] { RowsAreFew(table[..|table| - 1], s); }
  }

  lemma NumberedNext(table: Table, e: JournalHash.StoredEvent)
    requires Numbered(table) && e.sequence == |RowsOf(table, e.sessionId)| + 1
    ensures Numbered(table + [e])
  {
    forall s ensures Aligned(RowsOf(table + [e], s), RowsOf(table + [e], s)) {
      RowsOfAppend(table, e, s);
      assert Aligned(RowsOf(table, s), RowsOf(table, s));
    }
  }

  lemma JournaledNext(table: Table, e: JournalHash.StoredEvent, c: string, x: string, s: string, d: string, y: string, t: string)
    requires s in SUFFIXES && t in SUFFIXES && e.sessionId == SessionId(c) && e.eventId == EventIdOf(c, x, s)
    ensures Journaled(table + [e], d, y, t) <==> Journaled(table, d, y, t) || (d == c && y == x && t == s)
  {
    var next := table + [e];
    assert next[|table|] == e;
    if Journaled(table, d, y, t) {
      var i :| 0 <= i < |table| && table[i].sessionId == SessionId(d) && table[i].eventId == EventIdOf(d, y, t);
      assert next[i] == table[i];
    }
    if e.sessionId == SessionId(d) && e.eventId == EventIdOf(d, y, t) {
      SessionTells(c, d);
      EventIdTells(c, x, s, y, t);
    }
  }

  // ---- one append, on a sound table ------------------------------------------------------

  /** A call for an event of the message. */
  ghost predicate CallFor(call: JournalCall, m: Message, suffix: string) {
    && call.sessionId == SessionId(m.customerId) && call.eventId == EventIdOf(m.customerId, m.channelMessageId, suffix)
    && call.timestamp == m.receivedAt && WellFormed(Obj(call.payload)) && suffix in SUFFIXES
  }

  lemma CallIsNormal(j: Journal, call: JournalCall, m: Message, suffix: string)
    requires Normal(m) && CallFor(call, m, suffix)
    ensures InMemoryJournal.Normalize(InputOf(j, call)) == Ok(InputOf(j, call))
  {
    var e, s := call.eventId, call.sessionId;
    assert e[0] == 'j' && e[|e| - 1] == suffix[|suffix| - 1];
    assert s[0] == 'w' && s[|s| - 1] == m.customerId[|m.customerId| - 1];
    TrimOfTrimmed(e);
    TrimOfTrimmed(s);
    TrimOfTrimmed(call.timestamp);
  }

  /** What a successful append adds. */
  ghost predicate Adds(table: Table, m: Message, suffix: string, next: Table) {
    && Numbered(next) && |next| == |table| + 1
    && forall d, y, t | t in SUFFIXES ::
      Journaled(next, d, y, t) <==> Journaled(table, d, y, t) || (d == m.customerId && y == m.channelMessageId && t == suffix)
  }

  /** The event a read and an insert make of an input, and when the insert accepts it. */
  lemma InsertedIff(env: Env, table: Table, input: InMemoryJournal.AppendInput)
    requires Numbered(table) && |table| < INT4_MAX
    ensures
      var e := Prepared(env, input, ReadLatest(table, input.sessionId));
      && e.sequence == |RowsOf(table, input.sessionId)| + 1 && e.sessionId == input.sessionId && e.eventId == input.eventId
      && (InsertRefusal(table, e).None?
          <==> !exists i | 0 <= i < |table| :: table[i].sessionId == input.sessionId && table[i].eventId == input.eventId)
  {
    var rows := RowsOf(table, input.sessionId);
    assert Aligned(rows, rows);
    RowsAreFew(table, input.sessionId);
    RowsOfMembers(table, input.sessionId);
    LoadIsRows(table, input.sessionId, rows);
    InsertAcceptedIff(env, table, rows, input, |rows|);
    EventIdTakenIff(table, rows, rows, input.sessionId, input.eventId);
    PreparedFields(env, input, rows, |rows|);
  }

  lemma RowAdds(table: Table, e: JournalHash.StoredEvent, m: Message, suffix: string)
    requires Numbered(table) && e.sequence == |RowsOf(table, e.sessionId)| + 1 && suffix in SUFFIXES
    requires e.sessionId == SessionId(m.customerId) && e.eventId == EventIdOf(m.customerId, m.channelMessageId, suffix)
    ensures Adds(table, m, suffix, table + [e])
  {
    NumberedNext(table, e);
    forall d, y, t | t in SUFFIXES
      ensures Journaled(table + [e], d, y, t) <==>
        Journaled(table, d, y, t) || (d == m.customerId && y == m.channelMessageId && t == suffix)
    {
      JournaledNext(table, e, m.customerId, m.channelMessageId, suffix, d, y, t);
    }
  }

  /** An append throws exactly when the table has its event already. */
  lemma AppendIff(j: Journal, table: Table, call: JournalCall, m: Message, suffix: string)
    requires Numbered(table) && |table| < INT4_MAX && Normal(m) && CallFor(call, m, suffix)
    ensures Append(j, table, call).Some? <==> !Journaled(table, m.customerId, m.channelMessageId, suffix)
    ensures Append(j, table, call).Some? ==> Adds(table, m, suffix, Append(j, table, call).value)
  {
    var input := InputOf(j, call);
    CallIsNormal(j, call, m, suffix);
    InsertedIff(j.env, table, input);
    var e := Prepared(j.env, input, ReadLatest(table, input.sessionId));
    RowAdds(table, Row(j.env, e), m, suffix);
  }

  // ---- one turn, on a sound table --------------------------------------------------------

  /** The three kinds of call are for the events of their message. */
  lemma CallsFor(m: Message, duplicate: bool, status: string, o: Option<Output>, p: Output)
    ensures CallFor(ReceivedCall(m), m, "received")
    ensures CallFor(ProcessedCall(m, duplicate, status, o), m, "processed")
    ensures CallFor(HandoffCall(m, p), m, "handoff")
  {
    ReceivedWellFormed(m);
    ProcessedWellFormed(m, duplicate, status, o);
    HandoffWellFormed(m, p);
  }

  ghost predicate Seen(table: Table, m: Message) {
    Journaled(table, m.customerId, m.channelMessageId, "received")
  }

  /** The events of one message were added, its received event among them, and no others. */
  ghost predicate Grew(table: Table, m: Message, next: Table, n: nat) {
    && Numbered(next) && |next| <= |table| + n
    && (forall d, y, t | t in SUFFIXES && (d != m.customerId || y != m.channelMessageId) ::
          Journaled(next, d, y, t) <==> Journaled(table, d, y, t))
    && Seen(next, m)
  }

  lemma GrewBy(table: Table, m: Message, between: Table, n: nat, suffix: string, next: Table)
    requires Grew(table, m, between, n) && Adds(between, m, suffix, next)
    ensures Grew(table, m, next, n + 1)
  {
  }

  lemma GrewIsSound(table: Table, m: Message, next: Table, n: nat)
    requires Sound(table) && Grew(table, m, next, n)
    ensures Sound(next)
    ensures forall d, y ::
      Journaled(next, d, y, "received")
      <==> (Journaled(table, d, y, "received") || (d == m.customerId && y == m.channelMessageId))
  {
    forall d, y, t | t in SUFFIXES && Journaled(next, d, y, t) ensures Journaled(next, d, y, "received") {
      if d != m.customerId || y != m.channelMessageId { assert Journaled(table, d, y, t); }
    }
  }

  /** What a turn is for a message the table has not seen: the turn of a journal that cannot refuse. */
  ghost predicate Received(cfg: Config, l: Ledger, m: Message, next: Ledger) {
    !next.stopped && next.world == Receive(cfg, l.world, m) && Grew(l.table, m, next.table, 3)
  }

  lemma DuplicateFresh(j: Journal, cfg: Config, w: World, table: Table, received: Table, m: Message)
    requires Normal(m) && Grew(table, m, received, 1) && |table| + 3 <= INT4_MAX
    requires !Journaled(received, m.customerId, m.channelMessageId, "processed")
    ensures
      var next := DuplicateOn(j, cfg, w, received, m);
      !next.stopped && next.world == Duplicate(cfg, w, m) && Grew(table, m, next.table, 3)
  {
    var call := ProcessedCall(m, true, "skipped", None);
    CallsFor(m, true, "skipped", None, TrimOutput(Output("", "", "", "", "", false, "", "")));
    AppendIff(j, received, call, m, "processed");
    GrewBy(table, m, received, 1, "processed", Append(j, received, call).value);
  }

  lemma AnswerFresh(j: Journal, cfg: Config, w: World, table: Table, received: Table, m: Message)
    requires Normal(m) && Grew(table, m, received, 1) && |table| + 3 <= INT4_MAX
    requires !Journaled(received, m.customerId, m.channelMessageId, "processed")
    requires !Journaled(received, m.customerId, m.channelMessageId, "handoff")
    ensures
      var next := AnswerOn(j, cfg, w, received, m);
      !next.stopped && next.world == Answer(cfg, w, m) && Grew(table, m, next.table, 3)
  {
    var (session, o) := cfg.bridge(SessionOf(cfg, w.store, m.customerId), m);
    var status := Send(cfg, w, m, o).1;
    var call := ProcessedCall(m, false, status, Some(o));
    CallsFor(m, false, status, Some(o), o);
    if AsksForHandoff(o) {
      AppendIff(j, received, HandoffCall(m, o), m, "handoff");
      var handed := Append(j, received, HandoffCall(m, o)).value;
      GrewBy(table, m, received, 1, "handoff", handed);
      AppendIff(j, handed, call, m, "processed");
      GrewBy(table, m, handed, 2, "processed", Append(j, handed, call).value);
    } else {
      AppendIff(j, received, call, m, "processed");
      GrewBy(table, m, received, 1, "processed", Append(j, received, call).value);
    }
  }

  lemma FreshReceived(table: Table, m: Message, received: Table)
    requires Sound(table) && !Seen(table, m) && Adds(table, m, "received", received)
    ensures Grew(table, m, received, 1)
    ensures !Journaled(received, m.customerId, m.channelMessageId, "processed")
    ensures !Journaled(received, m.customerId, m.channelMessageId, "handoff")
  {
    assert "processed" in SUFFIXES && "handoff" in SUFFIXES && "received" in SUFFIXES;
  }

  /** A message the table has seen throws at once and changes nothing; any other is received as usual. */
  lemma TurnIs(j: Journal, cfg: Config, l: Ledger, m: Message)
    requires !l.stopped && Sound(l.table) && |l.table| + 3 <= INT4_MAX && Normal(m)
    ensures Seen(l.table, m) ==> ReceiveOn(j, cfg, l, m) == l.(stopped := true)
    ensures !Seen(l.table, m) ==> Received(cfg, l, m, ReceiveOn(j, cfg, l, m))
  {
    CallsFor(m, true, "", None, TrimOutput(Output("", "", "", "", "", false, "", "")));
    AppendIff(j, l.table, ReceivedCall(m), m, "received");
    if !Seen(l.table, m) {
      var received := Append(j, l.table, ReceivedCall(m)).value;
      FreshReceived(l.table, m, received);
      if m.channelMessageId in l.world.store.processed {
        DuplicateFresh(j, cfg, l.world, l.table, received, m);
      } else {
        AnswerFresh(j, cfg, l.world, l.table, received, m);
      }
    }
  }

  // ---- one batch -------------------------------------------------------------------------

  ghost predicate SameMessage(a: Message, b: Message) {
    a.customerId == b.customerId && a.channelMessageId == b.channelMessageId
  }

  /** Message `i` is a repeat, for the journal: of a journaled message, or of an earlier one of the batch. */
  ghost predicate Repeats(table: Table, ms: seq<Message>, i: nat)
    requires i < |ms|
  {
    Seen(table, ms[i]) || exists k | 0 <= k < i :: SameMessage(ms[k], ms[i])
  }

  ghost predicate NoRepeat(table: Table, ms: seq<Message>, n: nat)
    requires n <= |ms|
  {
    forall i | 0 <= i < n :: !Repeats(table, ms, i)
  }

  ghost predicate AllNormal(ms: seq<Message>) {
    forall i | 0 <= i < |ms| :: Normal(ms[i])
  }

  /** What `TurnIs` says, for a turn whose workings do not matter. */
  ghost predicate TurnFits(cfg: Config, l: Ledger, m: Message, next: Ledger) {
    !l.stopped && Sound(l.table) && |l.table| + 3 <= INT4_MAX ==>
      if Seen(l.table, m) then next == l.(stopped := true) else Received(cfg, l, m, next)
  }

  ghost predicate TurnsFit(cfg: Config, turn: LedgerTurn) {
    forall l: Ledger, m | Normal(m) :: TurnFits(cfg, l, m, turn(l, m))
  }

  lemma LedgerTurnsFit(j: Journal, cfg: Config)
    ensures TurnsFit(cfg, LedgerTurns(j, cfg)) && Freezes(LedgerTurns(j, cfg))
  {
    forall l, m | Normal(m) ensures TurnFits(cfg, l, m, LedgerTurns(j, cfg)(l, m)) {
      if !l.stopped && Sound(l.table) && |l.table| + 3 <= INT4_MAX { TurnIs(j, cfg, l, m); }
    }
  }

  /** A batch is being received as a journal that cannot refuse would: where it stands after `n` messages. */
  ghost predicate OnTrack(cfg: Config, l: Ledger, ms: seq<Message>, n: nat, now: Ledger)
    requires n <= |ms|
  {
    && !now.stopped && now.world == Handle(Turns(cfg), l.world, ms, n)
    && Sound(now.table) && |now.table| <= |l.table| + 3 * n
    && forall d, y :: Journaled(now.table, d, y, "received")
                      <==> (Journaled(l.table, d, y, "received") || InBatch(ms, n, d, y))
  }

  ghost predicate InBatch(ms: seq<Message>, n: nat, customerId: string, messageId: string)
    requires n <= |ms|
  {
    exists k | 0 <= k < n :: ms[k].customerId == customerId && ms[k].channelMessageId == messageId
  }

  lemma InBatchNext(ms: seq<Message>, n: nat, d: string, y: string)
    requires n < |ms|
    ensures InBatch(ms, n + 1, d, y) <==> InBatch(ms, n, d, y) || (ms[n].customerId == d && ms[n].channelMessageId == y)
  {
    if InBatch(ms, n, d, y) {
      var k :| 0 <= k < n && ms[k].customerId == d && ms[k].channelMessageId == y;
      assert k < n + 1;
    }
  }

  lemma SeenIffRepeats(cfg: Config, l: Ledger, ms: seq<Message>, n: nat, now: Ledger)
    requires n < |ms| && OnTrack(cfg, l, ms, n, now)
    ensures Seen(now.table, ms[n]) <==> Repeats(l.table, ms, n)
  {
    if InBatch(ms, n, ms[n].customerId, ms[n].channelMessageId) {
      var k :| 0 <= k < n && ms[k].customerId == ms[n].customerId && ms[k].channelMessageId == ms[n].channelMessageId;
      assert SameMessage(ms[k], ms[n]);
    }
    if k :| 0 <= k < n && SameMessage(ms[k], ms[n]) {
      assert InBatch(ms, n, ms[n].customerId, ms[n].channelMessageId);
    }
  }

  lemma OnTrackNext(cfg: Config, l: Ledger, ms: seq<Message>, n: nat, now: Ledger, next: Ledger)
    requires n < |ms| && OnTrack(cfg, l, ms, n, now) && Received(cfg, now, ms[n], next)
    ensures OnTrack(cfg, l, ms, n + 1, next)
  {
    assert Handle(Turns(cfg), l.world, ms, n + 1) == Turns(cfg)(Handle(Turns(cfg), l.world, ms, n), ms[n]);
    GrewIsSound(now.table, ms[n], next.table, 3);
    forall d, y ensures Journaled(next.table, d, y, "received")
                        <==> (Journaled(l.table, d, y, "received") || InBatch(ms, n + 1, d, y))
    {
      InBatchNext(ms, n, d, y);
    }
  }

  lemma StartsOnTrack(cfg: Config, l: Ledger, ms: seq<Message>)
    requires !l.stopped && Sound(l.table)
    ensures OnTrack(cfg, l, ms, 0, l)
  {
    assert forall d, y :: !InBatch(ms, 0, d, y);
  }

  /** One more message of the batch, from where it stands. */
  ghost predicate GoesOn(cfg: Config, turn: LedgerTurn, l: Ledger, ms: seq<Message>, k: nat)
    requires k < |ms|
  {
    OnTrack(cfg, l, ms, k, Run(turn, l, ms, k)) ==> OnTrack(cfg, l, ms, k + 1, Run(turn, l, ms, k + 1))
  }

  lemma {:induction false} GoesOnTo(cfg: Config, turn: LedgerTurn, l: Ledger, ms: seq<Message>, n: nat)
    requires n <= |ms| && OnTrack(cfg, l, ms, 0, l) && forall k | 0 <= k < n :: GoesOn(cfg, turn, l, ms, k)
    ensures OnTrack(cfg, l, ms, n, Run(turn, l, ms, n))
  {
    if n > 0 {
      GoesOnTo(cfg, turn, l, ms, n - 1);
      assert GoesOn(cfg, turn, l, ms, n - 1);
    }
  }

  /** Until the first repeat, the journal makes no difference. */
  lemma RunsOn(cfg: Config, turn: LedgerTurn, l: Ledger, ms: seq<Message>, n: nat)
    requires n <= |ms| && AllNormal(ms) && TurnsFit(cfg, turn)
    requires !l.stopped && Sound(l.table) && |l.table| + 3 * |ms| <= INT4_MAX && NoRepeat(l.table, ms, n)
    ensures OnTrack(cfg, l, ms, n, Run(turn, l, ms, n))
  {
    StartsOnTrack(cfg, l, ms);
    forall k | 0 <= k < n ensures GoesOn(cfg, turn, l, ms, k) {
      if OnTrack(cfg, l, ms, k, Run(turn, l, ms, k)) { FreshGoesOn(cfg, turn, l, ms, k, Run(turn, l, ms, k)); }
    }
    GoesOnTo(cfg, turn, l, ms, n);
  }

  lemma FreshGoesOn(cfg: Config, turn: LedgerTurn, l: Ledger, ms: seq<Message>, n: nat, now: Ledger)
    requires n < |ms| && AllNormal(ms) && TurnsFit(cfg, turn) && |l.table| + 3 * |ms| <= INT4_MAX
    requires OnTrack(cfg, l, ms, n, now) && NoRepeat(l.table, ms, n + 1)
    ensures OnTrack(cfg, l, ms, n + 1, turn(now, ms[n]))
  {
    assert !Repeats(l.table, ms, n);
    SeenIffRepeats(cfg, l, ms, n, now);
    assert TurnFits(cfg, now, ms[n], turn(now, ms[n]));
    OnTrackNext(cfg, l, ms, n, now, turn(now, ms[n]));
  }

  lemma StopsNext(cfg: Config, turn: LedgerTurn, l: Ledger, ms: seq<Message>, k: nat)
    requires k < |ms| && AllNormal(ms) && TurnsFit(cfg, turn)
    requires !l.stopped && Sound(l.table) && |l.table| + 3 * |ms| <= INT4_MAX
    requires NoRepeat(l.table, ms, k) && Repeats(l.table, ms, k)
    ensures Run(turn, l, ms, k + 1) == Run(turn, l, ms, k).(stopped := true)
  {
    RunsOn(cfg, turn, l, ms, k);
    RepeatStops(cfg, turn, l, ms, k, Run(turn, l, ms, k));
  }

  /** Once a repeat is met, nothing more happens. */
  lemma StopsAt(turn: LedgerTurn, l: Ledger, ms: seq<Message>, k: nat, n: nat)
    requires k < n <= |ms| && Freezes(turn) && Run(turn, l, ms, k + 1) == Run(turn, l, ms, k).(stopped := true)
    ensures Run(turn, l, ms, n) == Run(turn, l, ms, k).(stopped := true)
  {
    StoppedStays(turn, l, ms, k + 1, n);
  }

  lemma RepeatStops(cfg: Config, turn: LedgerTurn, l: Ledger, ms: seq<Message>, k: nat, now: Ledger)
    requires k < |ms| && AllNormal(ms) && TurnsFit(cfg, turn) && |l.table| + 3 * |ms| <= INT4_MAX
    requires OnTrack(cfg, l, ms, k, now) && Repeats(l.table, ms, k)
    ensures turn(now, ms[k]) == now.(stopped := true)
  {
    SeenIffRepeats(cfg, l, ms, k, now);
    assert TurnFits(cfg, now, ms[k], turn(now, ms[k]));
  }

  lemma {:induction false} FirstRepeat(table: Table, ms: seq<Message>, n: nat) returns (k: nat)
    requires n <= |ms| && !NoRepeat(table, ms, n)
    ensures k < n && NoRepeat(table, ms, k) && Repeats(table, ms, k)
  {
    if NoRepeat(table, ms, n - 1) {
      k := n - 1;
    } else {
      k := FirstRepeat(table, ms, n - 1);
    }
  }

  /** What the handler is given: a batch as it is normalized, a sound table with room for its events. */
  ghost predicate Fits(l: Ledger, ms: seq<Message>) {
    !l.stopped && Sound(l.table) && AllNormal(ms) && |l.table| + 3 * |ms| <= INT4_MAX
  }

  ghost predicate PairsDistinct(ms: seq<Message>) {
    forall i, k | 0 <= k < i < |ms| :: !SameMessage(ms[k], ms[i])
  }

  /** The table has no event of the message. */
  ghost predicate Unknown(table: Table, m: Message) {
    forall s | s in SUFFIXES :: !Journaled(table, m.customerId, m.channelMessageId, s)
  }

  lemma NoRepeatIff(table: Table, ms: seq<Message>)
    requires ReceivedFirst(table)
    ensures NoRepeat(table, ms, |ms|) <==> (PairsDistinct(ms) && forall i | 0 <= i < |ms| :: Unknown(table, ms[i]))
  {
    forall i | 0 <= i < |ms| ensures Seen(table, ms[i]) <==> !Unknown(table, ms[i]) {
      assert "received" in SUFFIXES;
    }
    if PairsDistinct(ms) && forall i | 0 <= i < |ms| :: Unknown(table, ms[i]) {
      forall i | 0 <= i < |ms| ensures !Repeats(table, ms, i) {
        assert Unknown(table, ms[i]);
      }
    }
    if NoRepeat(table, ms, |ms|) {
      forall i, k | 0 <= k < i < |ms| ensures !SameMessage(ms[k], ms[i]) { assert !Repeats(table, ms, i); }
      forall i | 0 <= i < |ms| ensures Unknown(table, ms[i]) { assert !Repeats(table, ms, i); }
    }
  }

  /**
   * Over a table that keeps event ids unique, the handler reaches the end of a batch exactly when
   * no (customer, message) pair comes twice and the table has no event of any of them.
   */
  lemma ReachesEndIff(j: Journal, cfg: Config, l: Ledger, ms: seq<Message>)
    requires Fits(l, ms)
    ensures !RunAll(j, cfg, l, ms).stopped <==> (PairsDistinct(ms) && forall i | 0 <= i < |ms| :: Unknown(l.table, ms[i]))
  {
    LedgerTurnsFit(j, cfg);
    NoRepeatIff(l.table, ms);
    if NoRepeat(l.table, ms, |ms|) {
      RunsOn(cfg, LedgerTurns(j, cfg), l, ms, |ms|);
    } else {
      var k := FirstRepeat(l.table, ms, |ms|);
      StopsNext(cfg, LedgerTurns(j, cfg), l, ms, k);
      StopsAt(LedgerTurns(j, cfg), l, ms, k, |ms|);
    }
  }

  /** A batch that reaches its end has been handled as by a journal that cannot refuse. */
  lemma EndIsHandled(j: Journal, cfg: Config, l: Ledger, ms: seq<Message>)
    requires Fits(l, ms) && !RunAll(j, cfg, l, ms).stopped
    ensures RunAll(j, cfg, l, ms).world == HandleAll(cfg, l.world, ms)
  {
    ReachesEndIff(j, cfg, l, ms);
    LedgerTurnsFit(j, cfg);
    NoRepeatIff(l.table, ms);
    RunsOn(cfg, LedgerTurns(j, cfg), l, ms, |ms|);
  }

  /**
   * At the first repeat the handler stops, before it asks whether the message was processed: the
   * store, the replies, the journal, the handoffs and the results are those of the messages before
   * it, and the messages after it are lost.
   */
  lemma StopsAtFirstRepeat(j: Journal, cfg: Config, l: Ledger, ms: seq<Message>, k: nat)
    requires Fits(l, ms) && k < |ms| && NoRepeat(l.table, ms, k) && Repeats(l.table, ms, k)
    ensures
      var now, end := Run(LedgerTurns(j, cfg), l, ms, k), RunAll(j, cfg, l, ms);
      end.stopped && end.world == HandleAll(cfg, l.world, ms[..k]) && end.table == now.table && !now.stopped
  {
    LedgerTurnsFit(j, cfg);
    RunsOn(cfg, LedgerTurns(j, cfg), l, ms, k);
    StopsNext(cfg, LedgerTurns(j, cfg), l, ms, k);
    StopsAt(LedgerTurns(j, cfg), l, ms, k, |ms|);
    assert ms == ms[..k] + ms[k..];
    HandlePrefix(Turns(cfg), l.world, ms[..k], ms[k..], k);
  }

  /** A batch delivered again stops at its first message, and changes nothing. */
  lemma RedeliveryStopsAtOnce(j: Journal, cfg: Config, l: Ledger, ms: seq<Message>)
    requires Fits(l, ms) && ms != [] && |l.table| + 6 * |ms| <= INT4_MAX
    ensures
      var once := RunAll(j, cfg, l, ms).(stopped := false);
      RunAll(j, cfg, once, ms) == once.(stopped := true)
  {
    var once := RunAll(j, cfg, l, ms).(stopped := false);
    LedgerTurnsFit(j, cfg);
    FirstIsSeen(j, cfg, l, ms);
    StopsNext(cfg, LedgerTurns(j, cfg), once, ms, 0);
    StopsAt(LedgerTurns(j, cfg), once, ms, 0, |ms|);
  }

  lemma FirstIsSeen(j: Journal, cfg: Config, l: Ledger, ms: seq<Message>)
    requires Fits(l, ms) && ms != []
    ensures
      var end := RunAll(j, cfg, l, ms);
      Seen(end.table, ms[0]) && Sound(end.table) && |end.table| <= |l.table| + 3 * |ms|
  {
    LedgerTurnsFit(j, cfg);
    if NoRepeat(l.table, ms, |ms|) {
      RunsOn(cfg, LedgerTurns(j, cfg), l, ms, |ms|);
      assert InBatch(ms, |ms|, ms[0].customerId, ms[0].channelMessageId);
    } else {
      var k := FirstRepeat(l.table, ms, |ms|);
      RunsOn(cfg, LedgerTurns(j, cfg), l, ms, k);
      StopsNext(cfg, LedgerTurns(j, cfg), l, ms, k);
      StopsAt(LedgerTurns(j, cfg), l, ms, k, |ms|);
      if k > 0 { assert InBatch(ms, k, ms[0].customerId, ms[0].channelMessageId); }
    }
  }

  const START := Ledger(World(Store(map[], {}, map[], map[], map[]), [], [], [], []), [], false)

  lemma EmptyIsSound()
    ensures Sound([])
  {
  }

  /** One message twice in one batch, on an empty table: the first is answered, the second ends the run. */
  lemma RepeatInBatchStops(j: Journal, cfg: Config)
    ensures
      var m := Message("4915112345678", "wamid.1", "hello", "2026-01-01T00:00:00.000Z");
      var end := RunAll(j, cfg, START, [m, m]);
      end.stopped && end.world == HandleAll(cfg, START.world, [m]) && |end.world.results| == 1
  {
    var m := Message("4915112345678", "wamid.1", "hello", "2026-01-01T00:00:00.000Z");
    var ms := [m, m];
    EmptyIsSound();
    assert Normal(m);
    assert SameMessage(ms[0], ms[1]) && NoRepeat(START.table, ms, 1) && Repeats(START.table, ms, 1);
    StopsAtFirstRepeat(j, cfg, START, ms, 1);
    assert ms[..1] == [m];
    TurnsProcess(cfg);
    ResultAt(Turns(cfg), START.world, [m], 1, 0);
  }

  // ---- batch after batch -----------------------------------------------------------------

  /** Batches handled one after another; a batch that stopped leaves what it did to the next. */
  function Served(j: Journal, cfg: Config, batches: seq<seq<Message>>, n: nat): Ledger
    requires n <= |batches|
  {
    if n == 0 then START else RunAll(j, cfg, Served(j, cfg, batches, n - 1), batches[n - 1]).(stopped := false)
  }

  function Total(batches: seq<seq<Message>>, n: nat): nat
    requires n <= |batches|
  {
    if n == 0 then 0 else Total(batches, n - 1) + |batches[n - 1]|
  }

  /** Whatever batches came before, redelivered or not, the next one finds a sound table. */
  lemma {:induction false} ServedIsSound(j: Journal, cfg: Config, batches: seq<seq<Message>>, n: nat)
    requires n <= |batches| && 3 * Total(batches, n) <= INT4_MAX && forall i | 0 <= i < |batches| :: AllNormal(batches[i])
    ensures Sound(Served(j, cfg, batches, n).table) && !Served(j, cfg, batches, n).stopped
    ensures |Served(j, cfg, batches, n).table| <= 3 * Total(batches, n)
  {
    if n == 0 {
      EmptyIsSound();
    } else {
      ServedIsSound(j, cfg, batches, n - 1);
      var before := Served(j, cfg, batches, n - 1);
      if batches[n - 1] != [] { FirstIsSeen(j, cfg, before, batches[n - 1]); }
    }
  }
}
