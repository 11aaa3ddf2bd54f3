/**
 * What the webhook says and records (src/http/handlers/whatsapp-webhook-async.ts): which reply
 * goes to whom, what the response says of each delivery, and the conversation kept of a customer.
 */
module WhatsAppReplies {
  import opened Common
  import opened JsStrings
  import opened Records
  import opened Json
  import opened CanonicalPlan
  import opened PlanIdempotence
  import JournalHash
  import opened WhatsAppWebhook

  /** What the first `n` turns add, one after another. */
  ghost function Gathered<T>(adds: nat -> seq<T>, n: nat): seq<T> {
    if n == 0 then [] else Gathered(adds, n - 1) + adds(n - 1)
  }

  ghost predicate Adds<T>(turn: Turn, w: World, ms: seq<Message>, view: World -> seq<T>, adds: nat -> seq<T>, n: nat)
    requires n < |ms|
  {
    view(Handle(turn, w, ms, n + 1)) == view(Handle(turn, w, ms, n)) + adds(n)
  }

  /** A list to which every turn adds its part is in the end all parts in order. */
  lemma {:induction false} TurnsGather<T>(turn: Turn, w: World, ms: seq<Message>, view: World -> seq<T>, adds: nat -> seq<T>,
                                          n: nat)
    requires n <= |ms| && forall k | 0 <= k < |ms| :: Adds(turn, w, ms, view, adds, k)
    ensures view(Handle(turn, w, ms, n)) == view(w) + Gathered(adds, n)
  {
    if n > 0 {
      TurnsGather(turn, w, ms, view, adds, n - 1);
      assert Adds(turn, w, ms, view, adds, n - 1);
      assert (view(w) + Gathered(adds, n - 1)) + adds(n - 1) == view(w) + (Gathered(adds, n - 1) + adds(n - 1));
    }
  }

  /** What the agent answers to message `i`, given the conversation so far. */
  ghost function Said(cfg: Config, w: World, ms: seq<Message>, i: nat): (Json, Output)
    requires i < |ms|
  {
    var c := ms[i].customerId;
    cfg.bridge(Conversation(cfg, SessionOf(cfg, w.store, c), w.store.processed, ms, i, c), ms[i])
  }

  /** The reply to message `i`: none when sending is off or it is a repeat, else one to its sender. */
  ghost function ReplyTo(cfg: Config, w: World, ms: seq<Message>, i: nat): seq<Outbound>
    requires i < |ms|
  {
    if !cfg.sends || SeenBefore(w.store.processed, ms, i) then []
    else [Outbound(ms[i].customerId, Trim(Said(cfg, w, ms, i).1.text))]
  }

  ghost function ReplyAdds(cfg: Config, w: World, ms: seq<Message>): nat -> seq<Outbound> {
    (k: nat) => if k < |ms| then ReplyTo(cfg, w, ms, k) else []
  }

  /** The replies to the first `n` messages. */
  ghost function Replies(cfg: Config, w: World, ms: seq<Message>, n: nat): seq<Outbound> {
    Gathered(ReplyAdds(cfg, w, ms), n)
  }

  /** What a turn sends and answers, and which handoff it raises. */
  ghost predicate Serves(cfg: Config, w: World, m: Message, next: World) {
    var session, o := cfg.bridge(SessionOf(cfg, w.store, m.customerId), m).0, cfg.bridge(SessionOf(cfg, w.store, m.customerId), m).1;
    |next.results| == |w.results| + 1 && next.results[..|w.results|] == w.results
    && var d := next.results[|w.results|];
      && d.message == m && (d.duplicate <==> m.channelMessageId in w.store.processed)
      && if d.duplicate then
           && next.sent == w.sent && next.raised == w.raised
           && d.output.None? && d.deliveryStatus == "skipped" && d.session == SessionOf(cfg, w.store, m.customerId)
         else
           && next.sent == w.sent + (if cfg.sends then [Outbound(m.customerId, Trim(o.text))] else [])
           && d.output == Some(o) && d.session == session
           && d.deliveryStatus == (if !cfg.sends then "skipped" else if cfg.sender(next.sent).None? then "sent" else "failed")
           && next.raised == w.raised + (if AsksForHandoff(o) then [HandoffOf(m, o)] else [])
  }

  lemma DuplicateServes(cfg: Config, w: World, m: Message)
    requires m.channelMessageId in w.store.processed
    ensures Serves(cfg, w, m, Duplicate(cfg, w, m))
  {
  }

  lemma AnswerServes(cfg: Config, w: World, m: Message)
    requires m.channelMessageId !in w.store.processed
    ensures Serves(cfg, w, m, Answer(cfg, w, m))
  {
  }

  lemma ReceiveServes(cfg: Config, w: World, m: Message)
    ensures Serves(cfg, w, m, Receive(cfg, w, m))
  {
    if m.channelMessageId in w.store.processed {
      DuplicateServes(cfg, w, m);
    } else {
      AnswerServes(cfg, w, m);
    }
  }

  /** One turn of any messages: the session it starts from and what it does. */
  lemma TurnOf(cfg: Config, w: World, ms: seq<Message>, n: nat) returns (before: World, after: World)
    requires n < |ms|
    ensures before == Handle(Turns(cfg), w, ms, n) && after == Handle(Turns(cfg), w, ms, n + 1)
    ensures Serves(cfg, before, ms[n], after)
    ensures ms[n].channelMessageId in before.store.processed <==> SeenBefore(w.store.processed, ms, n)
    ensures cfg.bridge(SessionOf(cfg, before.store, ms[n].customerId), ms[n]) == Said(cfg, w, ms, n)
  {
    before, after := Handle(Turns(cfg), w, ms, n), Handle(Turns(cfg), w, ms, n + 1);
    ReceiveServes(cfg, before, ms[n]);
    TurnsProcess(cfg);
    ProcessedAfter(Turns(cfg), w, ms, n, ms[n].channelMessageId);
    SessionSoFar(cfg, w, ms, n, ms[n].customerId);
  }

  lemma SessionSoFar(cfg: Config, w: World, ms: seq<Message>, n: nat, customerId: string)
    requires n <= |ms|
    ensures SessionOf(cfg, Handle(Turns(cfg), w, ms, n).store, customerId)
         == Conversation(cfg, SessionOf(cfg, w.store, customerId), w.store.processed, ms, n, customerId)
  {
    TurnsProcess(cfg);
    forall u, m ensures MovesSession(cfg, u, m, Turns(cfg)(u, m), customerId) { ReceiveMoves(cfg, u, m, customerId); }
    SessionFollows(cfg, Turns(cfg), w, ms, n, customerId);
  }

  lemma SentByTurn(cfg: Config, w: World, ms: seq<Message>, n: nat)
    requires n < |ms|
    ensures Handle(Turns(cfg), w, ms, n + 1).sent == Handle(Turns(cfg), w, ms, n).sent + ReplyTo(cfg, w, ms, n)
  {
    var before, after := TurnOf(cfg, w, ms, n);
    if after.results[|before.results|].duplicate { assert after.sent == before.sent + []; }
  }

  lemma SentSoFar(cfg: Config, w: World, ms: seq<Message>, n: nat)
    requires n <= |ms|
    ensures Handle(Turns(cfg), w, ms, n).sent == w.sent + Replies(cfg, w, ms, n)
  {
    var view, adds := (u: World) => u.sent, ReplyAdds(cfg, w, ms);
    forall k | 0 <= k < |ms| ensures Adds(Turns(cfg), w, ms, view, adds, k) {
      SentByTurn(cfg, w, ms, k);
    }
    TurnsGather(Turns(cfg), w, ms, view, adds, n);
  }

  /**
   * Over any messages, redelivered ones included: one reply for each first delivery, in order, to
   * the customer who wrote, with the trimmed text of the agent's answer; none when sending is off.
   */
  lemma RepliesAreSent(cfg: Config, w: World, ms: seq<Message>)
    ensures HandleAll(cfg, w, ms).sent == w.sent + Replies(cfg, w, ms, |ms|)
  {
    SentSoFar(cfg, w, ms, |ms|);
  }

  /** What the response says of message `i`. */
  ghost predicate Delivers(cfg: Config, w: World, ms: seq<Message>, i: nat, d: Delivery)
    requires i < |ms|
  {
    var c := ms[i].customerId;
    && d.message == ms[i] && (d.duplicate <==> SeenBefore(w.store.processed, ms, i))
    && if d.duplicate then
         && d.output.None? && d.deliveryStatus == "skipped"
         && d.session == Conversation(cfg, SessionOf(cfg, w.store, c), w.store.processed, ms, i, c)
       else
         && d.output == Some(Said(cfg, w, ms, i).1) && d.session == Said(cfg, w, ms, i).0
         && d.deliveryStatus == if !cfg.sends then "skipped"
                                else if cfg.sender(w.sent + Replies(cfg, w, ms, i + 1)).None? then "sent" else "failed"
  }

  /** Turn `n` adds one result, of which `ok` holds. */
  ghost predicate TurnAdds(turn: Turn, w: World, ms: seq<Message>, n: nat, ok: (nat, Delivery) -> bool)
    requires n < |ms|
  {
    var before, after := Handle(turn, w, ms, n).results, Handle(turn, w, ms, n + 1).results;
    |after| == |before| + 1 && after[..|before|] == before && ok(n, after[|before|])
  }

  lemma {:induction false} ResultsHold(turn: Turn, w: World, ms: seq<Message>, n: nat, ok: (nat, Delivery) -> bool)
    requires n <= |ms| && forall k | 0 <= k < |ms| :: TurnAdds(turn, w, ms, k, ok)
    ensures var rs := Handle(turn, w, ms, n).results;
      |rs| == |w.results| + n && forall i | |w.results| <= i < |rs| :: ok(i - |w.results|, rs[i])
  {
    if n > 0 {
      ResultsHold(turn, w, ms, n - 1, ok);
      assert TurnAdds(turn, w, ms, n - 1, ok);
      var before, after := Handle(turn, w, ms, n - 1).results, Handle(turn, w, ms, n).results;
      forall i | |w.results| <= i < |after| ensures ok(i - |w.results|, after[i]) {
        if i < |before| { assert after[..|before|][i] == before[i]; }
      }
    }
  }

  lemma TurnDelivers(cfg: Config, w: World, ms: seq<Message>, n: nat, ok: (nat, Delivery) -> bool)
    requires n < |ms| && forall d :: ok(n, d) <==> Delivers(cfg, w, ms, n, d)
    ensures TurnAdds(Turns(cfg), w, ms, n, ok)
  {
    var before, after := TurnOf(cfg, w, ms, n);
    SentSoFar(cfg, w, ms, n + 1);
    SessionSoFar(cfg, w, ms, n, ms[n].customerId);
    assert Delivers(cfg, w, ms, n, after.results[|before.results|]);
  }

  /** The response has one entry for each message, with the agent's answer, the session and the fate of the reply. */
  lemma ResultsTell(cfg: Config, w: World, ms: seq<Message>, i: nat)
    requires i < |ms|
    ensures |HandleAll(cfg, w, ms).results| == |w.results| + |ms|
    ensures Delivers(cfg, w, ms, i, HandleAll(cfg, w, ms).results[|w.results| + i])
  {
    var ok := (k: nat, d: Delivery) => k < |ms| && Delivers(cfg, w, ms, k, d);
    forall k | 0 <= k < |ms| ensures TurnAdds(Turns(cfg), w, ms, k, ok) {
      TurnDelivers(cfg, w, ms, k, ok);
    }
    ResultsHold(Turns(cfg), w, ms, |ms|, ok);
    assert ok(i, HandleAll(cfg, w, ms).results[|w.results| + i]);
  }

  // ---- the conversation kept of a customer -----------------------------------------------

  predicate IsSuffix(suffix: string) {
    suffix == "inbound" || suffix == "outbound" || suffix == "handoff"
  }

  function EventKey(customerId: string, messageId: string, suffix: string): string {
    "event:" + customerId + ":" + messageId + ":" + suffix
  }

  lemma SuffixEnds(front: string, suffix: string)
    requires IsSuffix(suffix)
    ensures var t := front + suffix;
      && |t| >= 7 && (t[|t| - 1] == 'f' <==> suffix == "handoff") && (t[|t| - 7] == 'i' <==> suffix == "inbound")
  {
    var t := front + suffix;
    assert t[|front|..] == suffix;
    if suffix == "inbound" {
      assert t[|t| - 7] == suffix[0] && t[|t| - 1] == suffix[6];
    } else if suffix == "outbound" {
      assert t[|t| - 7] == suffix[1] && t[|t| - 1] == suffix[7];
    } else {
      assert t[|t| - 7] == suffix[0] && t[|t| - 1] == suffix[6];
    }
  }

  /** Of one customer, the id of an event tells its message and its kind. */
  lemma EventKeyTells(customerId: string, a: string, s: string, b: string, t: string)
    requires IsSuffix(s) && IsSuffix(t) && EventKey(customerId, a, s) == EventKey(customerId, b, t)
    ensures a == b && s == t
  {
    var head := "event:" + customerId + ":";
    SuffixEnds(head + a + ":", s);
    SuffixEnds(head + b + ":", t);
    assert EventKey(customerId, a, s) == head + a + ":" + s && EventKey(customerId, b, t) == head + b + ":" + t;
    assert (head + a + ":" + s)[|head|..|head| + |a|] == a && (head + b + ":" + t)[|head|..|head| + |b|] == b;
  }

  /** The event belongs to a message of the customer that was processed. */
  ghost predicate EventOfProcessed(customerId: string, processed: set<string>, e: ConversationEvent) {
    exists id, suffix {:trigger EventKey(customerId, id, suffix)} ::
      id in processed && IsSuffix(suffix) && e.eventId == EventKey(customerId, id, suffix)
  }

  ghost predicate EventsOfProcessed(customerId: string, processed: set<string>, es: seq<ConversationEvent>) {
    forall i | 0 <= i < |es| :: EventOfProcessed(customerId, processed, es[i])
  }

  lemma {:induction false} WithoutAbsent(es: seq<ConversationEvent>, eventId: string)
    requires forall i | 0 <= i < |es| :: es[i].eventId != eventId
    ensures WithoutEvent(es, eventId) == es
  {
    if es != [] { WithoutAbsent(es[1..], eventId); }
  }

  /** An event of a message not processed yet is not among those kept. */
  lemma NewEvent(customerId: string, processed: set<string>, es: seq<ConversationEvent>, id: string, suffix: string)
    requires EventsOfProcessed(customerId, processed, es) && id !in processed && IsSuffix(suffix)
    ensures forall i | 0 <= i < |es| :: es[i].eventId != EventKey(customerId, id, suffix)
  {
    forall i | 0 <= i < |es| ensures es[i].eventId != EventKey(customerId, id, suffix) {
      assert EventOfProcessed(customerId, processed, es[i]);
      var other, s :| other in processed && IsSuffix(s) && es[i].eventId == EventKey(customerId, other, s);
      if es[i].eventId == EventKey(customerId, id, suffix) { EventKeyTells(customerId, other, s, id, suffix); }
    }
  }

  /** What a message adds to the conversation kept of its customer. */
  function TurnEvents(m: Message, o: Output): seq<ConversationEvent> {
    var c, id, at := m.customerId, m.channelMessageId, m.receivedAt;
    [ConversationEvent(EventKey(c, id, "inbound"), c, at, Inbound, id, Trim(m.text), None, ""),
     ConversationEvent(EventKey(c, id, "outbound"), c, at, OutboundReply, id, Trim(o.text), Some(TrimOutput(o)), "")]
    + if !AsksForHandoff(o) then []
      else [ConversationEvent(EventKey(c, id, "handoff"), c, at, HandoffOpened, id, Trim(o.text), Some(TrimOutput(o)),
                              "handoff:" + c + ":" + id)]
  }

  lemma SaveNew(store: Store, e: ConversationEvent)
    requires forall i | 0 <= i < |EventsOf(store, e.customerId)| :: EventsOf(store, e.customerId)[i].eventId != e.eventId
    ensures EventsOf(SaveEvent(store, e), e.customerId) == EventsOf(store, e.customerId) + [e]
    ensures forall c | c != e.customerId :: EventsOf(SaveEvent(store, e), c) == EventsOf(store, c)
  {
    WithoutAbsent(EventsOf(store, e.customerId), e.eventId);
  }

  lemma DistinctSuffixes(m: Message)
    ensures EventKey(m.customerId, m.channelMessageId, "inbound") != EventKey(m.customerId, m.channelMessageId, "outbound")
    ensures EventKey(m.customerId, m.channelMessageId, "handoff") != EventKey(m.customerId, m.channelMessageId, "inbound")
    ensures EventKey(m.customerId, m.channelMessageId, "handoff") != EventKey(m.customerId, m.channelMessageId, "outbound")
  {
    SuffixEnds("event:" + m.customerId + ":" + m.channelMessageId + ":", "inbound");
    SuffixEnds("event:" + m.customerId + ":" + m.channelMessageId + ":", "outbound");
    SuffixEnds("event:" + m.customerId + ":" + m.channelMessageId + ":", "handoff");
  }

  lemma SameEvents(a: Store, b: Store)
    requires a.events == b.events
    ensures forall c :: EventsOf(a, c) == EventsOf(b, c)
  {
  }

  lemma TwoSaved(store: Store, a: ConversationEvent, b: ConversationEvent)
    requires a.customerId == b.customerId && a.eventId != b.eventId
    requires forall i | 0 <= i < |EventsOf(store, a.customerId)| ::
      EventsOf(store, a.customerId)[i].eventId != a.eventId && EventsOf(store, a.customerId)[i].eventId != b.eventId
    ensures EventsOf(SaveEvent(SaveEvent(store, a), b), a.customerId) == EventsOf(store, a.customerId) + [a, b]
    ensures forall c | c != a.customerId :: EventsOf(SaveEvent(SaveEvent(store, a), b), c) == EventsOf(store, c)
  {
    SaveNew(store, a);
    SaveNew(SaveEvent(store, a), b);
  }

  lemma TalkedEvents(store: Store, m: Message, session: Json, o: Output)
    requires m.channelMessageId !in store.processed
    requires EventsOfProcessed(m.customerId, store.processed, EventsOf(store, m.customerId))
    ensures EventsOf(Talked(store, m, session, o), m.customerId) == EventsOf(store, m.customerId) + TurnEvents(m, o)[..2]
    ensures forall c | c != m.customerId :: EventsOf(Talked(store, m, session, o), c) == EventsOf(store, c)
  {
    NewEvent(m.customerId, store.processed, EventsOf(store, m.customerId), m.channelMessageId, "inbound");
    NewEvent(m.customerId, store.processed, EventsOf(store, m.customerId), m.channelMessageId, "outbound");
    DistinctSuffixes(m);
    TwoSaved(store, InboundEvent(m), ReplyEvent(m, o));
    SameEvents(SaveEvent(SaveEvent(store, InboundEvent(m)), ReplyEvent(m, o)), Talked(store, m, session, o));
    assert TurnEvents(m, o)[..2] == [InboundEvent(m), ReplyEvent(m, o)];
  }

  lemma HandedOverEvents(talked: Store, es: seq<ConversationEvent>, m: Message, o: Output)
    requires EventsOf(talked, m.customerId) == es + TurnEvents(m, o)[..2]
    requires forall i | 0 <= i < |es| :: es[i].eventId != EventKey(m.customerId, m.channelMessageId, "handoff")
    ensures EventsOf(HandedOver(talked, m, o), m.customerId) == es + TurnEvents(m, o)
    ensures forall c | c != m.customerId :: EventsOf(HandedOver(talked, m, o), c) == EventsOf(talked, c)
  {
    if AsksForHandoff(o) {
      DistinctSuffixes(m);
      SaveNew(talked.(handoffs := talked.handoffs[HandoffId(m) := HandoffOf(m, o)]), HandoffEvent(m, o));
      assert TurnEvents(m, o) == TurnEvents(m, o)[..2] + [HandoffEvent(m, o)];
    } else {
      assert TurnEvents(m, o) == TurnEvents(m, o)[..2];
    }
  }

  lemma SavedEvents(store: Store, m: Message, session: Json, o: Output)
    requires m.channelMessageId !in store.processed
    requires EventsOfProcessed(m.customerId, store.processed, EventsOf(store, m.customerId))
    ensures EventsOf(Saved(store, m, session, o), m.customerId) == EventsOf(store, m.customerId) + TurnEvents(m, o)
    ensures forall c | c != m.customerId :: EventsOf(Saved(store, m, session, o), c) == EventsOf(store, c)
  {
    TalkedEvents(store, m, session, o);
    NewEvent(m.customerId, store.processed, EventsOf(store, m.customerId), m.channelMessageId, "handoff");
    HandedOverEvents(Talked(store, m, session, o), EventsOf(store, m.customerId), m, o);
    SameEvents(HandedOver(Talked(store, m, session, o), m, o), Saved(store, m, session, o));
  }

  lemma TurnEventsOfProcessed(m: Message, o: Output, processed: set<string>)
    requires m.channelMessageId in processed
    ensures EventsOfProcessed(m.customerId, processed, TurnEvents(m, o))
  {
    assert IsSuffix("inbound") && IsSuffix("outbound") && IsSuffix("handoff");
  }

  /** What the handler keeps of every customer's conversation at the start of a message. */
  ghost predicate KeptEvents(store: Store) {
    forall c :: EventsOfProcessed(c, store.processed, EventsOf(store, c))
  }

  lemma MoreProcessed(customerId: string, processed: set<string>, more: set<string>, es: seq<ConversationEvent>)
    requires EventsOfProcessed(customerId, processed, es) && processed <= more
    ensures EventsOfProcessed(customerId, more, es)
  {
    forall i | 0 <= i < |es| ensures EventOfProcessed(customerId, more, es[i]) {
      assert EventOfProcessed(customerId, processed, es[i]);
      var id, suffix :| id in processed && IsSuffix(suffix) && es[i].eventId == EventKey(customerId, id, suffix);
      assert id in more;
    }
  }

  /** What a turn adds to the conversation of a customer. */
  ghost predicate Converses(cfg: Config, w: World, m: Message, next: World, c: string) {
    var o := cfg.bridge(SessionOf(cfg, w.store, m.customerId), m).1;
    EventsOf(next.store, c) == EventsOf(w.store, c) +
      if m.customerId != c || m.channelMessageId in w.store.processed then [] else TurnEvents(m, o)
  }

  lemma ReceiveConverses(cfg: Config, w: World, m: Message, c: string)
    requires KeptEvents(w.store)
    ensures Converses(cfg, w, m, Receive(cfg, w, m), c)
    ensures EventsOfProcessed(c, Receive(cfg, w, m).store.processed, EventsOf(Receive(cfg, w, m).store, c))
  {
    var (session, o) := cfg.bridge(SessionOf(cfg, w.store, m.customerId), m);
    var next := Receive(cfg, w, m);
    ReceiveProcesses(cfg, w, m);
    assert EventsOfProcessed(c, w.store.processed, EventsOf(w.store, c));
    MoreProcessed(c, w.store.processed, next.store.processed, EventsOf(w.store, c));
    if m.channelMessageId !in w.store.processed {
      assert EventsOfProcessed(m.customerId, w.store.processed, EventsOf(w.store, m.customerId));
      SavedEvents(w.store, m, session, o);
      TurnEventsOfProcessed(m, o, next.store.processed);
    }
  }

  lemma ReceiveKeepsEvents(cfg: Config, w: World, m: Message)
    requires KeptEvents(w.store)
    ensures KeptEvents(Receive(cfg, w, m).store)
  {
    forall c ensures EventsOfProcessed(c, Receive(cfg, w, m).store.processed, EventsOf(Receive(cfg, w, m).store, c)) {
      ReceiveConverses(cfg, w, m, c);
    }
  }

  lemma {:induction false} EventsStayKept(cfg: Config, w: World, ms: seq<Message>, n: nat)
    requires n <= |ms| && KeptEvents(w.store)
    ensures KeptEvents(Handle(Turns(cfg), w, ms, n).store)
  {
    if n > 0 {
      EventsStayKept(cfg, w, ms, n - 1);
      ReceiveKeepsEvents(cfg, Handle(Turns(cfg), w, ms, n - 1), ms[n - 1]);
    }
  }

  /** What message `i` adds to the conversation of a customer: nothing when it is another's or a repeat. */
  ghost function TalkAdds(cfg: Config, w: World, ms: seq<Message>, c: string): nat -> seq<ConversationEvent> {
    (i: nat) => if i >= |ms| || ms[i].customerId != c || SeenBefore(w.store.processed, ms, i) then []
                else TurnEvents(ms[i], Said(cfg, w, ms, i).1)
  }

  /** The events of the first deliveries of a customer, in order. */
  ghost function Transcript(cfg: Config, w: World, ms: seq<Message>, n: nat, c: string): seq<ConversationEvent> {
    Gathered(TalkAdds(cfg, w, ms, c), n)
  }

  lemma TurnTalks(cfg: Config, w: World, ms: seq<Message>, n: nat, c: string)
    requires n < |ms| && KeptEvents(w.store)
    ensures EventsOf(Handle(Turns(cfg), w, ms, n + 1).store, c)
         == EventsOf(Handle(Turns(cfg), w, ms, n).store, c) + TalkAdds(cfg, w, ms, c)(n)
  {
    var before, after := TurnOf(cfg, w, ms, n);
    EventsStayKept(cfg, w, ms, n);
    ReceiveConverses(cfg, before, ms[n], c);
  }

  lemma TranscriptSoFar(cfg: Config, w: World, ms: seq<Message>, n: nat, c: string)
    requires n <= |ms| && KeptEvents(w.store)
    ensures EventsOf(Handle(Turns(cfg), w, ms, n).store, c) == EventsOf(w.store, c) + Transcript(cfg, w, ms, n, c)
  {
    var view, adds := (u: World) => EventsOf(u.store, c), TalkAdds(cfg, w, ms, c);
    forall k | 0 <= k < |ms| ensures Adds(Turns(cfg), w, ms, view, adds, k) {
      TurnTalks(cfg, w, ms, k, c);
    }
    TurnsGather(Turns(cfg), w, ms, view, adds, n);
  }

  /**
   * The conversation kept of a customer grows by the events of the first deliveries of that
   * customer, in order: what was written, what was answered, and the handoff if one was asked for.
   */
  lemma TranscriptIsKept(cfg: Config, w: World, ms: seq<Message>, c: string)
    requires KeptEvents(w.store)
    ensures EventsOf(HandleAll(cfg, w, ms).store, c) == EventsOf(w.store, c) + Transcript(cfg, w, ms, |ms|, c)
    ensures KeptEvents(HandleAll(cfg, w, ms).store)
  {
    TranscriptSoFar(cfg, w, ms, |ms|, c);
    EventsStayKept(cfg, w, ms, |ms|);
  }

  // ---- what the journal and the store record of a message --------------------------------

  /** The call is filed under the customer's session, at the time of the message, and names both. */
  ghost predicate Files(call: JournalCall, m: Message, suffix: string) {
    && call.eventId == "journal:" + m.customerId + ":" + m.channelMessageId + ":" + suffix
    && call.sessionId == "whatsapp:" + m.customerId && call.timestamp == m.receivedAt
    && Field(call.payload, "channel") == Some(Str("whatsapp")) && Field(call.payload, "customerId") == Some(Str(m.customerId))
    && Field(call.payload, "channelMessageId") == Some(Str(m.channelMessageId))
  }

  lemma IdsFiled(ms: seq<Entry<Json>>, m: Message)
    requires DistinctKeys(ms) && WhatsAppWebhook.Ids(m) <= ms
    ensures Field(ms, "channel") == Some(Str("whatsapp")) && Field(ms, "customerId") == Some(Str(m.customerId))
    ensures Field(ms, "channelMessageId") == Some(Str(m.channelMessageId))
  {
    assert ms[0] == WhatsAppWebhook.Ids(m)[0] && ms[1] == WhatsAppWebhook.Ids(m)[1] && ms[2] == WhatsAppWebhook.Ids(m)[2];
    FieldAt(ms, 0);
    FieldAt(ms, 1);
    FieldAt(ms, 2);
  }

  /** The received event holds the text as it was written. */
  lemma ReceivedTells(m: Message)
    ensures ReceivedCall(m).typ == JournalHash.MessageReceived && Files(ReceivedCall(m), m, "received")
    ensures Field(ReceivedCall(m).payload, "text") == Some(Str(m.text))
  {
    var ms := ReceivedCall(m).payload;
    IdsFiled(ms, m);
    assert ms[3] == Entry("text", Str(m.text));
    FieldAt(ms, 3);
  }

  /** What the processed event says of the answer: its fields, or null for a repeat. */
  ghost predicate TellsAnswer(ms: seq<Entry<Json>>, output: Option<Output>) {
    match output
    case None =>
      && Field(ms, "responseId") == Some(Null) && Field(ms, "resolvedIntentId") == Some(Null) && Field(ms, "stage") == Some(Null)
      && Field(ms, "status") == Some(Null) && Field(ms, "humanInterventionRequired") == Some(Null)
    case Some(o) =>
      && Field(ms, "responseId") == Some(Str(o.responseId)) && Field(ms, "resolvedIntentId") == Some(Str(o.intentId))
      && Field(ms, "stage") == Some(Str(o.stage)) && Field(ms, "status") == Some(Str(o.status))
      && Field(ms, "humanInterventionRequired") == Some(Bool(o.humanNeeded))
  }

  lemma ProcessedPlaces(m: Message, duplicate: bool, deliveryStatus: string, output: Option<Output>)
    ensures var ms := ProcessedCall(m, duplicate, deliveryStatus, output).payload;
      && |ms| == 10 && DistinctKeys(ms) && WhatsAppWebhook.Ids(m) <= ms
      && ms[3] == Entry("duplicate", Bool(duplicate)) && ms[4] == Entry("deliveryStatus", Str(deliveryStatus))
      && ms[5].key == "responseId" && ms[6].key == "resolvedIntentId" && ms[7].key == "stage" && ms[8].key == "status"
      && ms[9].key == "humanInterventionRequired"
  {
  }

  /** The processed event says whether the message was a repeat, what became of the reply, and the answer. */
  lemma ProcessedTells(m: Message, duplicate: bool, deliveryStatus: string, output: Option<Output>)
    ensures var call := ProcessedCall(m, duplicate, deliveryStatus, output);
      && call.typ == JournalHash.MessageProcessed && Files(call, m, "processed")
      && Field(call.payload, "duplicate") == Some(Bool(duplicate))
      && Field(call.payload, "deliveryStatus") == Some(Str(deliveryStatus)) && TellsAnswer(call.payload, output)
  {
    var ms := ProcessedCall(m, duplicate, deliveryStatus, output).payload;
    ProcessedPlaces(m, duplicate, deliveryStatus, output);
    IdsFiled(ms, m);
    FieldAt(ms, 3);
    FieldAt(ms, 4);
    FieldAt(ms, 5);
    FieldAt(ms, 6);
    FieldAt(ms, 7);
    FieldAt(ms, 8);
    FieldAt(ms, 9);
  }

  lemma HandoffPlaces(m: Message, o: Output)
    ensures var ms := HandoffCall(m, o).payload;
      && |ms| == 10 && DistinctKeys(ms) && WhatsAppWebhook.Ids(m) <= ms
      && ms[3] == Entry("handoffId", Str("handoff:" + m.customerId + ":" + m.channelMessageId))
      && ms[4] == Entry("responseId", Str(o.responseId)) && ms[5] == Entry("resolvedIntentId", Str(o.intentId))
      && ms[6] == Entry("stage", Str(o.stage)) && ms[7] == Entry("status", Str(o.status))
      && ms[8] == Entry("handoffReasonCode", Str(o.reasonCode)) && ms[9] == Entry("handoffQueue", Str(o.queue))
  {
  }

  /** The handoff event holds the handoff's id and why and where the customer was handed over. */
  lemma HandoffTells(m: Message, o: Output)
    ensures var call := HandoffCall(m, o);
      && call.typ == JournalHash.Handoff && Files(call, m, "handoff")
      && Field(call.payload, "handoffId") == Some(Str("handoff:" + m.customerId + ":" + m.channelMessageId))
      && Field(call.payload, "responseId") == Some(Str(o.responseId)) && Field(call.payload, "stage") == Some(Str(o.stage))
      && Field(call.payload, "resolvedIntentId") == Some(Str(o.intentId)) && Field(call.payload, "status") == Some(Str(o.status))
      && Field(call.payload, "handoffReasonCode") == Some(Str(o.reasonCode))
      && Field(call.payload, "handoffQueue") == Some(Str(o.queue))
  {
    var ms := HandoffCall(m, o).payload;
    HandoffPlaces(m, o);
    IdsFiled(ms, m);
    FieldAt(ms, 3);
    FieldAt(ms, 4);
    FieldAt(ms, 5);
    FieldAt(ms, 6);
    FieldAt(ms, 7);
    FieldAt(ms, 8);
    FieldAt(ms, 9);
  }

  /** The agent asks for a person: all five fields of its answer say so. */
  ghost predicate HandsOver(o: Output) {
    && o.humanNeeded && o.intentId == "request-human-handoff" && o.responseId == "handoff-requested"
    && o.stage == "handoff-requested" && o.status == "handoff"
  }

  /**
   * What the store keeps of an answered message besides the conversation: the customer's last
   * answer, and a handoff exactly when the agent asks for one; every other customer's are untouched.
   */
  lemma AnswerKeeps(cfg: Config, w: World, m: Message)
    requires m.channelMessageId !in w.store.processed
    ensures var o := cfg.bridge(SessionOf(cfg, w.store, m.customerId), m).1;
      var next := Receive(cfg, w, m).store;
      && m.customerId in next.evidence
      && next.evidence[m.customerId].customerId == m.customerId
      && next.evidence[m.customerId].lastInboundMessageId == m.channelMessageId
      && next.evidence[m.customerId].updatedAt == m.receivedAt && next.evidence[m.customerId].output == TrimOutput(o)
      && (forall c | c != m.customerId :: (c in next.evidence <==> c in w.store.evidence)
                                          && (c in next.evidence ==> next.evidence[c] == w.store.evidence[c]))
      && (!HandsOver(o) ==> next.handoffs == w.store.handoffs)
      && (HandsOver(o) ==> HandedTo(next.handoffs, w.store.handoffs, m, o))
  {
  }

  /** The handoff is filed under the id of customer and message, with the answer that asked for it. */
  ghost predicate HandedTo(after: map<string, Handoff>, before: map<string, Handoff>, m: Message, o: Output) {
    var id := "handoff:" + m.customerId + ":" + m.channelMessageId;
    && id in after && after[id] == Handoff(id, m.customerId, m.receivedAt, m.channelMessageId, TrimOutput(o))
    && forall other | other != id :: (other in after <==> other in before) && (other in after ==> after[other] == before[other])
  }
}
