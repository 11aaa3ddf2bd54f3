/**
 * The message loop of the webhook (src/http/handlers/whatsapp-webhook-async.ts) over the store
 * (src/channels/whatsapp/store.ts). The agent behind the bridge and the sender are arbitrary
 * functions; the journal is the list of calls made to it. Messages are as `normalizeWhatsAppWebhook`
 * leaves them: ids and customers trimmed and not empty. In the records, "" stands for an absent text.
 */
module WhatsAppWebhook {
  import opened Common
  import opened JsStrings
  import opened Records
  import opened Json
  import JournalHash

  datatype Message = Message(customerId: string, channelMessageId: string, text: string, receivedAt: string)

  /** A text that is trimmed and not empty. */
  predicate NormalText(t: string) {
    t != "" && Trimmed(t)
  }

  /** Messages as `normalizeWhatsAppWebhook` leaves them. */
  predicate Normal(m: Message) {
    NormalText(m.customerId) && NormalText(m.channelMessageId) && NormalText(m.text) && NormalText(m.receivedAt)
  }

  datatype Output = Output(
    text: string, responseId: string, intentId: string, stage: string, status: string, humanNeeded: bool,
    reasonCode: string, queue: string)

  datatype Outbound = Outbound(to: string, body: string)

  datatype Evidence = Evidence(customerId: string, lastInboundMessageId: string, output: Output, updatedAt: string)

  datatype Handoff = Handoff(handoffId: string, customerId: string, at: string, lastInboundMessageId: string, output: Output)

  datatype EventKind = Inbound | OutboundReply | HandoffOpened

  datatype ConversationEvent = ConversationEvent(
    eventId: string, customerId: string, at: string, kind: EventKind, channelMessageId: string, text: string,
    output: Option<Output>, handoffId: string)

  datatype JournalCall = JournalCall(
    eventId: string, sessionId: string, timestamp: string, typ: JournalHash.EventType, payload: seq<Entry<Json>>)

  /** One entry of the response: whether the message was a duplicate, and what was made of it. */
  datatype Delivery = Delivery(message: Message, duplicate: bool, output: Option<Output>, deliveryStatus: string, session: Json)

  type Bridge = (Json, Message) -> (Json, Output)

  /** The error of sending the last of the messages sent so far, if it fails. */
  type Sender = seq<Outbound> -> Option<string>

  /** What the handler is configured with; `initial` is the session of a customer not seen before. */
  datatype Config = Config(bridge: Bridge, initial: string -> Json, sends: bool, sender: Sender)

  function TrimOutput(o: Output): Output {
    Output(Trim(o.text), Trim(o.responseId), Trim(o.intentId), Trim(o.stage), Trim(o.status), o.humanNeeded,
           Trim(o.reasonCode), Trim(o.queue))
  }

  // ---- the store -------------------------------------------------------------------------

  datatype Store = Store(
    sessions: map<string, Json>, processed: set<string>, evidence: map<string, Evidence>,
    handoffs: map<string, Handoff>, events: map<string, seq<ConversationEvent>>)

  function WithoutEvent(es: seq<ConversationEvent>, eventId: string): seq<ConversationEvent> {
    if es == [] then []
    else (if es[0].eventId == eventId then [] else [es[0]]) + WithoutEvent(es[1..], eventId)
  }

  function EventsOf(store: Store, customerId: string): seq<ConversationEvent> {
    if customerId in store.events then store.events[customerId] else []
  }

  /** `saveConversationEvent`: an event with the same id is replaced, at the end. */
  function SaveEvent(store: Store, e: ConversationEvent): Store {
    store.(events := store.events[e.customerId := WithoutEvent(EventsOf(store, e.customerId), e.eventId) + [e]])
  }

  function SessionOf(cfg: Config, store: Store, customerId: string): Json {
    if customerId in store.sessions then store.sessions[customerId] else cfg.initial(customerId)
  }

  class WhatsAppStore {
    var sessions: map<string, Json>
    var processedMessageIds: set<string>
    var evidenceByCustomerId: map<string, Evidence>
    var handoffsById: map<string, Handoff>
    var eventsByCustomerId: map<string, seq<ConversationEvent>>

    constructor ()
      ensures Current() == Store(map[], {}, map[], map[], map[])
    {
      sessions, processedMessageIds, evidenceByCustomerId, handoffsById, eventsByCustomerId := map[], {}, map[], map[], map[];
    }

    ghost function Current(): Store
      reads this
    {
      Store(sessions, processedMessageIds, evidenceByCustomerId, handoffsById, eventsByCustomerId)
    }

    method LoadSession(cfg: Config, customerId: string) returns (session: Json)
      ensures session == SessionOf(cfg, Current(), customerId)
    {
      return if customerId in sessions then sessions[customerId] else cfg.initial(customerId);
    }

    method SaveSession(customerId: string, session: Json)
      modifies this`sessions
      ensures Current() == old(Current()).(sessions := old(sessions)[customerId := session])
    {
      sessions := sessions[customerId := session];
    }

    method HasProcessedMessage(channelMessageId: string) returns (r: bool)
      ensures r == (channelMessageId in processedMessageIds)
    {
      return channelMessageId in processedMessageIds;
    }

    method MarkMessageProcessed(channelMessageId: string)
      modifies this`processedMessageIds
      ensures Current() == old(Current()).(processed := old(processedMessageIds) + {channelMessageId})
    {
      processedMessageIds := processedMessageIds + {channelMessageId};
    }

    method SaveEvidence(e: Evidence)
      modifies this`evidenceByCustomerId
      ensures Current() == old(Current()).(evidence := old(evidenceByCustomerId)[e.customerId := e])
    {
      evidenceByCustomerId := evidenceByCustomerId[e.customerId := e];
    }

    method SaveHandoff(h: Handoff)
      modifies this`handoffsById
      ensures Current() == old(Current()).(handoffs := old(handoffsById)[h.handoffId := h])
    {
      handoffsById := handoffsById[h.handoffId := h];
    }

    method SaveConversationEvent(e: ConversationEvent)
      modifies this`eventsByCustomerId
      ensures Current() == SaveEvent(old(Current()), e)
    {
      var existing := if e.customerId in eventsByCustomerId then eventsByCustomerId[e.customerId] else [];
      eventsByCustomerId := eventsByCustomerId[e.customerId := WithoutEvent(existing, e.eventId) + [e]];
    }
  }

  // ---- one message -----------------------------------------------------------------------

  function JournalId(m: Message, suffix: string): string {
    "journal:" + m.customerId + ":" + m.channelMessageId + ":" + suffix
  }

  function EventId(m: Message, suffix: string): string {
    "event:" + m.customerId + ":" + m.channelMessageId + ":" + suffix
  }

  function HandoffId(m: Message): string {
    "handoff:" + m.customerId + ":" + m.channelMessageId
  }

  function Ids(m: Message): seq<Entry<Json>> {
    [Entry("channel", Str("whatsapp")), Entry("customerId", Str(m.customerId)), Entry("channelMessageId", Str(m.channelMessageId))]
  }

  function ReceivedCall(m: Message): JournalCall {
    JournalCall(JournalId(m, "received"), "whatsapp:" + m.customerId, m.receivedAt, JournalHash.MessageReceived,
                Ids(m) + [Entry("text", Str(m.text))])
  }

  function ProcessedCall(m: Message, duplicate: bool, deliveryStatus: string, output: Option<Output>): JournalCall {
    JournalCall(
      JournalId(m, "processed"), "whatsapp:" + m.customerId, m.receivedAt, JournalHash.MessageProcessed,
      Ids(m) + [Entry("duplicate", Bool(duplicate)), Entry("deliveryStatus", Str(deliveryStatus))]
      + match output
        case None =>
          [Entry("responseId", Null), Entry("resolvedIntentId", Null), Entry("stage", Null), Entry("status", Null),
           Entry("humanInterventionRequired", Null)]
        case Some(o) =>
          [Entry("responseId", Str(o.responseId)), Entry("resolvedIntentId", Str(o.intentId)), Entry("stage", Str(o.stage)),
           Entry("status", Str(o.status)), Entry("humanInterventionRequired", Bool(o.humanNeeded))])
  }

  function HandoffCall(m: Message, o: Output): JournalCall {
    JournalCall(
      JournalId(m, "handoff"), "whatsapp:" + m.customerId, m.receivedAt, JournalHash.Handoff,
      Ids(m) + [Entry("handoffId", Str(HandoffId(m))), Entry("responseId", Str(o.responseId)),
                Entry("resolvedIntentId", Str(o.intentId)), Entry("stage", Str(o.stage)), Entry("status", Str(o.status)),
                Entry("handoffReasonCode", Str(o.reasonCode)), Entry("handoffQueue", Str(o.queue))])
  }

  predicate AsksForHandoff(o: Output) {
    && o.humanNeeded && o.intentId == "request-human-handoff" && o.responseId == "handoff-requested"
    && o.stage == "handoff-requested" && o.status == "handoff"
  }

  function HandoffOf(m: Message, o: Output): Handoff {
    Handoff(HandoffId(m), m.customerId, m.receivedAt, m.channelMessageId, TrimOutput(o))
  }

  function InboundEvent(m: Message): ConversationEvent {
    ConversationEvent(EventId(m, "inbound"), m.customerId, m.receivedAt, Inbound, m.channelMessageId, Trim(m.text), None, "")
  }

  function ReplyEvent(m: Message, o: Output): ConversationEvent {
    ConversationEvent(EventId(m, "outbound"), m.customerId, m.receivedAt, OutboundReply, m.channelMessageId, Trim(o.text),
                      Some(TrimOutput(o)), "")
  }

  function HandoffEvent(m: Message, o: Output): ConversationEvent {
    ConversationEvent(EventId(m, "handoff"), m.customerId, m.receivedAt, HandoffOpened, m.channelMessageId, Trim(o.text),
                      Some(TrimOutput(o)), HandoffId(m))
  }

  /** What the handler saves of a conversation turn. */
  function Talked(store: Store, m: Message, session: Json, o: Output): Store {
    var said := SaveEvent(SaveEvent(store, InboundEvent(m)), ReplyEvent(m, o));
    said.(sessions := said.sessions[m.customerId := session],
          evidence := said.evidence[m.customerId := Evidence(m.customerId, m.channelMessageId, TrimOutput(o), m.receivedAt)])
  }

  function HandedOver(store: Store, m: Message, o: Output): Store {
    if AsksForHandoff(o)
    then SaveEvent(store.(handoffs := store.handoffs[HandoffId(m) := HandoffOf(m, o)]), HandoffEvent(m, o))
    else store
  }

  /** The store after a message that was answered. */
  function Saved(store: Store, m: Message, session: Json, o: Output): Store {
    var done := HandedOver(Talked(store, m, session, o), m, o);
    done.(processed := done.processed + {m.channelMessageId})
  }

  /** Everything the handler changes: the store, what was sent, journaled and handed over, and the response. */
  datatype World = World(
    store: Store, sent: seq<Outbound>, journal: seq<JournalCall>, raised: seq<Handoff>, results: seq<Delivery>)

  function Duplicate(cfg: Config, w: World, m: Message): World {
    w.(journal := w.journal + [ReceivedCall(m), ProcessedCall(m, true, "skipped", None)],
       results := w.results + [Delivery(m, true, None, "skipped", SessionOf(cfg, w.store, m.customerId))])
  }

  function Send(cfg: Config, w: World, m: Message, o: Output): (seq<Outbound>, string) {
    if !cfg.sends then (w.sent, "skipped")
    else
      var sent := w.sent + [Outbound(m.customerId, Trim(o.text))];
      (sent, if cfg.sender(sent).None? then "sent" else "failed")
  }

  function Answer(cfg: Config, w: World, m: Message): World {
    var (session, o) := cfg.bridge(SessionOf(cfg, w.store, m.customerId), m);
    var (sent, status) := Send(cfg, w, m, o);
    World(Saved(w.store, m, session, o), sent,
          w.journal + [ReceivedCall(m)] + (if AsksForHandoff(o) then [HandoffCall(m, o)] else [])
          + [ProcessedCall(m, false, status, Some(o))],
          w.raised + (if AsksForHandoff(o) then [HandoffOf(m, o)] else []),
          w.results + [Delivery(m, false, Some(o), status, session)])
  }

  /** One turn of the loop. */
  function Receive(cfg: Config, w: World, m: Message): World {
    if m.channelMessageId in w.store.processed then Duplicate(cfg, w, m) else Answer(cfg, w, m)
  }

  type Turn = (World, Message) -> World

  function Turns(cfg: Config): Turn {
    (w: World, m: Message) => Receive(cfg, w, m)
  }

  /** The first `n` messages, one after another; batches handled one after another are one list. */
  function Handle(turn: Turn, w: World, ms: seq<Message>, n: nat): World
    requires n <= |ms|
  {
    if n == 0 then w else turn(Handle(turn, w, ms, n - 1), ms[n - 1])
  }

  function HandleAll(cfg: Config, w: World, ms: seq<Message>): World {
    Handle(Turns(cfg), w, ms, |ms|)
  }

  method SaveTurn(store: WhatsAppStore, m: Message, session: Json, o: Output)
    modifies store
    ensures store.Current() == Talked(old(store.Current()), m, session, o)
  {
    store.SaveConversationEvent(InboundEvent(m));
    store.SaveConversationEvent(ReplyEvent(m, o));
    store.SaveSession(m.customerId, session);
    store.SaveEvidence(Evidence(m.customerId, m.channelMessageId, TrimOutput(o), m.receivedAt));
  }

  method SaveHandover(store: WhatsAppStore, m: Message, o: Output)
    modifies store
    ensures store.Current() == HandedOver(old(store.Current()), m, o)
  {
    if AsksForHandoff(o) {
      store.SaveHandoff(HandoffOf(m, o));
      store.SaveConversationEvent(HandoffEvent(m, o));
    }
  }

  /** Answering a message, up to the handoff event of the journal. */
  method Respond(store: WhatsAppStore, cfg: Config, m: Message, ghost w: World, sentBefore: seq<Outbound>)
    returns (sent: seq<Outbound>, status: string, session: Json, output: Output)
    requires w.store == store.Current() && w.sent == sentBefore
    modifies store
    ensures (session, output) == cfg.bridge(SessionOf(cfg, w.store, m.customerId), m)
    ensures (sent, status) == Send(cfg, w, m, output)
    ensures store.Current() == HandedOver(Talked(w.store, m, session, output), m, output)
  {
    var before := store.LoadSession(cfg, m.customerId);
    var answer := cfg.bridge(before, m);
    session, output := answer.0, answer.1;
    sent, status := sentBefore, "skipped";
    if cfg.sends {
      sent := sentBefore + [Outbound(m.customerId, Trim(output.text))];
      status := if cfg.sender(sent).None? then "sent" else "failed";
    }
    SaveTurn(store, m, session, output);
    SaveHandover(store, m, output);
  }

  method HandleMessages(store: WhatsAppStore, cfg: Config, ms: seq<Message>)
    returns (sent: seq<Outbound>, journal: seq<JournalCall>, raised: seq<Handoff>, results: seq<Delivery>)
    modifies store
    ensures World(store.Current(), sent, journal, raised, results)
         == HandleAll(cfg, World(old(store.Current()), [], [], [], []), ms)
  {
    sent, journal, raised, results := [], [], [], [];
    ghost var start := World(store.Current(), [], [], [], []);
    for i := 0 to |ms|
      invariant World(store.Current(), sent, journal, raised, results) == Handle(Turns(cfg), start, ms, i)
    {
      var m := ms[i];
      ghost var w := World(store.Current(), sent, journal, raised, results);
      var duplicate := store.HasProcessedMessage(m.channelMessageId);
      if duplicate {
        var session := store.LoadSession(cfg, m.customerId);
        journal := journal + [ReceivedCall(m), ProcessedCall(m, true, "skipped", None)];
        results := results + [Delivery(m, true, None, "skipped", session)];
      } else {
        var status, session, output;
        sent, status, session, output := Respond(store, cfg, m, w, sent);
        store.MarkMessageProcessed(m.channelMessageId);
        journal := journal + [ReceivedCall(m)] + (if AsksForHandoff(output) then [HandoffCall(m, output)] else [])
                   + [ProcessedCall(m, false, status, Some(output))];
        raised := raised + (if AsksForHandoff(output) then [HandoffOf(m, output)] else []);
        results := results + [Delivery(m, false, Some(output), status, session)];
      }
      assert World(store.Current(), sent, journal, raised, results) == Receive(cfg, w, m);
    }
  }

  /** What every turn keeps, any messages keep. */
  lemma {:induction false} HandleKeeps(turn: Turn, inv: World -> bool, w: World, ms: seq<Message>, n: nat)
    requires n <= |ms| && inv(w) && forall u, i | inv(u) && 0 <= i < |ms| :: inv(turn(u, ms[i]))
    ensures inv(Handle(turn, w, ms, n))
  {
    if n > 0 { HandleKeeps(turn, inv, w, ms, n - 1); }
  }

  // ---- batches ---------------------------------------------------------------------------

  lemma {:induction false} HandlePrefix(turn: Turn, w: World, a: seq<Message>, b: seq<Message>, n: nat)
    requires n <= |a|
    ensures Handle(turn, w, a + b, n) == Handle(turn, w, a, n)
  {
    if n > 0 { HandlePrefix(turn, w, a, b, n - 1); }
  }

  lemma {:induction false} HandleAppend(turn: Turn, w: World, a: seq<Message>, b: seq<Message>, n: nat)
    requires n <= |b|
    ensures Handle(turn, w, a + b, |a| + n) == Handle(turn, Handle(turn, w, a, |a|), b, n)
  {
    if n == 0 {
      HandlePrefix(turn, w, a, b, |a|);
    } else {
      HandleAppend(turn, w, a, b, n - 1);
      assert (a + b)[|a| + n - 1] == b[n - 1];
    }
  }

  lemma HandleBoth(turn: Turn, w: World, a: seq<Message>, b: seq<Message>)
    ensures Handle(turn, w, a + b, |a + b|) == Handle(turn, Handle(turn, w, a, |a|), b, |b|)
  {
    HandleAppend(turn, w, a, b, |b|);
  }

  /** Two batches one after the other are the messages of both in order. */
  lemma BatchesConcatenate(cfg: Config, w: World, a: seq<Message>, b: seq<Message>)
    ensures HandleAll(cfg, w, a + b) == HandleAll(cfg, HandleAll(cfg, w, a), b)
  {
    HandleBoth(Turns(cfg), w, a, b);
  }

  // ---- each message is processed once ----------------------------------------------------

  /** Message `i` has been processed before: earlier in the list, or before the list. */
  ghost predicate SeenBefore(processed: set<string>, ms: seq<Message>, i: nat)
    requires i < |ms|
  {
    ms[i].channelMessageId in processed || exists j | 0 <= j < i :: ms[j].channelMessageId == ms[i].channelMessageId
  }

  /** What a turn does to the processed ids and to the response. */
  ghost predicate Processes(w: World, m: Message, r: World) {
    && r.store.processed == w.store.processed + {m.channelMessageId}
    && |r.results| == |w.results| + 1 && r.results[..|w.results|] == w.results
    && r.results[|w.results|].message == m
    && (r.results[|w.results|].duplicate <==> m.channelMessageId in w.store.processed)
  }

  lemma DuplicateProcesses(cfg: Config, w: World, m: Message)
    requires m.channelMessageId in w.store.processed
    ensures Processes(w, m, Duplicate(cfg, w, m))
  {
  }

  lemma SavedProcessed(store: Store, m: Message, session: Json, o: Output)
    ensures Saved(store, m, session, o).processed == store.processed + {m.channelMessageId}
  {
  }

  lemma AnswerProcesses(cfg: Config, w: World, m: Message)
    requires m.channelMessageId !in w.store.processed
    ensures Processes(w, m, Answer(cfg, w, m))
  {
    var answer := cfg.bridge(SessionOf(cfg, w.store, m.customerId), m);
    SavedProcessed(w.store, m, answer.0, answer.1);
  }

  lemma ReceiveProcesses(cfg: Config, w: World, m: Message)
    ensures Processes(w, m, Receive(cfg, w, m))
  {
    if m.channelMessageId in w.store.processed {
      DuplicateProcesses(cfg, w, m);
    } else {
      AnswerProcesses(cfg, w, m);
    }
  }

  ghost predicate TurnProcesses(turn: Turn) {
    forall w, m :: Processes(w, m, turn(w, m))
  }

  lemma TurnsProcess(cfg: Config)
    ensures TurnProcesses(Turns(cfg))
  {
    forall w, m ensures Processes(w, m, Turns(cfg)(w, m)) {
      ReceiveProcesses(cfg, w, m);
    }
  }

  lemma {:induction false} ProcessedAfter(turn: Turn, w: World, ms: seq<Message>, n: nat, id: string)
    requires n <= |ms| && TurnProcesses(turn)
    ensures id in Handle(turn, w, ms, n).store.processed
      <==> id in w.store.processed || exists j | 0 <= j < n :: ms[j].channelMessageId == id
  {
    if n > 0 {
      ProcessedAfter(turn, w, ms, n - 1, id);
      var before := Handle(turn, w, ms, n - 1);
      assert Processes(before, ms[n - 1], turn(before, ms[n - 1]));
    }
  }

  lemma {:induction false} ResultAt(turn: Turn, w: World, ms: seq<Message>, n: nat, i: nat)
    requires n <= |ms| && TurnProcesses(turn)
    ensures |Handle(turn, w, ms, n).results| == |w.results| + n
    ensures i < n ==>
      var r := Handle(turn, w, ms, n).results[|w.results| + i];
      r.message == ms[i] && (r.duplicate <==> SeenBefore(w.store.processed, ms, i))
  {
    if n > 0 {
      var before := Handle(turn, w, ms, n - 1);
      var after := turn(before, ms[n - 1]);
      assert Processes(before, ms[n - 1], after);
      ResultAt(turn, w, ms, n - 1, i);
      if i == n - 1 {
        ProcessedAfter(turn, w, ms, n - 1, ms[n - 1].channelMessageId);
      } else if i < n - 1 {
        assert after.results[..|before.results|][|w.results| + i] == before.results[|w.results| + i];
      }
    }
  }

  /**
   * Over any messages, repeats within and across batches included, the result of each delivery
   * says duplicate exactly when its message id was processed before; so at most one delivery of an
   * id is answered.
   */
  lemma AnsweredAtMostOnce(cfg: Config, w: World, ms: seq<Message>, i: nat, j: nat)
    requires i < j < |ms|
    ensures var results := HandleAll(cfg, w, ms).results;
      && |results| == |w.results| + |ms|
      && (results[|w.results| + i].duplicate <==> SeenBefore(w.store.processed, ms, i))
      && (ms[i].channelMessageId == ms[j].channelMessageId ==> results[|w.results| + j].duplicate)
  {
    TurnsProcess(cfg);
    ResultAt(Turns(cfg), w, ms, |ms|, i);
    ResultAt(Turns(cfg), w, ms, |ms|, j);
  }

  // ---- redelivery is harmless ------------------------------------------------------------

  /** The messages that are not repeats, in order. */
  ghost function FirstDeliveries(processed: set<string>, ms: seq<Message>, n: nat): seq<Message>
    requires n <= |ms|
  {
    if n == 0 then []
    else FirstDeliveries(processed, ms, n - 1) + if SeenBefore(processed, ms, n - 1) then [] else [ms[n - 1]]
  }

  /** The same store, the same messages sent, the same handoffs raised. */
  ghost predicate SameEffects(u: World, v: World) {
    u.store == v.store && u.sent == v.sent && u.raised == v.raised
  }

  ghost predicate KeepsAgreement(turn: Turn, u: World, v: World, m: Message) {
    SameEffects(u, v) ==> SameEffects(turn(u, m), turn(v, m))
  }

  ghost predicate IgnoresRepeat(turn: Turn, w: World, m: Message) {
    m.channelMessageId in w.store.processed ==> SameEffects(turn(w, m), w)
  }

  ghost predicate EffectsFollow(turn: Turn) {
    && (forall u, v, m :: KeepsAgreement(turn, u, v, m))
    && (forall w, m :: IgnoresRepeat(turn, w, m))
  }

  lemma TurnsFollow(cfg: Config)
    ensures EffectsFollow(Turns(cfg))
  {
    forall u, v, m ensures KeepsAgreement(Turns(cfg), u, v, m) {
      if SameEffects(u, v) && m.channelMessageId !in u.store.processed { AnswersAlike(cfg, u, v, m); }
    }
  }

  lemma AnswersAlike(cfg: Config, u: World, v: World, m: Message)
    requires SameEffects(u, v)
    ensures SameEffects(Answer(cfg, u, m), Answer(cfg, v, m))
  {
  }

  lemma OneMoreDelivery(turn: Turn, u: World, v: World, w: World, firsts: seq<Message>, m: Message, seen: bool)
    requires EffectsFollow(turn) && SameEffects(u, v) && v == Handle(turn, w, firsts, |firsts|)
    requires seen <==> m.channelMessageId in u.store.processed
    ensures var next := firsts + if seen then [] else [m]; SameEffects(turn(u, m), Handle(turn, w, next, |next|))
  {
    if seen {
      assert IgnoresRepeat(turn, u, m);
      assert firsts + [] == firsts;
    } else {
      HandlePrefix(turn, w, firsts, [m], |firsts|);
      assert KeepsAgreement(turn, u, v, m);
      assert Handle(turn, w, firsts + [m], |firsts| + 1) == turn(v, m);
    }
  }

  lemma {:induction false} FirstDeliveriesSuffice(turn: Turn, w: World, ms: seq<Message>, n: nat)
    requires n <= |ms| && TurnProcesses(turn) && EffectsFollow(turn)
    ensures var firsts := FirstDeliveries(w.store.processed, ms, n);
      SameEffects(Handle(turn, w, ms, n), Handle(turn, w, firsts, |firsts|))
  {
    if n > 0 {
      FirstDeliveriesSuffice(turn, w, ms, n - 1);
      var m, firsts := ms[n - 1], FirstDeliveries(w.store.processed, ms, n - 1);
      ProcessedAfter(turn, w, ms, n - 1, m.channelMessageId);
      OneMoreDelivery(turn, Handle(turn, w, ms, n - 1), Handle(turn, w, firsts, |firsts|), w, firsts, m,
                      SeenBefore(w.store.processed, ms, n - 1));
    }
  }

  /** Whatever is delivered again, the store, the replies sent and the handoffs are those of the first deliveries alone. */
  lemma RedeliveryIsHarmless(cfg: Config, w: World, ms: seq<Message>)
    ensures SameEffects(HandleAll(cfg, w, ms), HandleAll(cfg, w, FirstDeliveries(w.store.processed, ms, |ms|)))
  {
    TurnsProcess(cfg);
    TurnsFollow(cfg);
    FirstDeliveriesSuffice(Turns(cfg), w, ms, |ms|);
  }

  // ---- the journal -----------------------------------------------------------------------

  function OfType(calls: seq<JournalCall>, typ: JournalHash.EventType): seq<JournalCall> {
    if calls == [] then []
    else (if calls[0].typ == typ then [calls[0]] else []) + OfType(calls[1..], typ)
  }

  lemma {:induction false} OfTypeAppend(a: seq<JournalCall>, b: seq<JournalCall>, typ: JournalHash.EventType)
    ensures OfType(a + b, typ) == OfType(a, typ) + OfType(b, typ)
  {
    if a == [] {
      assert a + b == b;
    } else {
      assert (a + b)[1..] == a[1..] + b;
      OfTypeAppend(a[1..], b, typ);
    }
  }

  function ReceivedOf(rs: seq<Delivery>): (r: seq<JournalCall>)
    ensures |r| == |rs| && forall i | 0 <= i < |rs| :: r[i] == ReceivedCall(rs[i].message)
  {
    if rs == [] then [] else ReceivedOf(rs[..|rs| - 1]) + [ReceivedCall(rs[|rs| - 1].message)]
  }

  function ProcessedOf(rs: seq<Delivery>): (r: seq<JournalCall>)
    ensures |r| == |rs|
    ensures forall i | 0 <= i < |rs| ::
      r[i] == ProcessedCall(rs[i].message, rs[i].duplicate, rs[i].deliveryStatus, rs[i].output)
  {
    if rs == [] then []
    else
      var last := rs[|rs| - 1];
      ProcessedOf(rs[..|rs| - 1]) + [ProcessedCall(last.message, last.duplicate, last.deliveryStatus, last.output)]
  }

  /** One received and one processed call for each result, in order. */
  ghost predicate JournalMatches(w: World) {
    && OfType(w.journal, JournalHash.MessageReceived) == ReceivedOf(w.results)
    && OfType(w.journal, JournalHash.MessageProcessed) == ProcessedOf(w.results)
  }

  lemma JournalGrows(w: World, calls: seq<JournalCall>, result: Delivery, next: World)
    requires JournalMatches(w) && next.journal == w.journal + calls && next.results == w.results + [result]
    requires OfType(calls, JournalHash.MessageReceived) == [ReceivedCall(result.message)]
    requires OfType(calls, JournalHash.MessageProcessed)
      == [ProcessedCall(result.message, result.duplicate, result.deliveryStatus, result.output)]
    ensures JournalMatches(next)
  {
    OfTypeAppend(w.journal, calls, JournalHash.MessageReceived);
    OfTypeAppend(w.journal, calls, JournalHash.MessageProcessed);
    assert next.results[..|next.results| - 1] == w.results;
  }

  lemma OfTypeOne(c: JournalCall, typ: JournalHash.EventType)
    ensures OfType([c], typ) == if c.typ == typ then [c] else []
  {
    assert [c][1..] == [];
  }

  lemma OfTypeThree(a: JournalCall, b: seq<JournalCall>, c: JournalCall, typ: JournalHash.EventType)
    requires forall i | 0 <= i < |b| :: b[i].typ != typ
    requires |b| <= 1
    ensures OfType([a] + b + [c], typ) == (if a.typ == typ then [a] else []) + (if c.typ == typ then [c] else [])
  {
    OfTypeAppend([a] + b, [c], typ);
    OfTypeAppend([a], b, typ);
    OfTypeOne(a, typ);
    OfTypeOne(c, typ);
    if |b| == 1 {
      assert b == [b[0]];
      OfTypeOne(b[0], typ);
    }
  }

  lemma JournalGrowsBy(w: World, first: JournalCall, middle: seq<JournalCall>, last: JournalCall, result: Delivery, next: World)
    requires JournalMatches(w) && next.results == w.results + [result]
    requires next.journal == w.journal + ([first] + middle + [last])
    requires first == ReceivedCall(result.message)
    requires last == ProcessedCall(result.message, result.duplicate, result.deliveryStatus, result.output)
    requires |middle| <= 1 && forall i | 0 <= i < |middle| :: middle[i].typ == JournalHash.Handoff
    ensures JournalMatches(next)
  {
    OfTypeThree(first, middle, last, JournalHash.MessageReceived);
    OfTypeThree(first, middle, last, JournalHash.MessageProcessed);
    JournalGrows(w, [first] + middle + [last], result, next);
  }

  lemma DuplicateJournals(cfg: Config, w: World, m: Message)
    requires JournalMatches(w)
    ensures JournalMatches(Duplicate(cfg, w, m))
  {
    var next := Duplicate(cfg, w, m);
    var first, last := ReceivedCall(m), ProcessedCall(m, true, "skipped", None);
    assert [first] + [] + [last] == [first, last];
    JournalGrowsBy(w, first, [], last, next.results[|w.results|], next);
  }

  lemma Regroup(calls: seq<JournalCall>, first: JournalCall, middle: seq<JournalCall>, last: JournalCall)
    ensures calls + [first] + middle + [last] == calls + ([first] + middle + [last])
  {
  }

  lemma AnswerJournals(cfg: Config, w: World, m: Message)
    requires JournalMatches(w)
    ensures JournalMatches(Answer(cfg, w, m))
  {
    var next := Answer(cfg, w, m);
    var (session, o) := cfg.bridge(SessionOf(cfg, w.store, m.customerId), m);
    var (sent, status) := Send(cfg, w, m, o);
    var middle := if AsksForHandoff(o) then [HandoffCall(m, o)] else [];
    var first, last := ReceivedCall(m), ProcessedCall(m, false, status, Some(o));
    assert next.journal == w.journal + [first] + middle + [last];
    Regroup(w.journal, first, middle, last);
    JournalGrowsBy(w, first, middle, last, Delivery(m, false, Some(o), status, session), next);
  }

  lemma ReceiveJournals(cfg: Config, w: World, m: Message)
    requires JournalMatches(w)
    ensures JournalMatches(Receive(cfg, w, m))
  {
    if m.channelMessageId in w.store.processed {
      DuplicateJournals(cfg, w, m);
    } else {
      AnswerJournals(cfg, w, m);
    }
  }

  /** Every delivery, duplicate or not, journals exactly one received and one processed event, in order. */
  lemma EveryDeliveryIsJournaled(cfg: Config, w: World, ms: seq<Message>)
    requires JournalMatches(w)
    ensures JournalMatches(HandleAll(cfg, w, ms))
  {
    forall u, i | JournalMatches(u) && 0 <= i < |ms| ensures JournalMatches(Turns(cfg)(u, ms[i])) {
      ReceiveJournals(cfg, u, ms[i]);
    }
    HandleKeeps(Turns(cfg), u => JournalMatches(u), w, ms, |ms|);
  }

  // ---- sessions --------------------------------------------------------------------------

  /** The session of a customer after the bridge has seen the first deliveries of that customer, in order. */
  ghost function Conversation(cfg: Config, start: Json, processed: set<string>, ms: seq<Message>, n: nat, customerId: string): Json
    requires n <= |ms|
  {
    if n == 0 then start
    else
      var before := Conversation(cfg, start, processed, ms, n - 1, customerId);
      if ms[n - 1].customerId != customerId || SeenBefore(processed, ms, n - 1) then before else cfg.bridge(before, ms[n - 1]).0
  }

  /** What a turn does to the session of a customer. */
  ghost predicate MovesSession(cfg: Config, w: World, m: Message, next: World, customerId: string) {
    SessionOf(cfg, next.store, customerId)
      == if m.customerId != customerId || m.channelMessageId in w.store.processed then SessionOf(cfg, w.store, customerId)
         else cfg.bridge(SessionOf(cfg, w.store, customerId), m).0
  }

  lemma ReceiveMoves(cfg: Config, w: World, m: Message, customerId: string)
    ensures MovesSession(cfg, w, m, Receive(cfg, w, m), customerId)
  {
  }

  lemma {:induction false} SessionFollows(cfg: Config, turn: Turn, w: World, ms: seq<Message>, n: nat, customerId: string)
    requires n <= |ms| && TurnProcesses(turn) && forall u, m :: MovesSession(cfg, u, m, turn(u, m), customerId)
    ensures SessionOf(cfg, Handle(turn, w, ms, n).store, customerId)
         == Conversation(cfg, SessionOf(cfg, w.store, customerId), w.store.processed, ms, n, customerId)
  {
    if n > 0 {
      var before := Handle(turn, w, ms, n - 1);
      SessionFollows(cfg, turn, w, ms, n - 1, customerId);
      ProcessedAfter(turn, w, ms, n - 1, ms[n - 1].channelMessageId);
      assert MovesSession(cfg, before, ms[n - 1], turn(before, ms[n - 1]), customerId);
    }
  }

  /** The stored session of every customer is their conversation: each message once, in order, nobody else's. */
  lemma SessionIsConversation(cfg: Config, w: World, ms: seq<Message>, customerId: string)
    ensures SessionOf(cfg, HandleAll(cfg, w, ms).store, customerId)
         == Conversation(cfg, SessionOf(cfg, w.store, customerId), w.store.processed, ms, |ms|, customerId)
  {
    TurnsProcess(cfg);
    forall u, m ensures MovesSession(cfg, u, m, Turns(cfg)(u, m), customerId) { ReceiveMoves(cfg, u, m, customerId); }
    SessionFollows(cfg, Turns(cfg), w, ms, |ms|, customerId);
  }
}
