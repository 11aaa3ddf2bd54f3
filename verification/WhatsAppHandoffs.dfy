/**
 * The handoffs of the webhook (src/http/handlers/whatsapp-webhook-async.ts): which messages open
 * one, when two of them share an id, and which records the store still holds at the end.
 */
module WhatsAppHandoffs {
  import opened Common
  import opened JsStrings
  import opened WhatsAppWebhook
  import opened Json

  // ---- handoff ids -----------------------------------------------------------------------

  function HandoffIdOf(customerId: string, messageId: string): string {
    "handoff:" + customerId + ":" + messageId
  }

  /** The message id that makes up for the shorter customer id, when a colon follows it in the longer one. */
  predicate MakesUp(c: string, x: string, d: string, y: string) {
    c + ":" <= d && x == d[|c| + 1..] + ":" + y
  }

  lemma MakesUpShares(c: string, x: string, d: string, y: string)
    requires MakesUp(c, x, d, y)
    ensures HandoffIdOf(c, x) == HandoffIdOf(d, y)
  {
    assert d == c + ":" + d[|c| + 1..];
    calc {
      HandoffIdOf(d, y);
      "handoff:" + (c + ":" + d[|c| + 1..]) + ":" + y;
      "handoff:" + c + ":" + (d[|c| + 1..] + ":" + y);
    }
  }

  lemma JoinedShares(c: string, x: string, d: string, y: string)
    requires c + ":" + x == d + ":" + y && |c| < |d|
    ensures MakesUp(c, x, d, y)
  {
    var s := c + ":" + x;
    assert s[..|c| + 1] == c + ":" && (d + ":" + y)[..|c| + 1] == d[..|c| + 1];
    assert x == s[|c| + 1..] && (d + ":" + y)[|c| + 1..] == d[|c| + 1..] + ":" + y;
  }

  lemma JoinedSame(c: string, x: string, d: string, y: string)
    requires c + ":" + x == d + ":" + y && |c| == |d|
    ensures c == d && x == y
  {
    assert c == (c + ":" + x)[..|c|] && d == (d + ":" + y)[..|d|];
    assert x == (c + ":" + x)[|c| + 1..] && y == (d + ":" + y)[|d| + 1..];
  }

  /**
   * Two pairs share a handoff id exactly when they are the same pair, or one customer id goes on
   * from the other after a colon and the message id of the other makes up for the rest.
   */
  lemma HandoffIdSharedIff(c: string, x: string, d: string, y: string)
    ensures HandoffIdOf(c, x) == HandoffIdOf(d, y) <==> ((c == d && x == y) || MakesUp(c, x, d, y) || MakesUp(d, y, c, x))
  {
    if HandoffIdOf(c, x) == HandoffIdOf(d, y) {
      assert HandoffIdOf(c, x)[8..] == c + ":" + x && HandoffIdOf(d, y)[8..] == d + ":" + y;
      if |c| < |d| {
        JoinedShares(c, x, d, y);
      } else if |d| < |c| {
        JoinedShares(d, y, c, x);
      } else {
        JoinedSame(c, x, d, y);
      }
    }
    if MakesUp(c, x, d, y) { MakesUpShares(c, x, d, y); }
    if MakesUp(d, y, c, x) { MakesUpShares(d, y, c, x); }
  }

  // ---- customers that can share an id ----------------------------------------------------

  /** A customer id that goes on from another after a colon, and not with a space. */
  predicate Starts(c: string, d: string) {
    c + ":" <= d && (|d| == |c| + 1 || !IsSpace(d[|c| + 1]))
  }

  /** The handoff ids of the two customers never meet. */
  predicate Apart(c: string, d: string) {
    !Starts(c, d) && !Starts(d, c)
  }

  /** Two messages, of these customers, that are not the same and share a handoff id. */
  ghost predicate Share(a: Message, b: Message, c: string, d: string) {
    && Normal(a) && Normal(b) && a.customerId == c && b.customerId == d && HandoffId(a) == HandoffId(b)
    && (c != d || a.channelMessageId != b.channelMessageId)
  }

  lemma MakesUpStarts(c: string, x: string, d: string, y: string)
    requires MakesUp(c, x, d, y) && Trimmed(x)
    ensures Starts(c, d)
  {
    if |d| > |c| + 1 { assert x[0] == d[|c| + 1]; }
  }

  lemma SharersAreNotApart(a: Message, b: Message, c: string, d: string)
    requires Share(a, b, c, d)
    ensures !Apart(c, d)
  {
    HandoffIdSharedIff(c, a.channelMessageId, d, b.channelMessageId);
    if MakesUp(c, a.channelMessageId, d, b.channelMessageId) {
      MakesUpStarts(c, a.channelMessageId, d, b.channelMessageId);
    } else {
      MakesUpStarts(d, b.channelMessageId, c, a.channelMessageId);
    }
  }

  const TIME := "2026-01-01T00:00:00.000Z"

  lemma OverlapMessages(c: string, d: string) returns (a: Message, b: Message)
    requires NormalText(c) && NormalText(d) && Starts(c, d)
    ensures Share(a, b, c, d) && a.channelMessageId != b.channelMessageId
  {
    a, b := Message(c, d[|c| + 1..] + ":" + "m", "hello", TIME), Message(d, "m", "hello", TIME);
    MakesUpShares(c, a.channelMessageId, d, b.channelMessageId);
    var x := a.channelMessageId;
    assert x[0] == (if |d| == |c| + 1 then ':' else d[|c| + 1]) && x[|x| - 1] == 'm' && |x| >= 2;
  }

  /**
   * Messages of two customers can share a handoff id exactly when both ids are ones a message can
   * have and one of them, followed by a colon, starts the other, which does not go on with a space.
   */
  lemma CustomersShareIff(c: string, d: string)
    ensures (exists a, b :: Share(a, b, c, d)) <==> (NormalText(c) && NormalText(d) && !Apart(c, d))
  {
    forall a, b | Share(a, b, c, d) ensures !Apart(c, d) { SharersAreNotApart(a, b, c, d); }
    if NormalText(c) && NormalText(d) && !Apart(c, d) {
      if Starts(c, d) {
        var a, b := OverlapMessages(c, d);
      } else {
        var b, a := OverlapMessages(d, c);
        assert Share(a, b, c, d);
      }
    }
  }

  ghost predicate ColonFree(text: string) {
    ':' !in text
  }

  lemma ColonFreeNeedsNoMakingUp(c: string, x: string, d: string, y: string)
    requires ColonFree(d)
    ensures !MakesUp(c, x, d, y)
  {
    assert (c + ":")[|c|] == ':';
  }

  /** The id of a handoff tells customer and message apart, when customer ids have no colon. */
  lemma HandoffIdTellsApart(a: Message, b: Message)
    requires ColonFree(a.customerId) && ColonFree(b.customerId) && HandoffId(a) == HandoffId(b)
    ensures a.customerId == b.customerId && a.channelMessageId == b.channelMessageId
  {
    HandoffIdSharedIff(a.customerId, a.channelMessageId, b.customerId, b.channelMessageId);
    ColonFreeNeedsNoMakingUp(a.customerId, a.channelMessageId, b.customerId, b.channelMessageId);
    ColonFreeNeedsNoMakingUp(b.customerId, b.channelMessageId, a.customerId, a.channelMessageId);
  }

  // ---- one handoff a message -------------------------------------------------------------

  /** The handoffs raised are of distinct processed messages, each under the id of its message. */
  ghost predicate OnePerMessage(w: World) {
    && (forall a | 0 <= a < |w.raised| ::
      && w.raised[a].lastInboundMessageId in w.store.processed
      && w.raised[a].handoffId == HandoffIdOf(w.raised[a].customerId, w.raised[a].lastInboundMessageId))
    && (forall a, b | 0 <= a < b < |w.raised| :: w.raised[a].lastInboundMessageId != w.raised[b].lastInboundMessageId)
  }

  /** A handoff that no later one shares its id with is in the store as it was raised. */
  ghost predicate LastWins(w: World) {
    forall a | 0 <= a < |w.raised| && IsLast(w.raised, a) :: Kept(w, a)
  }

  ghost predicate IsLast(raised: seq<Handoff>, a: nat)
    requires a < |raised|
  {
    forall b | a < b < |raised| :: raised[b].handoffId != raised[a].handoffId
  }

  /** The store holds handoff `a` as it was raised. */
  predicate Kept(w: World, a: nat)
    requires a < |w.raised|
  {
    w.raised[a].handoffId in w.store.handoffs && w.store.handoffs[w.raised[a].handoffId] == w.raised[a]
  }

  /** What a turn does to the handoffs: nothing, or it opens one for a message not processed before. */
  ghost predicate OpensAtMostOne(w: World, m: Message, next: World) {
    && next.store.processed == w.store.processed + {m.channelMessageId}
    && ((next.raised == w.raised && next.store.handoffs == w.store.handoffs)
        || (m.channelMessageId !in w.store.processed && exists o :: Opens(w, HandoffOf(m, o), next)))
  }

  ghost predicate Opens(w: World, h: Handoff, next: World) {
    next.raised == w.raised + [h] && next.store.handoffs == w.store.handoffs[h.handoffId := h]
  }

  lemma SavedHandoffs(store: Store, m: Message, session: Json, o: Output)
    ensures Saved(store, m, session, o).handoffs
         == if AsksForHandoff(o) then store.handoffs[HandoffId(m) := HandoffOf(m, o)] else store.handoffs
    ensures Saved(store, m, session, o).processed == store.processed + {m.channelMessageId}
  {
  }

  /** What the agent answers to a message. */
  function OutputFor(cfg: Config, w: World, m: Message): Output {
    cfg.bridge(SessionOf(cfg, w.store, m.customerId), m).1
  }

  lemma AnswerOpens(cfg: Config, w: World, m: Message)
    ensures AsksForHandoff(OutputFor(cfg, w, m)) ==> Opens(w, HandoffOf(m, OutputFor(cfg, w, m)), Answer(cfg, w, m))
    ensures !AsksForHandoff(OutputFor(cfg, w, m)) ==>
      Answer(cfg, w, m).raised == w.raised && Answer(cfg, w, m).store.handoffs == w.store.handoffs
    ensures Answer(cfg, w, m).store.processed == w.store.processed + {m.channelMessageId}
  {
    var (session, o) := cfg.bridge(SessionOf(cfg, w.store, m.customerId), m);
    SavedHandoffs(w.store, m, session, o);
  }

  lemma ReceiveOpens(cfg: Config, w: World, m: Message)
    ensures OpensAtMostOne(w, m, Receive(cfg, w, m))
  {
    if m.channelMessageId !in w.store.processed { AnswerOpens(cfg, w, m); }
  }

  lemma OpenedIsLast(w: World, h: Handoff, next: World, a: nat)
    requires Opens(w, h, next) && LastWins(w) && a < |next.raised| && IsLast(next.raised, a)
    ensures Kept(next, a)
  {
    if a < |w.raised| {
      assert next.raised[|w.raised|] == h && next.raised[a] == w.raised[a];
      forall b | a < b < |w.raised| ensures w.raised[b].handoffId != w.raised[a].handoffId {
        assert next.raised[b] == w.raised[b];
      }
      assert IsLast(w.raised, a) && Kept(w, a);
    }
  }

  lemma OpensKeeps(w: World, m: Message, next: World)
    requires OpensAtMostOne(w, m, next) && OnePerMessage(w) && LastWins(w)
    ensures OnePerMessage(next) && LastWins(next)
  {
    if next.raised != w.raised {
      var o :| Opens(w, HandoffOf(m, o), next);
      forall a | 0 <= a < |next.raised| && IsLast(next.raised, a) ensures Kept(next, a) {
        OpenedIsLast(w, HandoffOf(m, o), next, a);
      }
    } else {
      forall a | 0 <= a < |next.raised| && IsLast(next.raised, a) ensures Kept(next, a) {
        assert IsLast(w.raised, a) && Kept(w, a);
      }
    }
  }

  /** Over any messages, a message opens at most one handoff, and of those with one id the store holds the last. */
  lemma OneHandoffPerMessage(cfg: Config, w: World, ms: seq<Message>)
    requires OnePerMessage(w) && LastWins(w)
    ensures OnePerMessage(HandleAll(cfg, w, ms)) && LastWins(HandleAll(cfg, w, ms))
  {
    forall u, i | OnePerMessage(u) && LastWins(u) && 0 <= i < |ms|
      ensures OnePerMessage(Turns(cfg)(u, ms[i])) && LastWins(Turns(cfg)(u, ms[i]))
    {
      ReceiveOpens(cfg, u, ms[i]);
      OpensKeeps(u, ms[i], Receive(cfg, u, ms[i]));
    }
    HandleKeeps(Turns(cfg), u => OnePerMessage(u) && LastWins(u), w, ms, |ms|);
  }

  // ---- which handoffs are kept -----------------------------------------------------------

  lemma {:induction false} LastOf(raised: seq<Handoff>, a: nat) returns (b: nat)
    requires a < |raised|
    ensures a <= b < |raised| && raised[b].handoffId == raised[a].handoffId && IsLast(raised, b)
    decreases |raised| - a
  {
    if IsLast(raised, a) {
      b := a;
    } else {
      var c :| a < c < |raised| && raised[c].handoffId == raised[a].handoffId;
      b := LastOf(raised, c);
    }
  }

  /** A handoff is still in the store exactly when no later one was opened under its id. */
  lemma KeptIffLast(w: World, a: nat)
    requires OnePerMessage(w) && LastWins(w) && a < |w.raised|
    ensures Kept(w, a) <==> IsLast(w.raised, a)
  {
    var b := LastOf(w.raised, a);
    assert Kept(w, b);
  }

  lemma HandoffKeptIff(cfg: Config, w: World, ms: seq<Message>, a: nat)
    requires OnePerMessage(w) && LastWins(w) && a < |HandleAll(cfg, w, ms).raised|
    ensures Kept(HandleAll(cfg, w, ms), a) <==> IsLast(HandleAll(cfg, w, ms).raised, a)
  {
    OneHandoffPerMessage(cfg, w, ms);
    KeptIffLast(HandleAll(cfg, w, ms), a);
  }

  /** Two messages that share a handoff id and both ask for a human leave only the later record. */
  lemma LaterHandoffReplaces(cfg: Config, w: World, a: Message, b: Message)
    requires a.channelMessageId != b.channelMessageId && HandoffId(a) == HandoffId(b)
    requires a.channelMessageId !in w.store.processed && b.channelMessageId !in w.store.processed
    requires AsksForHandoff(OutputFor(cfg, w, a)) && AsksForHandoff(OutputFor(cfg, Receive(cfg, w, a), b))
    ensures
      var first, second := HandoffOf(a, OutputFor(cfg, w, a)), HandoffOf(b, OutputFor(cfg, Receive(cfg, w, a), b));
      var next := HandleAll(cfg, w, [a, b]);
      && first != second && next.raised == w.raised + [first, second]
      && next.store.handoffs == w.store.handoffs[HandoffId(b) := second]
  {
    AskingOpens(cfg, w, a);
    AskingOpens(cfg, Receive(cfg, w, a), b);
    OpenedTwice(Turns(cfg), w, a, b, HandoffOf(a, OutputFor(cfg, w, a)), HandoffOf(b, OutputFor(cfg, Receive(cfg, w, a), b)));
  }

  lemma AskingOpens(cfg: Config, w: World, m: Message)
    requires m.channelMessageId !in w.store.processed && AsksForHandoff(OutputFor(cfg, w, m))
    ensures Opens(w, HandoffOf(m, OutputFor(cfg, w, m)), Receive(cfg, w, m))
    ensures Receive(cfg, w, m).store.processed == w.store.processed + {m.channelMessageId}
  {
    AnswerOpens(cfg, w, m);
  }

  lemma OpenedTwice(turn: Turn, w: World, a: Message, b: Message, h: Handoff, g: Handoff)
    requires Opens(w, h, turn(w, a)) && Opens(turn(w, a), g, turn(turn(w, a), b)) && h.handoffId == g.handoffId
    ensures
      var next := Handle(turn, w, [a, b], 2);
      next.raised == w.raised + [h, g] && next.store.handoffs == w.store.handoffs[g.handoffId := g]
  {
    assert Handle(turn, w, [a, b], 1) == turn(Handle(turn, w, [a, b], 0), a);
  }

  // ---- customers whose handoffs are safe -------------------------------------------------

  const START := World(Store(map[], {}, map[], map[], map[]), [], [], [], [])

  /** No two customers of the set, among those a message can come from, can share a handoff id. */
  ghost predicate PairwiseApart(cs: set<string>) {
    forall c, d | c in cs && d in cs && NormalText(c) && NormalText(d) :: Apart(c, d)
  }

  ghost predicate From(cs: set<string>, ms: seq<Message>) {
    forall i | 0 <= i < |ms| :: Normal(ms[i]) && ms[i].customerId in cs
  }

  ghost predicate RaisedFrom(cs: set<string>, w: World) {
    forall a | 0 <= a < |w.raised| ::
      w.raised[a].customerId in cs && NormalText(w.raised[a].customerId) && NormalText(w.raised[a].lastInboundMessageId)
  }

  ghost predicate AllKept(w: World) {
    forall a | 0 <= a < |w.raised| :: Kept(w, a)
  }

  lemma OpenedFrom(w: World, m: Message, next: World, cs: set<string>)
    requires RaisedFrom(cs, w) && OpensAtMostOne(w, m, next) && Normal(m) && m.customerId in cs
    ensures RaisedFrom(cs, next)
  {
  }

  lemma RaisedStaysFrom(cfg: Config, w: World, ms: seq<Message>, cs: set<string>)
    requires From(cs, ms) && RaisedFrom(cs, w)
    ensures RaisedFrom(cs, HandleAll(cfg, w, ms))
  {
    forall u, i | RaisedFrom(cs, u) && 0 <= i < |ms| ensures RaisedFrom(cs, Turns(cfg)(u, ms[i])) {
      ReceiveOpens(cfg, u, ms[i]);
      OpenedFrom(u, ms[i], Receive(cfg, u, ms[i]), cs);
    }
    HandleKeeps(Turns(cfg), u => RaisedFrom(cs, u), w, ms, |ms|);
  }

  lemma ApartDiffer(c: string, x: string, d: string, y: string)
    requires Apart(c, d) && Trimmed(x) && Trimmed(y) && x != y
    ensures HandoffIdOf(c, x) != HandoffIdOf(d, y)
  {
    HandoffIdSharedIff(c, x, d, y);
    if MakesUp(c, x, d, y) { MakesUpStarts(c, x, d, y); }
    if MakesUp(d, y, c, x) { MakesUpStarts(d, y, c, x); }
  }

  lemma ApartIsLast(w: World, cs: set<string>, a: nat)
    requires OnePerMessage(w) && RaisedFrom(cs, w) && PairwiseApart(cs) && a < |w.raised|
    ensures IsLast(w.raised, a)
  {
    forall b | a < b < |w.raised| ensures w.raised[b].handoffId != w.raised[a].handoffId {
      ApartDiffer(w.raised[a].customerId, w.raised[a].lastInboundMessageId,
                  w.raised[b].customerId, w.raised[b].lastInboundMessageId);
    }
  }

  /** While no customer id goes on from another after a colon, no handoff replaces another. */
  lemma HandoffsAreKept(cfg: Config, w: World, ms: seq<Message>, cs: set<string>)
    requires OnePerMessage(w) && LastWins(w) && RaisedFrom(cs, w) && From(cs, ms) && PairwiseApart(cs)
    ensures AllKept(HandleAll(cfg, w, ms))
  {
    OneHandoffPerMessage(cfg, w, ms);
    RaisedStaysFrom(cfg, w, ms, cs);
    forall a | 0 <= a < |HandleAll(cfg, w, ms).raised| ensures Kept(HandleAll(cfg, w, ms), a) {
      ApartIsLast(HandleAll(cfg, w, ms), cs, a);
    }
  }

  const ASKING := Output("", "handoff-requested", "request-human-handoff", "handoff-requested", "handoff", true, "", "")

  ghost predicate AlwaysAsks(cfg: Config) {
    forall w, m :: AsksForHandoff(OutputFor(cfg, w, m))
  }

  lemma SomeAgentAlwaysAsks() returns (cfg: Config)
    ensures AlwaysAsks(cfg)
  {
    cfg := Config((session: Json, m: Message) => (session, ASKING), c => Null, false, sent => None);
  }

  lemma OverlapLoses(cfg: Config, a: Message, b: Message)
    requires AlwaysAsks(cfg) && a.channelMessageId != b.channelMessageId && HandoffId(a) == HandoffId(b)
    ensures !AllKept(HandleAll(cfg, START, [a, b]))
  {
    LaterHandoffReplaces(cfg, START, a, b);
    LostFirst(HandleAll(cfg, START, [a, b]), HandoffOf(a, OutputFor(cfg, START, a)),
              HandoffOf(b, OutputFor(cfg, Receive(cfg, START, a), b)));
  }

  lemma LostFirst(w: World, h: Handoff, g: Handoff)
    requires |w.raised| == 2 && w.raised[0] == h != g && h.handoffId == g.handoffId
    requires g.handoffId in w.store.handoffs && w.store.handoffs[g.handoffId] == g
    ensures !AllKept(w)
  {
    assert !Kept(w, 0);
  }

  /** Customer `a:b` and customer `a`: one id for two handoffs, and an agent with which the first is lost. */
  lemma HandoffIdsCanCollide() returns (cfg: Config)
    ensures
      var a, b := Message("a:b", "c", "hello", TIME), Message("a", "b:c", "hello", TIME);
      Normal(a) && Normal(b) && HandoffId(a) == HandoffId(b) && !AllKept(HandleAll(cfg, START, [a, b]))
  {
    var a, b := Message("a:b", "c", "hello", TIME), Message("a", "b:c", "hello", TIME);
    assert "handoff:" + "a:b" + ":" + "c" == "handoff:a:b:c" == "handoff:" + "a" + ":" + "b:c";
    cfg := SomeAgentAlwaysAsks();
    OverlapLoses(cfg, a, b);
  }

  /**
   * Exactly for the sets of customers that are pairwise apart, every run of messages as they are
   * normalized, with every agent, keeps every handoff.
   */
  lemma SafeCustomersIff(cs: set<string>)
    ensures (forall cfg: Config, ms: seq<Message> | From(cs, ms) :: AllKept(HandleAll(cfg, START, ms))) <==> PairwiseApart(cs)
  {
    if PairwiseApart(cs) {
      forall cfg: Config, ms: seq<Message> | From(cs, ms) ensures AllKept(HandleAll(cfg, START, ms)) {
        HandoffsAreKept(cfg, START, ms, cs);
      }
    } else {
      var c, d :| c in cs && d in cs && NormalText(c) && NormalText(d) && !Apart(c, d);
      var cfg := SomeAgentAlwaysAsks();
      var a, b := OverlapMessages(if Starts(c, d) then c else d, if Starts(c, d) then d else c);
      OverlapLoses(cfg, a, b);
      assert From(cs, [a, b]);
    }
  }
}
