/** Journal events and the hash chain over them (src/journal/types.ts, src/journal/hash.ts). */
module JournalHash {
  import opened Common
  import opened JsStrings
  import opened Records
  import opened Json
  import opened JsonParser

  datatype EventType =
    | Plan | ToolCall | ToolResult | LlmResponse | MessageReceived
    | MessageProcessed | Handoff | Failure | Convergence

  function TypeName(t: EventType): string {
    match t
    case Plan => "plan"
    case ToolCall => "tool_call"
    case ToolResult => "tool_result"
    case LlmResponse => "llm_response"
    case MessageReceived => "message_received"
    case MessageProcessed => "message_processed"
    case Handoff => "handoff"
    case Failure => "error"
    case Convergence => "convergence"
  }

  datatype StoredEvent = StoredEvent(
    eventId: string,
    sessionId: string,
    sequence: int,
    timestamp: string,
    typ: EventType,
    payload: Record,
    hashPrev: Option<string>,
    hashSelf: string,
    metadata: Option<Record>)

  function OptionalText(o: Option<string>): Json {
    if o.Some? then Str(o.value) else Null
  }

  function OptionalRecord(o: Option<Record>): Json {
    if o.Some? then Obj(o.value) else Null
  }

  function Fields(e: StoredEvent): (fs: seq<Entry<Json>>)
    ensures |fs| == 8
  {
    [Entry("eventId", Str(e.eventId)),
     Entry("sessionId", Str(e.sessionId)),
     Entry("sequence", Num(e.sequence)),
     Entry("timestamp", Str(e.timestamp)),
     Entry("type", Str(TypeName(e.typ))),
     Entry("payload", Obj(e.payload)),
     Entry("hashPrev", OptionalText(e.hashPrev)),
     Entry("metadata", OptionalRecord(e.metadata))]
  }

  /** The record that is hashed: every field but `hashSelf`, absent metadata as null. */
  function Content(e: StoredEvent): Json {
    Obj(Fields(e))
  }

  function HashedText(e: StoredEvent): string {
    Canonical(Content(e))
  }

  type Digest = StoredEvent -> string

  /** `hashJournalEventContent`, for a hash function `h`. */
  function ContentHash(h: string -> string): Digest {
    e => h(HashedText(e))
  }

  /** The `hashPrev` an event must carry after `before`. */
  function LastHash(before: seq<StoredEvent>): Option<string> {
    if before == [] then None else Some(before[|before| - 1].hashSelf)
  }

  /** Event `i` continues the numbering, names its predecessor's hash and carries its own. */
  ghost predicate Linked(digest: Digest, events: seq<StoredEvent>, i: nat)
    requires i < |events|
  {
    && events[i].sequence == i + 1
    && events[i].hashPrev == LastHash(events[..i])
    && events[i].hashSelf == digest(events[i])
  }

  ghost predicate ValidChain(digest: Digest, events: seq<StoredEvent>) {
    forall i | 0 <= i < |events| :: Linked(digest, events, i)
  }

  /** `verifyJournalEventChain`, which the source runs with `ContentHash(sha256Hex)`. */
  method VerifyChain(digest: Digest, events: seq<StoredEvent>) returns (ok: bool)
    ensures ok <==> ValidChain(digest, events)
  {
    var previousHash: Option<string> := None;
    for index := 0 to |events|
      invariant previousHash == LastHash(events[..index])
      invariant forall i | 0 <= i < index :: Linked(digest, events, i)
    {
      var event := events[index];
      if event.sequence != index + 1 || event.hashPrev != previousHash || event.hashSelf != digest(event) {
        assert !Linked(digest, events, index);
        return false;
      }
      previousHash := Some(event.hashSelf);
      assert events[..index + 1][index] == event;
    }
    return true;
  }

  /** Every prefix of a verifying chain verifies. */
  lemma ChainOfPrefix(digest: Digest, events: seq<StoredEvent>, n: nat)
    requires n <= |events| && ValidChain(digest, events)
    ensures ValidChain(digest, events[..n])
  {
    forall i | 0 <= i < n ensures Linked(digest, events[..n], i) {
      assert Linked(digest, events, i);
      assert events[..n][..i] == events[..i];
    }
  }

  /** A chain can be extended by exactly the events that continue its numbering and hashes. */
  lemma ChainExtends(digest: Digest, events: seq<StoredEvent>, e: StoredEvent)
    requires ValidChain(digest, events)
    ensures ValidChain(digest, events + [e]) <==>
      e.sequence == |events| + 1 && e.hashPrev == LastHash(events) && e.hashSelf == digest(e)
  {
    var all := events + [e];
    assert all[|events|] == e && all[..|events|] == events;
    forall i | 0 <= i < |events| ensures Linked(digest, all, i) {
      assert Linked(digest, events, i) && all[..i] == events[..i];
    }
    if ValidChain(digest, all) {
      assert Linked(digest, all, |events|);
    } else {
      assert !Linked(digest, all, |events|);
    }
  }

  // ---- tamper evidence -------------------------------------------------------------------

  ghost predicate SameRecord(a: Option<Record>, b: Option<Record>) {
    (a.None? && b.None?) || (a.Some? && b.Some? && Same(Obj(a.value), Obj(b.value)))
  }

  /** The same event: equal fields, payload and metadata equal up to key order. */
  ghost predicate SameEvent(a: StoredEvent, b: StoredEvent) {
    && a.eventId == b.eventId && a.sessionId == b.sessionId && a.sequence == b.sequence
    && a.timestamp == b.timestamp && a.typ == b.typ && a.hashPrev == b.hashPrev && a.hashSelf == b.hashSelf
    && Same(Obj(a.payload), Obj(b.payload)) && SameRecord(a.metadata, b.metadata)
  }

  /** The texts verification of a chain hands to the hash function. */
  function HashedTexts(events: seq<StoredEvent>): set<string> {
    set i | 0 <= i < |events| :: HashedText(events[i])
  }

  lemma HashedTextIgnoresHashSelf(e: StoredEvent, x: string)
    ensures HashedText(e.(hashSelf := x)) == HashedText(e)
  {
    assert Fields(e.(hashSelf := x)) == Fields(e);
  }

  lemma ContentWellFormed(e: StoredEvent)
    ensures WellFormed(Content(e))
  {
  }

  lemma TypeNameInjective(a: EventType, b: EventType)
    ensures TypeName(a) == TypeName(b) <==> a == b
  {
  }

  lemma SameOptional(a: StoredEvent, b: StoredEvent)
    ensures Same(OptionalText(a.hashPrev), OptionalText(b.hashPrev)) <==> a.hashPrev == b.hashPrev
    ensures Same(OptionalRecord(a.metadata), OptionalRecord(b.metadata)) <==> SameRecord(a.metadata, b.metadata)
  {
  }

  ghost predicate SameField(a: StoredEvent, b: StoredEvent, i: nat)
    requires i < 8
  {
    Same(Fields(a)[i].value, Fields(b)[i].value)
  }

  lemma SameScalars(a: StoredEvent, b: StoredEvent)
    ensures SameField(a, b, 0) <==> a.eventId == b.eventId
    ensures SameField(a, b, 1) <==> a.sessionId == b.sessionId
    ensures SameField(a, b, 2) <==> a.sequence == b.sequence
    ensures SameField(a, b, 3) <==> a.timestamp == b.timestamp
    ensures SameField(a, b, 4) <==> a.typ == b.typ
  {
    TypeNameInjective(a.typ, b.typ);
  }

  lemma SameStructures(a: StoredEvent, b: StoredEvent)
    ensures SameField(a, b, 5) <==> Same(Obj(a.payload), Obj(b.payload))
    ensures SameField(a, b, 6) <==> a.hashPrev == b.hashPrev
    ensures SameField(a, b, 7) <==> SameRecord(a.metadata, b.metadata)
  {
    SameOptional(a, b);
  }

  /** The hashed text determines every field of the event but `hashSelf`, up to key order. */
  lemma SameContent(a: StoredEvent, b: StoredEvent)
    ensures Same(Content(a), Content(b)) <==> SameEvent(a.(hashSelf := ""), b.(hashSelf := ""))
  {
    ContentWellFormed(a);
    SameFields(Fields(a), Fields(b));
    SameScalars(a, b);
    SameStructures(a, b);
    assert Same(Content(a), Content(b)) <==> forall i | 0 <= i < 8 :: SameField(a, b, i);
  }

  lemma SameHashedText(a: StoredEvent, b: StoredEvent)
    ensures HashedText(a) == HashedText(b) <==> SameEvent(a.(hashSelf := ""), b.(hashSelf := ""))
  {
    ContentWellFormed(a);
    ContentWellFormed(b);
    CanonicalUnambiguous(Content(a), Content(b));
    SameContent(a, b);
  }

  /** An event that comes back with its keys in another order still carries the right hash. */
  lemma SameEventSameHash(h: string -> string, a: StoredEvent, b: StoredEvent)
    requires SameEvent(a, b)
    ensures ContentHash(h)(a) == ContentHash(h)(b)
  {
    SameHashedText(a, b);
  }

  /** What a collision-free hash gives: equal hashes only for the same content. */
  ghost predicate Binding(digest: Digest, a: seq<StoredEvent>, b: seq<StoredEvent>) {
    forall i, j | 0 <= i < |a| && 0 <= j < |b| && digest(a[i]) == digest(b[j]) ::
      SameEvent(a[i].(hashSelf := ""), b[j].(hashSelf := ""))
  }

  lemma CollisionFreeBinds(h: string -> string, a: seq<StoredEvent>, b: seq<StoredEvent>)
    requires CollisionFree(h, HashedTexts(a) + HashedTexts(b))
    ensures Binding(ContentHash(h), a, b)
  {
    forall i, j | 0 <= i < |a| && 0 <= j < |b| && ContentHash(h)(a[i]) == ContentHash(h)(b[j])
      ensures SameEvent(a[i].(hashSelf := ""), b[j].(hashSelf := ""))
    {
      assert HashedText(a[i]) in HashedTexts(a) && HashedText(b[j]) in HashedTexts(b);
      SameHashedText(a[i], b[j]);
    }
  }

  /** Agreement runs from a shared hash back to the first event. */
  lemma {:induction false} ChainsAgree(digest: Digest, a: seq<StoredEvent>, b: seq<StoredEvent>, n: nat)
    requires ValidChain(digest, a) && ValidChain(digest, b) && n <= |a| && n <= |b|
    requires n > 0 ==> a[n - 1].hashSelf == b[n - 1].hashSelf
    requires Binding(digest, a, b)
    ensures forall i | 0 <= i < n :: SameEvent(a[i], b[i])
  {
    if n > 0 {
      assert Linked(digest, a, n - 1) && Linked(digest, b, n - 1);
      assert SameEvent(a[n - 1], b[n - 1]);
      if n > 1 {
        assert a[..n - 1][n - 2] == a[n - 2] && b[..n - 1][n - 2] == b[n - 2];
      }
      ChainsAgree(digest, a, b, n - 1);
    }
  }

  /**
   * Tamper evidence: when the hash does not collide on the texts of the two chains, two chains
   * that verify and end in the same hash have the same length and the same events.
   */
  lemma TamperEvident(h: string -> string, a: seq<StoredEvent>, b: seq<StoredEvent>)
    requires ValidChain(ContentHash(h), a) && ValidChain(ContentHash(h), b) && a != [] && b != []
    requires a[|a| - 1].hashSelf == b[|b| - 1].hashSelf
    requires CollisionFree(h, HashedTexts(a) + HashedTexts(b))
    ensures |a| == |b|
    ensures forall i | 0 <= i < |a| :: SameEvent(a[i], b[i])
  {
    CollisionFreeBinds(h, a, b);
    BoundChainsAgree(ContentHash(h), a, b);
  }

  lemma BoundChainsAgree(digest: Digest, a: seq<StoredEvent>, b: seq<StoredEvent>)
    requires ValidChain(digest, a) && ValidChain(digest, b) && a != [] && b != []
    requires a[|a| - 1].hashSelf == b[|b| - 1].hashSelf && Binding(digest, a, b)
    ensures |a| == |b| && forall i | 0 <= i < |a| :: SameEvent(a[i], b[i])
  {
    SameLength(digest, a, b);
    ChainsAgree(digest, a, b, |a|);
  }

  lemma SameLength(digest: Digest, a: seq<StoredEvent>, b: seq<StoredEvent>)
    requires ValidChain(digest, a) && ValidChain(digest, b) && a != [] && b != []
    requires a[|a| - 1].hashSelf == b[|b| - 1].hashSelf && Binding(digest, a, b)
    ensures |a| == |b|
  {
    assert Linked(digest, a, |a| - 1) && Linked(digest, b, |b| - 1);
  }
}
