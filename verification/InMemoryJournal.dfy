/** The in-memory execution journal (src/journal/in-memory-execution-journal.ts). */
module InMemoryJournal {
  import opened Common
  import opened JsStrings
  import opened Records
  import opened Json
  import opened JournalHash

  datatype AppendInput = AppendInput(
    eventId: string, sessionId: string, timestamp: string, typ: EventType, payload: Record, metadata: Option<Record>)

  datatype JournalError = EmptyEventId | EmptySessionId | EmptyTimestamp

  /** Both journals trim the three texts first and refuse the empty ones, in this order. */
  function Normalize(input: AppendInput): Result<AppendInput, JournalError> {
    if Trim(input.eventId) == "" then Err(EmptyEventId)
    else if Trim(input.sessionId) == "" then Err(EmptySessionId)
    else if Trim(input.timestamp) == "" then Err(EmptyTimestamp)
    else Ok(input.(eventId := Trim(input.eventId), sessionId := Trim(input.sessionId), timestamp := Trim(input.timestamp)))
  }

  /** The event an append makes after `before`, for input already normalized. */
  function NextEvent(digest: Digest, before: seq<StoredEvent>, input: AppendInput): StoredEvent {
    Seal(digest, |before| + 1, LastHash(before), input)
  }

  /** The event for a given place in a chain, with its own hash filled in. */
  function Seal(digest: Digest, sequence: int, hashPrev: Option<string>, input: AppendInput): StoredEvent {
    var e := StoredEvent(input.eventId, input.sessionId, sequence, input.timestamp, input.typ,
                         input.payload, hashPrev, "", input.metadata);
    e.(hashSelf := digest(e))
  }

  /** The event has the texts of the input, trimmed, and its type, payload and metadata. */
  ghost predicate RecordsInput(e: StoredEvent, input: AppendInput) {
    && e.eventId == Trim(input.eventId) && e.sessionId == Trim(input.sessionId) && e.timestamp == Trim(input.timestamp)
    && e.typ == input.typ && e.payload == input.payload && e.metadata == input.metadata
  }

  /** The event takes the next place after `before`: its number, the hash before it and its own. */
  ghost predicate Follows(digest: Digest, before: seq<StoredEvent>, e: StoredEvent) {
    e.sequence == |before| + 1 && e.hashPrev == LastHash(before) && e.hashSelf == digest(e)
  }

  /** Exactly the event that records the input in the next place is the one an append makes. */
  lemma AppendedIs(digest: Digest, before: seq<StoredEvent>, event: AppendInput, e: StoredEvent)
    requires IgnoresHashSelf(digest) && Normalize(event).Ok?
    ensures e == NextEvent(digest, before, Normalize(event).value) <==> RecordsInput(e, event) && Follows(digest, before, e)
  {
    var next := NextEvent(digest, before, Normalize(event).value);
    assert digest(next) == next.hashSelf by {
      assert next == next.(hashSelf := "").(hashSelf := next.hashSelf);
    }
    if RecordsInput(e, event) && Follows(digest, before, e) {
      assert e == next.(hashSelf := e.hashSelf);
    }
  }

  /** A digest never looks at the hash an event claims to have. */
  ghost predicate IgnoresHashSelf(digest: Digest) {
    forall e: StoredEvent, x :: digest(e.(hashSelf := x)) == digest(e)
  }

  lemma ContentHashIgnoresHashSelf(h: string -> string)
    ensures IgnoresHashSelf(ContentHash(h))
  {
    forall e: StoredEvent, x ensures ContentHash(h)(e.(hashSelf := x)) == ContentHash(h)(e) {
      HashedTextIgnoresHashSelf(e, x);
    }
  }

  lemma NextEventExtends(digest: Digest, before: seq<StoredEvent>, input: AppendInput)
    requires IgnoresHashSelf(digest) && ValidChain(digest, before)
    ensures ValidChain(digest, before + [NextEvent(digest, before, input)])
  {
    ChainExtends(digest, before, NextEvent(digest, before, input));
  }

  datatype SessionJournal = SessionJournal(sessionId: string, events: seq<StoredEvent>, integrityOk: Option<bool>)

  class InMemoryExecutionJournal {
    const digest: Digest
    var eventsBySessionId: map<string, seq<StoredEvent>>

    function SessionEvents(sessionId: string): seq<StoredEvent>
      reads this
    {
      if sessionId in eventsBySessionId then eventsBySessionId[sessionId] else []
    }

    /** Every session holds a valid chain of events filed under their own session. */
    ghost predicate Valid()
      reads this
    {
      && IgnoresHashSelf(digest)
      && forall s | s in eventsBySessionId ::
        && ValidChain(digest, eventsBySessionId[s])
        && forall i | 0 <= i < |eventsBySessionId[s]| :: eventsBySessionId[s][i].sessionId == s
    }

    constructor (digest: Digest)
      requires IgnoresHashSelf(digest)
      ensures Valid() && this.digest == digest && eventsBySessionId == map[]
    {
      this.digest := digest;
      this.eventsBySessionId := map[];
    }

    /**
     * `appendEvent`: an input with a blank text is refused and changes nothing; any other adds one
     * event to its session, which records the input in the next place of the chain.
     */
    method AppendEvent(event: AppendInput) returns (r: Result<StoredEvent, JournalError>)
      requires Valid()
      modifies this
      ensures Valid()
      ensures r.Err? ==> eventsBySessionId == old(eventsBySessionId)
      ensures Trim(event.eventId) == "" <==> r == Err(EmptyEventId)
      ensures Trim(event.eventId) != "" && Trim(event.sessionId) == "" <==> r == Err(EmptySessionId)
      ensures Trim(event.eventId) != "" && Trim(event.sessionId) != "" && Trim(event.timestamp) == "" <==> r == Err(EmptyTimestamp)
      ensures r.Ok? ==>
        var before := old(SessionEvents(Trim(event.sessionId)));
        && r == Ok(NextEvent(digest, before, Normalize(event).value))
        && RecordsInput(r.value, event) && Follows(digest, before, r.value)
        && eventsBySessionId == old(eventsBySessionId)[Trim(event.sessionId) := before + [r.value]]
    {
      var normalized := Normalize(event);
      if normalized.Err? {
        return Err(normalized.error);
      }
      var input := normalized.value;
      var sessionEvents := SessionEvents(input.sessionId);
      var storedEvent := NextEvent(digest, sessionEvents, input);
      NextEventExtends(digest, sessionEvents, input);
      AppendedIs(digest, sessionEvents, event, storedEvent);
      sessionEvents := sessionEvents + [storedEvent];
      eventsBySessionId := eventsBySessionId[input.sessionId := sessionEvents];
      r := Ok(storedEvent);
    }

    /** `getSessionJournal`: the integrity check of a journal built by appends never fails. */
    method GetSessionJournal(sessionId: string, integrityCheck: bool) returns (r: Result<SessionJournal, JournalError>)
      requires Valid()
      ensures r == if Trim(sessionId) == "" then Err(EmptySessionId)
                   else Ok(SessionJournal(Trim(sessionId), SessionEvents(Trim(sessionId)),
                                          if integrityCheck then Some(true) else None))
    {
      if Trim(sessionId) == "" {
        return Err(EmptySessionId);
      }
      var events := SessionEvents(Trim(sessionId));
      if integrityCheck {
        var ok := VerifyChain(digest, events);
        return Ok(SessionJournal(Trim(sessionId), events, Some(ok)));
      }
      return Ok(SessionJournal(Trim(sessionId), events, None));
    }
  }
}
