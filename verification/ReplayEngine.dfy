/** The journal replay engine (src/replay/journal-replay-engine.ts). */
module ReplayEngine {
  import opened Common
  import opened JsStrings
  import opened Records
  import opened Json
  import opened JsonParser
  import opened JournalHash

  const MAX_SAFE_INTEGER := 9007199254740991

  datatype Override = Override(
    sequence: Option<int>, eventId: Option<string>, payload: Option<Record>, metadata: Option<Record>)

  datatype Applied = Applied(sequence: int, eventId: string, changedPayload: bool, changedMetadata: bool)

  /** The three failure codes of the result, and the argument errors the source throws. */
  datatype ReplayError = IntegrityFailed | SequenceNotFound | InvalidOverride | ThrowsNotPositive | ThrowsEmptyText

  datatype ReplayState = ReplayState(
    sessionId: string,
    eventCount: nat,
    eventTypes: seq<Entry<nat>>,
    lastEventId: Option<string>,
    lastEventType: Option<string>,
    lastSequence: Option<int>,
    lastTimestamp: Option<string>,
    appliedOverrides: seq<Applied>)

  datatype Replayed = Replayed(
    sessionId: string,
    replayedUntilSequence: Option<int>,
    events: seq<StoredEvent>,
    finalState: ReplayState,
    replayHash: string)

  // ---- overrides -------------------------------------------------------------------------

  predicate IsPositiveInteger(n: int) {
    0 < n <= MAX_SAFE_INTEGER
  }

  function SequenceKey(n: int): string {
    "sequence:" + IntText(n)
  }

  function EventIdKey(id: string): string {
    "eventId:" + id
  }

  /** `buildOverrideKey`. */
  function OverrideKey(o: Override): Result<string, ReplayError> {
    if o.sequence.Some? == o.eventId.Some? then Err(InvalidOverride)
    else if o.sequence.Some? then
      if IsPositiveInteger(o.sequence.value) then Ok(SequenceKey(o.sequence.value)) else Err(ThrowsNotPositive)
    else if Trim(o.eventId.value) == "" then Err(ThrowsEmptyText)
    else Ok(EventIdKey(Trim(o.eventId.value)))
  }

  /** What `indexOverrides` computes: the overrides by key, or the first error met. */
  function Index(overrides: seq<Override>): Result<map<string, Override>, ReplayError> {
    if overrides == [] then Ok(map[])
    else
      var o := overrides[|overrides| - 1];
      match Index(overrides[..|overrides| - 1])
      case Err(e) => Err(e)
      case Ok(indexed) =>
        match OverrideKey(o)
        case Err(e) => Err(e)
        case Ok(key) => if key in indexed then Err(InvalidOverride) else Ok(indexed[key := o])
  }

  method IndexOverrides(overrides: seq<Override>) returns (r: Result<map<string, Override>, ReplayError>)
    ensures r == Index(overrides)
  {
    var indexed: map<string, Override> := map[];
    for i := 0 to |overrides|
      invariant Index(overrides[..i]) == Ok(indexed)
    {
      assert overrides[..i + 1][..i] == overrides[..i];
      var key := OverrideKey(overrides[i]);
      if key.Err? {
        IndexErrorStays(overrides, i + 1);
        return Err(key.error);
      }
      if key.value in indexed {
        IndexErrorStays(overrides, i + 1);
        return Err(InvalidOverride);
      }
      indexed := indexed[key.value := overrides[i]];
    }
    assert overrides[..|overrides|] == overrides;
    return Ok(indexed);
  }

  lemma {:induction false} IndexErrorStays(overrides: seq<Override>, n: nat)
    requires n <= |overrides| && Index(overrides[..n]).Err?
    ensures Index(overrides) == Err(Index(overrides[..n]).error)
  {
    if n == |overrides| {
      assert overrides[..n] == overrides;
    } else {
      var rest := overrides[..|overrides| - 1];
      assert rest[..n] == overrides[..n];
      IndexErrorStays(rest, n);
    }
  }

  /** The override an event gets: by sequence first, by event id otherwise. */
  function Chosen(indexed: map<string, Override>, e: StoredEvent): Option<Override> {
    if SequenceKey(e.sequence) in indexed then Some(indexed[SequenceKey(e.sequence)])
    else if EventIdKey(e.eventId) in indexed then Some(indexed[EventIdKey(e.eventId)])
    else None
  }

  function Patch(e: StoredEvent, o: Override): StoredEvent {
    e.(payload := if o.payload.Some? then o.payload.value else e.payload,
       metadata := if o.metadata.Some? then o.metadata else e.metadata)
  }

  /** The event as it is replayed. */
  function Patched(indexed: map<string, Override>, e: StoredEvent): StoredEvent {
    var o := Chosen(indexed, e);
    if o.Some? then Patch(e, o.value) else e
  }

  function PatchAll(indexed: map<string, Override>, events: seq<StoredEvent>): (r: seq<StoredEvent>)
    ensures |r| == |events| && forall i | 0 <= i < |events| :: r[i] == Patched(indexed, events[i])
  {
    seq(|events|, i requires 0 <= i < |events| => Patched(indexed, events[i]))
  }

  function AppliedTo(indexed: map<string, Override>, events: seq<StoredEvent>): seq<Applied> {
    if events == [] then []
    else AppliedTo(indexed, events[..|events| - 1]) + AppliedAt(indexed, events[|events| - 1])
  }

  function AppliedAt(indexed: map<string, Override>, e: StoredEvent): seq<Applied> {
    var o := Chosen(indexed, e);
    if o.Some? then [Applied(e.sequence, e.eventId, o.value.payload.Some?, o.value.metadata.Some?)] else []
  }

  /** Some event answers to the key. */
  predicate KeyMatched(key: string, events: seq<StoredEvent>) {
    exists i | 0 <= i < |events| :: key == SequenceKey(events[i].sequence) || key == EventIdKey(events[i].eventId)
  }

  /** What `applyOverrides` computes. */
  function Apply(events: seq<StoredEvent>, overrides: seq<Override>): Result<(seq<StoredEvent>, seq<Applied>), ReplayError> {
    match Index(overrides)
    case Err(e) => Err(e)
    case Ok(indexed) =>
      if forall key | key in indexed :: KeyMatched(key, events)
      then Ok((PatchAll(indexed, events), AppliedTo(indexed, events)))
      else Err(InvalidOverride)
  }

  lemma OneMorePatched(indexed: map<string, Override>, events: seq<StoredEvent>, i: nat)
    requires i < |events|
    ensures PatchAll(indexed, events[..i + 1]) == PatchAll(indexed, events[..i]) + [Patched(indexed, events[i])]
  {
    var one, all := PatchAll(indexed, events[..i]), PatchAll(indexed, events[..i + 1]);
    forall k | 0 <= k < i + 1 ensures all[k] == (one + [Patched(indexed, events[i])])[k] {
      assert events[..i + 1][k] == events[k];
      if k < i { assert events[..i][k] == events[k]; }
    }
  }

  lemma OneMoreApplied(indexed: map<string, Override>, events: seq<StoredEvent>, i: nat)
    requires i < |events|
    ensures AppliedTo(indexed, events[..i + 1]) == AppliedTo(indexed, events[..i]) + AppliedAt(indexed, events[i])
  {
    assert events[..i + 1][..i] == events[..i];
  }

  /** The loop that replaces events and records what was replaced. */
  method ReplaceEvents(indexed: map<string, Override>, events: seq<StoredEvent>)
    returns (replayEvents: seq<StoredEvent>, applied: seq<Applied>)
    ensures replayEvents == PatchAll(indexed, events) && applied == AppliedTo(indexed, events)
  {
    replayEvents, applied := [], [];
    for i := 0 to |events|
      invariant replayEvents == PatchAll(indexed, events[..i])
      invariant applied == AppliedTo(indexed, events[..i])
    {
      OneMorePatched(indexed, events, i);
      OneMoreApplied(indexed, events, i);
      var override := Chosen(indexed, events[i]);
      if override.None? {
        replayEvents := replayEvents + [events[i]];
      } else {
        var o := override.value;
        applied := applied + [Applied(events[i].sequence, events[i].eventId, o.payload.Some?, o.metadata.Some?)];
        replayEvents := replayEvents + [Patch(events[i], o)];
      }
    }
    assert events[..|events|] == events;
  }

  /** The loop that looks for a key no event answers to. */
  method AllMatched(indexed: map<string, Override>, events: seq<StoredEvent>) returns (ok: bool)
    ensures ok <==> forall key | key in indexed :: KeyMatched(key, events)
  {
    var keys := indexed.Keys;
    while keys != {}
      invariant keys <= indexed.Keys
      invariant forall key | key in indexed && key !in keys :: KeyMatched(key, events)
      decreases keys
    {
      var key :| key in keys;
      if !KeyMatched(key, events) {
        return false;
      }
      keys := keys - {key};
    }
    return true;
  }

  method ApplyOverrides(events: seq<StoredEvent>, overrides: seq<Override>)
    returns (r: Result<(seq<StoredEvent>, seq<Applied>), ReplayError>)
    ensures r == Apply(events, overrides)
  {
    var index := IndexOverrides(overrides);
    if index.Err? {
      return Err(index.error);
    }
    var replayEvents, applied := ReplaceEvents(index.value, events);
    var matched := AllMatched(index.value, events);
    return if matched then Ok((replayEvents, applied)) else Err(InvalidOverride);
  }

  // ---- the final state -------------------------------------------------------------------

  function CountIn(counts: seq<Entry<nat>>, name: string): nat {
    if Has(counts, name) then Get(counts, name) else 0
  }

  /** `eventTypes[name] = (eventTypes[name] ?? 0) + 1`. */
  function Increment(counts: seq<Entry<nat>>, name: string): seq<Entry<nat>> {
    Put<nat>(counts, name, CountIn(counts, name) + 1)
  }

  function CountTypes(events: seq<StoredEvent>): seq<Entry<nat>> {
    if events == [] then []
    else Increment(CountTypes(events[..|events| - 1]), TypeName(events[|events| - 1].typ))
  }

  function Reduce(sessionId: string, events: seq<StoredEvent>, applied: seq<Applied>): ReplayState {
    if events == [] then ReplayState(sessionId, 0, [], None, None, None, None, applied)
    else
      var last := events[|events| - 1];
      ReplayState(sessionId, |events|, CountTypes(events), Some(last.eventId), Some(TypeName(last.typ)),
                  Some(last.sequence), Some(last.timestamp), applied)
  }

  method ReduceReplayState(sessionId: string, events: seq<StoredEvent>, applied: seq<Applied>)
    returns (state: ReplayState)
    ensures state == Reduce(sessionId, events, applied)
  {
    var eventTypes: seq<Entry<nat>> := [];
    for i := 0 to |events|
      invariant eventTypes == CountTypes(events[..i])
    {
      assert events[..i + 1][..i] == events[..i];
      eventTypes := Increment(eventTypes, TypeName(events[i].typ));
    }
    assert events[..|events|] == events;
    if events == [] {
      return ReplayState(sessionId, 0, eventTypes, None, None, None, None, applied);
    }
    var last := events[|events| - 1];
    return ReplayState(sessionId, |events|, eventTypes, Some(last.eventId), Some(TypeName(last.typ)),
                       Some(last.sequence), Some(last.timestamp), applied);
  }

  // ---- the replay hash -------------------------------------------------------------------

  function OptionalNumber(o: Option<int>): Json {
    if o.Some? then Num(o.value) else Null
  }

  /** A replayed event in the hashed record; the canonical printer makes field order irrelevant. */
  function EventFields(e: StoredEvent): seq<Entry<Json>> {
    Fields(e) + [Entry("hashSelf", Str(e.hashSelf))]
  }

  function EventsJson(events: seq<StoredEvent>): (r: seq<Json>)
    ensures |r| == |events| && forall i | 0 <= i < |events| :: r[i] == Obj(EventFields(events[i]))
  {
    seq(|events|, i requires 0 <= i < |events| => Obj(EventFields(events[i])))
  }

  function AppliedJson(a: Applied): Json {
    Obj([Entry("sequence", Num(a.sequence)), Entry("eventId", Str(a.eventId)),
         Entry("changedPayload", Bool(a.changedPayload)), Entry("changedMetadata", Bool(a.changedMetadata))])
  }

  function CountsJson(counts: seq<Entry<nat>>): (r: seq<Entry<Json>>)
    ensures |r| == |counts| && forall i | 0 <= i < |counts| :: r[i] == Entry(counts[i].key, Num(counts[i].value))
  {
    seq(|counts|, i requires 0 <= i < |counts| => Entry(counts[i].key, Num(counts[i].value)))
  }

  function AppliedList(applied: seq<Applied>): (r: seq<Json>)
    ensures |r| == |applied| && forall i | 0 <= i < |applied| :: r[i] == AppliedJson(applied[i])
  {
    seq(|applied|, i requires 0 <= i < |applied| => AppliedJson(applied[i]))
  }

  function StateFields(s: ReplayState): (r: seq<Entry<Json>>)
    ensures |r| == 8
  {
    [Entry("sessionId", Str(s.sessionId)),
     Entry("eventCount", Num(s.eventCount)),
     Entry("eventTypes", Obj(CountsJson(s.eventTypes))),
     Entry("lastEventId", OptionalText(s.lastEventId)),
     Entry("lastEventType", OptionalText(s.lastEventType)),
     Entry("lastSequence", OptionalNumber(s.lastSequence)),
     Entry("lastTimestamp", OptionalText(s.lastTimestamp)),
     Entry("appliedOverrides", Arr(AppliedList(s.appliedOverrides)))]
  }

  function StateJson(s: ReplayState): Json {
    Obj(StateFields(s))
  }

  function HashesJson(events: seq<StoredEvent>): (r: seq<Json>)
    ensures |r| == |events| && forall i | 0 <= i < |events| :: r[i] == Str(events[i].hashSelf)
  {
    seq(|events|, i requires 0 <= i < |events| => Str(events[i].hashSelf))
  }

  /** The five fields of the record that `computeReplayHash` prints. */
  function ReplayFields(sessionId: string, until: Option<int>, events: seq<StoredEvent>, state: ReplayState)
    : (r: seq<Entry<Json>>)
    ensures |r| == 5
  {
    [Entry("sessionId", Str(sessionId)),
     Entry("replayedUntilSequence", OptionalNumber(until)),
     Entry("eventHashes", Arr(HashesJson(events))),
     Entry("replayEvents", Arr(EventsJson(events))),
     Entry("finalState", StateJson(state))]
  }

  function ReplayText(sessionId: string, until: Option<int>, events: seq<StoredEvent>, state: ReplayState): string {
    Canonical(Obj(ReplayFields(sessionId, until, events, state)))
  }

  // ---- the engine ------------------------------------------------------------------------

  function UpTo(events: seq<StoredEvent>, n: int): seq<StoredEvent> {
    if events == [] then []
    else
      var before := UpTo(events[..|events| - 1], n);
      if events[|events| - 1].sequence <= n then before + [events[|events| - 1]] else before
  }

  /** The part of the replay after the events to replay are known. */
  function Finish(h: string -> string, sessionId: string, until: Option<int>, events: seq<StoredEvent>, overrides: seq<Override>)
    : Result<Replayed, ReplayError>
  {
    match Apply(events, overrides)
    case Err(e) => Err(e)
    case Ok((replayEvents, applied)) =>
      var state := Reduce(sessionId, replayEvents, applied);
      Ok(Replayed(sessionId, until, replayEvents, state, h(ReplayText(sessionId, until, replayEvents, state))))
  }

  /** `replayInternal`, for the events and integrity answer the journal returns for the session. */
  function Replay(
    h: string -> string, sessionIdInput: string, events: seq<StoredEvent>, integrityOk: bool,
    until: Option<int>, overrides: seq<Override>): Result<Replayed, ReplayError>
  {
    var sessionId := Trim(sessionIdInput);
    if sessionId == "" then Err(ThrowsEmptyText)
    else if !integrityOk then Err(IntegrityFailed)
    else if until.Some? then
      if !IsPositiveInteger(until.value) then Err(ThrowsNotPositive)
      else if forall i | 0 <= i < |events| :: events[i].sequence != until.value then Err(SequenceNotFound)
      else Finish(h, sessionId, until, UpTo(events, until.value), overrides)
    else
      Finish(h, sessionId, if events == [] then None else Some(events[|events| - 1].sequence), events, overrides)
  }

  // ---- replaying a prefix ----------------------------------------------------------------

  lemma {:induction false} UpToOfChain(digest: Digest, events: seq<StoredEvent>, n: nat)
    requires ValidChain(digest, events)
    ensures UpTo(events, n) == if n <= |events| then events[..n] else events
  {
    if events != [] {
      var m := |events| - 1;
      assert Linked(digest, events, m);
      ChainOfPrefix(digest, events, m);
      UpToOfChain(digest, events[..m], n);
      if n <= m {
        assert events[..m][..n] == events[..n];
      } else {
        assert events[..m] + [events[m]] == events == events[..|events|];
      }
    }
  }

  lemma ReplayUpTo(
    h: string -> string, sessionId: string, events: seq<StoredEvent>, i: nat, n: int, overrides: seq<Override>)
    requires i < |events| && events[i].sequence == n && IsPositiveInteger(n)
    ensures Replay(h, sessionId, events, true, Some(n), overrides)
         == if Trim(sessionId) == "" then Err(ThrowsEmptyText) else Finish(h, Trim(sessionId), Some(n), UpTo(events, n), overrides)
  {
  }

  lemma ReplayWhole(h: string -> string, sessionId: string, events: seq<StoredEvent>, n: int, overrides: seq<Override>)
    requires events != [] && events[|events| - 1].sequence == n
    ensures Replay(h, sessionId, events, true, None, overrides)
         == if Trim(sessionId) == "" then Err(ThrowsEmptyText) else Finish(h, Trim(sessionId), Some(n), events, overrides)
  {
  }

  lemma ReplayUpToIsWhole(
    h: string -> string, sessionId: string, events: seq<StoredEvent>, prefix: seq<StoredEvent>, i: nat, n: int,
    overrides: seq<Override>)
    requires i < |events| && events[i].sequence == n && IsPositiveInteger(n)
    requires prefix == UpTo(events, n) && prefix != [] && prefix[|prefix| - 1].sequence == n
    ensures Replay(h, sessionId, events, true, Some(n), overrides) == Replay(h, sessionId, prefix, true, None, overrides)
  {
    ReplayUpTo(h, sessionId, events, i, n, overrides);
    ReplayWhole(h, sessionId, prefix, n, overrides);
  }

  /** Replaying up to event `n` is replaying a journal that stops there: result and hash alike. */
  lemma ReplayUntilIsReplayOfPrefix(
    h: string -> string, digest: Digest, sessionId: string, events: seq<StoredEvent>, n: int, overrides: seq<Override>)
    requires ValidChain(digest, events) && 1 <= n <= |events| <= MAX_SAFE_INTEGER
    ensures ValidChain(digest, events[..n])
    ensures Replay(h, sessionId, events, true, Some(n), overrides)
         == Replay(h, sessionId, events[..n], true, None, overrides)
  {
    ChainOfPrefix(digest, events, n);
    UpToOfChain(digest, events, n);
    assert Linked(digest, events, n - 1);
    ReplayUpToIsWhole(h, sessionId, events, events[..n], n - 1, n, overrides);
  }

  /** Replaying up to the last event is replaying everything. */
  lemma ReplayUntilLastIsFullReplay(
    h: string -> string, digest: Digest, sessionId: string, events: seq<StoredEvent>, overrides: seq<Override>)
    requires ValidChain(digest, events) && 1 <= |events| <= MAX_SAFE_INTEGER
    ensures Replay(h, sessionId, events, true, Some(|events|), overrides)
         == Replay(h, sessionId, events, true, None, overrides)
  {
    ReplayUntilIsReplayOfPrefix(h, digest, sessionId, events, |events|, overrides);
    assert events[..|events|] == events;
  }

  /** A sequence the journal does not have is never replayed. */
  lemma ReplayUntilUnknown(
    h: string -> string, digest: Digest, sessionId: string, events: seq<StoredEvent>, n: int, overrides: seq<Override>)
    requires ValidChain(digest, events) && (n < 1 || n > |events|)
    ensures Replay(h, sessionId, events, true, Some(n), overrides).Err?
  {
    forall i | 0 <= i < |events| ensures events[i].sequence != n {
      assert Linked(digest, events, i);
    }
  }

  // ---- what overrides do -----------------------------------------------------------------

  /** The override names this event. */
  predicate Names(o: Override, e: StoredEvent) {
    || (o.sequence.Some? && o.sequence.value == e.sequence)
    || (o.eventId.Some? && Trim(o.eventId.value) == e.eventId)
  }

  lemma IntTextInjective(m: int, n: int)
    requires m > 0 && IntText(m) == IntText(n)
    ensures m == n
  {
    assert IsDigit(IntText(m)[0]);
    if n >= 0 { NatTextInjective(m, n); }
  }

  /** The two kinds of key never clash, and each names the events it should. */
  lemma KeyNames(o: Override, e: StoredEvent)
    requires OverrideKey(o).Ok?
    ensures OverrideKey(o).value == SequenceKey(e.sequence) <==> o.sequence.Some? && o.sequence.value == e.sequence
    ensures OverrideKey(o).value == EventIdKey(e.eventId) <==> o.eventId.Some? && Trim(o.eventId.value) == e.eventId
  {
    var key := OverrideKey(o).value;
    assert SequenceKey(e.sequence)[0] == 's' && EventIdKey(e.eventId)[0] == 'e';
    assert SequenceKey(e.sequence)[9..] == IntText(e.sequence);
    assert EventIdKey(e.eventId)[8..] == e.eventId;
    if o.sequence.Some? {
      assert key[0] == 's' && key[9..] == IntText(o.sequence.value);
      if IntText(o.sequence.value) == IntText(e.sequence) { IntTextInjective(o.sequence.value, e.sequence); }
    } else {
      assert key[0] == 'e' && key[8..] == Trim(o.eventId.value);
    }
  }

  ghost predicate WellFormedOverrides(overrides: seq<Override>) {
    && (forall i | 0 <= i < |overrides| :: OverrideKey(overrides[i]).Ok?)
    && (forall i, j | 0 <= i < j < |overrides| :: OverrideKey(overrides[i]) != OverrideKey(overrides[j]))
  }

  /** The index holds exactly the overrides, each under its own key. */
  ghost predicate Indexes(indexed: map<string, Override>, overrides: seq<Override>) {
    && (forall i | 0 <= i < |overrides| :: OverrideKey(overrides[i]).Ok? && OverrideKey(overrides[i]).value in indexed
                                         && indexed[OverrideKey(overrides[i]).value] == overrides[i])
    && (forall key | key in indexed :: exists i | 0 <= i < |overrides| :: OverrideKey(overrides[i]) == Ok(key))
  }

  lemma IndexesStep(indexed: map<string, Override>, rest: seq<Override>, o: Override, key: string)
    requires Indexes(indexed, rest) && WellFormedOverrides(rest) && OverrideKey(o) == Ok(key) && key !in indexed
    ensures Indexes(indexed[key := o], rest + [o]) && WellFormedOverrides(rest + [o])
  {
    var all := rest + [o];
    forall k | k in indexed[key := o] ensures exists i | 0 <= i < |all| :: OverrideKey(all[i]) == Ok(k) {
      if k == key {
        assert OverrideKey(all[|rest|]) == Ok(k);
      } else {
        var i :| 0 <= i < |rest| && OverrideKey(rest[i]) == Ok(k);
        assert OverrideKey(all[i]) == Ok(k);
      }
    }
    forall i | 0 <= i < |rest| ensures OverrideKey(all[i]) != Ok(key) {
      assert all[i] == rest[i];
    }
  }

  lemma BadKey(rest: seq<Override>, o: Override)
    requires OverrideKey(o).Err?
    ensures !WellFormedOverrides(rest + [o])
  {
    assert (rest + [o])[|rest|] == o;
  }

  lemma RepeatedKey(rest: seq<Override>, o: Override, i: nat)
    requires i < |rest| && OverrideKey(rest[i]) == OverrideKey(o)
    ensures !WellFormedOverrides(rest + [o])
  {
    assert (rest + [o])[i] == rest[i] && (rest + [o])[|rest|] == o;
  }

  /** The index of a list that has one comes from the index of the list without its last override. */
  lemma IndexNext(overrides: seq<Override>, indexed: map<string, Override>)
    returns (rest: seq<Override>, o: Override, key: string, before: map<string, Override>)
    requires overrides != [] && Index(overrides) == Ok(indexed)
    ensures overrides == rest + [o] && Index(rest) == Ok(before)
    ensures OverrideKey(o) == Ok(key) && key !in before && indexed == before[key := o]
  {
    rest, o := overrides[..|overrides| - 1], overrides[|overrides| - 1];
    key, before := OverrideKey(o).value, Index(rest).value;
  }

  lemma {:induction false} IndexHolds(overrides: seq<Override>, indexed: map<string, Override>)
    requires Index(overrides) == Ok(indexed)
    ensures WellFormedOverrides(overrides) && Indexes(indexed, overrides)
    decreases |overrides|
  {
    if overrides != [] {
      var rest, o, key, before := IndexNext(overrides, indexed);
      IndexHolds(rest, before);
      IndexesStep(before, rest, o, key);
    }
  }

  lemma {:induction false} IndexFails(overrides: seq<Override>)
    requires Index(overrides).Err?
    ensures !WellFormedOverrides(overrides)
  {
    var rest, o := overrides[..|overrides| - 1], overrides[|overrides| - 1];
    assert overrides == rest + [o];
    if Index(rest).Err? {
      IndexFails(rest);
      IllFormedStays(rest, o);
    } else if OverrideKey(o).Err? {
      BadKey(rest, o);
    } else {
      IndexHolds(rest, Index(rest).value);
      var i :| 0 <= i < |rest| && OverrideKey(rest[i]) == Ok(OverrideKey(o).value);
      RepeatedKey(rest, o, i);
    }
  }

  /** The index exists exactly when every override is well formed and no key repeats. */
  lemma IndexOkIff(overrides: seq<Override>)
    ensures Index(overrides).Ok? <==> WellFormedOverrides(overrides)
    ensures Index(overrides).Ok? ==> Indexes(Index(overrides).value, overrides)
  {
    if Index(overrides).Ok? {
      IndexHolds(overrides, Index(overrides).value);
    } else {
      IndexFails(overrides);
    }
  }

  lemma IllFormedStays(rest: seq<Override>, o: Override)
    ensures WellFormedOverrides(rest + [o]) ==> WellFormedOverrides(rest)
  {
    var all := rest + [o];
    assert forall i | 0 <= i < |rest| :: rest[i] == all[i];
  }

  /** Some event is named by the override. */
  ghost predicate NamesSome(o: Override, events: seq<StoredEvent>) {
    exists i | 0 <= i < |events| :: Names(o, events[i])
  }

  lemma MatchedIffAllName(indexed: map<string, Override>, events: seq<StoredEvent>, overrides: seq<Override>)
    requires Indexes(indexed, overrides)
    ensures (forall key | key in indexed :: KeyMatched(key, events))
            <==> (forall k | 0 <= k < |overrides| :: NamesSome(overrides[k], events))
  {
    forall k | 0 <= k < |overrides| ensures KeyMatched(OverrideKey(overrides[k]).value, events) <==> NamesSome(overrides[k], events) {
      MatchedIffNamed(overrides[k], events);
    }
    if forall k | 0 <= k < |overrides| :: NamesSome(overrides[k], events) {
      forall key | key in indexed ensures KeyMatched(key, events) {
        var k :| 0 <= k < |overrides| && OverrideKey(overrides[k]) == Ok(key);
      }
    }
  }

  /** The whole replay is refused unless every override is well formed, unique and names an event. */
  lemma ApplyOkIff(events: seq<StoredEvent>, overrides: seq<Override>)
    ensures Apply(events, overrides).Ok? <==>
      WellFormedOverrides(overrides) && forall k | 0 <= k < |overrides| :: NamesSome(overrides[k], events)
  {
    IndexOkIff(overrides);
    if Index(overrides).Ok? { MatchedIffAllName(Index(overrides).value, events, overrides); }
  }

  lemma MatchedIffNamed(o: Override, events: seq<StoredEvent>)
    requires OverrideKey(o).Ok?
    ensures KeyMatched(OverrideKey(o).value, events) <==> NamesSome(o, events)
  {
    forall i | 0 <= i < |events|
      ensures Names(o, events[i]) <==>
        OverrideKey(o).value == SequenceKey(events[i].sequence) || OverrideKey(o).value == EventIdKey(events[i].eventId)
    {
      KeyNames(o, events[i]);
    }
  }

  predicate BySequence(o: Override, e: StoredEvent) {
    o.sequence.Some? && o.sequence.value == e.sequence
  }

  predicate ByEventId(o: Override, e: StoredEvent) {
    o.eventId.Some? && Trim(o.eventId.value) == e.eventId
  }

  lemma ChosenBySequence(indexed: map<string, Override>, overrides: seq<Override>, e: StoredEvent, k: nat)
    requires Indexes(indexed, overrides) && k < |overrides| && BySequence(overrides[k], e)
    ensures Chosen(indexed, e) == Some(overrides[k])
  {
    KeyNames(overrides[k], e);
  }

  lemma ChosenByEventId(indexed: map<string, Override>, overrides: seq<Override>, e: StoredEvent, k: nat)
    requires Indexes(indexed, overrides) && k < |overrides| && ByEventId(overrides[k], e)
    requires forall m | 0 <= m < |overrides| :: !BySequence(overrides[m], e)
    ensures Chosen(indexed, e) == Some(overrides[k])
  {
    KeyNames(overrides[k], e);
    if SequenceKey(e.sequence) in indexed {
      var m :| 0 <= m < |overrides| && OverrideKey(overrides[m]) == Ok(SequenceKey(e.sequence));
      KeyNames(overrides[m], e);
    }
  }

  lemma ChosenByNone(indexed: map<string, Override>, overrides: seq<Override>, e: StoredEvent)
    requires Indexes(indexed, overrides)
    requires forall m | 0 <= m < |overrides| :: !Names(overrides[m], e)
    ensures Chosen(indexed, e) == None
  {
    if Chosen(indexed, e).Some? {
      var key := if SequenceKey(e.sequence) in indexed then SequenceKey(e.sequence) else EventIdKey(e.eventId);
      var m :| 0 <= m < |overrides| && OverrideKey(overrides[m]) == Ok(key);
      KeyNames(overrides[m], e);
    }
  }

  // ---- counting --------------------------------------------------------------------------

  function Total(counts: seq<Entry<nat>>): nat {
    if counts == [] then 0 else counts[0].value + Total(counts[1..])
  }

  lemma {:induction false} TotalOfPut(counts: seq<Entry<nat>>, k: string, n: nat)
    requires DistinctKeys(counts)
    ensures Total(Put(counts, k, n)) == Total(counts) - (if Has(counts, k) then Get(counts, k) else 0) + n
  {
    if counts != [] {
      HasTail(counts);
      if counts[0].key == k {
        assert Put(counts, k, n)[1..] == counts[1..];
      } else {
        TotalOfPut(counts[1..], k, n);
        assert Put(counts, k, n)[1..] == Put(counts[1..], k, n);
      }
    }
  }

  function OfType(events: seq<StoredEvent>, name: string): nat {
    if events == [] then 0
    else OfType(events[..|events| - 1], name) + if TypeName(events[|events| - 1].typ) == name then 1 else 0
  }

  lemma IncrementCounts(counts: seq<Entry<nat>>, name: string)
    requires DistinctKeys(counts)
    ensures DistinctKeys(Increment(counts, name)) && Total(Increment(counts, name)) == Total(counts) + 1
    ensures forall x :: CountIn(Increment(counts, name), x) == CountIn(counts, x) + if x == name then 1 else 0
  {
    var n: nat := CountIn(counts, name) + 1;
    PutKeepsDistinct<nat>(counts, name, n);
    TotalOfPut(counts, name, n);
    PutSemantics<nat>(counts, name, n);
  }

  lemma {:induction false} CountsAreExact(events: seq<StoredEvent>, name: string)
    ensures DistinctKeys(CountTypes(events)) && Total(CountTypes(events)) == |events|
    ensures CountIn(CountTypes(events), name) == OfType(events, name)
  {
    if events != [] {
      CountsAreExact(events[..|events| - 1], name);
      IncrementCounts(CountTypes(events[..|events| - 1]), TypeName(events[|events| - 1].typ));
    }
  }

  /** In a successful replay the counters are exact per type and account for every event. */
  lemma ReplayCountsEveryEvent(
    h: string -> string, sessionId: string, events: seq<StoredEvent>, until: Option<int>, overrides: seq<Override>)
    requires Replay(h, sessionId, events, true, until, overrides).Ok?
    ensures
      var r := Replay(h, sessionId, events, true, until, overrides).value;
      && r.finalState.eventCount == |r.events|
      && Total(r.finalState.eventTypes) == |r.events|
      && forall name :: CountIn(r.finalState.eventTypes, name) == OfType(r.events, name)
  {
    var r := Replay(h, sessionId, events, true, until, overrides).value;
    CountsAreExact(r.events, "");
    forall name ensures CountIn(CountTypes(r.events), name) == OfType(r.events, name) {
      CountsAreExact(r.events, name);
    }
  }

  // ---- the replay hash commits to the replay ---------------------------------------------

  lemma EventFieldsWellFormed(e: StoredEvent)
    ensures WellFormed(Obj(EventFields(e)))
  {
    ContentWellFormed(e);
    var fs := EventFields(e);
    forall i | 0 <= i < 8 ensures fs[i] == Fields(e)[i] && fs[i].key != "hashSelf" {
    }
  }

  lemma EventsWellFormed(events: seq<StoredEvent>)
    ensures WellFormed(Arr(EventsJson(events)))
  {
    forall i | 0 <= i < |events| ensures WellFormed(EventsJson(events)[i]) {
      EventFieldsWellFormed(events[i]);
    }
  }

  lemma SameExtended(fs: seq<Entry<Json>>, gs: seq<Entry<Json>>, f: Entry<Json>, g: Entry<Json>)
    requires DistinctKeys(fs + [f]) && |fs| == |gs| && f.key == g.key
    requires forall i | 0 <= i < |fs| :: fs[i].key == gs[i].key
    requires Same(Obj(fs + [f]), Obj(gs + [g]))
    ensures Same(f.value, g.value) && forall i | 0 <= i < |fs| :: Same(fs[i].value, gs[i].value)
  {
    var xs, ys := fs + [f], gs + [g];
    SameFields(xs, ys);
    assert xs[|fs|] == f && ys[|fs|] == g;
    forall i | 0 <= i < |fs| ensures Same(fs[i].value, gs[i].value) {
      assert xs[i] == fs[i] && ys[i] == gs[i];
    }
  }

  /** A replayed event is printed with every one of its fields. */
  lemma SameEventFields(a: StoredEvent, b: StoredEvent)
    requires Same(Obj(EventFields(a)), Obj(EventFields(b)))
    ensures SameEvent(a, b)
  {
    EventFieldsWellFormed(a);
    SameExtended(Fields(a), Fields(b), Entry("hashSelf", Str(a.hashSelf)), Entry("hashSelf", Str(b.hashSelf)));
    AllFieldsSame(a, b);
  }

  lemma AllFieldsSame(a: StoredEvent, b: StoredEvent)
    requires forall i | 0 <= i < 8 :: Same(Fields(a)[i].value, Fields(b)[i].value)
    requires a.hashSelf == b.hashSelf
    ensures SameEvent(a, b)
  {
    assert forall i | 0 <= i < 8 :: SameField(a, b, i);
    SameScalars(a, b);
    SameStructures(a, b);
  }

  lemma CountsWellFormed(counts: seq<Entry<nat>>)
    requires DistinctKeys(counts)
    ensures WellFormed(Obj(CountsJson(counts)))
  {
    var es := CountsJson(counts);
    forall i, j | 0 <= i < j < |es| ensures es[i].key != es[j].key {
      assert counts[i].key != counts[j].key;
    }
  }

  lemma AppliedWellFormed(applied: seq<Applied>)
    ensures WellFormed(Arr(AppliedList(applied)))
  {
    forall i | 0 <= i < |applied| ensures WellFormed(AppliedJson(applied[i])) {
    }
  }

  lemma StateWellFormed(s: ReplayState)
    requires DistinctKeys(s.eventTypes)
    ensures WellFormed(StateJson(s))
  {
    CountsWellFormed(s.eventTypes);
    AppliedWellFormed(s.appliedOverrides);
  }

  /** The same counter for every type, in whatever order. */
  ghost predicate SameCounts(a: seq<Entry<nat>>, b: seq<Entry<nat>>) {
    forall name :: CountIn(a, name) == CountIn(b, name)
  }

  /** The same state, up to the order of the counters. */
  ghost predicate SameState(a: ReplayState, b: ReplayState) {
    a == b.(eventTypes := a.eventTypes) && SameCounts(a.eventTypes, b.eventTypes)
  }

  lemma CountAt(counts: seq<Entry<nat>>, name: string)
    requires DistinctKeys(counts)
    ensures Has(CountsJson(counts), name) <==> Has(counts, name)
    ensures Has(counts, name) ==> Get(CountsJson(counts), name) == Num(Get(counts, name))
  {
    var es := CountsJson(counts);
    if Has(counts, name) {
      var i :| 0 <= i < |counts| && counts[i].key == name;
      CountsWellFormed(counts);
      GetAt<nat>(counts, i);
      GetAt(es, i);
    }
    if Has(es, name) {
      var i :| 0 <= i < |es| && es[i].key == name;
      assert counts[i].key == name;
    }
  }

  lemma CountsTell(a: seq<Entry<nat>>, b: seq<Entry<nat>>)
    requires DistinctKeys(a) && DistinctKeys(b) && Same(Obj(CountsJson(a)), Obj(CountsJson(b)))
    ensures SameCounts(a, b)
  {
    var es, fs := CountsJson(a), CountsJson(b);
    forall name ensures CountIn(a, name) == CountIn(b, name) {
      CountAt(a, name);
      CountAt(b, name);
      HasIffKey(es, name);
      HasIffKey(fs, name);
      if Has(es, name) {
        var i :| 0 <= i < |es| && es[i] == Entry(name, Get(es, name));
        assert Same(es[i].value, Get(fs, name));
      }
    }
  }

  /** Records that list the same keys, by the value at each place. */
  ghost predicate SameValues(fs: seq<Entry<Json>>, gs: seq<Entry<Json>>) {
    |fs| == |gs| && forall i | 0 <= i < |fs| :: Same(fs[i].value, gs[i].value)
  }

  ghost predicate ListsKeys(fs: seq<Entry<Json>>, names: seq<string>) {
    |fs| == |names| && forall i | 0 <= i < |fs| :: fs[i].key == names[i]
  }

  lemma ValuesSame(fs: seq<Entry<Json>>, gs: seq<Entry<Json>>, names: seq<string>)
    requires ListsKeys(fs, names) && ListsKeys(gs, names) && WellFormed(Obj(fs)) && Same(Obj(fs), Obj(gs))
    ensures SameValues(fs, gs)
  {
    SameFields(fs, gs);
  }

  lemma AppliedTells(a: Applied, b: Applied)
    requires Same(AppliedJson(a), AppliedJson(b))
    ensures a == b
  {
    var fs := AppliedRecord(a);
    var gs := AppliedRecord(b);
    ValuesSame(fs, gs, AppliedNames());
    AppliedValuesTell(fs, gs, a, b);
  }

  function AppliedNames(): seq<string> {
    ["sequence", "eventId", "changedPayload", "changedMetadata"]
  }

  ghost predicate HoldsApplied(fs: seq<Entry<Json>>, a: Applied) {
    && |fs| == 4 && fs[0].value == Num(a.sequence) && fs[1].value == Str(a.eventId)
    && fs[2].value == Bool(a.changedPayload) && fs[3].value == Bool(a.changedMetadata)
  }

  lemma AppliedRecord(a: Applied) returns (fs: seq<Entry<Json>>)
    ensures HoldsApplied(fs, a) && ListsKeys(fs, AppliedNames()) && WellFormed(Obj(fs)) && Obj(fs) == AppliedJson(a)
  {
    fs := AppliedJson(a).members;
  }

  lemma AppliedValuesTell(fs: seq<Entry<Json>>, gs: seq<Entry<Json>>, a: Applied, b: Applied)
    requires HoldsApplied(fs, a) && HoldsApplied(gs, b) && SameValues(fs, gs)
    ensures a == b
  {
    assert Same(fs[0].value, gs[0].value) && Same(fs[1].value, gs[1].value);
    assert Same(fs[2].value, gs[2].value) && Same(fs[3].value, gs[3].value);
  }

  lemma AppliedListTells(a: seq<Applied>, b: seq<Applied>)
    requires Same(Arr(AppliedList(a)), Arr(AppliedList(b)))
    ensures a == b
  {
    var xs, ys := AppliedList(a), AppliedList(b);
    forall i | 0 <= i < |a| ensures a[i] == b[i] {
      assert Same(xs[i], ys[i]);
      AppliedTells(a[i], b[i]);
    }
  }

  function StateNames(): seq<string> {
    ["sessionId", "eventCount", "eventTypes", "lastEventId", "lastEventType", "lastSequence", "lastTimestamp", "appliedOverrides"]
  }

  ghost predicate HoldsState(fs: seq<Entry<Json>>, s: ReplayState) {
    && |fs| == 8 && fs[0].value == Str(s.sessionId) && fs[1].value == Num(s.eventCount)
    && fs[2].value == Obj(CountsJson(s.eventTypes)) && fs[3].value == OptionalText(s.lastEventId)
    && fs[4].value == OptionalText(s.lastEventType) && fs[5].value == OptionalNumber(s.lastSequence)
    && fs[6].value == OptionalText(s.lastTimestamp) && fs[7].value == Arr(AppliedList(s.appliedOverrides))
  }

  lemma StateRecord(s: ReplayState) returns (fs: seq<Entry<Json>>)
    requires DistinctKeys(s.eventTypes)
    ensures HoldsState(fs, s) && ListsKeys(fs, StateNames()) && WellFormed(Obj(fs)) && Obj(fs) == StateJson(s)
  {
    StateWellFormed(s);
    fs := StateFields(s);
  }

  lemma OptionalTextTells(a: Option<string>, b: Option<string>)
    requires Same(OptionalText(a), OptionalText(b))
    ensures a == b
  {
  }

  lemma OptionalNumberTells(a: Option<int>, b: Option<int>)
    requires Same(OptionalNumber(a), OptionalNumber(b))
    ensures a == b
  {
  }

  lemma StateValuesTell(fs: seq<Entry<Json>>, gs: seq<Entry<Json>>, a: ReplayState, b: ReplayState)
    requires HoldsState(fs, a) && HoldsState(gs, b) && SameValues(fs, gs)
    requires DistinctKeys(a.eventTypes) && DistinctKeys(b.eventTypes)
    ensures SameState(a, b)
  {
    assert Same(fs[0].value, gs[0].value) && Same(fs[1].value, gs[1].value);
    assert Same(fs[2].value, gs[2].value) && Same(fs[7].value, gs[7].value);
    CountsTell(a.eventTypes, b.eventTypes);
    assert Same(fs[3].value, gs[3].value) && Same(fs[4].value, gs[4].value);
    OptionalTextTells(a.lastEventId, b.lastEventId);
    OptionalTextTells(a.lastEventType, b.lastEventType);
    assert Same(fs[5].value, gs[5].value) && Same(fs[6].value, gs[6].value);
    OptionalNumberTells(a.lastSequence, b.lastSequence);
    OptionalTextTells(a.lastTimestamp, b.lastTimestamp);
    AppliedListTells(a.appliedOverrides, b.appliedOverrides);
  }

  /** A final state is printed with every one of its fields. */
  lemma StateTells(a: ReplayState, b: ReplayState)
    requires DistinctKeys(a.eventTypes) && DistinctKeys(b.eventTypes) && Same(StateJson(a), StateJson(b))
    ensures SameState(a, b)
  {
    var fs := StateRecord(a);
    var gs := StateRecord(b);
    ValuesSame(fs, gs, StateNames());
    StateValuesTell(fs, gs, a, b);
  }

  lemma ReplayFieldsWellFormed(r: Replayed)
    requires DistinctKeys(r.finalState.eventTypes)
    ensures WellFormed(Obj(ReplayFields(r.sessionId, r.replayedUntilSequence, r.events, r.finalState)))
  {
    EventsWellFormed(r.events);
    StateWellFormed(r.finalState);
  }

  function TextOf(r: Replayed): string {
    ReplayText(r.sessionId, r.replayedUntilSequence, r.events, r.finalState)
  }

  /** Every successful replay carries the hash of its own text. */
  lemma FinishHashes(
    h: string -> string, sessionId: string, until: Option<int>, events: seq<StoredEvent>, overrides: seq<Override>)
    requires Finish(h, sessionId, until, events, overrides).Ok?
    ensures
      var r := Finish(h, sessionId, until, events, overrides).value;
      r.replayHash == h(TextOf(r)) && DistinctKeys(r.finalState.eventTypes)
  {
    CountsAreExact(Finish(h, sessionId, until, events, overrides).value.events, "");
  }

  /** Equal replay hashes, without a collision between the two texts, mean the same replay. */
  lemma ReplayHashCommits(h: string -> string, a: Replayed, b: Replayed)
    requires a.replayHash == h(TextOf(a)) && DistinctKeys(a.finalState.eventTypes)
    requires b.replayHash == h(TextOf(b)) && DistinctKeys(b.finalState.eventTypes)
    requires a.replayHash == b.replayHash && CollisionFree(h, {TextOf(a), TextOf(b)})
    ensures a.sessionId == b.sessionId && a.replayedUntilSequence == b.replayedUntilSequence
    ensures |a.events| == |b.events| && forall i | 0 <= i < |a.events| :: SameEvent(a.events[i], b.events[i])
    ensures SameState(a.finalState, b.finalState) && a.finalState.appliedOverrides == b.finalState.appliedOverrides
  {
    var fs := ReplayRecord(a);
    var gs := ReplayRecord(b);
    CanonicalUnambiguous(Obj(fs), Obj(gs));
    ValuesSame(fs, gs, ReplayNames());
    SameReplayFields(a, b, fs, gs);
  }

  lemma ReplayIsHashed(
    h: string -> string, sessionId: string, events: seq<StoredEvent>, until: Option<int>, overrides: seq<Override>)
    requires Replay(h, sessionId, events, true, until, overrides).Ok?
    ensures
      var r := Replay(h, sessionId, events, true, until, overrides).value;
      r.replayHash == h(TextOf(r)) && DistinctKeys(r.finalState.eventTypes)
  {
    if until.Some? {
      FinishHashes(h, Trim(sessionId), until, UpTo(events, until.value), overrides);
    } else {
      FinishHashes(h, Trim(sessionId), if events == [] then None else Some(events[|events| - 1].sequence), events, overrides);
    }
  }

  /** Two replays, of whatever journals, bounds and overrides, with one hash are the same replay. */
  lemma EqualHashesEqualReplays(
    h: string -> string, s: string, es: seq<StoredEvent>, u: Option<int>, os: seq<Override>,
    s': string, es': seq<StoredEvent>, u': Option<int>, os': seq<Override>, a: Replayed, b: Replayed)
    requires Replay(h, s, es, true, u, os) == Ok(a) && Replay(h, s', es', true, u', os') == Ok(b)
    requires a.replayHash == b.replayHash && CollisionFree(h, {TextOf(a), TextOf(b)})
    ensures a.sessionId == b.sessionId && a.replayedUntilSequence == b.replayedUntilSequence
    ensures |a.events| == |b.events| && forall i | 0 <= i < |a.events| :: SameEvent(a.events[i], b.events[i])
    ensures SameState(a.finalState, b.finalState)
  {
    ReplayIsHashed(h, s, es, u, os);
    ReplayIsHashed(h, s', es', u', os');
    ReplayHashCommits(h, a, b);
  }

  function ReplayNames(): seq<string> {
    ["sessionId", "replayedUntilSequence", "eventHashes", "replayEvents", "finalState"]
  }

  /** The record of a replay, as far as the next lemma reads it. */
  ghost predicate HoldsReplay(fs: seq<Entry<Json>>, r: Replayed) {
    && |fs| == 5 && fs[0].value == Str(r.sessionId) && fs[1].value == OptionalNumber(r.replayedUntilSequence)
    && fs[3].value == Arr(EventsJson(r.events)) && fs[4].value == StateJson(r.finalState)
  }

  lemma ReplayRecord(r: Replayed) returns (fs: seq<Entry<Json>>)
    requires DistinctKeys(r.finalState.eventTypes)
    ensures HoldsReplay(fs, r) && ListsKeys(fs, ReplayNames()) && WellFormed(Obj(fs)) && Canonical(Obj(fs)) == TextOf(r)
  {
    ReplayFieldsWellFormed(r);
    fs := ReplayFields(r.sessionId, r.replayedUntilSequence, r.events, r.finalState);
  }

  lemma SameReplayFields(a: Replayed, b: Replayed, fs: seq<Entry<Json>>, gs: seq<Entry<Json>>)
    requires HoldsReplay(fs, a) && HoldsReplay(gs, b) && SameValues(fs, gs)
    requires DistinctKeys(a.finalState.eventTypes) && DistinctKeys(b.finalState.eventTypes)
    ensures a.sessionId == b.sessionId && a.replayedUntilSequence == b.replayedUntilSequence
    ensures |a.events| == |b.events| && forall i | 0 <= i < |a.events| :: SameEvent(a.events[i], b.events[i])
    ensures SameState(a.finalState, b.finalState)
  {
    assert Same(fs[0].value, gs[0].value) && Same(fs[1].value, gs[1].value);
    OptionalNumberTells(a.replayedUntilSequence, b.replayedUntilSequence);
    assert Same(fs[3].value, gs[3].value);
    SameEventLists(a.events, b.events);
    assert Same(fs[4].value, gs[4].value);
    StateTells(a.finalState, b.finalState);
  }

  lemma SameEventLists(es: seq<StoredEvent>, ds: seq<StoredEvent>)
    requires Same(Arr(EventsJson(es)), Arr(EventsJson(ds)))
    ensures |es| == |ds| && forall i | 0 <= i < |es| :: SameEvent(es[i], ds[i])
  {
    var xs, ys := EventsJson(es), EventsJson(ds);
    forall i | 0 <= i < |es| ensures SameEvent(es[i], ds[i]) {
      assert Same(xs[i], ys[i]);
      SameEventFields(es[i], ds[i]);
    }
  }
}
