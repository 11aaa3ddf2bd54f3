/**
 * Replaying a session read back from Postgres (src/replay/journal-replay-engine.ts over
 * src/journal/postgres-execution-journal.ts). Events that differ in the key order of their objects
 * only, as JSONB may return them, replay to the same hash, with any bound and any overrides.
 */
module PostgresReplay {
  import opened Common
  import opened JsStrings
  import opened Records
  import opened Json
  import opened JsonParser
  import opened JournalHash
  import opened ReplayEngine
  import opened PostgresJournal

  // ---- events that differ in key order only ----------------------------------------------

  lemma SameItself(v: Json)
    requires WellFormed(v)
    ensures Same(v, v)
  {
    SameIffSortKeys(v, v);
  }

  lemma EventFieldAt(a: StoredEvent, b: StoredEvent, i: nat)
    requires SameEvent(a, b) && i < 8
    ensures SameField(a, b, i)
  {
    SameScalars(a, b);
    SameStructures(a, b);
  }

  lemma SameEventPrints(a: StoredEvent, b: StoredEvent)
    requires SameEvent(a, b)
    ensures Same(Obj(EventFields(a)), Obj(EventFields(b)))
  {
    EventFieldsWellFormed(a);
    var fs, gs := EventFields(a), EventFields(b);
    forall i | 0 <= i < 9 ensures fs[i].key == gs[i].key && Same(fs[i].value, gs[i].value) {
      if i < 8 {
        assert fs[i] == Fields(a)[i] && gs[i] == Fields(b)[i];
        EventFieldAt(a, b, i);
        KeysAlike(a, b, i);
      }
    }
    SameFields(fs, gs);
  }

  lemma KeysAlike(a: StoredEvent, b: StoredEvent, i: nat)
    requires i < 8
    ensures Fields(a)[i].key == Fields(b)[i].key
  {
  }

  lemma ChainPrefix(a: seq<StoredEvent>, b: seq<StoredEvent>, n: nat)
    requires SameChain(a, b) && n <= |a|
    ensures SameChain(a[..n], b[..n])
  {
  }

  lemma {:induction false} UpToAlike(a: seq<StoredEvent>, b: seq<StoredEvent>, n: int)
    requires SameChain(a, b)
    ensures SameChain(UpTo(a, n), UpTo(b, n))
  {
    if a != [] {
      var m := |a| - 1;
      assert SameEvent(a[m], b[m]);
      ChainPrefix(a, b, m);
      UpToAlike(a[..m], b[..m], n);
    }
  }

  // ---- overrides -------------------------------------------------------------------------

  lemma SamePatch(a: StoredEvent, b: StoredEvent, o: Override)
    requires SameEvent(a, b)
    ensures SameEvent(Patch(a, o), Patch(b, o))
  {
    if o.payload.Some? { SameItself(Obj(o.payload.value)); }
    if o.metadata.Some? { SameItself(Obj(o.metadata.value)); }
  }

  lemma PatchedAlike(indexed: map<string, Override>, a: StoredEvent, b: StoredEvent)
    requires SameEvent(a, b)
    ensures SameEvent(Patched(indexed, a), Patched(indexed, b)) && AppliedAt(indexed, a) == AppliedAt(indexed, b)
  {
    if Chosen(indexed, a).Some? { SamePatch(a, b, Chosen(indexed, a).value); }
  }

  lemma PatchAllAlike(indexed: map<string, Override>, a: seq<StoredEvent>, b: seq<StoredEvent>)
    requires SameChain(a, b)
    ensures SameChain(PatchAll(indexed, a), PatchAll(indexed, b))
  {
    forall i | 0 <= i < |a| ensures SameEvent(PatchAll(indexed, a)[i], PatchAll(indexed, b)[i]) {
      PatchedAlike(indexed, a[i], b[i]);
    }
  }

  lemma {:induction false} AppliedAlike(indexed: map<string, Override>, a: seq<StoredEvent>, b: seq<StoredEvent>)
    requires SameChain(a, b)
    ensures AppliedTo(indexed, a) == AppliedTo(indexed, b)
  {
    if a != [] {
      var m := |a| - 1;
      ChainPrefix(a, b, m);
      AppliedAlike(indexed, a[..m], b[..m]);
      PatchedAlike(indexed, a[m], b[m]);
    }
  }

  lemma MatchedAlike(key: string, a: seq<StoredEvent>, b: seq<StoredEvent>)
    requires SameChain(a, b)
    ensures KeyMatched(key, a) <==> KeyMatched(key, b)
  {
    if i :| 0 <= i < |a| && (key == SequenceKey(a[i].sequence) || key == EventIdKey(a[i].eventId)) {
      assert SameEvent(a[i], b[i]);
      assert key == SequenceKey(b[i].sequence) || key == EventIdKey(b[i].eventId);
    }
    if i :| 0 <= i < |b| && (key == SequenceKey(b[i].sequence) || key == EventIdKey(b[i].eventId)) {
      assert SameEvent(a[i], b[i]);
      assert key == SequenceKey(a[i].sequence) || key == EventIdKey(a[i].eventId);
    }
  }

  /** What applying overrides gives for two chains that differ in key order only. */
  ghost predicate AppliesAlike(x: Result<(seq<StoredEvent>, seq<Applied>), ReplayError>,
                               y: Result<(seq<StoredEvent>, seq<Applied>), ReplayError>) {
    && (x.Ok? <==> y.Ok?) && (x.Err? && y.Err? ==> x.error == y.error)
    && (x.Ok? && y.Ok? ==> SameChain(x.value.0, y.value.0) && x.value.1 == y.value.1)
  }

  lemma ApplyAlike(a: seq<StoredEvent>, b: seq<StoredEvent>, overrides: seq<Override>)
    requires SameChain(a, b)
    ensures AppliesAlike(Apply(a, overrides), Apply(b, overrides))
  {
    if Index(overrides).Ok? {
      var indexed := Index(overrides).value;
      forall key | key in indexed ensures KeyMatched(key, a) <==> KeyMatched(key, b) { MatchedAlike(key, a, b); }
      PatchAllAlike(indexed, a, b);
      AppliedAlike(indexed, a, b);
    }
  }

  // ---- the hash --------------------------------------------------------------------------

  lemma {:induction false} CountsAlike(a: seq<StoredEvent>, b: seq<StoredEvent>)
    requires SameChain(a, b)
    ensures CountTypes(a) == CountTypes(b)
  {
    if a != [] {
      var m := |a| - 1;
      assert SameEvent(a[m], b[m]);
      ChainPrefix(a, b, m);
      CountsAlike(a[..m], b[..m]);
    }
  }

  lemma ReduceAlike(sessionId: string, a: seq<StoredEvent>, b: seq<StoredEvent>, applied: seq<Applied>)
    requires SameChain(a, b)
    ensures Reduce(sessionId, a, applied) == Reduce(sessionId, b, applied)
  {
    CountsAlike(a, b);
    if a != [] { assert SameEvent(a[|a| - 1], b[|b| - 1]); }
  }

  lemma EventsPrintAlike(a: seq<StoredEvent>, b: seq<StoredEvent>)
    requires SameChain(a, b)
    ensures Same(Arr(EventsJson(a)), Arr(EventsJson(b)))
  {
    var xs, ys := EventsJson(a), EventsJson(b);
    forall i | 0 <= i < |xs| ensures Same(xs[i], ys[i]) { SameEventPrints(a[i], b[i]); }
  }

  lemma HashesAlike(a: seq<StoredEvent>, b: seq<StoredEvent>)
    requires SameChain(a, b)
    ensures HashesJson(a) == HashesJson(b)
  {
    forall i | 0 <= i < |a| ensures HashesJson(a)[i] == HashesJson(b)[i] { assert SameEvent(a[i], b[i]); }
  }

  /** The record that is hashed, as far as its text depends on the events. */
  ghost predicate HoldsText(fs: seq<Entry<Json>>, sessionId: string, until: Option<int>, events: seq<StoredEvent>, state: ReplayState) {
    && |fs| == 5 && fs[0].value == Str(sessionId) && fs[1].value == OptionalNumber(until)
    && fs[2].value == Arr(HashesJson(events)) && fs[3].value == Arr(EventsJson(events)) && fs[4].value == StateJson(state)
  }

  lemma TextRecord(sessionId: string, until: Option<int>, events: seq<StoredEvent>, state: ReplayState) returns (fs: seq<Entry<Json>>)
    requires DistinctKeys(state.eventTypes)
    ensures HoldsText(fs, sessionId, until, events, state) && ListsKeys(fs, ReplayNames()) && WellFormed(Obj(fs))
    ensures Canonical(Obj(fs)) == ReplayText(sessionId, until, events, state)
  {
    EventsWellFormed(events);
    StateWellFormed(state);
    fs := ReplayFields(sessionId, until, events, state);
  }

  lemma RecordsAlike(fs: seq<Entry<Json>>, gs: seq<Entry<Json>>, names: seq<string>, sessionId: string, until: Option<int>,
                     a: seq<StoredEvent>, b: seq<StoredEvent>, state: ReplayState)
    requires HoldsText(fs, sessionId, until, a, state) && HoldsText(gs, sessionId, until, b, state)
    requires ListsKeys(fs, names) && ListsKeys(gs, names) && WellFormed(Obj(fs)) && WellFormed(Obj(gs))
    requires SameChain(a, b) && DistinctKeys(state.eventTypes)
    ensures Canonical(Obj(fs)) == Canonical(Obj(gs))
  {
    HashesAlike(a, b);
    EventsPrintAlike(a, b);
    forall i | 0 <= i < 5 ensures Same(fs[i].value, gs[i].value) {
      if i != 3 { SameItself(fs[i].value); }
    }
    SameFields(fs, gs);
    CanonicalUnambiguous(Obj(fs), Obj(gs));
  }

  lemma TextAlike(sessionId: string, until: Option<int>, a: seq<StoredEvent>, b: seq<StoredEvent>, state: ReplayState)
    requires SameChain(a, b) && DistinctKeys(state.eventTypes)
    ensures ReplayText(sessionId, until, a, state) == ReplayText(sessionId, until, b, state)
  {
    var fs := TextRecord(sessionId, until, a, state);
    var gs := TextRecord(sessionId, until, b, state);
    RecordsAlike(fs, gs, ReplayNames(), sessionId, until, a, b, state);
  }

  // ---- replays ---------------------------------------------------------------------------

  /** The same failure, or the same replay, hash included, up to the key order of the events. */
  ghost predicate ReplaysAlike(x: Result<Replayed, ReplayError>, y: Result<Replayed, ReplayError>) {
    && (x.Ok? <==> y.Ok?) && (x.Err? && y.Err? ==> x.error == y.error)
    && (x.Ok? && y.Ok? ==>
          && x.value.replayHash == y.value.replayHash && SameChain(x.value.events, y.value.events)
          && x.value == y.value.(events := x.value.events))
  }

  lemma FinishAlike(h: string -> string, sessionId: string, until: Option<int>, a: seq<StoredEvent>, b: seq<StoredEvent>,
                    overrides: seq<Override>)
    requires SameChain(a, b)
    ensures ReplaysAlike(Finish(h, sessionId, until, a, overrides), Finish(h, sessionId, until, b, overrides))
  {
    ApplyAlike(a, b, overrides);
    if Apply(a, overrides).Ok? {
      var (x, applied) := Apply(a, overrides).value;
      var y := Apply(b, overrides).value.0;
      ReduceAlike(sessionId, x, y, applied);
      CountsAreExact(x, "");
      TextAlike(sessionId, until, x, y, Reduce(sessionId, x, applied));
    }
  }

  predicate HasSequence(events: seq<StoredEvent>, n: int) {
    exists i | 0 <= i < |events| :: events[i].sequence == n
  }

  lemma HasSequenceAlike(a: seq<StoredEvent>, b: seq<StoredEvent>, n: int)
    requires SameChain(a, b)
    ensures HasSequence(a, n) <==> HasSequence(b, n)
  {
    forall i | 0 <= i < |a| ensures a[i].sequence == b[i].sequence { assert SameEvent(a[i], b[i]); }
  }

  /** The errors met before the events are touched. */
  function Refusal(sessionId: string, integrityOk: bool, until: Option<int>, found: bool): Option<ReplayError> {
    if Trim(sessionId) == "" then Some(ThrowsEmptyText)
    else if !integrityOk then Some(IntegrityFailed)
    else if until.Some? && !IsPositiveInteger(until.value) then Some(ThrowsNotPositive)
    else if until.Some? && !found then Some(SequenceNotFound)
    else None
  }

  function LastSequence(events: seq<StoredEvent>): Option<int> {
    if events == [] then None else Some(events[|events| - 1].sequence)
  }

  lemma ReplayIsFinish(h: string -> string, sessionId: string, events: seq<StoredEvent>, integrityOk: bool, until: Option<int>,
                       overrides: seq<Override>)
    ensures
      var refusal := Refusal(sessionId, integrityOk, until, until.Some? && HasSequence(events, until.value));
      Replay(h, sessionId, events, integrityOk, until, overrides)
        == if refusal.Some? then Err(refusal.value)
           else if until.Some? then Finish(h, Trim(sessionId), until, UpTo(events, until.value), overrides)
           else Finish(h, Trim(sessionId), LastSequence(events), events, overrides)
  {
  }

  /** Chains that differ in key order only replay alike, with any bound and any overrides. */
  lemma SameChainReplays(h: string -> string, sessionId: string, a: seq<StoredEvent>, b: seq<StoredEvent>, integrityOk: bool,
                         until: Option<int>, overrides: seq<Override>)
    requires SameChain(a, b)
    ensures ReplaysAlike(Replay(h, sessionId, a, integrityOk, until, overrides), Replay(h, sessionId, b, integrityOk, until, overrides))
  {
    ReplayIsFinish(h, sessionId, a, integrityOk, until, overrides);
    ReplayIsFinish(h, sessionId, b, integrityOk, until, overrides);
    if until.Some? {
      HasSequenceAlike(a, b, until.value);
      UpToAlike(a, b, until.value);
      FinishAlike(h, Trim(sessionId), until, UpTo(a, until.value), UpTo(b, until.value), overrides);
    } else {
      if a != [] { assert SameEvent(a[|a| - 1], b[|b| - 1]); }
      FinishAlike(h, Trim(sessionId), LastSequence(a), a, b, overrides);
    }
  }

  /**
   * After any interleaving of appends, replaying a session of the table, whose integrity check
   * passes, gives the hash of replaying the session an in-memory journal builds from the committed
   * inputs, whatever the bound and the overrides.
   */
  lemma InterleavingReplaysAlike(env: Env, schedule: seq<Action>, session: string, h: string -> string, until: Option<int>,
                                 overrides: seq<Override>)
    requires Lawful(env)
    ensures
      var db := Execute(env, schedule);
      && ValidChain(env.digest, LoadSession(db.table, session))
      && ValidChain(env.digest, InMemorySession(env.digest, db.committed, session))
      && ReplaysAlike(Replay(h, session, LoadSession(db.table, session), true, until, overrides),
                      Replay(h, session, InMemorySession(env.digest, db.committed, session), true, until, overrides))
  {
    var db := Execute(env, schedule);
    EveryInterleavingIsAChain(env, schedule, session);
    InMemorySessionValid(env.digest, db.committed, session);
    SameChainReplays(h, session, LoadSession(db.table, session), InMemorySession(env.digest, db.committed, session), true, until,
                     overrides);
  }
}
