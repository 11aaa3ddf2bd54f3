/**
 * What a replay says, in the words of its overrides (src/replay/journal-replay-engine.ts): which
 * payload and metadata each event is replayed with, which events are reported as changed, and
 * what the final state records.
 */
module ReplayContents {
  import opened Common
  import opened JsStrings
  import opened Records
  import opened JournalHash
  import opened ReplayEngine

  /** The override decides the event: it names its sequence, or its event id when none names its sequence. */
  ghost predicate Decides(overrides: seq<Override>, e: StoredEvent, k: nat)
    requires k < |overrides|
  {
    || BySequence(overrides[k], e)
    || (ByEventId(overrides[k], e) && forall m | 0 <= m < |overrides| :: !BySequence(overrides[m], e))
  }

  ghost predicate Decided(overrides: seq<Override>, e: StoredEvent) {
    exists k | 0 <= k < |overrides| :: Decides(overrides, e, k)
  }

  /** Every field is as recorded, except that a payload or metadata the override gives replaces the event's own. */
  ghost predicate Overridden(before: StoredEvent, o: Override, after: StoredEvent) {
    && after.eventId == before.eventId && after.sessionId == before.sessionId && after.sequence == before.sequence
    && after.timestamp == before.timestamp && after.typ == before.typ
    && after.hashPrev == before.hashPrev && after.hashSelf == before.hashSelf
    && (o.payload.Some? ==> after.payload == o.payload.value)
    && (o.payload.None? ==> after.payload == before.payload)
    && (o.metadata.Some? ==> after.metadata == Some(o.metadata.value))
    && (o.metadata.None? ==> after.metadata == before.metadata)
  }

  /** The entry names the event and says which of the two the override gave. */
  ghost predicate Reports(a: Applied, e: StoredEvent, o: Override) {
    a.sequence == e.sequence && a.eventId == e.eventId
    && (a.changedPayload <==> o.payload.Some?) && (a.changedMetadata <==> o.metadata.Some?)
  }

  /** An event is replayed as the override that decides it says, and as recorded when none does. */
  ghost predicate ReplayedAs(overrides: seq<Override>, before: StoredEvent, after: StoredEvent) {
    && (forall k | 0 <= k < |overrides| && Decides(overrides, before, k) :: Overridden(before, overrides[k], after))
    && (!Decided(overrides, before) ==> after == before)
  }

  lemma DecidesIsChosen(indexed: map<string, Override>, overrides: seq<Override>, e: StoredEvent, k: nat)
    requires Indexes(indexed, overrides) && k < |overrides| && Decides(overrides, e, k)
    ensures Chosen(indexed, e) == Some(overrides[k])
  {
    if BySequence(overrides[k], e) {
      ChosenBySequence(indexed, overrides, e, k);
    } else {
      ChosenByEventId(indexed, overrides, e, k);
    }
  }

  lemma NamedIsDecided(overrides: seq<Override>, e: StoredEvent, m: nat)
    requires m < |overrides| && Names(overrides[m], e)
    ensures Decided(overrides, e)
  {
    if j :| 0 <= j < |overrides| && BySequence(overrides[j], e) {
      assert Decides(overrides, e, j);
    } else {
      assert Decides(overrides, e, m);
    }
  }

  lemma ChosenIffDecided(indexed: map<string, Override>, overrides: seq<Override>, e: StoredEvent)
    requires Indexes(indexed, overrides)
    ensures Chosen(indexed, e).Some? <==> Decided(overrides, e)
  {
    if Decided(overrides, e) {
      var k :| 0 <= k < |overrides| && Decides(overrides, e, k);
      DecidesIsChosen(indexed, overrides, e, k);
    } else {
      forall m | 0 <= m < |overrides| ensures !Names(overrides[m], e) {
        if Names(overrides[m], e) { NamedIsDecided(overrides, e, m); }
      }
      ChosenByNone(indexed, overrides, e);
    }
  }

  lemma PatchedAs(indexed: map<string, Override>, overrides: seq<Override>, e: StoredEvent)
    requires Indexes(indexed, overrides)
    ensures ReplayedAs(overrides, e, Patched(indexed, e))
  {
    forall k | 0 <= k < |overrides| && Decides(overrides, e, k) ensures Overridden(e, overrides[k], Patched(indexed, e)) {
      DecidesIsChosen(indexed, overrides, e, k);
    }
    ChosenIffDecided(indexed, overrides, e);
  }

  /**
   * What accepted overrides do to each event: one by sequence decides, else one by event id, and
   * gives exactly the payload and metadata it names; an event none decides stays as recorded.
   */
  lemma OverridesChangeOnlyNamedEvents(events: seq<StoredEvent>, overrides: seq<Override>)
    requires Apply(events, overrides).Ok?
    ensures |Apply(events, overrides).value.0| == |events|
    ensures forall i | 0 <= i < |events| :: ReplayedAs(overrides, events[i], Apply(events, overrides).value.0[i])
  {
    IndexOkIff(overrides);
    var indexed := Index(overrides).value;
    forall i | 0 <= i < |events| ensures ReplayedAs(overrides, events[i], Apply(events, overrides).value.0[i]) {
      PatchedAs(indexed, overrides, events[i]);
    }
  }

  // ---- what is reported ------------------------------------------------------------------

  /** The places of the decided events, in order. */
  ghost predicate PlacesOf(overrides: seq<Override>, events: seq<StoredEvent>, places: seq<nat>) {
    && (forall i, j | 0 <= i < j < |places| :: places[i] < places[j])
    && (forall i :: i in places <==> DecidedAt(overrides, events, i))
  }

  ghost predicate DecidedAt(overrides: seq<Override>, events: seq<StoredEvent>, i: int) {
    0 <= i < |events| && Decided(overrides, events[i])
  }

  /** Each of these places has its report. */
  ghost predicate ReportsAt(overrides: seq<Override>, events: seq<StoredEvent>, places: seq<nat>, applied: seq<Applied>) {
    && |applied| == |places|
    && forall j | 0 <= j < |places| :: places[j] < |events| && ReportsDecided(overrides, events[places[j]], applied[j])
  }

  ghost predicate ReportsExactly(overrides: seq<Override>, events: seq<StoredEvent>, places: seq<nat>, applied: seq<Applied>) {
    PlacesOf(overrides, events, places) && ReportsAt(overrides, events, places, applied)
  }

  ghost predicate ReportsDecided(overrides: seq<Override>, e: StoredEvent, a: Applied) {
    forall k | 0 <= k < |overrides| && Decides(overrides, e, k) :: Reports(a, e, overrides[k])
  }

  lemma AppliedAtReports(indexed: map<string, Override>, overrides: seq<Override>, e: StoredEvent)
    requires Indexes(indexed, overrides)
    ensures |AppliedAt(indexed, e)| == if Decided(overrides, e) then 1 else 0
    ensures Decided(overrides, e) ==> ReportsDecided(overrides, e, AppliedAt(indexed, e)[0])
  {
    ChosenIffDecided(indexed, overrides, e);
    if Decided(overrides, e) {
      forall k | 0 <= k < |overrides| && Decides(overrides, e, k) ensures Reports(AppliedAt(indexed, e)[0], e, overrides[k]) {
        DecidesIsChosen(indexed, overrides, e, k);
      }
    }
  }

  lemma PlacesGrow(overrides: seq<Override>, events: seq<StoredEvent>, e: StoredEvent, places: seq<nat>)
    requires PlacesOf(overrides, events, places)
    ensures PlacesOf(overrides, events + [e], if Decided(overrides, e) then places + [|events|] else places)
  {
    var more, all := if Decided(overrides, e) then places + [|events|] else places, events + [e];
    forall i | 0 <= i < |places| ensures places[i] < |events| {
      assert places[i] in places && DecidedAt(overrides, events, places[i]);
    }
    forall i ensures i in more <==> DecidedAt(overrides, all, i) {
      assert i in places <==> DecidedAt(overrides, events, i);
      if 0 <= i < |events| { assert all[i] == events[i]; }
    }
  }

  lemma ReportsGrow(overrides: seq<Override>, events: seq<StoredEvent>, e: StoredEvent, places: seq<nat>,
                    applied: seq<Applied>, one: seq<Applied>)
    requires ReportsAt(overrides, events, places, applied) && |one| == if Decided(overrides, e) then 1 else 0
    requires one != [] ==> ReportsDecided(overrides, e, one[0])
    ensures ReportsAt(overrides, events + [e], if one != [] then places + [|events|] else places, applied + one)
  {
    var all, more := events + [e], if one != [] then places + [|events|] else places;
    forall j | 0 <= j < |more| ensures more[j] < |all| && ReportsDecided(overrides, all[more[j]], (applied + one)[j]) {
      if j < |places| { assert all[places[j]] == events[places[j]]; }
    }
  }

  lemma OneMoreReport(indexed: map<string, Override>, overrides: seq<Override>, events: seq<StoredEvent>, e: StoredEvent,
                      places: seq<nat>, applied: seq<Applied>) returns (more: seq<nat>)
    requires Indexes(indexed, overrides) && ReportsExactly(overrides, events, places, applied)
    ensures ReportsExactly(overrides, events + [e], more, applied + AppliedAt(indexed, e))
  {
    AppliedAtReports(indexed, overrides, e);
    PlacesGrow(overrides, events, e, places);
    ReportsGrow(overrides, events, e, places, applied, AppliedAt(indexed, e));
    more := if Decided(overrides, e) then places + [|events|] else places;
  }

  lemma AppliedNext(indexed: map<string, Override>, events: seq<StoredEvent>)
    returns (rest: seq<StoredEvent>, e: StoredEvent)
    requires events != []
    ensures events == rest + [e] && AppliedTo(indexed, events) == AppliedTo(indexed, rest) + AppliedAt(indexed, e)
  {
    rest, e := events[..|events| - 1], events[|events| - 1];
  }

  lemma {:induction false} AppliedReports(indexed: map<string, Override>, overrides: seq<Override>, events: seq<StoredEvent>)
    returns (places: seq<nat>)
    requires Indexes(indexed, overrides)
    ensures ReportsExactly(overrides, events, places, AppliedTo(indexed, events))
    decreases |events|
  {
    if events == [] {
      places := [];
    } else {
      var rest, e := AppliedNext(indexed, events);
      var before := AppliedReports(indexed, overrides, rest);
      places := OneMoreReport(indexed, overrides, rest, e, before, AppliedTo(indexed, rest));
    }
  }

  /** The record of applied overrides lists exactly the decided events, in order, with what was given. */
  lemma AppliedListsDecided(events: seq<StoredEvent>, overrides: seq<Override>) returns (places: seq<nat>)
    requires Apply(events, overrides).Ok?
    ensures ReportsExactly(overrides, events, places, Apply(events, overrides).value.1)
  {
    IndexOkIff(overrides);
    places := AppliedReports(Index(overrides).value, overrides, events);
  }

  // ---- the whole result ------------------------------------------------------------------

  /** The final state names the session, counts the events and describes the last one. */
  ghost predicate Describes(s: ReplayState, sessionId: string, events: seq<StoredEvent>) {
    && s.sessionId == sessionId && s.eventCount == |events|
    && (forall name :: CountIn(s.eventTypes, name) == OfType(events, name))
    && if events == [] then
         s.lastEventId.None? && s.lastEventType.None? && s.lastSequence.None? && s.lastTimestamp.None?
       else
         var last := events[|events| - 1];
         && s.lastEventId == Some(last.eventId) && s.lastEventType == Some(TypeName(last.typ))
         && s.lastSequence == Some(last.sequence) && s.lastTimestamp == Some(last.timestamp)
  }

  lemma ReduceDescribes(sessionId: string, events: seq<StoredEvent>, applied: seq<Applied>)
    ensures Describes(Reduce(sessionId, events, applied), sessionId, events)
    ensures Reduce(sessionId, events, applied).appliedOverrides == applied
  {
    forall name ensures CountIn(Reduce(sessionId, events, applied).eventTypes, name) == OfType(events, name) {
      CountsAreExact(events, name);
    }
  }

  lemma FinishContents(h: string -> string, sessionId: string, until: Option<int>, events: seq<StoredEvent>,
                       overrides: seq<Override>) returns (places: seq<nat>)
    requires Finish(h, sessionId, until, events, overrides).Ok?
    ensures var r := Finish(h, sessionId, until, events, overrides).value;
      && r.sessionId == sessionId && r.replayedUntilSequence == until && |r.events| == |events|
      && (forall i | 0 <= i < |events| :: ReplayedAs(overrides, events[i], r.events[i]))
      && Describes(r.finalState, sessionId, r.events)
      && ReportsExactly(overrides, events, places, r.finalState.appliedOverrides)
  {
    OverridesChangeOnlyNamedEvents(events, overrides);
    places := AppliedListsDecided(events, overrides);
    ReduceDescribes(sessionId, Apply(events, overrides).value.0, Apply(events, overrides).value.1);
  }

  /** Which events a replay of a verified journal is about, and what it is labelled with. */
  lemma ReplayIsFinish(h: string -> string, digest: Digest, sessionId: string, events: seq<StoredEvent>,
                       until: Option<int>, overrides: seq<Override>) returns (n: nat)
    requires ValidChain(digest, events) && Replay(h, sessionId, events, true, until, overrides).Ok?
    ensures n <= |events| && n == if until.Some? then until.value else |events|
    ensures Replay(h, sessionId, events, true, until, overrides)
         == Finish(h, Trim(sessionId), if n == 0 then None else Some(n), events[..n], overrides)
  {
    if until.Some? {
      n := UntilIsInside(h, digest, sessionId, events, until.value, overrides);
      UpToOfChain(digest, events, n);
    } else {
      n := |events|;
      WholeIsFinish(h, digest, sessionId, events, overrides);
      assert events[..n] == events;
    }
  }

  lemma WholeIsFinish(h: string -> string, digest: Digest, sessionId: string, events: seq<StoredEvent>, overrides: seq<Override>)
    requires ValidChain(digest, events) && Trim(sessionId) != ""
    ensures Replay(h, sessionId, events, true, None, overrides)
         == Finish(h, Trim(sessionId), if events == [] then None else Some(|events|), events, overrides)
  {
    if events != [] { assert Linked(digest, events, |events| - 1); }
  }

  lemma UntilIsInside(h: string -> string, digest: Digest, sessionId: string, events: seq<StoredEvent>, until: int,
                      overrides: seq<Override>) returns (n: nat)
    requires ValidChain(digest, events) && Replay(h, sessionId, events, true, Some(until), overrides).Ok?
    ensures n == until && 1 <= n <= |events|
  {
    if until < 1 || until > |events| { ReplayUntilUnknown(h, digest, sessionId, events, until, overrides); }
    n := until;
  }

  /**
   * What a successful replay of a verified journal returns: the events up to the requested one,
   * each with the payload and metadata of the override that decides it or its own; exactly the
   * decided events reported; and a final state that describes those events.
   */
  lemma ReplayIsOfItsEvents(h: string -> string, digest: Digest, sessionId: string, events: seq<StoredEvent>,
                            until: Option<int>, overrides: seq<Override>) returns (n: nat, places: seq<nat>)
    requires ValidChain(digest, events) && Replay(h, sessionId, events, true, until, overrides).Ok?
    ensures n <= |events| && n == if until.Some? then until.value else |events|
    ensures var r := Replay(h, sessionId, events, true, until, overrides).value;
      && r.sessionId == Trim(sessionId) && r.replayedUntilSequence == (if n == 0 then None else Some(n)) && |r.events| == n
      && (forall i | 0 <= i < n :: ReplayedAs(overrides, events[i], r.events[i]))
      && Describes(r.finalState, r.sessionId, r.events)
      && ReportsExactly(overrides, events[..n], places, r.finalState.appliedOverrides)
  {
    n := ReplayIsFinish(h, digest, sessionId, events, until, overrides);
    places := FinishContents(h, Trim(sessionId), if n == 0 then None else Some(n), events[..n], overrides);
  }

  // ---- replays that are refused ----------------------------------------------------------

  /** The overrides can be applied to these events: well formed, no target twice, and each names an event. */
  ghost predicate Applicable(overrides: seq<Override>, events: seq<StoredEvent>) {
    WellFormedOverrides(overrides) && forall k | 0 <= k < |overrides| :: NamesSome(overrides[k], events)
  }

  /** What is wrong with a request before its overrides are looked at. */
  function Fault(sessionId: string, integrityOk: bool, until: Option<int>, count: nat): Option<ReplayError> {
    if Trim(sessionId) == "" then Some(ThrowsEmptyText)
    else if !integrityOk then Some(IntegrityFailed)
    else if until.None? then None
    else if !(1 <= until.value <= 9007199254740991) then Some(ThrowsNotPositive)
    else if until.value > count then Some(SequenceNotFound)
    else None
  }

  lemma WithinChain(digest: Digest, events: seq<StoredEvent>, n: int)
    requires ValidChain(digest, events)
    ensures (forall i | 0 <= i < |events| :: events[i].sequence != n) <==> !(1 <= n <= |events|)
  {
    forall i | 0 <= i < |events| ensures events[i].sequence == i + 1 {
      assert Linked(digest, events, i);
    }
    if 1 <= n <= |events| { assert events[n - 1].sequence == n; }
  }

  /**
   * Of a session whose events are numbered and linked: a faulty request gets its own error, and any
   * other is replayed exactly when its overrides apply to the events up to the requested one.
   */
  lemma ReplayOkIff(h: string -> string, digest: Digest, sessionId: string, events: seq<StoredEvent>, integrityOk: bool,
                    until: Option<int>, overrides: seq<Override>)
    requires ValidChain(digest, events)
    ensures var r, fault := Replay(h, sessionId, events, integrityOk, until, overrides), Fault(sessionId, integrityOk, until, |events|);
      && (fault.Some? ==> r == Err(fault.value))
      && (fault.None? ==> (r.Ok? <==> Applicable(overrides, if until.Some? then events[..until.value] else events)))
  {
    if until.Some? {
      WithinChain(digest, events, until.value);
      if until.value >= 0 { UpToOfChain(digest, events, until.value); }
      if Fault(sessionId, integrityOk, until, |events|).None? { ApplyOkIff(events[..until.value], overrides); }
    } else {
      ApplyOkIff(events, overrides);
    }
  }
}
