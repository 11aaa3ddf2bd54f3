/**
 * Normalizing a list of capabilities (src/agent-run/capability-dependency-rules.ts and
 * src/agent-run/capability-preconditions.ts): missing predecessors are inserted, the order is
 * fixed, and what is left is checked.
 */
module CapabilityRules {
  import opened Common

  datatype Capability =
    | TextNormalize | JsonExtract | JsonSelect | JsonMerge | MathAdd | Echo
    | CatalogProduct | CatalogPrice | CatalogAvailability | OrdersFindById | KbFindByProductName

  /** `uniqueStable`: the first occurrence of each item, in order. */
  function UniqueStable(items: seq<Capability>): seq<Capability> {
    if items == [] then []
    else
      var before, last := UniqueStable(items[..|items| - 1]), items[|items| - 1];
      if last in items[..|items| - 1] then before else before + [last]
  }

  method Unique(items: seq<Capability>) returns (out: seq<Capability>)
    ensures out == UniqueStable(items)
  {
    var seen: set<Capability> := {};
    out := [];
    for i := 0 to |items|
      invariant out == UniqueStable(items[..i])
      invariant forall c :: c in seen <==> c in items[..i]
    {
      assert items[..i + 1][..i] == items[..i];
      if items[i] !in seen {
        seen := seen + {items[i]};
        out := out + [items[i]];
      }
    }
    assert items[..|items|] == items;
  }

  predicate NoRepeats(items: seq<Capability>) {
    forall i, j | 0 <= i < j < |items| :: items[i] != items[j]
  }

  lemma {:induction false} UniqueKeeps(items: seq<Capability>)
    ensures NoRepeats(UniqueStable(items)) && forall c :: c in UniqueStable(items) <==> c in items
  {
    if items != [] {
      var init := items[..|items| - 1];
      UniqueKeeps(init);
      assert items == init + [items[|items| - 1]];
    }
  }

  lemma {:induction false} UniqueOfNoRepeats(items: seq<Capability>)
    requires NoRepeats(items)
    ensures UniqueStable(items) == items
  {
    if items != [] {
      var init := items[..|items| - 1];
      UniqueOfNoRepeats(init);
      assert items == init + [items[|items| - 1]];
    }
  }

  // ---- the fixed order -------------------------------------------------------------------

  /** The place of a capability in the order in which they are pushed; the last two are never pushed. */
  function Place(c: Capability): nat {
    match c
    case CatalogProduct => 0
    case CatalogPrice => 1
    case CatalogAvailability => 2
    case OrdersFindById => 3
    case KbFindByProductName => 4
    case TextNormalize => 5
    case JsonExtract => 6
    case JsonSelect => 7
    case JsonMerge => 8
    case MathAdd => 9
    case Echo => 10
  }

  const PLACES := 9

  function At(k: nat): (c: Capability)
    requires k < PLACES
    ensures Place(c) == k
  {
    match k
    case 0 => CatalogProduct
    case 1 => CatalogPrice
    case 2 => CatalogAvailability
    case 3 => OrdersFindById
    case 4 => KbFindByProductName
    case 5 => TextNormalize
    case 6 => JsonExtract
    case 7 => JsonSelect
    case 8 => JsonMerge
  }

  lemma PlaceDecides(a: Capability, b: Capability)
    requires Place(a) == Place(b)
    ensures a == b
  {
  }

  function Opt(present: bool, c: Capability): seq<Capability> {
    if present then [c] else []
  }

  /** The members of `s` at the first `k` places, in order. */
  function InOrder(s: set<Capability>, k: nat): seq<Capability>
    requires k <= PLACES
  {
    if k == 0 then [] else InOrder(s, k - 1) + Opt(At(k - 1) in s, At(k - 1))
  }

  predicate InPlace(items: seq<Capability>) {
    forall i, j | 0 <= i < j < |items| :: Place(items[i]) < Place(items[j])
  }

  /** The items are the members of `s` at the first `k` places. */
  ghost predicate Lists(items: seq<Capability>, s: set<Capability>, k: nat) {
    InPlace(items) && forall c :: c in items <==> c in s && Place(c) < k
  }

  lemma OneMorePlace(before: seq<Capability>, s: set<Capability>, k: nat)
    requires k < PLACES && Lists(before, s, k)
    ensures Lists(before + Opt(At(k) in s, At(k)), s, k + 1)
  {
    var items := before + Opt(At(k) in s, At(k));
    forall c ensures c in items <==> c in s && Place(c) < k + 1 {
      if Place(c) == k { PlaceDecides(c, At(k)); }
    }
    forall i | 0 <= i < |before| ensures Place(before[i]) < k { assert before[i] in before; }
  }

  lemma {:induction false} InOrderLists(s: set<Capability>, k: nat)
    requires k <= PLACES
    ensures Lists(InOrder(s, k), s, k)
  {
    if k > 0 {
      InOrderLists(s, k - 1);
      OneMorePlace(InOrder(s, k - 1), s, k - 1);
    }
  }

  lemma InOrderIs(s: set<Capability>, k: nat)
    requires k <= PLACES
    ensures InPlace(InOrder(s, k)) && forall c :: c in InOrder(s, k) <==> c in s && Place(c) < k
  {
    InOrderLists(s, k);
  }

  lemma InPlaceNoRepeats(items: seq<Capability>)
    requires InPlace(items)
    ensures NoRepeats(items)
  {
    forall i, j | 0 <= i < j < |items| ensures items[i] != items[j] { assert Place(items[i]) < Place(items[j]); }
  }

  lemma {:induction false} InOrderSame(s: set<Capability>, t: set<Capability>, k: nat)
    requires k <= PLACES && forall c | Place(c) < k :: c in s <==> c in t
    ensures InOrder(s, k) == InOrder(t, k)
  {
    if k > 0 { InOrderSame(s, t, k - 1); }
  }

  // ---- insertion -------------------------------------------------------------------------

  datatype Normalized = Normalized(capabilities: seq<Capability>, inserted: seq<Capability>)

  /** The capabilities asked for, closed under the predecessors of select and merge. */
  function Closed(caps: seq<Capability>): set<Capability> {
    (set c | c in caps) + (if NeedsExtract(caps) then {JsonExtract} else {}) + (if NeedsSelect(caps) then {JsonSelect} else {})
  }

  /** The list `insertRequiredCapabilities` pushes. */
  function Pushed(caps: seq<Capability>): seq<Capability> {
    InOrder(Closed(caps), PLACES)
  }

  predicate NeedsExtract(caps: seq<Capability>) {
    JsonExtract in caps || JsonSelect in caps || JsonMerge in caps
  }

  predicate NeedsSelect(caps: seq<Capability>) {
    JsonSelect in caps || JsonMerge in caps
  }

  function Inserted(caps: seq<Capability>): seq<Capability> {
    Opt(NeedsExtract(caps) && JsonExtract !in caps, JsonExtract) + Opt(NeedsSelect(caps) && JsonSelect !in caps, JsonSelect)
  }

  /** The normalization of a list without repeats. */
  function NormalizeUnique(caps: seq<Capability>): Normalized {
    if MathAdd in caps then Normalized([MathAdd], [])
    else if Echo in caps && |caps| == 1 then Normalized([Echo], [])
    else if Echo in caps then Normalized(caps, [])
    else Normalized(Pushed(caps), Inserted(caps))
  }

  /** `normalizeCapabilityPipelineDetailed`. */
  function Normalize(capabilities: seq<Capability>): Normalized {
    NormalizeUnique(UniqueStable(capabilities))
  }

  lemma OneMore(s: set<Capability>, k: nat, out: seq<Capability>)
    requires k < PLACES && out == InOrder(s, k)
    ensures InOrder(s, k + 1) == out + Opt(At(k) in s, At(k))
  {
  }

  /** The six pushes that depend on nothing else. */
  method PushPlain(caps: seq<Capability>) returns (out: seq<Capability>)
    ensures out == InOrder(Closed(caps), 6)
  {
    ghost var s := Closed(caps);
    out := [];
    OneMore(s, 0, out);
    out := out + Opt(CatalogProduct in caps, CatalogProduct);
    OneMore(s, 1, out);
    out := out + Opt(CatalogPrice in caps, CatalogPrice);
    OneMore(s, 2, out);
    out := out + Opt(CatalogAvailability in caps, CatalogAvailability);
    OneMore(s, 3, out);
    out := out + Opt(OrdersFindById in caps, OrdersFindById);
    OneMore(s, 4, out);
    out := out + Opt(KbFindByProductName in caps, KbFindByProductName);
    OneMore(s, 5, out);
    out := out + Opt(TextNormalize in caps, TextNormalize);
  }

  /** The JSON pushes, with the predecessors they insert. */
  method PushJson(caps: seq<Capability>, plain: seq<Capability>) returns (out: seq<Capability>, inserted: seq<Capability>)
    requires plain == InOrder(Closed(caps), 6)
    ensures out == Pushed(caps) && inserted == Inserted(caps)
  {
    var hasExtract, hasSelect, hasMerge := JsonExtract in caps, JsonSelect in caps, JsonMerge in caps;
    ghost var s := Closed(caps);
    out, inserted := plain, [];
    OneMore(s, 6, out);
    if (hasSelect || hasMerge) && !hasExtract {
      inserted := inserted + [JsonExtract];
      out := out + [JsonExtract];
    } else if hasExtract {
      out := out + [JsonExtract];
    }
    OneMore(s, 7, InOrder(s, 7));
    if hasSelect {
      out := out + [JsonSelect];
    }
    if hasMerge {
      if !hasSelect {
        inserted := inserted + [JsonSelect];
        out := out + [JsonSelect];
      }
      OneMore(s, 8, out);
      out := out + [JsonMerge];
    } else {
      OneMore(s, 8, out);
    }
  }

  method InsertRequiredCapabilities(capabilities: seq<Capability>) returns (r: Normalized)
    ensures var caps := UniqueStable(capabilities);
      r == if MathAdd in caps || Echo in caps then Normalized(caps, []) else Normalized(Pushed(caps), Inserted(caps))
  {
    var caps := Unique(capabilities);
    if MathAdd in caps || Echo in caps {
      return Normalized(caps, []);
    }
    var plain := PushPlain(caps);
    var out, inserted := PushJson(caps, plain);
    PushedNoRepeats(caps);
    UniqueOfNoRepeats(out);
    UniqueOfNoRepeats(inserted);
    var capabilitiesOut := Unique(out);
    var insertedOut := Unique(inserted);
    return Normalized(capabilitiesOut, insertedOut);
  }

  method NormalizeCapabilityPipelineDetailed(capabilities: seq<Capability>) returns (r: Normalized)
    ensures r == Normalize(capabilities)
  {
    var caps := Unique(capabilities);
    if MathAdd in caps {
      return Normalized([MathAdd], []);
    }
    if Echo in caps && |caps| == 1 {
      return Normalized([Echo], []);
    }
    UniqueKeeps(capabilities);
    UniqueOfNoRepeats(caps);
    r := InsertRequiredCapabilities(caps);
  }

  /** What is pushed: in the fixed order, closed under the predecessors of select and merge. */
  lemma PushedIs(caps: seq<Capability>)
    ensures InPlace(Pushed(caps)) && forall c :: c in Pushed(caps) <==> c in Closed(caps) && Place(c) < PLACES
  {
    InOrderIs(Closed(caps), PLACES);
  }

  lemma PushedNoRepeats(caps: seq<Capability>)
    ensures NoRepeats(Pushed(caps)) && NoRepeats(Inserted(caps))
  {
    PushedIs(caps);
    InPlaceNoRepeats(Pushed(caps));
  }

  lemma NormalizedNoRepeats(caps: seq<Capability>)
    requires NoRepeats(caps)
    ensures NoRepeats(NormalizeUnique(caps).capabilities)
  {
    PushedNoRepeats(caps);
  }

  lemma NormalizeUniqueTwice(caps: seq<Capability>)
    ensures var once := NormalizeUnique(caps).capabilities; NormalizeUnique(once) == Normalized(once, [])
  {
    if MathAdd !in caps && Echo !in caps {
      PushedTwice(caps);
      PushedIs(caps);
      assert MathAdd !in Pushed(caps) && Echo !in Pushed(caps);
    }
  }

  /** Normalizing twice is normalizing once, and the second time nothing is inserted. */
  lemma NormalizeIdempotent(capabilities: seq<Capability>)
    ensures Normalize(Normalize(capabilities).capabilities) == Normalized(Normalize(capabilities).capabilities, [])
  {
    var caps := UniqueStable(capabilities);
    var once := NormalizeUnique(caps).capabilities;
    UniqueKeeps(capabilities);
    NormalizedNoRepeats(caps);
    UniqueOfNoRepeats(once);
    NormalizeUniqueTwice(caps);
  }

  lemma PushedTwice(caps: seq<Capability>)
    ensures Pushed(Pushed(caps)) == Pushed(caps) && Inserted(Pushed(caps)) == []
  {
    PushedIs(caps);
    var once := Pushed(caps);
    assert JsonExtract in once <==> NeedsExtract(caps);
    assert JsonSelect in once <==> NeedsSelect(caps);
    assert JsonMerge in once <==> JsonMerge in caps;
    forall c | Place(c) < PLACES ensures c in Closed(once) <==> c in Closed(caps) {
      assert c in once <==> c in Closed(caps);
    }
    InOrderSame(Closed(once), Closed(caps), PLACES);
  }

  datatype Verdict = Passes | Refused(code: string)

  /** The checks of `validateCapabilityPipeline`, on a list without repeats. */
  function Check(caps: seq<Capability>): Verdict {
    if caps == [] then Refused("EMPTY_CAPABILITY_PIPELINE")
    else if MathAdd in caps && |caps| > 1 then Refused("INVALID_CAPABILITY_COMBINATION")
    else if Echo in caps && |caps| > 1 then Refused("INVALID_CAPABILITY_COMBINATION")
    else if (JsonSelect in caps || JsonMerge in caps) && JsonExtract !in caps then Refused("MISSING_EXTRACT_PRECONDITION")
    else if JsonMerge in caps && JsonSelect !in caps then Refused("MISSING_SELECT_PRECONDITION")
    else Passes
  }

  /** `validateCapabilityPipeline`. */
  function Validate(capabilities: seq<Capability>): Verdict {
    Check(UniqueStable(capabilities))
  }

  method ValidateCapabilityPipeline(capabilities: seq<Capability>) returns (r: Verdict)
    ensures r == Validate(capabilities)
  {
    var caps := Unique(capabilities);
    r := Check(caps);
  }

  /** A list that can be planned: it asks for math.add, or it is not empty and does not mix echo with anything else. */
  predicate Plannable(capabilities: seq<Capability>) {
    || MathAdd in capabilities
    || (capabilities != [] && (Echo in capabilities ==> forall i | 0 <= i < |capabilities| :: capabilities[i] == Echo))
  }

  lemma OnlyEcho(capabilities: seq<Capability>)
    requires Echo in capabilities
    ensures |UniqueStable(capabilities)| == 1 <==> forall i | 0 <= i < |capabilities| :: capabilities[i] == Echo
  {
    var caps := UniqueStable(capabilities);
    UniqueKeeps(capabilities);
    assert Echo in caps;
    if |caps| == 1 {
      forall i | 0 <= i < |capabilities| ensures capabilities[i] == Echo { assert capabilities[i] in caps; }
    } else {
      assert caps[0] != caps[1] && caps[0] in capabilities && caps[1] in capabilities;
    }
  }

  lemma PushedNotEmpty(caps: seq<Capability>)
    requires caps != [] && MathAdd !in caps && Echo !in caps
    ensures Pushed(caps) != []
  {
    PushedIs(caps);
    assert caps[0] in caps && caps[0] in Pushed(caps);
  }

  lemma PushedChecks(caps: seq<Capability>)
    requires MathAdd !in caps && Echo !in caps
    ensures Check(Pushed(caps)).Passes? <==> Pushed(caps) != []
  {
    PushedIs(caps);
    var once := Pushed(caps);
    assert MathAdd !in once && Echo !in once;
    assert JsonExtract in once <==> NeedsExtract(caps);
    assert JsonSelect in once <==> NeedsSelect(caps);
    assert JsonMerge in once <==> JsonMerge in caps;
  }

  lemma HeadIn(items: seq<Capability>)
    requires items != []
    ensures items[0] in items
  {
  }

  lemma PushedOfNothing()
    ensures Pushed([]) == []
  {
    PushedIs([]);
    var once := Pushed([]);
    assert forall c :: c !in Closed([]) by {
      assert Closed([]) == {};
    }
    assert forall c :: c !in once;
    if once != [] { HeadIn(once); }
  }

  /** What the check says of a normalized list without repeats. */
  lemma CheckNormalizedIff(caps: seq<Capability>)
    requires NoRepeats(caps)
    ensures Check(NormalizeUnique(caps).capabilities).Passes?
      <==> MathAdd in caps || (caps != [] && (Echo in caps ==> |caps| == 1))
  {
    if MathAdd !in caps && Echo !in caps {
      PushedChecks(caps);
      if caps == [] { PushedOfNothing(); } else { PushedNotEmpty(caps); }
    }
  }

  lemma PlannableIff(capabilities: seq<Capability>)
    ensures var caps := UniqueStable(capabilities);
      Plannable(capabilities) <==> MathAdd in caps || (caps != [] && (Echo in caps ==> |caps| == 1))
  {
    var caps := UniqueStable(capabilities);
    UniqueKeeps(capabilities);
    if Echo in capabilities { OnlyEcho(capabilities); }
    if capabilities != [] { assert capabilities[0] in caps; }
    if caps != [] { assert caps[0] in capabilities; }
  }

  /** After normalization the check refuses exactly the lists that cannot be planned. */
  lemma ValidAfterNormalizeIff(capabilities: seq<Capability>)
    ensures Validate(Normalize(capabilities).capabilities).Passes? <==> Plannable(capabilities)
  {
    var caps := UniqueStable(capabilities);
    UniqueKeeps(capabilities);
    NormalizedNoRepeats(caps);
    UniqueOfNoRepeats(NormalizeUnique(caps).capabilities);
    CheckNormalizedIff(caps);
    PlannableIff(capabilities);
  }
}
