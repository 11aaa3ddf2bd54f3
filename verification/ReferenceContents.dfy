/**
 * What the references of an input resolve to (src/agent/mock-adapter.ts): exactly which values a
 * dotted path reads, and exactly what an input becomes.
 */
module ReferenceContents {
  import opened Common
  import opened JsStrings
  import opened Records
  import opened Json
  import opened CanonicalPlan
  import opened StepDependencies
  import opened StepBinding
  import opened MockAdapter

  // ---- paths -----------------------------------------------------------------------------

  /** Following the parts from `v` leads to `w`: an array by the number of an item, an object by a key. */
  ghost predicate Leads(v: Json, parts: seq<string>, w: Json)
    decreases |parts|
  {
    if parts == [] then w == v
    else
      match v
      case Arr(items) => exists i | 0 <= i < |items| :: parts[0] == NatText(i) && Leads(items[i], parts[1..], w)
      case Obj(ms) => Has(ms, parts[0]) && Leads(Get(ms, parts[0]), parts[1..], w)
      case _ => false
  }

  lemma {:induction false} NatTextOfFold(s: string)
    requires IsIndexText(s)
    ensures AllDigits(s) && NatText(Fold(0, s)) == s
    decreases |s|
  {
    if |s| == 1 {
      assert s == [s[0]] && s[1..] == "";
      assert Digit(DigitValue(s[0])) == s[0];
    } else {
      var front, c := s[..|s| - 1], s[|s| - 1];
      assert s == front + [c] && IsIndexText(front);
      NatTextOfFold(front);
      FoldAppend(0, front, c);
      FoldPositive(front);
      assert Fold(0, s) / 10 == Fold(0, front) && Fold(0, s) % 10 == DigitValue(c);
      assert Digit(DigitValue(c)) == c;
    }
  }

  lemma {:induction false} FoldGrows(acc: nat, s: string)
    requires AllDigits(s)
    ensures Fold(acc, s) >= acc
    decreases |s|
  {
    if s != "" { FoldGrows(acc * 10 + DigitValue(s[0]), s[1..]); }
  }

  lemma FoldPositive(s: string)
    requires s != "" && AllDigits(s) && s[0] != '0'
    ensures Fold(0, s) > 0
  {
    FoldGrows(DigitValue(s[0]), s[1..]);
  }

  lemma {:induction false} NatTextIsIndex(n: nat)
    ensures IsIndexText(NatText(n)) && (n > 0 ==> NatText(n)[0] != '0')
  {
    if n >= 10 { NatTextIsIndex(n / 10); }
  }

  /** A part names an item of an array exactly when it is the number of that item. */
  lemma IndexTextIff(part: string, i: nat)
    ensures part == NatText(i) <==> IsIndexText(part) && AllDigits(part) && Fold(0, part) == i
  {
    if part == NatText(i) {
      NatTextIsIndex(i);
      FoldOfNatText(i);
    } else if IsIndexText(part) {
      NatTextOfFold(part);
    }
  }

  lemma ArrayLeads(items: seq<Json>, parts: seq<string>, w: Json)
    requires parts != []
    ensures Leads(Arr(items), parts, w) <==>
      IsIndexText(parts[0]) && Fold(0, parts[0]) < |items| && Leads(items[Fold(0, parts[0])], parts[1..], w)
  {
    if Leads(Arr(items), parts, w) {
      var i :| 0 <= i < |items| && parts[0] == NatText(i) && Leads(items[i], parts[1..], w);
      IndexTextIff(parts[0], i);
    }
    if IsIndexText(parts[0]) { IndexTextIff(parts[0], Fold(0, parts[0])); }
  }

  /** Exactly the values the parts lead to are read. */
  lemma {:induction false} WalkIff(v: Json, parts: seq<string>, path: string, w: Json)
    ensures Walk(v, parts, path) == Ok(w) <==> Leads(v, parts, w)
    decreases |parts|
  {
    if parts != [] {
      match v
      case Arr(items) =>
        ArrayLeads(items, parts, w);
        if IsIndexText(parts[0]) && Fold(0, parts[0]) < |items| { WalkIff(items[Fold(0, parts[0])], parts[1..], path, w); }
      case Obj(ms) => if Has(ms, parts[0]) { WalkIff(Get(ms, parts[0]), parts[1..], path, w); }
      case _ =>
    }
  }

  // ---- writing a path --------------------------------------------------------------------

  /** Parts that can be written in a path: not empty, without a dot. */
  predicate Writable(parts: seq<string>) {
    forall i | 0 <= i < |parts| :: parts[i] != "" && '.' !in parts[i]
  }

  /** The parts with dots between them. */
  function Dotted(parts: seq<string>): string {
    if parts == [] then "" else if |parts| == 1 then parts[0] else parts[0] + "." + Dotted(parts[1..])
  }

  lemma {:induction false} PartsOfDotted(parts: seq<string>)
    requires Writable(parts)
    ensures PathParts(Dotted(parts)) == parts
  {
    if |parts| == 1 {
      assert IndexOf(parts[0], '.').None?;
    } else if |parts| > 1 {
      var path := Dotted(parts);
      FirstDot(parts[0], Dotted(parts[1..]));
      assert path[..|parts[0]|] == parts[0] && path[|parts[0]| + 1..] == Dotted(parts[1..]);
      PartsOfDotted(parts[1..]);
    }
  }

  /** A path written with dots reads exactly the value its parts lead to, array items included. */
  lemma PathReadsIff(root: Json, parts: seq<string>, w: Json)
    requires Writable(parts)
    ensures GetPathValue(root, Dotted(parts)) == Ok(w) <==> Leads(root, parts, w)
  {
    PartsOfDotted(parts);
    WalkIff(root, parts, Dotted(parts), w);
  }

  // ---- references ------------------------------------------------------------------------

  /** The reference stands for `w`: the stored text itself, or what its path reads in the parsed text. */
  ghost predicate StandsFor(parse: string -> Option<Json>, values: seq<Entry<string>>, rawRef: string, w: Json) {
    && Has(values, RefKey(rawRef))
    && var stored := Get(values, RefKey(rawRef));
      if RefPath(rawRef) == "" then w == Str(stored)
      else parse(stored).Some? && Leads(parse(stored).value, PathParts(RefPath(rawRef)), w)
  }

  lemma RefIff(parse: string -> Option<Json>, values: seq<Entry<string>>, rawRef: string, w: Json)
    ensures ResolveRef(parse, values, rawRef) == Ok(w) <==> StandsFor(parse, values, rawRef, w)
  {
    if Has(values, RefKey(rawRef)) {
      var root := parse(Get(values, RefKey(rawRef)));
      if root.Some? { WalkIff(root.value, PathParts(RefPath(rawRef)), RefPath(rawRef), w); }
    }
  }

  /** A reference made of a key and parts stands for the key's text, or for what the parts lead to in it. */
  lemma MadeReference(parse: string -> Option<Json>, values: seq<Entry<string>>, key: string, parts: seq<string>, w: Json)
    requires '.' !in key && Writable(parts)
    ensures StandsFor(parse, values, STATE_PREFIX + Dotted([key] + parts), w) <==>
      (&& Has(values, key)
       && if parts == [] then w == Str(Get(values, key))
          else parse(Get(values, key)).Some? && Leads(parse(Get(values, key)).value, parts, w))
  {
    var expr := Dotted([key] + parts);
    assert (STATE_PREFIX + expr)[|STATE_PREFIX|..] == expr;
    assert StripPrefix(STATE_PREFIX + expr) == expr;
    if parts == [] {
      assert IndexOf(key, '.').None?;
    } else {
      assert ([key] + parts)[1..] == parts;
      FirstDot(key, Dotted(parts));
      assert expr[..|key|] == key && expr[|key| + 1..] == Dotted(parts);
      PartsOfDotted(parts);
      assert Dotted(parts) != "";
    }
  }

  /** `w` is `v` with every reference, at any depth, replaced by what it stands for. */
  ghost predicate Resolves(parse: string -> Option<Json>, values: seq<Entry<string>>, v: Json, w: Json) {
    match v
    case Arr(xs) => w.Arr? && |w.items| == |xs| && forall i | 0 <= i < |xs| :: Resolves(parse, values, xs[i], w.items[i])
    case Obj(ms) =>
      if IsRefShape(ms) then StandsFor(parse, values, JsText(ms[0].value), w)
      else
        && w.Obj? && |w.members| == |ms|
        && forall i | 0 <= i < |ms| ::
          w.members[i].key == ms[i].key && Resolves(parse, values, ms[i].value, w.members[i].value)
    case _ => w == v
  }

  /** The items resolve one by one. */
  lemma {:induction false} ItemsIff(parse: string -> Option<Json>, values: seq<Entry<string>>, xs: seq<Json>, ws: seq<Json>)
    ensures ResolveItems(parse, values, xs) == Ok(ws) <==>
      |ws| == |xs| && forall i | 0 <= i < |xs| :: Resolves(parse, values, xs[i], ws[i])
    decreases xs, 0
  {
    if xs != [] {
      if |ws| == |xs| {
        ResolveIff(parse, values, xs[0], ws[0]);
        ItemsIff(parse, values, xs[1..], ws[1..]);
        ItemsSplit(parse, values, xs, ws);
        assert ws == [ws[0]] + ws[1..];
      } else if ResolveItems(parse, values, xs).Ok? {
        ItemsIff(parse, values, xs[1..], ResolveItems(parse, values, xs[1..]).value);
      }
    }
  }

  lemma ItemsSplit(parse: string -> Option<Json>, values: seq<Entry<string>>, xs: seq<Json>, ws: seq<Json>)
    requires |ws| == |xs| > 0
    ensures (forall i | 0 <= i < |xs| :: Resolves(parse, values, xs[i], ws[i])) <==>
      Resolves(parse, values, xs[0], ws[0]) && forall i | 0 <= i < |xs[1..]| :: Resolves(parse, values, xs[1..][i], ws[1..][i])
  {
    if forall i | 0 <= i < |xs[1..]| :: Resolves(parse, values, xs[1..][i], ws[1..][i]) {
      forall i | 0 < i < |xs| ensures Resolves(parse, values, xs[i], ws[i]) {
        assert xs[1..][i - 1] == xs[i] && ws[1..][i - 1] == ws[i];
      }
    }
  }

  ghost predicate ResolvesMember(parse: string -> Option<Json>, values: seq<Entry<string>>, m: Entry<Json>, w: Entry<Json>) {
    w.key == m.key && Resolves(parse, values, m.value, w.value)
  }

  lemma MembersSplit(parse: string -> Option<Json>, values: seq<Entry<string>>, ms: seq<Entry<Json>>, ws: seq<Entry<Json>>)
    requires |ws| == |ms| > 0
    ensures (forall i | 0 <= i < |ms| :: ResolvesMember(parse, values, ms[i], ws[i])) <==>
      ResolvesMember(parse, values, ms[0], ws[0])
      && forall i | 0 <= i < |ms[1..]| :: ResolvesMember(parse, values, ms[1..][i], ws[1..][i])
  {
    if forall i | 0 <= i < |ms[1..]| :: ResolvesMember(parse, values, ms[1..][i], ws[1..][i]) {
      forall i | 0 < i < |ms| ensures ResolvesMember(parse, values, ms[i], ws[i]) {
        assert ms[1..][i - 1] == ms[i] && ws[1..][i - 1] == ws[i];
      }
    }
  }

  lemma {:induction false} MembersIff(parse: string -> Option<Json>, values: seq<Entry<string>>, ms: seq<Entry<Json>>,
                                      ws: seq<Entry<Json>>)
    ensures ResolveMembers(parse, values, ms) == Ok(ws) <==>
      |ws| == |ms| && forall i | 0 <= i < |ms| :: ResolvesMember(parse, values, ms[i], ws[i])
    decreases ms, 0
  {
    if ms != [] {
      if |ws| == |ms| {
        ResolveIff(parse, values, ms[0].value, ws[0].value);
        MembersIff(parse, values, ms[1..], ws[1..]);
        MembersSplit(parse, values, ms, ws);
        assert ws == [ws[0]] + ws[1..];
      } else if ResolveMembers(parse, values, ms).Ok? {
        MembersIff(parse, values, ms[1..], ResolveMembers(parse, values, ms[1..]).value);
      }
    }
  }

  /** Exactly when an input resolves, and what it becomes. */
  lemma {:induction false} ResolveIff(parse: string -> Option<Json>, values: seq<Entry<string>>, v: Json, w: Json)
    ensures ResolveInputRefs(parse, values, v) == Ok(w) <==> Resolves(parse, values, v, w)
    decreases v, 1
  {
    match v
    case Arr(items) =>
      if w.Arr? { ItemsIff(parse, values, items, w.items); }
    case Obj(ms) =>
      if IsRefShape(ms) {
        RefIff(parse, values, JsText(ms[0].value), w);
      } else if w.Obj? {
        MembersIff(parse, values, ms, w.members);
      }
    case _ =>
  }
}
