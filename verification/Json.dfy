/**
 * JSON values, `JSON.stringify` of them, and the canonical printer of the journal
 * (src/journal/hash.ts), which sorts the keys of every object. Numbers are integers.
 */
module Json {
  import opened Common
  import opened JsStrings
  import opened Records

  datatype Json =
    | Null
    | Bool(b: bool)
    | Num(n: int)
    | Str(s: string)
    | Arr(items: seq<Json>)
    | Obj(members: seq<Entry<Json>>)

  /** No object has the same key twice: what every JavaScript object satisfies. */
  ghost predicate WellFormed(v: Json) {
    match v
    case Arr(items) => forall i | 0 <= i < |items| :: WellFormed(items[i])
    case Obj(ms) => DistinctKeys(ms) && forall i | 0 <= i < |ms| :: WellFormed(ms[i].value)
    case _ => true
  }

  /** The payloads, inputs and schemas of the source: records of JSON values. */
  type Record = ms: seq<Entry<Json>> | WellFormed(Obj(ms)) ghost witness []

  /** The same value, up to the order in which objects list their keys. */
  ghost predicate Same(a: Json, b: Json) {
    match a
    case Arr(xs) => b.Arr? && |xs| == |b.items| && forall i | 0 <= i < |xs| :: Same(xs[i], b.items[i])
    case Obj(ms) =>
      && b.Obj? && KeySet(ms) == KeySet(b.members)
      && forall i | 0 <= i < |ms| :: Has(b.members, ms[i].key) && Same(ms[i].value, Get(b.members, ms[i].key))
    case _ => a == b
  }

  // ---- printing --------------------------------------------------------------------------

  function HexDigit(d: nat): char
    requires d < 16
  {
    if d < 10 then (d + 48) as char else (d + 87) as char
  }

  /** One character of a JSON string, as `JSON.stringify` writes it. */
  function Escape(c: char): string {
    if c == '\"' then "\\\""
    else if c == '\\' then "\\\\"
    else if c as int == 8 then "\\b"
    else if c as int == 9 then "\\t"
    else if c as int == 10 then "\\n"
    else if c as int == 12 then "\\f"
    else if c as int == 13 then "\\r"
    else if c as int < 32 then "\\u00" + [HexDigit(c as int / 16), HexDigit(c as int % 16)]
    else [c]
  }

  function EscapeAll(s: string): string {
    if s == "" then "" else Escape(s[0]) + EscapeAll(s[1..])
  }

  function Quote(s: string): string {
    "\"" + EscapeAll(s) + "\""
  }

  /** `JSON.stringify`: keys in enumeration order, no white space. */
  function Stringify(v: Json): string
    decreases v, 1
  {
    match v
    case Null => "null"
    case Bool(b) => if b then "true" else "false"
    case Num(n) => IntText(n)
    case Str(s) => Quote(s)
    case Arr(items) => "[" + StringifyItems(items) + "]"
    case Obj(ms) => "{" + StringifyMembers(ms) + "}"
  }

  function StringifyItems(items: seq<Json>): string
    decreases items, 0
  {
    if items == [] then ""
    else if |items| == 1 then Stringify(items[0])
    else Stringify(items[0]) + "," + StringifyItems(items[1..])
  }

  function StringifyMembers(ms: seq<Entry<Json>>): string
    decreases ms, 0
  {
    if ms == [] then ""
    else if |ms| == 1 then Quote(ms[0].key) + ":" + Stringify(ms[0].value)
    else Quote(ms[0].key) + ":" + Stringify(ms[0].value) + "," + StringifyMembers(ms[1..])
  }

  // ---- canonical form --------------------------------------------------------------------

  /** The value with the keys of every object sorted. */
  function SortKeys(v: Json): Json
    decreases v, 1
  {
    match v
    case Arr(items) => Arr(SortKeysItems(items))
    case Obj(ms) => Obj(SortByKey(SortKeysMembers(ms)))
    case _ => v
  }

  function SortKeysItems(items: seq<Json>): (r: seq<Json>)
    ensures |r| == |items| && forall i | 0 <= i < |items| :: r[i] == SortKeys(items[i])
    decreases items, 0
  {
    if items == [] then [] else [SortKeys(items[0])] + SortKeysItems(items[1..])
  }

  function SortKeysMembers(ms: seq<Entry<Json>>): (r: seq<Entry<Json>>)
    ensures |r| == |ms| && forall i | 0 <= i < |ms| :: r[i] == Entry(ms[i].key, SortKeys(ms[i].value))
    decreases ms, 0
  {
    if ms == [] then [] else [Entry(ms[0].key, SortKeys(ms[0].value))] + SortKeysMembers(ms[1..])
  }

  function Join(parts: seq<string>): string {
    if parts == [] then ""
    else if |parts| == 1 then parts[0]
    else parts[0] + "," + Join(parts[1..])
  }

  function JoinEntries(parts: seq<Entry<string>>): string {
    if parts == [] then ""
    else if |parts| == 1 then Quote(parts[0].key) + ":" + parts[0].value
    else Quote(parts[0].key) + ":" + parts[0].value + "," + JoinEntries(parts[1..])
  }

  /** `canonicalJsonStringify`: every object is printed with its keys sorted. */
  function Canonical(v: Json): string
    decreases v, 1
  {
    match v
    case Arr(items) => "[" + Join(CanonicalItems(items)) + "]"
    case Obj(ms) => "{" + JoinEntries(SortByKey(CanonicalMembers(ms))) + "}"
    case _ => Stringify(v)
  }

  function CanonicalItems(items: seq<Json>): (r: seq<string>)
    ensures |r| == |items| && forall i | 0 <= i < |items| :: r[i] == Canonical(items[i])
    decreases items, 0
  {
    if items == [] then [] else [Canonical(items[0])] + CanonicalItems(items[1..])
  }

  function CanonicalMembers(ms: seq<Entry<Json>>): (r: seq<Entry<string>>)
    ensures |r| == |ms| && forall i | 0 <= i < |ms| :: r[i] == Entry(ms[i].key, Canonical(ms[i].value))
    decreases ms, 0
  {
    if ms == [] then [] else [Entry(ms[0].key, Canonical(ms[0].value))] + CanonicalMembers(ms[1..])
  }

  /** The canonical printer prints the key-sorted value. */
  lemma {:induction false} CanonicalIsSorted(v: Json)
    ensures Canonical(v) == Stringify(SortKeys(v))
  {
    match v
    case Arr(items) =>
      forall i | 0 <= i < |items| ensures Canonical(items[i]) == Stringify(SortKeys(items[i])) {
        CanonicalIsSorted(items[i]);
      }
      JoinIsStringify(CanonicalItems(items), SortKeysItems(items));
    case Obj(ms) =>
      forall i | 0 <= i < |ms| ensures Canonical(ms[i].value) == Stringify(SortKeys(ms[i].value)) {
        CanonicalIsSorted(ms[i].value);
      }
      assert CanonicalMembers(ms) == MapValues(Stringify, SortKeysMembers(ms));
      MapOfSort(Stringify, SortKeysMembers(ms));
      JoinEntriesIsStringify(SortByKey(SortKeysMembers(ms)));
    case _ =>
  }

  lemma {:induction false} JoinIsStringify(parts: seq<string>, items: seq<Json>)
    requires |parts| == |items| && forall i | 0 <= i < |items| :: parts[i] == Stringify(items[i])
    ensures Join(parts) == StringifyItems(items)
  {
    if |items| > 1 { JoinIsStringify(parts[1..], items[1..]); }
  }

  lemma {:induction false} JoinEntriesIsStringify(ms: seq<Entry<Json>>)
    ensures JoinEntries(MapValues(Stringify, ms)) == StringifyMembers(ms)
  {
    if |ms| > 1 {
      JoinEntriesIsStringify(ms[1..]);
      assert MapValues(Stringify, ms)[1..] == MapValues(Stringify, ms[1..]);
    }
  }

  // ---- sorting keys identifies exactly the values that differ in key order only ----------

  /** Sorting the keys of what is sorted changes nothing. */
  lemma {:induction false} SortKeysTwice(v: Json)
    ensures SortKeys(SortKeys(v)) == SortKeys(v)
  {
    match v
    case Arr(items) =>
      forall i | 0 <= i < |items| ensures SortKeys(SortKeys(items[i])) == SortKeys(items[i]) { SortKeysTwice(items[i]); }
      assert SortKeysItems(SortKeysItems(items)) == SortKeysItems(items);
    case Obj(ms) =>
      var es := SortKeysMembers(ms);
      forall i | 0 <= i < |ms| ensures SortKeys(es[i].value) == es[i].value { SortKeysTwice(ms[i].value); }
      SortedStays(es);
    case _ =>
  }

  lemma SortedStays(es: seq<Entry<Json>>)
    requires forall i | 0 <= i < |es| :: SortKeys(es[i].value) == es[i].value
    ensures SortByKey(SortKeysMembers(SortByKey(es))) == SortByKey(es)
  {
    var r := SortByKey(es);
    SortByKeyKeeps(es);
    forall i | 0 <= i < |r| ensures SortKeys(r[i].value) == r[i].value {
      assert r[i] in es;
    }
    assert SortKeysMembers(r) == r;
    SortByKeyTwice(es);
  }

  lemma {:induction false} SortKeysWellFormed(v: Json)
    requires WellFormed(v)
    ensures WellFormed(SortKeys(v))
  {
    match v
    case Arr(items) =>
      forall i | 0 <= i < |items| ensures WellFormed(SortKeys(items[i])) { SortKeysWellFormed(items[i]); }
    case Obj(ms) =>
      var es := SortKeysMembers(ms);
      forall i | 0 <= i < |ms| ensures WellFormed(es[i].value) { SortKeysWellFormed(ms[i].value); }
      SortByKeyDistinct(es);
      SortByKeyKeeps(es);
      forall i | 0 <= i < |es| ensures WellFormed(SortByKey(es)[i].value) {
        assert SortByKey(es)[i] in es;
      }
    case _ =>
  }

  lemma SortKeysMembersGet(ms: seq<Entry<Json>>)
    requires DistinctKeys(ms)
    ensures DistinctKeys(SortKeysMembers(ms)) && KeySet(SortKeysMembers(ms)) == KeySet(ms)
    ensures forall k | Has(ms, k) :: Has(SortKeysMembers(ms), k) && Get(SortKeysMembers(ms), k) == SortKeys(Get(ms, k))
  {
    var es := SortKeysMembers(ms);
    forall k | Has(ms, k) ensures Has(es, k) && Get(es, k) == SortKeys(Get(ms, k)) {
      var i :| 0 <= i < |ms| && ms[i] == Entry(k, Get(ms, k));
      GetAt(es, i);
    }
    forall i | 0 <= i < |ms| ensures ms[i].key in KeySet(es) && es[i].key in KeySet(ms) {
      assert es[i].key == ms[i].key;
    }
  }

  lemma {:induction false} SameImpliesSortKeys(a: Json, b: Json)
    requires WellFormed(a) && WellFormed(b) && Same(a, b)
    ensures SortKeys(a) == SortKeys(b)
  {
    match a
    case Arr(xs) =>
      forall i | 0 <= i < |xs| ensures SortKeys(xs[i]) == SortKeys(b.items[i]) { SameImpliesSortKeys(xs[i], b.items[i]); }
      assert SortKeysItems(xs) == SortKeysItems(b.items);
    case Obj(ms) =>
      var ns := b.members;
      SortKeysMembersGet(ms);
      SortKeysMembersGet(ns);
      forall k | Has(SortKeysMembers(ms), k) && Has(SortKeysMembers(ns), k)
        ensures Get(SortKeysMembers(ms), k) == Get(SortKeysMembers(ns), k)
      {
        HasIffKey(SortKeysMembers(ms), k);
        HasIffKey(ms, k);
        HasIffKey(ns, k);
        var i :| 0 <= i < |ms| && ms[i] == Entry(k, Get(ms, k));
        var j :| 0 <= j < |ns| && ns[j] == Entry(k, Get(ns, k));
        SameImpliesSortKeys(ms[i].value, ns[j].value);
      }
      SortByKeyCanonical(SortKeysMembers(ms), SortKeysMembers(ns));
    case _ =>
  }

  lemma {:induction false} SortKeysImpliesSame(a: Json, b: Json)
    requires WellFormed(a) && WellFormed(b) && SortKeys(a) == SortKeys(b)
    ensures Same(a, b)
  {
    match a
    case Arr(xs) =>
      assert |xs| == |SortKeysItems(xs)| == |b.items|;
      forall i | 0 <= i < |xs| ensures Same(xs[i], b.items[i]) {
        assert SortKeysItems(xs)[i] == SortKeysItems(b.items)[i];
        SortKeysImpliesSame(xs[i], b.items[i]);
      }
    case Obj(ms) =>
      var ns := b.members;
      SortKeysMembersGet(ms);
      SortKeysMembersGet(ns);
      SortByKeyDistinct(SortKeysMembers(ms));
      SortByKeyDistinct(SortKeysMembers(ns));
      forall i | 0 <= i < |ms| ensures Has(ns, ms[i].key) && Same(ms[i].value, Get(ns, ms[i].key)) {
        var k := ms[i].key;
        GetAt(ms, i);
        HasIffKey(ns, k);
        var j :| 0 <= j < |ns| && ns[j] == Entry(k, Get(ns, k));
        SortKeysImpliesSame(ms[i].value, ns[j].value);
      }
    case _ =>
  }

  lemma SameIffSortKeys(a: Json, b: Json)
    requires WellFormed(a) && WellFormed(b)
    ensures Same(a, b) <==> SortKeys(a) == SortKeys(b)
  {
    if Same(a, b) { SameImpliesSortKeys(a, b); }
    if SortKeys(a) == SortKeys(b) { SortKeysImpliesSame(a, b); }
  }

  /** Records that list the same keys in the same order are compared field by field. */
  lemma SameFields(ms: seq<Entry<Json>>, ns: seq<Entry<Json>>)
    requires DistinctKeys(ms) && |ms| == |ns| && forall i | 0 <= i < |ms| :: ms[i].key == ns[i].key
    ensures Same(Obj(ms), Obj(ns)) <==> forall i | 0 <= i < |ms| :: Same(ms[i].value, ns[i].value)
  {
    forall i | 0 <= i < |ms| ensures Has(ns, ms[i].key) && Get(ns, ms[i].key) == ns[i].value {
      GetAt(ns, i);
    }
    assert KeySet(ms) == KeySet(ns) by {
      forall i | 0 <= i < |ms| ensures ms[i].key in KeySet(ns) && ns[i].key in KeySet(ms) {
        assert ns[i].key == ms[i].key;
      }
    }
  }
}
