/**
 * JavaScript records: keys with values in enumeration (insertion) order. Assigning to a
 * present key keeps its place, assigning to a new key adds it at the end.
 */
module Records {
  import opened Sorting
  import opened JsStrings

  datatype Entry<+V> = Entry(key: string, value: V)

  function KeySet<V>(es: seq<Entry<V>>): set<string> {
    set i | 0 <= i < |es| :: es[i].key
  }

  ghost predicate DistinctKeys<V>(es: seq<Entry<V>>) {
    forall i, j | 0 <= i < j < |es| :: es[i].key != es[j].key
  }

  predicate Has<V>(es: seq<Entry<V>>, k: string) {
    exists i | 0 <= i < |es| :: es[i].key == k
  }

  function Get<V>(es: seq<Entry<V>>, k: string): (v: V)
    requires Has(es, k)
    ensures exists i | 0 <= i < |es| :: es[i] == Entry(k, v)
  {
    if es[0].key == k then
      assert es[0] == Entry(k, es[0].value);
      es[0].value
    else
      assert Has(es[1..], k) by {
        var i :| 0 <= i < |es| && es[i].key == k;
        assert es[1..][i - 1].key == k;
      }
      Get(es[1..], k)
  }

  function Put<V>(es: seq<Entry<V>>, k: string, v: V): seq<Entry<V>> {
    if es == [] then [Entry(k, v)]
    else if es[0].key == k then [Entry(k, v)] + es[1..]
    else [es[0]] + Put(es[1..], k, v)
  }

  lemma GetAt<V>(es: seq<Entry<V>>, i: nat)
    requires i < |es| && DistinctKeys(es)
    ensures Has(es, es[i].key) && Get(es, es[i].key) == es[i].value
  {
    var v := Get(es, es[i].key);
    var j :| 0 <= j < |es| && es[j] == Entry(es[i].key, v);
  }

  lemma {:induction false} PutSemantics<V>(es: seq<Entry<V>>, k: string, v: V)
    ensures KeySet(Put(es, k, v)) == KeySet(es) + {k}
    ensures forall x :: Has(Put(es, k, v), x) <==> Has(es, x) || x == k
    ensures Has(Put(es, k, v), k) && Get(Put(es, k, v), k) == v
    ensures forall x | x != k && Has(es, x) :: Get(Put(es, k, v), x) == Get(es, x)
  {
    var r := Put(es, k, v);
    if es == [] {
      assert r[0].key == k;
    } else {
      PutSemantics(es[1..], k, v);
      HasTail(es);
      HasTail(r);
      if es[0].key == k {
        assert r[1..] == es[1..];
      } else {
        assert r[1..] == Put(es[1..], k, v);
      }
    }
    forall x ensures x in KeySet(r) <==> x in KeySet(es) + {k} {
      assert x in KeySet(r) <==> Has(r, x);
      assert x in KeySet(es) <==> Has(es, x);
    }
  }

  /** The same, for one key. */
  lemma PutGet<V>(es: seq<Entry<V>>, k: string, v: V, x: string)
    ensures Has(Put(es, k, v), x) <==> Has(es, x) || x == k
    ensures Has(Put(es, k, v), x) ==> Get(Put(es, k, v), x) == if x == k then v else Get(es, x)
  {
    PutSemantics(es, k, v);
  }

  lemma HasTail<V>(es: seq<Entry<V>>)
    requires es != []
    ensures forall x :: Has(es, x) <==> x == es[0].key || Has(es[1..], x)
  {
    forall x ensures Has(es, x) <==> x == es[0].key || Has(es[1..], x) {
      if Has(es, x) {
        var i :| 0 <= i < |es| && es[i].key == x;
        if i > 0 { assert es[1..][i - 1].key == x; }
      }
      if Has(es[1..], x) {
        var i :| 0 <= i < |es[1..]| && es[1..][i].key == x;
        assert es[i + 1].key == x;
      }
    }
  }

  /** Writing the same value twice is writing it once. */
  lemma {:induction false} PutTwice<V>(es: seq<Entry<V>>, k: string, v: V)
    ensures Put(Put(es, k, v), k, v) == Put(es, k, v)
  {
    if es != [] && es[0].key != k {
      PutTwice(es[1..], k, v);
      assert Put(es, k, v)[1..] == Put(es[1..], k, v);
    }
  }

  lemma {:induction false} PutKeepsDistinct<V>(es: seq<Entry<V>>, k: string, v: V)
    requires DistinctKeys(es)
    ensures DistinctKeys(Put(es, k, v))
  {
    if es != [] && es[0].key != k {
      PutKeepsDistinct(es[1..], k, v);
      PutSemantics(es[1..], k, v);
      var r := Put(es[1..], k, v);
      forall j | 0 <= j < |r| ensures r[j].key != es[0].key {
        assert Has(r, r[j].key);
        if r[j].key != k {
          assert Has(es[1..], r[j].key);
          var i :| 0 <= i < |es[1..]| && es[1..][i].key == r[j].key;
          assert es[i + 1].key == r[j].key;
        }
      }
    }
  }

  /**
   * `after` is `before` with `v` under `k`: every other key keeps its value, present keys keep
   * their places, and a new key comes last.
   */
  ghost predicate StoredAt<V>(before: seq<Entry<V>>, after: seq<Entry<V>>, k: string, v: V) {
    && Has(after, k) && Get(after, k) == v
    && (forall x | x != k && Has(before, x) :: Has(after, x) && Get(after, x) == Get(before, x))
    && |after| == (if Has(before, k) then |before| else |before| + 1)
    && (forall i | 0 <= i < |before| :: after[i].key == before[i].key)
    && (!Has(before, k) ==> after[|before|].key == k)
  }

  lemma {:induction false} PutKeepsPlaces<V>(es: seq<Entry<V>>, k: string, v: V)
    ensures |Put(es, k, v)| == if Has(es, k) then |es| else |es| + 1
    ensures forall i | 0 <= i < |es| :: Put(es, k, v)[i].key == es[i].key
    ensures !Has(es, k) ==> Put(es, k, v)[|es|].key == k
  {
    if es != [] {
      HasTail(es);
      if es[0].key != k { PutKeepsPlaces(es[1..], k, v); }
    }
  }

  lemma PutIsStored<V>(es: seq<Entry<V>>, k: string, v: V)
    ensures StoredAt(es, Put(es, k, v), k, v)
  {
    PutSemantics(es, k, v);
    PutKeepsPlaces(es, k, v);
  }

  // ---- key order -------------------------------------------------------------------------

  predicate KeyLeq<V>(a: Entry<V>, b: Entry<V>) {
    Leq(a.key, b.key)
  }

  /** `Object.keys(o).sort()` applied to the entries. */
  function SortByKey<V>(es: seq<Entry<V>>): (r: seq<Entry<V>>)
    ensures |r| == |es|
  {
    Sort(KeyLeq<V>, es)
  }

  lemma KeyLeqTotal<V(!new)>()
    ensures TotalPreorder(KeyLeq<V>)
  {
    forall x: Entry<V>, y: Entry<V> ensures KeyLeq(x, y) || KeyLeq(y, x) {
      LessTotal(x.key, y.key);
      if Less(y.key, x.key) { LessAsymmetric(y.key, x.key); }
    }
    forall x: Entry<V>, y: Entry<V>, z: Entry<V> | KeyLeq(x, y) && KeyLeq(y, z) ensures KeyLeq(x, z) {
      LeqTransitive(x.key, y.key, z.key);
    }
  }

  lemma {:induction false} SortByKeyKeeps<V(!new)>(es: seq<Entry<V>>)
    ensures multiset(SortByKey(es)) == multiset(es)
    ensures forall e :: e in SortByKey(es) <==> e in es
    ensures KeySet(SortByKey(es)) == KeySet(es)
  {
    SortKeepsElements(KeyLeq<V>, es);
    SameElements(SortByKey(es), es);
    KeySetOfElements(SortByKey(es), es);
  }

  lemma KeySetOfElements<V>(a: seq<Entry<V>>, b: seq<Entry<V>>)
    requires forall e :: e in a <==> e in b
    ensures KeySet(a) == KeySet(b)
  {
    forall i | 0 <= i < |a| ensures a[i].key in KeySet(b) {
      assert a[i] in b;
    }
    forall i | 0 <= i < |b| ensures b[i].key in KeySet(a) {
      assert b[i] in a;
    }
  }

  lemma EntriesOf<V>(es: seq<Entry<V>>)
    requires DistinctKeys(es)
    ensures forall e :: e in es <==> Has(es, e.key) && Get(es, e.key) == e.value
  {
    forall e ensures e in es <==> Has(es, e.key) && Get(es, e.key) == e.value {
      if e in es {
        var i :| 0 <= i < |es| && es[i] == e;
        GetAt(es, i);
      }
    }
  }

  lemma DistinctKeysIff<V>(es: seq<Entry<V>>)
    ensures DistinctKeys(es) <==> Distinct(es) && forall x, y | x in es && y in es && x.key == y.key :: x == y
  {
    if Distinct(es) && forall x, y | x in es && y in es && x.key == y.key :: x == y {
      forall i, j | 0 <= i < j < |es| ensures es[i].key != es[j].key {
        assert es[i] in es && es[j] in es && es[i] != es[j];
      }
    }
  }

  lemma DistinctKeysOfPermutation<V>(a: seq<Entry<V>>, b: seq<Entry<V>>)
    requires DistinctKeys(a) && multiset(a) == multiset(b)
    ensures DistinctKeys(b) && KeySet(a) == KeySet(b)
  {
    DistinctKeysIff(a);
    DistinctKeysIff(b);
    DistinctOfPermutation(a, b);
    SameElements(a, b);
    KeySetOfElements(a, b);
  }

  lemma SameElementsSameMultiset<T>(a: seq<T>, b: seq<T>)
    requires Distinct(a) && Distinct(b)
    requires forall x :: x in a <==> x in b
    ensures multiset(a) == multiset(b)
  {
    DistinctIffNoRepeat(a);
    DistinctIffNoRepeat(b);
    forall x ensures multiset(a)[x] == multiset(b)[x] {
      assert multiset(a)[x] <= 1 && multiset(b)[x] <= 1;
      assert (x in multiset(a) <==> x in a) && (x in multiset(b) <==> x in b);
    }
  }

  lemma SortByKeyTwice<V(!new)>(es: seq<Entry<V>>)
    ensures SortByKey(SortByKey(es)) == SortByKey(es)
  {
    KeyLeqTotal<V>();
    SortOrdered(KeyLeq<V>, es);
    SortOfOrdered(KeyLeq<V>, SortByKey(es));
  }

  /** Records with the same keys and the same values sort to the same entries. */
  lemma SortByKeyCanonical<V(!new)>(a: seq<Entry<V>>, b: seq<Entry<V>>)
    requires DistinctKeys(a) && DistinctKeys(b) && KeySet(a) == KeySet(b)
    requires forall k | Has(a, k) && Has(b, k) :: Get(a, k) == Get(b, k)
    ensures SortByKey(a) == SortByKey(b)
  {
    EntriesOf(a);
    EntriesOf(b);
    forall e: Entry<V> ensures e in a <==> e in b {
      HasIffKey(a, e.key);
      HasIffKey(b, e.key);
    }
    DistinctKeysIff(a);
    DistinctKeysIff(b);
    SameElementsSameMultiset(a, b);
    KeyLeqTotal<V>();
    forall x, y | x in a && y in a && KeyLeq(x, y) && KeyLeq(y, x) ensures x == y {
      LessTotal(x.key, y.key);
    }
    SortOfPermutation(KeyLeq<V>, a, b);
  }

  lemma HasIffKey<V>(es: seq<Entry<V>>, k: string)
    ensures Has(es, k) <==> k in KeySet(es)
  {
  }

  lemma SortByKeyDistinct<V(!new)>(es: seq<Entry<V>>)
    requires DistinctKeys(es)
    ensures DistinctKeys(SortByKey(es)) && KeySet(SortByKey(es)) == KeySet(es)
    ensures forall k | Has(es, k) :: Has(SortByKey(es), k) && Get(SortByKey(es), k) == Get(es, k)
  {
    SortByKeyKeeps(es);
    DistinctKeysOfPermutation(es, SortByKey(es));
    EntriesOf(es);
    EntriesOf(SortByKey(es));
    forall k | Has(es, k) ensures Has(SortByKey(es), k) && Get(SortByKey(es), k) == Get(es, k) {
      assert Entry(k, Get(es, k)) in es;
    }
  }

  /** Keys in order, none twice. */
  ghost predicate Ascending<V>(es: seq<Entry<V>>) {
    forall i, j | 0 <= i < j < |es| :: Leq(es[i].key, es[j].key) && es[i].key != es[j].key
  }

  lemma SortedAscends<V(!new)>(es: seq<Entry<V>>)
    requires DistinctKeys(es)
    ensures Ascending(SortByKey(es))
  {
    SortByKeyDistinct(es);
    KeyLeqTotal<V>();
    SortOrdered(KeyLeq<V>, es);
    var r := SortByKey(es);
    forall i, j | 0 <= i < j < |r| ensures Leq(r[i].key, r[j].key) {
      assert KeyLeq(r[i], r[j]);
    }
  }

  lemma AscendingIsSorted<V(!new)>(es: seq<Entry<V>>)
    requires Ascending(es)
    ensures DistinctKeys(es) && SortByKey(es) == es
  {
    SortOfOrdered(KeyLeq<V>, es);
  }

  /** The sorted entries tell exactly which keys a record has, with which values. */
  lemma SortByKeyBinds<V(!new)>(a: seq<Entry<V>>, b: seq<Entry<V>>)
    requires DistinctKeys(a) && DistinctKeys(b)
    ensures SortByKey(a) == SortByKey(b)
        <==> KeySet(a) == KeySet(b) && forall k | Has(a, k) && Has(b, k) :: Get(a, k) == Get(b, k)
  {
    if SortByKey(a) == SortByKey(b) {
      SortByKeyDistinct(a);
      SortByKeyDistinct(b);
    } else if KeySet(a) == KeySet(b) && forall k | Has(a, k) && Has(b, k) :: Get(a, k) == Get(b, k) {
      SortByKeyCanonical(a, b);
    }
  }

  // ---- mapping values --------------------------------------------------------------------

  function MapValues<V, W>(f: V -> W, es: seq<Entry<V>>): (r: seq<Entry<W>>)
    ensures |r| == |es| && forall i | 0 <= i < |es| :: r[i] == Entry(es[i].key, f(es[i].value))
  {
    if es == [] then [] else [Entry(es[0].key, f(es[0].value))] + MapValues(f, es[1..])
  }

  lemma MapValuesGet<V, W>(f: V -> W, es: seq<Entry<V>>)
    requires DistinctKeys(es)
    ensures DistinctKeys(MapValues(f, es)) && KeySet(MapValues(f, es)) == KeySet(es)
    ensures forall k | Has(es, k) :: Has(MapValues(f, es), k) && Get(MapValues(f, es), k) == f(Get(es, k))
  {
    var r := MapValues(f, es);
    forall k | Has(es, k) ensures Has(r, k) && Get(r, k) == f(Get(es, k)) {
      var i :| 0 <= i < |es| && es[i] == Entry(k, Get(es, k));
      GetAt(r, i);
    }
    forall i | 0 <= i < |es| ensures es[i].key in KeySet(r) && r[i].key in KeySet(es) {
      assert r[i].key == es[i].key;
    }
  }

  /** Which keys a mapped and sorted record has, and what it maps them to, can be read back. */
  lemma MappedBinds<V(!new), W(!new)>(f: V -> W, a: seq<Entry<V>>, g: V -> W, b: seq<Entry<V>>)
    requires DistinctKeys(a) && DistinctKeys(b)
    ensures MapValues(f, SortByKey(a)) == MapValues(g, SortByKey(b))
        <==> KeySet(a) == KeySet(b) && forall k | Has(a, k) && Has(b, k) :: f(Get(a, k)) == g(Get(b, k))
  {
    MapOfSort(f, a);
    MapOfSort(g, b);
    MapValuesGet(f, a);
    MapValuesGet(g, b);
    var r, s := MapValues(f, a), MapValues(g, b);
    SortByKeyBinds(r, s);
    forall k ensures (Has(a, k) <==> Has(r, k)) && (Has(b, k) <==> Has(s, k)) {
      HasIffKey(a, k);
      HasIffKey(b, k);
      HasIffKey(r, k);
      HasIffKey(s, k);
    }
  }

  lemma {:induction false} MapOfInsert<V, W>(f: V -> W, e: Entry<V>, es: seq<Entry<V>>)
    ensures MapValues(f, Insert(KeyLeq<V>, e, es))
         == Insert(KeyLeq<W>, Entry(e.key, f(e.value)), MapValues(f, es))
  {
    if es != [] && !KeyLeq(e, es[0]) {
      MapOfInsert(f, e, es[1..]);
      assert MapValues(f, es)[1..] == MapValues(f, es[1..]);
      assert Insert(KeyLeq<V>, e, es)[1..] == Insert(KeyLeq<V>, e, es[1..]);
    }
  }

  /** Sorting the keys and changing the values can be done in either order. */
  lemma {:induction false} MapOfSort<V, W>(f: V -> W, es: seq<Entry<V>>)
    ensures MapValues(f, SortByKey(es)) == SortByKey(MapValues(f, es))
  {
    if es != [] {
      MapOfSort(f, es[1..]);
      MapOfInsert(f, es[0], SortByKey(es[1..]));
      assert MapValues(f, es)[1..] == MapValues(f, es[1..]);
    }
  }
}
