/** Canonicalization forgets the order of the steps and the key order of every object in the plan. */
module PlanPermutation {
  import opened Common
  import opened Sorting
  import opened JsStrings
  import opened Records
  import opened Json
  import opened PlanTypes
  import opened CanonicalPlan

  // ---- inputs that differ in key order only ----------------------------------------------

  lemma SingleKey(ns: seq<Entry<Json>>, k: string)
    requires DistinctKeys(ns) && KeySet(ns) == {k}
    ensures |ns| == 1 && ns[0].key == k
  {
    assert k in KeySet(ns);
    forall i | 0 <= i < |ns| ensures ns[i].key == k {
      assert ns[i].key in KeySet(ns);
    }
    assert ns[0].key == ns[|ns| - 1].key;
  }

  lemma SameRefShape(ms: seq<Entry<Json>>, ns: seq<Entry<Json>>)
    requires DistinctKeys(ms) && DistinctKeys(ns) && KeySet(ms) == KeySet(ns)
    ensures IsRefShape(ms) <==> IsRefShape(ns)
    ensures IsRefShape(ms) ==> ns[0].key == ms[0].key
  {
    if |ms| == 1 {
      assert KeySet(ms) == {ms[0].key};
      SingleKey(ns, ms[0].key);
    }
    if |ns| == 1 {
      assert KeySet(ns) == {ns[0].key};
      SingleKey(ms, ns[0].key);
    }
  }

  /** Inputs equal up to key order canonicalize to the same value, or both are refused. */
  lemma {:induction false} CanonOfSame(nfc: Normalizer, a: Json, b: Json)
    requires WellFormed(a) && WellFormed(b) && Same(a, b)
    ensures CanonOk(a) == CanonOk(b)
    ensures CanonOk(a) ==> CanonValue(nfc, a) == CanonValue(nfc, b)
    decreases a, 1
  {
    match a
    case Arr(xs) =>
      forall i | 0 <= i < |xs|
        ensures CanonOk(xs[i]) == CanonOk(b.items[i])
        ensures CanonOk(xs[i]) ==> CanonValue(nfc, xs[i]) == CanonValue(nfc, b.items[i])
      {
        CanonOfSame(nfc, xs[i], b.items[i]);
      }
      if CanonOk(a) { assert CanonItems(nfc, xs) == CanonItems(nfc, b.items); }
    case Obj(ms) => CanonOfSameObjects(nfc, ms, b.members, a);
    case _ =>
  }

  lemma {:induction false} CanonOfSameObjects(nfc: Normalizer, ms: seq<Entry<Json>>, ns: seq<Entry<Json>>, a: Json)
    requires a == Obj(ms) && WellFormed(a) && WellFormed(Obj(ns)) && Same(a, Obj(ns))
    ensures CanonOk(a) == CanonOk(Obj(ns))
    ensures CanonOk(a) ==> CanonValue(nfc, a) == CanonValue(nfc, Obj(ns))
    decreases a, 0
  {
    SameRefShape(ms, ns);
    forall k | k in KeySet(ms)
      ensures Has(ms, k) && Has(ns, k) && CanonOk(Get(ms, k)) == CanonOk(Get(ns, k))
      ensures CanonOk(Get(ms, k)) ==> CanonValue(nfc, Get(ms, k)) == CanonValue(nfc, Get(ns, k))
    {
      HasIffKey(ms, k);
      HasIffKey(ns, k);
      var i :| 0 <= i < |ms| && ms[i] == Entry(k, Get(ms, k));
      var j :| 0 <= j < |ns| && ns[j] == Entry(k, Get(ns, k));
      CanonOfSame(nfc, ms[i].value, ns[j].value);
    }
    if IsRefShape(ms) {
      GetAt(ms, 0);
      GetAt(ns, 0);
      assert Same(ms[0].value, Get(ns, ms[0].key));
    } else {
      CanonOfSameMembers(nfc, ms, ns);
    }
  }

  lemma CanonOfSameMembers(nfc: Normalizer, ms: seq<Entry<Json>>, ns: seq<Entry<Json>>)
    requires DistinctKeys(ms) && DistinctKeys(ns) && KeySet(ms) == KeySet(ns) && !IsRefShape(ms) && !IsRefShape(ns)
    requires forall k | k in KeySet(ms) :: Has(ms, k) && Has(ns, k) && CanonOk(Get(ms, k)) == CanonOk(Get(ns, k))
    requires forall k | k in KeySet(ms) :: CanonOk(Get(ms, k)) ==> CanonValue(nfc, Get(ms, k)) == CanonValue(nfc, Get(ns, k))
    ensures CanonOk(Obj(ms)) == CanonOk(Obj(ns))
    ensures CanonOk(Obj(ms)) ==> CanonValue(nfc, Obj(ms)) == CanonValue(nfc, Obj(ns))
  {
    AllOkByKey(ms);
    AllOkByKey(ns);
    if CanonOk(Obj(ms)) {
      CanonMembersGet(nfc, ms);
      CanonMembersGet(nfc, ns);
      SortByKeyCanonical(CanonMembers(nfc, ms), CanonMembers(nfc, ns));
    }
  }

  lemma AllOkByKey(ms: seq<Entry<Json>>)
    requires DistinctKeys(ms)
    ensures (forall i | 0 <= i < |ms| :: CanonOk(ms[i].value))
            <==> forall k | k in KeySet(ms) :: Has(ms, k) && CanonOk(Get(ms, k))
  {
    forall i | 0 <= i < |ms| ensures ms[i].key in KeySet(ms) && Has(ms, ms[i].key) && Get(ms, ms[i].key) == ms[i].value {
      GetAt(ms, i);
    }
  }

  lemma CanonMembersGet(nfc: Normalizer, ms: seq<Entry<Json>>)
    requires DistinctKeys(ms) && forall i | 0 <= i < |ms| :: CanonOk(ms[i].value)
    ensures
      var es := CanonMembers(nfc, ms);
      && DistinctKeys(es) && KeySet(es) == KeySet(ms)
      && forall k | Has(es, k) :: Has(ms, k) && CanonOk(Get(ms, k)) && Get(es, k) == CanonValue(nfc, Get(ms, k))
  {
    var es := CanonMembers(nfc, ms);
    forall k | Has(es, k) ensures Has(ms, k) && CanonOk(Get(ms, k)) && Get(es, k) == CanonValue(nfc, Get(ms, k)) {
      var i :| 0 <= i < |es| && es[i] == Entry(k, Get(es, k));
      GetAt(ms, i);
    }
    SameKeysSameSet(es, ms);
  }

  lemma SameKeysSameSet<U, V>(es: seq<Entry<U>>, ms: seq<Entry<V>>)
    requires |es| == |ms| && forall i | 0 <= i < |es| :: es[i].key == ms[i].key
    ensures KeySet(es) == KeySet(ms)
  {
    forall i | 0 <= i < |ms| ensures ms[i].key in KeySet(es) && es[i].key in KeySet(ms) {
      assert es[i].key == ms[i].key;
    }
  }

  /** A raw step is read field by field, so the order of its keys does not matter. */
  lemma NormStepOfSame(nfc: Normalizer, a: Json, b: Json)
    requires WellFormed(a) && WellFormed(b) && Same(a, b)
    ensures NormStep(nfc, a) == NormStep(nfc, b)
  {
    if a.Obj? {
      ReadOfSame(nfc, a.members, b.members);
    }
  }

  /** Every field of the two records reads the same. */
  lemma FieldOfSame(nfc: Normalizer, ms: seq<Entry<Json>>, ns: seq<Entry<Json>>, k: string)
    requires WellFormed(Obj(ms)) && WellFormed(Obj(ns)) && Same(Obj(ms), Obj(ns))
    ensures forall max :: NormText(nfc, Field(ms, k), max) == NormText(nfc, Field(ns, k), max)
    ensures NormInteger(Field(ms, k)) == NormInteger(Field(ns, k))
    ensures NormInput(nfc, Field(ms, k)) == NormInput(nfc, Field(ns, k))
    ensures Field(ms, k).Some? && Field(ms, k).value.Str? ==> Field(ns, k) == Field(ms, k)
    ensures Field(ns, k).Some? && Field(ns, k).value.Str? ==> Field(ns, k) == Field(ms, k)
  {
    HasIffKey(ms, k);
    HasIffKey(ns, k);
    if Has(ms, k) {
      var i :| 0 <= i < |ms| && ms[i] == Entry(k, Get(ms, k));
      var j :| 0 <= j < |ns| && ns[j] == Entry(k, Get(ns, k));
      CanonOfSame(nfc, ms[i].value, ns[j].value);
    }
  }

  lemma ReadOfSame(nfc: Normalizer, ms: seq<Entry<Json>>, ns: seq<Entry<Json>>)
    requires WellFormed(Obj(ms)) && WellFormed(Obj(ns)) && Same(Obj(ms), Obj(ns))
    ensures Read(nfc, ms) == Read(nfc, ns)
  {
    FieldOfSame(nfc, ms, ns, "kind");
    FieldOfSame(nfc, ms, ns, "id");
    FieldOfSame(nfc, ms, ns, "sessionId");
    FieldOfSame(nfc, ms, ns, "url");
    FieldOfSame(nfc, ms, ns, "selector");
    FieldOfSame(nfc, ms, ns, "text");
    FieldOfSame(nfc, ms, ns, "toolId");
    FieldOfSame(nfc, ms, ns, "outputKey");
    FieldOfSame(nfc, ms, ns, "input");
    FieldOfSame(nfc, ms, ns, "maxIterations");
    FieldOfSame(nfc, ms, ns, "key");
    FieldOfSame(nfc, ms, ns, "value");
  }

  // ---- canonicalization forgets the order of steps and of keys ---------------------------

  ghost function StepOf(nfc: Normalizer): Json -> Step {
    v => if NormStep(nfc, v).Some? then NormStep(nfc, v).value else AppendLog("", "")
  }

  lemma NormAllOfPermutation(nfc: Normalizer, a: seq<Json>, b: seq<Json>)
    requires multiset(a) == multiset(b)
    ensures NormAll(nfc, a).Some? == NormAll(nfc, b).Some?
    ensures NormAll(nfc, a).Some? ==> multiset(NormAll(nfc, a).value) == multiset(NormAll(nfc, b).value)
  {
    SameElements(a, b);
    if NormAll(nfc, a).Some? {
      forall i | 0 <= i < |b| ensures NormStep(nfc, b[i]).Some? {
        assert b[i] in a;
      }
      MapPermutation(StepOf(nfc), a, b);
      NormAllIsMap(nfc, a);
      NormAllIsMap(nfc, b);
    } else {
      var i :| 0 <= i < |a| && NormStep(nfc, a[i]).None?;
      assert a[i] in b;
    }
  }

  lemma NormAllIsMap(nfc: Normalizer, a: seq<Json>)
    requires NormAll(nfc, a).Some?
    ensures NormAll(nfc, a).value == MapSeq(StepOf(nfc), a)
  {
    forall i | 0 <= i < |a| ensures NormAll(nfc, a).value[i] == StepOf(nfc)(a[i]) {
      assert NormStep(nfc, a[i]) == Some(NormAll(nfc, a).value[i]);
    }
  }

  /**
   * The same plan written differently: steps in any order, and the keys of every object in any
   * order. Sorting the keys of a raw step identifies the steps that differ in key order only.
   */
  ghost predicate SamePlan(a: seq<Entry<Json>>, b: seq<Entry<Json>>) {
    && KeySet(a) == KeySet(b)
    && Field(a, "planId") == Field(b, "planId")
    && Field(a, "version") == Field(b, "version")
    && Field(a, "steps").Some? && Field(a, "steps").value.Arr?
    && Field(b, "steps").Some? && Field(b, "steps").value.Arr?
    && multiset(SortKeysItems(Field(a, "steps").value.items)) == multiset(SortKeysItems(Field(b, "steps").value.items))
  }

  lemma SameAsSorted(v: Json)
    requires WellFormed(v)
    ensures WellFormed(SortKeys(v)) && Same(v, SortKeys(v))
  {
    SortKeysWellFormed(v);
    SortKeysTwice(v);
    SameIffSortKeys(v, SortKeys(v));
  }

  lemma NormAllOfSorted(nfc: Normalizer, items: seq<Json>)
    requires WellFormed(Arr(items))
    ensures NormAll(nfc, items) == NormAll(nfc, SortKeysItems(items))
  {
    var zs := SortKeysItems(items);
    forall i | 0 <= i < |items| ensures NormStep(nfc, items[i]) == NormStep(nfc, zs[i]) {
      SameAsSorted(items[i]);
      NormStepOfSame(nfc, items[i], zs[i]);
    }
    if NormAll(nfc, items).Some? {
      assert NormAll(nfc, items).value == NormAll(nfc, zs).value;
    }
  }

  lemma IdsMultiset(a: seq<Step>, b: seq<Step>)
    requires multiset(a) == multiset(b)
    ensures multiset(Ids(a)) == multiset(Ids(b))
  {
    var id := (s: Step) => s.id;
    MapPermutation(id, a, b);
    assert Ids(a) == MapSeq(id, a) && Ids(b) == MapSeq(id, b);
  }

  /** With distinct ids, the sort has only one possible outcome. */
  lemma SortOfPermutedSteps(a: seq<Step>, b: seq<Step>)
    requires multiset(a) == multiset(b) && Distinct(Ids(a))
    ensures Sort(StepLeq, a) == Sort(StepLeq, b)
  {
    StepLeqTotal();
    forall x, y | x in a && y in a && StepLeq(x, y) && StepLeq(y, x) ensures x == y {
      IdsDecide(x, y);
      var i :| 0 <= i < |a| && a[i] == x;
      var j :| 0 <= j < |a| && a[j] == y;
      assert Ids(a)[i] == Ids(a)[j];
    }
    SortOfPermutation(StepLeq, a, b);
  }

  lemma SortKeepsDistinctIds(a: seq<Step>)
    ensures Distinct(Ids(Sort(StepLeq, a))) <==> Distinct(Ids(a))
  {
    SortKeepsElements(StepLeq, a);
    IdsMultiset(a, Sort(StepLeq, a));
    DistinctOfPermutation(Ids(a), Ids(Sort(StepLeq, a)));
  }

  lemma SortedStepsAgree(a: seq<Step>, b: seq<Step>)
    requires multiset(a) == multiset(b)
    ensures Distinct(Ids(Sort(StepLeq, a))) <==> Distinct(Ids(Sort(StepLeq, b)))
    ensures Distinct(Ids(Sort(StepLeq, a))) ==> Sort(StepLeq, a) == Sort(StepLeq, b)
  {
    SortKeepsDistinctIds(a);
    SortKeepsDistinctIds(b);
    IdsMultiset(a, b);
    DistinctOfPermutation(Ids(a), Ids(b));
    if Distinct(Ids(a)) { SortOfPermutedSteps(a, b); }
  }

  lemma OnlyKeysBySet(ms: seq<Entry<Json>>, ns: seq<Entry<Json>>, allowed: set<string>)
    requires KeySet(ms) == KeySet(ns)
    ensures OnlyKeys(ms, allowed) == OnlyKeys(ns, allowed)
  {
    assert OnlyKeys(ms, allowed) <==> KeySet(ms) <= allowed;
    assert OnlyKeys(ns, allowed) <==> KeySet(ns) <= allowed;
  }

  lemma StepsWellFormed(raw: seq<Entry<Json>>)
    requires WellFormed(Obj(raw))
    ensures Field(raw, "steps").Some? ==> WellFormed(Field(raw, "steps").value)
  {
  }

  lemma HeaderOfSamePlan(nfc: Normalizer, a: seq<Entry<Json>>, b: seq<Entry<Json>>)
    requires SamePlan(a, b)
    ensures PlanHeader(nfc, a).Some? == PlanHeader(nfc, b).Some?
    ensures PlanHeader(nfc, a).Some? ==>
      && PlanHeader(nfc, a).value.0 == PlanHeader(nfc, b).value.0
      && PlanHeader(nfc, a).value.1 == Field(a, "steps").value.items
      && PlanHeader(nfc, b).value.1 == Field(b, "steps").value.items
  {
    OnlyKeysBySet(a, b, {"planId", "version", "steps"});
  }

  lemma StepsOfSamePlan(nfc: Normalizer, xs: seq<Json>, ys: seq<Json>)
    requires WellFormed(Arr(xs)) && WellFormed(Arr(ys))
    requires multiset(SortKeysItems(xs)) == multiset(SortKeysItems(ys))
    ensures NormAll(nfc, xs).Some? == NormAll(nfc, ys).Some?
    ensures NormAll(nfc, xs).Some? ==> multiset(NormAll(nfc, xs).value) == multiset(NormAll(nfc, ys).value)
  {
    NormAllOfSorted(nfc, xs);
    NormAllOfSorted(nfc, ys);
    NormAllOfPermutation(nfc, SortKeysItems(xs), SortKeysItems(ys));
  }

  /** Canonicalization is independent of step order and key order: both fail, or the same plan. */
  lemma CanonicalizeOfSamePlan(nfc: Normalizer, a: seq<Entry<Json>>, b: seq<Entry<Json>>)
    requires WellFormed(Obj(a)) && WellFormed(Obj(b)) && SamePlan(a, b)
    ensures Canonicalize(nfc, a) == Canonicalize(nfc, b)
  {
    var xs, ys := Field(a, "steps").value.items, Field(b, "steps").value.items;
    HeaderOfSamePlan(nfc, a, b);
    StepsWellFormed(a);
    StepsWellFormed(b);
    StepsOfSamePlan(nfc, xs, ys);
    if NormAll(nfc, xs).Some? {
      SortedStepsAgree(NormAll(nfc, xs).value, NormAll(nfc, ys).value);
    }
  }
}
