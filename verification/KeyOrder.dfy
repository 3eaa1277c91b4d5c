/** Exactly when `stableValue` forgets the insertion order of object keys. */
module KeyOrder {
  import opened Utf16
  import opened JsonString
  import opened StableValue

  // The comparison puts any two different keys in one order, consistently.
  ghost predicate StrictTotal(before: Before) {
    && (forall a, b :: a != b ==> (before(a, b) <==> !before(b, a)))
    && (forall a, b, c :: a != b && b != c && a != c && before(a, b) && before(b, c) ==> before(a, c))
  }

  ghost predicate OrderInsensitive(before: Before) {
    forall a, b :: WellFormed(a) && WellFormed(b) && Meaning(a) == Meaning(b) ==> Stable(a, before) == Stable(b, before)
  }

  // ---- A total order sorts every permutation alike ------------------------------------------

  ghost predicate Sorted(es: seq<Entry>, before: Before) {
    forall i, j :: 0 <= i < j < |es| ==> es[i].key != es[j].key && before(es[i].key, es[j].key)
  }

  ghost predicate NewKey(es: seq<Entry>, key: Text) {
    forall e :: e in es ==> e.key != key
  }

  lemma InsertHas(sorted: seq<Entry>, e: Entry, before: Before, x: Entry)
    ensures x in Insert(sorted, e, before) <==> x in sorted || x == e
  {
    hide Insert;
    InsertKeeps(sorted, e, before);
    assert x in Insert(sorted, e, before) <==> x in multiset(Insert(sorted, e, before));
    assert x in sorted <==> x in multiset(sorted);
  }

  lemma {:induction false} InsertSorts(sorted: seq<Entry>, e: Entry, before: Before)
    requires StrictTotal(before) && Sorted(sorted, before) && NewKey(sorted, e.key)
    ensures Sorted(Insert(sorted, e, before), before)
  {
    var n := |sorted|;
    if n == 0 {
    } else if !before(e.key, sorted[n - 1].key) {
      LastIsGreatest(sorted, before);
    } else {
      hide StrictTotal;
      var init, last := sorted[..n - 1], sorted[n - 1];
      LastIsGreatest(sorted, before);
      forall x ensures x in init <==> x in sorted && x != last { InitLosesLast(sorted, before, x); }
      InsertSorts(init, e, before);
      forall x ensures x in Insert(init, e, before) <==> x in init || x == e { InsertHas(init, e, before, x); }
    }
  }

  ghost predicate DistinctEntryKeys(es: seq<Entry>) {
    forall i, j :: 0 <= i < j < |es| ==> es[i].key != es[j].key
  }

  lemma {:induction false} SortSorts(es: seq<Entry>, before: Before)
    requires StrictTotal(before) && DistinctEntryKeys(es)
    ensures Sorted(Sort(es, before), before)
  {
    hide StrictTotal, Insert;
    if es != [] {
      var init, last := es[..|es| - 1], es[|es| - 1];
      SortSorts(init, before);
      forall e | e in Sort(init, before) ensures e.key != last.key {
        SortHasSameEntries(init, before, e);
        var i :| 0 <= i < |init| && init[i] == e;
        assert es[i] == e;
      }
      InsertSorts(Sort(init, before), last, before);
    }
  }

  lemma InitLosesLast(es: seq<Entry>, before: Before, e: Entry)
    requires es != [] && Sorted(es, before)
    ensures e in es[..|es| - 1] <==> e in es && e != es[|es| - 1]
  {
    var n := |es| - 1;
    if e in es && e != es[n] {
      var i :| 0 <= i < |es| && es[i] == e;
      assert es[..n][i] == e;
    }
    if e in es[..n] {
      var i :| 0 <= i < n && es[..n][i] == e;
      assert es[i].key != es[n].key;
    }
  }

  lemma LastIsGreatest(es: seq<Entry>, before: Before)
    requires es != [] && Sorted(es, before)
    ensures
      var last := es[|es| - 1];
      last in es && forall e :: e in es && e != last ==> e.key != last.key && before(e.key, last.key)
  {
    var n := |es| - 1;
    forall e | e in es && e != es[n] ensures e.key != es[n].key && before(e.key, es[n].key) {
      var i :| 0 <= i < |es| && es[i] == e;
    }
  }

  lemma EmptyTogether(es: seq<Entry>, fs: seq<Entry>)
    requires forall e :: e in es <==> e in fs
    ensures es == [] <==> fs == []
  {
    assert es != [] ==> es[0] in es;
    assert fs != [] ==> fs[0] in fs;
  }

  lemma {:induction false} SortedIsUnique(es: seq<Entry>, fs: seq<Entry>, before: Before)
    requires StrictTotal(before) && Sorted(es, before) && Sorted(fs, before)
    requires forall e :: e in es <==> e in fs
    ensures es == fs
  {
    EmptyTogether(es, fs);
    if es != [] {
      var m, n := |es| - 1, |fs| - 1;
      LastIsGreatest(es, before);
      LastIsGreatest(fs, before);
      assert es[m] == fs[n];
      forall e ensures e in es[..m] <==> e in fs[..n] {
        InitLosesLast(es, before, e);
        InitLosesLast(fs, before, e);
      }
      SortedIsUnique(es[..m], fs[..n], before);
      assert es == es[..m] + [es[m]] && fs == fs[..n] + [fs[n]];
    }
  }

  /** Under a strict total order, values of equal meaning print alike. */
  lemma {:induction false} KeyOrderIsForgotten(a: Json, b: Json, before: Before)
    requires StrictTotal(before) && WellFormed(a) && WellFormed(b) && Meaning(a) == Meaning(b)
    ensures Stable(a, before) == Stable(b, before)
    decreases a, 1, 0
  {
    hide StrictTotal, Quote, Sort, JoinEntries;
    match a {
      case Array(_) => ItemsForgetOrder(a, a.items, b.items, before);
      case Object(_) =>
        forall f | f in a.fields ensures f.value < a {}
        FieldsForgetOrder(a, b, before);
      case _ =>
    }
  }

  lemma {:induction false} ItemsForgetOrder(whole: Json, xs: seq<Json>, ys: seq<Json>, before: Before)
    requires StrictTotal(before) && MeaningOfItems(xs) == MeaningOfItems(ys)
    requires forall x :: x in xs ==> WellFormed(x) && x < whole
    requires forall y :: y in ys ==> WellFormed(y)
    ensures StableItems(xs, before) == StableItems(ys, before)
    decreases whole, 0, |xs|
  {
    hide StrictTotal, Stable, Meaning;
    if xs != [] {
      assert xs[0] in xs && ys[0] in ys;
      var ms, ns := MeaningOfItems(xs), MeaningOfItems(ys);
      assert ms[0] == ns[0] && ms[1..] == ns[1..];
      KeyOrderIsForgotten(xs[0], ys[0], before);
      ItemsForgetOrder(whole, xs[1..], ys[1..], before);
      assert |xs| == 1 <==> |ys| == 1 by { assert MeaningOfItems(xs[1..]) == MeaningOfItems(ys[1..]); }
    }
  }

  lemma {:induction false} FieldsForgetOrder(a: Json, b: Json, before: Before)
    requires a.Object? && b.Object? && StrictTotal(before)
    requires WellFormed(a) && WellFormed(b) && MeaningOfFields(a.fields) == MeaningOfFields(b.fields)
    requires forall f :: f in a.fields ==> f.value < a
    ensures Stable(a, before) == Stable(b, before)
    decreases a, 0, 0
  {
    hide StrictTotal, Sort, JoinEntries, StableFields, MeaningOfFields, Sorted;
    var xs, ys := a.fields, b.fields;
    var es, fs := StableFields(xs, before), StableFields(ys, before);
    FieldsMeaning(xs);
    FieldsMeaning(ys);
    forall x, y | x in xs && y in ys && x.key == y.key ensures Stable(x.value, before) == Stable(y.value, before) {
      KeyOrderIsForgotten(x.value, y.value, before);
    }
    SamePrintedEntries(xs, ys, before);
    SamePrintedEntries(ys, xs, before);
    assert DistinctEntryKeys(es) && DistinctEntryKeys(fs);
    SortSorts(es, before);
    SortSorts(fs, before);
    forall e ensures e in Sort(es, before) <==> e in Sort(fs, before) {
      SortHasSameEntries(es, before, e);
      SortHasSameEntries(fs, before, e);
    }
    SortedIsUnique(Sort(es, before), Sort(fs, before), before);
  }

  lemma SamePrintedEntries(xs: seq<Field>, ys: seq<Field>, before: Before)
    requires DistinctKeys(xs) && DistinctKeys(ys)
    requires MeaningOfFields(xs) == MeaningOfFields(ys)
    requires forall x, y :: x in xs && y in ys && x.key == y.key ==> Stable(x.value, before) == Stable(y.value, before)
    ensures forall e :: e in StableFields(xs, before) ==> e in StableFields(ys, before)
  {
    hide Stable, Meaning, StableFields, MeaningOfFields, DistinctKeys;
    FieldsMeaning(xs);
    FieldsMeaning(ys);
    var es, fs := StableFields(xs, before), StableFields(ys, before);
    forall e | e in es ensures e in fs {
      var i :| 0 <= i < |es| && es[i] == e;
      assert xs[i] in xs;
      var y :| y in ys && y.key == xs[i].key;
      var j :| 0 <= j < |ys| && ys[j] == y;
      assert fs[j] == e;
    }
  }

  // ---- Nothing less will do ------------------------------------------------------------------

  lemma FirstKeyIsVisible(es: seq<Entry>, fs: seq<Entry>)
    requires es != [] && fs != [] && JoinEntries(es) + [CLOSE_BRACE] == JoinEntries(fs) + [CLOSE_BRACE]
    ensures es[0].key == fs[0].key
  {
    hide Quote, JoinEntries, AfterEntry;
    var x, y := AfterEntry(es, []), AfterEntry(fs, []);
    SplitEntry(es, []);
    SplitEntry(fs, []);
    assert JoinEntries(es) + [CLOSE_BRACE] + [] == JoinEntries(es) + [CLOSE_BRACE];
    assert JoinEntries(fs) + [CLOSE_BRACE] + [] == JoinEntries(fs) + [CLOSE_BRACE];
    QuoteIsPrefixFree(es[0].key, fs[0].key, [COLON] + (es[0].text + x), [COLON] + (fs[0].text + y));
  }

  // An object whose fields all hold null.
  function Nulls(keys: seq<Text>): seq<Field> {
    seq(|keys|, i requires 0 <= i < |keys| => Field(keys[i], Null))
  }

  function NullEntries(keys: seq<Text>): seq<Entry> {
    seq(|keys|, i requires 0 <= i < |keys| => Entry(keys[i], [0x6E, 0x75, 0x6C, 0x6C]))
  }

  lemma NullsPrint(keys: seq<Text>, before: Before)
    ensures StableFields(Nulls(keys), before) == NullEntries(keys)
  {
  }

  lemma SameFirstKey(ks: seq<Text>, ls: seq<Text>, before: Before)
    requires OrderInsensitive(before)
    requires DistinctKeys(Nulls(ks)) && DistinctKeys(Nulls(ls)) && ks != [] && ls != []
    requires forall k :: k in ks <==> k in ls
    ensures Sort(NullEntries(ks), before) != [] && Sort(NullEntries(ls), before) != []
    ensures Sort(NullEntries(ks), before)[0].key == Sort(NullEntries(ls), before)[0].key
  {
    hide Sort, JoinEntries;
    var xs, ys := Nulls(ks), Nulls(ls);
    SameKeysSameMeaning(ks, ls);
    assert WellFormed(Object(xs)) && WellFormed(Object(ys)) && Meaning(Object(xs)) == Meaning(Object(ys));
    assert Stable(Object(xs), before) == Stable(Object(ys), before);
    NullsPrint(ks, before);
    NullsPrint(ls, before);
    var es, fs := Sort(NullEntries(ks), before), Sort(NullEntries(ls), before);
    SortHasSameEntries(NullEntries(ks), before, NullEntries(ks)[0]);
    SortHasSameEntries(NullEntries(ls), before, NullEntries(ls)[0]);
    var p, q := JoinEntries(es) + [CLOSE_BRACE], JoinEntries(fs) + [CLOSE_BRACE];
    assert Stable(Object(xs), before) == [OPEN_BRACE] + p && Stable(Object(ys), before) == [OPEN_BRACE] + q;
    DropPrefix([OPEN_BRACE], p, q);
    FirstKeyIsVisible(es, fs);
  }

  lemma SameKeysSameMeaning(ks: seq<Text>, ls: seq<Text>)
    requires DistinctKeys(Nulls(ks)) && DistinctKeys(Nulls(ls))
    requires forall k :: k in ks <==> k in ls
    ensures MeaningOfFields(Nulls(ks)) == MeaningOfFields(Nulls(ls))
  {
    hide MeaningOfFields, Nulls, DistinctKeys;
    var m, n := MeaningOfFields(Nulls(ks)), MeaningOfFields(Nulls(ls));
    forall key ensures key in m <==> key in n {
      NullKeys(ks, key);
      NullKeys(ls, key);
    }
    forall key | key in m ensures m[key] == n[key] {
      NullKeys(ks, key);
      NullKeys(ls, key);
    }
  }

  lemma NullKeys(ks: seq<Text>, key: Text)
    requires DistinctKeys(Nulls(ks))
    ensures key in MeaningOfFields(Nulls(ks)) <==> key in ks
    ensures key in ks ==> MeaningOfFields(Nulls(ks))[key] == NullValue
  {
    hide MeaningOfFields;
    FieldsMeaning(Nulls(ks));
    if key in ks {
      var i :| 0 <= i < |ks| && ks[i] == key;
      assert Nulls(ks)[i] in Nulls(ks);
    }
  }

  /**
   * Printed values of equal meaning coincide for all values if and only if the key comparison is a
   * strict total order. A comparison that ties two different keys already breaks it.
   */
  lemma OrderInsensitiveIff(before: Before)
    ensures OrderInsensitive(before) <==> StrictTotal(before)
  {
    hide Stable, Meaning, Sort;
    if StrictTotal(before) {
      forall a, b | WellFormed(a) && WellFormed(b) && Meaning(a) == Meaning(b)
        ensures Stable(a, before) == Stable(b, before)
      {
        KeyOrderIsForgotten(a, b, before);
      }
    }
    if OrderInsensitive(before) {
      forall a: Text, b: Text | a != b ensures before(a, b) <==> !before(b, a) {
        PairIsOrdered(a, b, before);
      }
      forall a: Text, b: Text, c: Text | a != b && b != c && a != c && before(a, b) && before(b, c)
        ensures before(a, c)
      {
        PairIsOrdered(a, b, before);
        PairIsOrdered(b, c, before);
        PairIsOrdered(a, c, before);
        TripleIsOrdered(a, b, c, before);
      }
    }
  }

  lemma PairIsOrdered(a: Text, b: Text, before: Before)
    requires OrderInsensitive(before) && a != b
    ensures before(a, b) <==> !before(b, a)
  {
    hide OrderInsensitive;
    SameFirstKey([a, b], [b, a], before);
    SortPair(a, b, before);
    SortPair(b, a, before);
  }

  lemma SortOne(e: Entry, before: Before)
    ensures Sort([e], before) == [e]
  {
    assert [e][..0] == [];
  }

  lemma InsertSecond(e: Entry, f: Entry, before: Before)
    ensures Insert([e], f, before) == if before(f.key, e.key) then [f, e] else [e, f]
  {
    assert [e][..0] == [];
    assert Insert([], f, before) == [f];
  }

  lemma SortPair(a: Text, b: Text, before: Before)
    ensures Sort(NullEntries([a, b]), before) == if before(b, a) then NullEntries([b, a]) else NullEntries([a, b])
  {
    var es, A, B := NullEntries([a, b]), NullEntries([a])[0], NullEntries([b])[0];
    assert es == [A, B] && es[..1] == [A] && [A][..0] == [];
    assert NullEntries([b, a]) == [B, A];
    SortOne(A, before);
    InsertSecond(A, B, before);
  }

  lemma TripleIsOrdered(a: Text, b: Text, c: Text, before: Before)
    requires OrderInsensitive(before) && a != b && b != c && a != c
    requires before(a, b) && !before(b, a) && before(b, c) && !before(c, b)
    requires before(a, c) <==> !before(c, a)
    ensures before(a, c)
  {
    hide OrderInsensitive;
    if before(c, a) {
      SameFirstKey([a, b, c], [b, c, a], before);
      SortTriple(a, b, c, before);
      SortTriple(b, c, a, before);
    }
  }

  lemma SortTriple(a: Text, b: Text, c: Text, before: Before)
    requires !before(b, a) && !before(c, b)
    ensures Sort(NullEntries([a, b, c]), before) == NullEntries([a, b, c])
  {
    var es := NullEntries([a, b, c]);
    SortPair(a, b, before);
    assert es[..2] == NullEntries([a, b]);
  }
}
