/** `stableValue`: the canonical text by which an approval is matched with a tool call. */
module StableValue {
  import opened Wrappers
  import opened Utf16
  import opened JsonString

  // A JSON value as a program holds it: the entries of an object come in some insertion order.
  // A number is represented by the text that JSON.stringify prints for it.
  datatype Json =
    | Null
    | Bool(b: bool)
    | Number(digits: Text)
    | Str(s: Text)
    | Array(items: seq<Json>)
    | Object(fields: seq<Field>)

  datatype Field = Field(key: Text, value: Json)

  // What a JSON value means: the order of the keys of an object is gone.
  datatype Value =
    | NullValue
    | BoolValue(b: bool)
    | NumberValue(digits: Text)
    | StringValue(s: Text)
    | ArrayValue(items: seq<Value>)
    | ObjectValue(fields: map<Text, Value>)

  predicate NumberUnit(u: Unit) {
    0x30 <= u <= 0x39 || u == 0x2D || u == 0x2B || u == 0x2E || u == 0x45 || u == 0x65
  }

  predicate NumberText(t: Text) {
    t != [] && (t[0] == 0x2D || 0x30 <= t[0] <= 0x39) && forall i :: 0 <= i < |t| ==> NumberUnit(t[i])
  }

  predicate DistinctKeys(fields: seq<Field>) {
    forall i, j :: 0 <= i < j < |fields| ==> fields[i].key != fields[j].key
  }

  // No JavaScript object holds a key twice.
  predicate WellFormed(v: Json) {
    match v
    case Number(digits) => NumberText(digits)
    case Array(items) => forall x :: x in items ==> WellFormed(x)
    case Object(fields) => DistinctKeys(fields) && forall f :: f in fields ==> WellFormed(f.value)
    case _ => true
  }

  function Meaning(v: Json): Value {
    match v
    case Null => NullValue
    case Bool(b) => BoolValue(b)
    case Number(digits) => NumberValue(digits)
    case Str(s) => StringValue(s)
    case Array(items) => ArrayValue(MeaningOfItems(items))
    case Object(fields) => ObjectValue(MeaningOfFields(fields))
  }

  function MeaningOfItems(items: seq<Json>): seq<Value> {
    if items == [] then [] else [Meaning(items[0])] + MeaningOfItems(items[1..])
  }

  function MeaningOfFields(fields: seq<Field>): map<Text, Value> {
    if fields == [] then map[] else MeaningOfFields(fields[1..])[fields[0].key := Meaning(fields[0].value)]
  }

  // ---- Printing --------------------------------------------------------------------------

  // The comparison that orders keys (`localeCompare` returning a negative number).
  type Before = (Text, Text) -> bool

  datatype Entry = Entry(key: Text, text: Text)

  // A stable sort by key. The source sorts first and prints afterwards; since only keys are
  // compared, printing first and sorting afterwards yields the same list.
  function Insert(sorted: seq<Entry>, e: Entry, before: Before): seq<Entry> {
    if sorted == [] || !before(e.key, sorted[|sorted| - 1].key) then sorted + [e]
    else Insert(sorted[..|sorted| - 1], e, before) + [sorted[|sorted| - 1]]
  }

  function Sort(entries: seq<Entry>, before: Before): seq<Entry> {
    if entries == [] then []
    else Insert(Sort(entries[..|entries| - 1], before), entries[|entries| - 1], before)
  }

  function Stable(v: Json, before: Before): Text {
    match v
    case Null => [0x6E, 0x75, 0x6C, 0x6C]
    case Bool(b) => if b then [0x74, 0x72, 0x75, 0x65] else [0x66, 0x61, 0x6C, 0x73, 0x65]
    case Number(digits) => digits
    case Str(s) => Quote(s)
    case Array(items) => [OPEN_BRACKET] + StableItems(items, before) + [CLOSE_BRACKET]
    case Object(fields) => [OPEN_BRACE] + JoinEntries(Sort(StableFields(fields, before), before)) + [CLOSE_BRACE]
  }

  function StableItems(items: seq<Json>, before: Before): Text {
    if items == [] then []
    else if |items| == 1 then Stable(items[0], before)
    else Stable(items[0], before) + [COMMA] + StableItems(items[1..], before)
  }

  function StableFields(fields: seq<Field>, before: Before): (entries: seq<Entry>)
    ensures |entries| == |fields|
    ensures forall i :: 0 <= i < |fields| ==> entries[i] == Entry(fields[i].key, Stable(fields[i].value, before))
  {
    if fields == [] then []
    else [Entry(fields[0].key, Stable(fields[0].value, before))] + StableFields(fields[1..], before)
  }

  function EntryText(e: Entry): Text {
    Quote(e.key) + [COLON] + e.text
  }

  function JoinEntries(entries: seq<Entry>): Text {
    if entries == [] then []
    else if |entries| == 1 then EntryText(entries[0])
    else EntryText(entries[0]) + [COMMA] + JoinEntries(entries[1..])
  }

  // ---- Sorting keeps the entries -----------------------------------------------------------

  lemma {:induction false} InsertKeeps(sorted: seq<Entry>, e: Entry, before: Before)
    ensures multiset(Insert(sorted, e, before)) == multiset(sorted) + multiset{e}
  {
    if sorted != [] && before(e.key, sorted[|sorted| - 1].key) {
      InsertKeeps(sorted[..|sorted| - 1], e, before);
      assert sorted == sorted[..|sorted| - 1] + [sorted[|sorted| - 1]];
    }
  }

  lemma {:induction false} SortKeeps(entries: seq<Entry>, before: Before)
    ensures multiset(Sort(entries, before)) == multiset(entries)
  {
    hide Insert;
    if entries != [] {
      var init, last := entries[..|entries| - 1], entries[|entries| - 1];
      SortKeeps(init, before);
      InsertKeeps(Sort(init, before), last, before);
      assert entries == init + [last];
    }
  }

  lemma SortHasSameEntries(entries: seq<Entry>, before: Before, e: Entry)
    ensures e in Sort(entries, before) <==> e in entries
  {
    hide Sort;
    SortKeeps(entries, before);
    assert e in Sort(entries, before) <==> e in multiset(Sort(entries, before));
    assert e in entries <==> e in multiset(entries);
  }

  // ---- Equal text, equal meaning -----------------------------------------------------------

  // What can follow a value inside a larger text.
  predicate Delimited(rest: Text) {
    rest == [] || rest[0] == COMMA || rest[0] == CLOSE_BRACKET || rest[0] == CLOSE_BRACE
  }

  // The first unit of a printed value already tells its kind.
  function Kind(u: Unit): nat {
    if u == 0x6E then 0 else if u == 0x74 then 1 else if u == 0x66 then 2
    else if u == QUOTE then 3 else if u == OPEN_BRACKET then 4 else if u == OPEN_BRACE then 5
    else if NumberUnit(u) then 6 else 7
  }

  function KindOf(v: Json): nat {
    match v
    case Null => 0
    case Bool(b) => if b then 1 else 2
    case Number(_) => 6
    case Str(_) => 3
    case Array(_) => 4
    case Object(_) => 5
  }

  lemma StableStarts(v: Json, before: Before)
    requires WellFormed(v)
    ensures Stable(v, before) != [] && Kind(Stable(v, before)[0]) == KindOf(v)
  {
  }

  // How many number units a text opens with.
  function Span(t: Text): nat {
    if t == [] || !NumberUnit(t[0]) then 0 else 1 + Span(t[1..])
  }

  lemma {:induction false} SpanOfNumber(digits: Text, rest: Text)
    requires Delimited(rest) && forall i :: 0 <= i < |digits| ==> NumberUnit(digits[i])
    ensures Span(digits + rest) == |digits|
  {
    if digits == [] {
      assert digits + rest == rest;
    } else {
      SpanOfNumber(digits[1..], rest);
      assert (digits + rest)[1..] == digits[1..] + rest;
    }
  }

  lemma DropPrefix(p: Text, a: Text, b: Text)
    requires p + a == p + b
    ensures a == b
  {
    assert (p + a)[|p|..] == a && (p + b)[|p|..] == b;
  }

  /**
   * Printing is injective on meanings, whatever the key comparison does: two printed values that
   * open the same text, each followed by a delimiter, mean the same and leave the same rest.
   */
  lemma {:induction false} StableIsInjective(a: Json, b: Json, before: Before, restA: Text, restB: Text)
    requires WellFormed(a) && WellFormed(b) && Delimited(restA) && Delimited(restB)
    requires Stable(a, before) + restA == Stable(b, before) + restB
    ensures Meaning(a) == Meaning(b) && restA == restB
    decreases a, 3, 0
  {
    hide NumberText, Quote, Insert, Sort, JoinEntries, StableItems, StableFields;
    StableStarts(a, before);
    StableStarts(b, before);
    assert Stable(a, before)[0] == (Stable(a, before) + restA)[0] == Stable(b, before)[0];
    assert KindOf(a) == KindOf(b);
    match a {
      case Null => DropPrefix(Stable(a, before), restA, restB);
      case Bool(_) => DropPrefix(Stable(a, before), restA, restB);
      case Number(_) => NumbersDiffer(a, b, restA, restB);
      case Str(s) => QuoteIsPrefixFree(a.s, b.s, restA, restB);
      case Array(_) =>
        var x, y := StableItems(a.items, before) + [CLOSE_BRACKET], StableItems(b.items, before) + [CLOSE_BRACKET];
        assert Stable(a, before) + restA == [OPEN_BRACKET] + (x + restA);
        assert Stable(b, before) + restB == [OPEN_BRACKET] + (y + restB);
        DropPrefix([OPEN_BRACKET], x + restA, y + restB);
        ItemsAreInjective(a, a.items, b.items, before, restA, restB);
      case Object(_) =>
        ObjectsAreInjective(a, b, before, restA, restB);
    }
  }

  lemma NumbersDiffer(a: Json, b: Json, restA: Text, restB: Text)
    requires a.Number? && b.Number? && WellFormed(a) && WellFormed(b) && Delimited(restA) && Delimited(restB)
    requires a.digits + restA == b.digits + restB
    ensures a == b && restA == restB
  {
    SpanOfNumber(a.digits, restA);
    SpanOfNumber(b.digits, restB);
    assert a.digits == (a.digits + restA)[..|a.digits|] == (b.digits + restB)[..|b.digits|] == b.digits;
    DropPrefix(a.digits, restA, restB);
  }

  lemma {:induction false} ItemsAreInjective(whole: Json, xs: seq<Json>, ys: seq<Json>, before: Before,
                                             restA: Text, restB: Text)
    requires forall x :: x in xs ==> WellFormed(x) && x < whole
    requires forall y :: y in ys ==> WellFormed(y)
    requires StableItems(xs, before) + [CLOSE_BRACKET] + restA == StableItems(ys, before) + [CLOSE_BRACKET] + restB
    ensures MeaningOfItems(xs) == MeaningOfItems(ys) && restA == restB
    decreases whole, 1, |xs|
  {
    hide Stable, Meaning;
    var ta, tb := StableItems(xs, before) + [CLOSE_BRACKET] + restA, StableItems(ys, before) + [CLOSE_BRACKET] + restB;
    ItemsStart(xs, before, restA);
    ItemsStart(ys, before, restB);
    if xs == [] {
      assert ta == [CLOSE_BRACKET] + restA && tb == [CLOSE_BRACKET] + restB;
      DropPrefix([CLOSE_BRACKET], restA, restB);
    } else {
      var ra, rb := AfterFirst(xs, before, restA), AfterFirst(ys, before, restB);
      SplitFirst(xs, before, restA);
      SplitFirst(ys, before, restB);
      assert xs[0] in xs && ys[0] in ys;
      StableIsInjective(xs[0], ys[0], before, ra, rb);
      assert |xs| == 1 <==> |ys| == 1 by { assert ra[0] == rb[0]; }
      if |xs| == 1 {
        DropPrefix([CLOSE_BRACKET], restA, restB);
        assert xs[1..] == [] && ys[1..] == [];
      } else {
        DropPrefix([COMMA], ra[1..], rb[1..]);
        ItemsAreInjective(whole, xs[1..], ys[1..], before, restA, restB);
      }
    }
  }

  // The text behind the first item of a non-empty array.
  function AfterFirst(xs: seq<Json>, before: Before, rest: Text): Text
    requires xs != []
  {
    if |xs| == 1 then [CLOSE_BRACKET] + rest
    else [COMMA] + (StableItems(xs[1..], before) + [CLOSE_BRACKET] + rest)
  }

  lemma SplitFirst(xs: seq<Json>, before: Before, rest: Text)
    requires xs != []
    ensures StableItems(xs, before) + [CLOSE_BRACKET] + rest == Stable(xs[0], before) + AfterFirst(xs, before, rest)
    ensures Delimited(AfterFirst(xs, before, rest)) && AfterFirst(xs, before, rest) != []
  {
    hide Stable;
  }

  lemma ItemsStart(xs: seq<Json>, before: Before, rest: Text)
    requires xs != [] ==> WellFormed(xs[0])
    ensures xs == [] <==> (StableItems(xs, before) + [CLOSE_BRACKET] + rest)[0] == CLOSE_BRACKET
  {
    hide Stable;
    if xs != [] {
      StableStarts(xs[0], before);
      SplitFirst(xs, before, rest);
    }
  }

  // The entry stems from a field of the object.
  ghost predicate PrintedFrom(e: Entry, fields: seq<Field>, before: Before) {
    exists i :: 0 <= i < |fields| && e == Entry(fields[i].key, Stable(fields[i].value, before))
  }

  ghost predicate Printed(entries: seq<Entry>, fields: seq<Field>, before: Before) {
    forall k :: 0 <= k < |entries| ==> PrintedFrom(entries[k], fields, before)
  }

  // Position by position, the same key carries values of the same meaning.
  ghost predicate Agree(es: seq<Entry>, fs: seq<Entry>, xs: seq<Field>, ys: seq<Field>, before: Before) {
    && |es| == |fs|
    && (forall k :: 0 <= k < |es| ==> AgreeAt(es[k], fs[k], xs, ys, before))
  }

  function AfterEntry(es: seq<Entry>, rest: Text): Text
    requires es != []
  {
    if |es| == 1 then [CLOSE_BRACE] + rest
    else [COMMA] + (JoinEntries(es[1..]) + [CLOSE_BRACE] + rest)
  }

  lemma RegroupEntry(q: Text, t: Text, after: Text)
    ensures (q + [COLON] + t) + after == q + ([COLON] + (t + after))
  {
  }

  lemma RegroupMore(first: Text, more: Text, rest: Text)
    ensures first + [COMMA] + more + [CLOSE_BRACE] + rest == first + ([COMMA] + (more + [CLOSE_BRACE] + rest))
    ensures first + [CLOSE_BRACE] + rest == first + ([CLOSE_BRACE] + rest)
  {
  }

  lemma AfterEntryIsDelimited(es: seq<Entry>, rest: Text)
    requires es != []
    ensures Delimited(AfterEntry(es, rest)) && AfterEntry(es, rest) != []
  {
    hide JoinEntries;
  }

  lemma SplitEntry(es: seq<Entry>, rest: Text)
    requires es != []
    ensures JoinEntries(es) + [CLOSE_BRACE] + rest == Quote(es[0].key) + ([COLON] + (es[0].text + AfterEntry(es, rest)))
    ensures Delimited(AfterEntry(es, rest)) && AfterEntry(es, rest) != []
  {
    AfterEntryIsDelimited(es, rest);
    hide Quote, Delimited;
    assert JoinEntries(es) + [CLOSE_BRACE] + rest == EntryText(es[0]) + AfterEntry(es, rest) by {
      RegroupMore(EntryText(es[0]), JoinEntries(es[1..]), rest);
      hide EntryText;
    }
    hide JoinEntries, AfterEntry;
    RegroupEntry(Quote(es[0].key), es[0].text, AfterEntry(es, rest));
  }

  lemma EntriesStart(es: seq<Entry>, rest: Text)
    ensures es == [] <==> (JoinEntries(es) + [CLOSE_BRACE] + rest)[0] == CLOSE_BRACE
  {
    if es != [] {
      SplitEntry(es, rest);
      assert Quote(es[0].key)[0] == QUOTE;
    }
  }

  lemma PrintedTail(es: seq<Entry>, xs: seq<Field>, before: Before)
    requires es != [] && Printed(es, xs, before)
    ensures PrintedFrom(es[0], xs, before) && Printed(es[1..], xs, before)
  {
    hide PrintedFrom;
    forall k | 0 <= k < |es[1..]| ensures PrintedFrom(es[1..][k], xs, before) {
      assert es[1..][k] == es[k + 1];
    }
  }

  // Two entries carry the same key, and the fields they stem from mean the same.
  ghost predicate AgreeAt(e: Entry, f: Entry, xs: seq<Field>, ys: seq<Field>, before: Before) {
    && e.key == f.key
    && forall x, y | x in xs && y in ys && e == Entry(x.key, Stable(x.value, before))
                     && f == Entry(y.key, Stable(y.value, before)) :: Meaning(x.value) == Meaning(y.value)
  }

  lemma {:induction false} EntriesAreInjective(whole: Json, es: seq<Entry>, fs: seq<Entry>,
                                               xs: seq<Field>, ys: seq<Field>, before: Before,
                                               restA: Text, restB: Text)
    requires forall x :: x in xs ==> WellFormed(x.value) && x.value < whole
    requires forall y :: y in ys ==> WellFormed(y.value)
    requires Printed(es, xs, before) && Printed(fs, ys, before)
    requires JoinEntries(es) + [CLOSE_BRACE] + restA == JoinEntries(fs) + [CLOSE_BRACE] + restB
    ensures Agree(es, fs, xs, ys, before) && restA == restB
    decreases whole, 1, |es|, 0
  {
    hide Stable, Meaning, Quote, AgreeAt, Printed, WellFormed, EntryText;
    EntriesStart(es, restA);
    EntriesStart(fs, restB);
    if es == [] {
      assert JoinEntries(es) + [CLOSE_BRACE] + restA == [CLOSE_BRACE] + restA;
      assert JoinEntries(fs) + [CLOSE_BRACE] + restB == [CLOSE_BRACE] + restB;
      DropPrefix([CLOSE_BRACE], restA, restB);
    } else {
      var ra, rb := AfterEntry(es, restA), AfterEntry(fs, restB);
      SplitEntry(es, restA);
      SplitEntry(fs, restB);
      QuoteIsPrefixFree(es[0].key, fs[0].key, [COLON] + (es[0].text + ra), [COLON] + (fs[0].text + rb));
      DropPrefix([COLON], es[0].text + ra, fs[0].text + rb);
      PrintedTail(es, xs, before);
      PrintedTail(fs, ys, before);
      FirstValuesAgree(whole, es[0], fs[0], xs, ys, before, ra, rb);
      RestsAgree(whole, es, fs, xs, ys, before, restA, restB);
    }
  }

  lemma {:induction false} RestsAgree(whole: Json, es: seq<Entry>, fs: seq<Entry>, xs: seq<Field>, ys: seq<Field>,
                                      before: Before, restA: Text, restB: Text)
    requires forall x :: x in xs ==> WellFormed(x.value) && x.value < whole
    requires forall y :: y in ys ==> WellFormed(y.value)
    requires es != [] && fs != []
    requires Printed(es[1..], xs, before) && Printed(fs[1..], ys, before)
    requires AfterEntry(es, restA) == AfterEntry(fs, restB)
    ensures Agree(es[1..], fs[1..], xs, ys, before) && restA == restB
    decreases whole, 1, |es| - 1, 1
  {
    hide Stable, Meaning, AgreeAt, Printed, WellFormed, JoinEntries;
    assert |es| == 1 <==> |fs| == 1 by { assert AfterEntry(es, restA)[0] == AfterEntry(fs, restB)[0]; }
    if |es| == 1 {
      DropPrefix([CLOSE_BRACE], restA, restB);
    } else {
      DropPrefix([COMMA], AfterEntry(es, restA)[1..], AfterEntry(fs, restB)[1..]);
      EntriesAreInjective(whole, es[1..], fs[1..], xs, ys, before, restA, restB);
    }
  }

  lemma {:induction false} FirstValuesAgree(whole: Json, e: Entry, f: Entry, xs: seq<Field>, ys: seq<Field>,
                                            before: Before, ra: Text, rb: Text)
    requires forall x :: x in xs ==> WellFormed(x.value) && x.value < whole
    requires forall y :: y in ys ==> WellFormed(y.value)
    requires PrintedFrom(e, xs, before) && PrintedFrom(f, ys, before)
    requires Delimited(ra) && Delimited(rb) && e.text + ra == f.text + rb
    requires e.key == f.key
    ensures ra == rb && AgreeAt(e, f, xs, ys, before)
    decreases whole, 0, 0
  {
    hide Stable, Meaning;
    var i :| 0 <= i < |xs| && e == Entry(xs[i].key, Stable(xs[i].value, before));
    var j :| 0 <= j < |ys| && f == Entry(ys[j].key, Stable(ys[j].value, before));
    StableIsInjective(xs[i].value, ys[j].value, before, ra, rb);
    forall x, y | x in xs && y in ys && e == Entry(x.key, Stable(x.value, before))
                  && f == Entry(y.key, Stable(y.value, before))
      ensures Meaning(x.value) == Meaning(y.value)
    {
      StableIsInjective(x.value, y.value, before, ra, rb);
    }
  }

  lemma {:induction false} ObjectsAreInjective(a: Json, b: Json, before: Before, restA: Text, restB: Text)
    requires a.Object? && b.Object? && WellFormed(a) && WellFormed(b)
    requires Stable(a, before) + restA == Stable(b, before) + restB
    ensures Meaning(a) == Meaning(b) && restA == restB
    decreases a, 2, 0
  {
    var es, fs := Sort(StableFields(a.fields, before), before), Sort(StableFields(b.fields, before), before);
    hide Quote, Insert, Sort, JoinEntries, StableFields, Stable, Printed, Agree;
    var x, y := JoinEntries(es) + [CLOSE_BRACE] + restA, JoinEntries(fs) + [CLOSE_BRACE] + restB;
    PrintedObject(a, before, restA);
    PrintedObject(b, before, restB);
    DropPrefix([OPEN_BRACE], x, y);
    SortedArePrinted(a.fields, before);
    SortedArePrinted(b.fields, before);
    forall f | f in a.fields ensures f.value < a {}
    EntriesAreInjective(a, es, fs, a.fields, b.fields, before, restA, restB);
    AgreementIsEquality(a.fields, b.fields, before);
  }

  lemma PrintedObject(a: Json, before: Before, rest: Text)
    requires a.Object?
    ensures Stable(a, before) + rest
         == [OPEN_BRACE] + (JoinEntries(Sort(StableFields(a.fields, before), before)) + [CLOSE_BRACE] + rest)
  {
    hide Sort, JoinEntries, StableFields;
  }

  lemma SortedArePrinted(fields: seq<Field>, before: Before)
    ensures Printed(Sort(StableFields(fields, before), before), fields, before)
    ensures forall f :: f in fields ==>
      Entry(f.key, Stable(f.value, before)) in Sort(StableFields(fields, before), before)
  {
    hide Stable, Sort;
    var printed := StableFields(fields, before);
    var es := Sort(printed, before);
    forall e ensures e in es <==> e in printed { SortHasSameEntries(printed, before, e); }
    forall k | 0 <= k < |es| ensures PrintedFrom(es[k], fields, before) {
      assert es[k] in es && es[k] in printed;
      var i :| 0 <= i < |printed| && printed[i] == es[k];
    }
    forall f | f in fields ensures Entry(f.key, Stable(f.value, before)) in es {
      var i :| 0 <= i < |fields| && fields[i] == f;
      assert printed[i] in es;
    }
  }

  lemma {:induction false} FieldsMeaning(fields: seq<Field>)
    requires DistinctKeys(fields)
    ensures forall f :: f in fields ==>
      f.key in MeaningOfFields(fields) && MeaningOfFields(fields)[f.key] == Meaning(f.value)
    ensures forall k :: k in MeaningOfFields(fields) ==> exists f :: f in fields && f.key == k
  {
    hide Meaning;
    if fields != [] {
      var rest := fields[1..];
      FieldsMeaning(rest);
      forall f | f in fields
        ensures f.key in MeaningOfFields(fields) && MeaningOfFields(fields)[f.key] == Meaning(f.value)
      {
        if f != fields[0] {
          assert f in rest;
          var i :| 0 <= i < |rest| && rest[i] == f;
          assert fields[0].key != fields[i + 1].key;
        }
      }
    }
  }

  lemma Counterpart(es: seq<Entry>, fs: seq<Entry>, xs: seq<Field>, ys: seq<Field>, before: Before, x: Field)
    requires Agree(es, fs, xs, ys, before) && Printed(fs, ys, before)
    requires x in xs && Entry(x.key, Stable(x.value, before)) in es
    ensures exists y :: y in ys && y.key == x.key && Meaning(y.value) == Meaning(x.value)
  {
    hide Stable, Meaning;
    var k :| 0 <= k < |es| && es[k] == Entry(x.key, Stable(x.value, before));
    assert PrintedFrom(fs[k], ys, before);
    var j :| 0 <= j < |ys| && fs[k] == Entry(ys[j].key, Stable(ys[j].value, before));
    assert AgreeAt(es[k], fs[k], xs, ys, before);
    assert ys[j] in ys && ys[j].key == x.key;
  }

  // Every field of ys finds its key and meaning among the fields of xs.
  ghost predicate Matched(xs: seq<Field>, ys: seq<Field>) {
    forall y :: y in ys ==> exists x :: x in xs && x.key == y.key && Meaning(x.value) == Meaning(y.value)
  }

  lemma MatchedIsContained(xs: seq<Field>, ys: seq<Field>)
    requires DistinctKeys(xs) && DistinctKeys(ys) && Matched(xs, ys)
    ensures forall key :: key in MeaningOfFields(ys) ==>
      key in MeaningOfFields(xs) && MeaningOfFields(xs)[key] == MeaningOfFields(ys)[key]
  {
    hide Meaning, MeaningOfFields, DistinctKeys;
    FieldsMeaning(xs);
    FieldsMeaning(ys);
    forall key | key in MeaningOfFields(ys)
      ensures key in MeaningOfFields(xs) && MeaningOfFields(xs)[key] == MeaningOfFields(ys)[key]
    {
      var y :| y in ys && y.key == key;
      var x :| x in xs && x.key == y.key && Meaning(x.value) == Meaning(y.value);
    }
  }

  lemma AgreementMatches(es: seq<Entry>, fs: seq<Entry>, xs: seq<Field>, ys: seq<Field>, before: Before)
    requires Agree(es, fs, xs, ys, before) && Printed(fs, ys, before)
    requires forall x :: x in xs ==> Entry(x.key, Stable(x.value, before)) in es
    ensures Matched(ys, xs)
  {
    hide Stable, Meaning, AgreeAt, Printed;
    forall x | x in xs ensures exists y :: y in ys && y.key == x.key && Meaning(y.value) == Meaning(x.value) {
      Counterpart(es, fs, xs, ys, before, x);
    }
  }

  lemma AgreeIsSymmetric(es: seq<Entry>, fs: seq<Entry>, xs: seq<Field>, ys: seq<Field>, before: Before)
    requires Agree(es, fs, xs, ys, before)
    ensures Agree(fs, es, ys, xs, before)
  {
    hide Stable, Meaning;
    forall k | 0 <= k < |es| ensures AgreeAt(fs[k], es[k], ys, xs, before) {
      assert AgreeAt(es[k], fs[k], xs, ys, before);
    }
  }

  lemma AgreementIsEquality(xs: seq<Field>, ys: seq<Field>, before: Before)
    requires DistinctKeys(xs) && DistinctKeys(ys)
    requires Agree(Sort(StableFields(xs, before), before), Sort(StableFields(ys, before), before), xs, ys, before)
    ensures MeaningOfFields(xs) == MeaningOfFields(ys)
  {
    hide Stable, Sort, StableFields, MeaningOfFields, DistinctKeys, Agree, Printed, Matched;
    var es, fs := Sort(StableFields(xs, before), before), Sort(StableFields(ys, before), before);
    SortedArePrinted(xs, before);
    SortedArePrinted(ys, before);
    AgreeIsSymmetric(es, fs, xs, ys, before);
    AgreementMatches(es, fs, xs, ys, before);
    AgreementMatches(fs, es, ys, xs, before);
    MatchedIsContained(xs, ys);
    MatchedIsContained(ys, xs);
  }
}
