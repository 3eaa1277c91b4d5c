/** The embedding cache as the insertion-ordered map it is, over all sequences of gets and sets. */
module EmbeddingCache {
  import opened Wrappers

  type Vector = seq<real>

  datatype Entry = Entry(key: string, vector: Vector)

  const MAX_CACHE_SIZE: nat := 1000

  // Entries stand in insertion order, the oldest first.
  type Cache = seq<Entry>

  predicate Has(c: Cache, key: string) {
    exists i :: 0 <= i < |c| && c[i].key == key
  }

  predicate Distinct(c: Cache) {
    forall i, j :: 0 <= i < j < |c| ==> c[i].key != c[j].key
  }

  function Lookup(c: Cache, key: string): Option<Vector> {
    if c == [] then None else if c[0].key == key then Some(c[0].vector) else Lookup(c[1..], key)
  }

  function Without(c: Cache, key: string): Cache {
    if c == [] then [] else if c[0].key == key then c[1..] else [c[0]] + Without(c[1..], key)
  }

  // Map.set: an existing key keeps its place.
  function Put(c: Cache, key: string, vector: Vector): Cache {
    if c == [] then [Entry(key, vector)]
    else if c[0].key == key then [Entry(key, vector)] + c[1..]
    else [c[0]] + Put(c[1..], key, vector)
  }

  function AfterGet(c: Cache, key: string): Cache {
    match Lookup(c, key)
    case None => c
    case Some(vector) => Without(c, key) + [Entry(key, vector)]
  }

  function AfterSet(c: Cache, key: string, vector: Vector): Cache {
    if |c| >= MAX_CACHE_SIZE && Lookup(c, key).None? then Put(c[1..], key, vector) else Put(c, key, vector)
  }

  datatype Op = Get(key: string) | Set(key: string, vector: Vector)

  function Step(c: Cache, op: Op): Cache {
    match op
    case Get(key) => AfterGet(c, key)
    case Set(key, vector) => AfterSet(c, key, vector)
  }

  function Run(ops: seq<Op>): Cache {
    if ops == [] then [] else Step(Run(ops[..|ops| - 1]), ops[|ops| - 1])
  }

  // ---- The operations on an ordered map ----------------------------------------------------------------

  predicate Holds(c: Cache, i: nat, key: string) {
    i < |c| && c[i].key == key
  }

  lemma {:induction false} LookupIs(c: Cache, key: string)
    ensures Lookup(c, key).Some? <==> Has(c, key)
    ensures Distinct(c) ==> forall i: nat :: Holds(c, i, key) ==> Lookup(c, key) == Some(c[i].vector)
  {
    if c != [] {
      LookupIs(c[1..], key);
      if Has(c[1..], key) {
        var i :| 0 <= i < |c[1..]| && c[1..][i].key == key;
        assert c[i + 1].key == key;
      }
      forall i: nat | Distinct(c) && Holds(c, i, key) ensures Lookup(c, key) == Some(c[i].vector) {
        if i > 0 { assert Holds(c[1..], i - 1, key); }
      }
      if Has(c, key) && c[0].key != key {
        var i :| 0 <= i < |c| && c[i].key == key;
        assert c[1..][i - 1].key == key;
      }
    }
  }

  lemma {:induction false} WithoutIs(c: Cache, i: nat)
    requires i < |c| && Distinct(c)
    ensures Without(c, c[i].key) == c[..i] + c[i + 1..]
  {
    if i > 0 {
      WithoutIs(c[1..], i - 1);
      assert c[1..][i - 1] == c[i];
      assert [c[0]] + (c[1..][..i - 1] + c[1..][i..]) == c[..i] + c[i + 1..];
    }
  }

  lemma {:induction false} PutIs(c: Cache, i: nat, vector: Vector)
    requires i < |c| && Distinct(c)
    ensures Put(c, c[i].key, vector) == c[i := Entry(c[i].key, vector)]
  {
    if i > 0 {
      PutIs(c[1..], i - 1, vector);
      assert c[1..][i - 1] == c[i];
      assert [c[0]] + c[1..][i - 1 := Entry(c[i].key, vector)] == c[i := Entry(c[i].key, vector)];
    }
  }

  lemma {:induction false} PutNew(c: Cache, key: string, vector: Vector)
    requires !Has(c, key)
    ensures Put(c, key, vector) == c + [Entry(key, vector)]
  {
    if c != [] {
      assert c[0].key != key;
      PutNew(c[1..], key, vector);
      assert [c[0]] + (c[1..] + [Entry(key, vector)]) == c + [Entry(key, vector)];
    }
  }

  lemma IndexOf(c: Cache, key: string) returns (i: nat)
    requires Has(c, key)
    ensures Holds(c, i, key)
  {
    i :| 0 <= i < |c| && c[i].key == key;
  }

  // ---- One step ----------------------------------------------------------------------------------------

  // What a step does to the order: it moves an entry to the end, stores in place, or appends, dropping
  // the head if the cache is full.
  lemma GetMoves(c: Cache, key: string, i: nat)
    requires Distinct(c) && Holds(c, i, key)
    ensures AfterGet(c, key) == c[..i] + c[i + 1..] + [c[i]]
  {
    LookupIs(c, key);
    WithoutIs(c, i);
  }

  lemma GetMisses(c: Cache, key: string)
    requires !Has(c, key)
    ensures AfterGet(c, key) == c
  {
    LookupIs(c, key);
  }

  lemma SetStores(c: Cache, key: string, vector: Vector, i: nat)
    requires Distinct(c) && Holds(c, i, key)
    ensures AfterSet(c, key, vector) == c[i := Entry(key, vector)]
  {
    LookupIs(c, key);
    PutIs(c, i, vector);
  }

  lemma SetAppends(c: Cache, key: string, vector: Vector)
    requires !Has(c, key)
    ensures AfterSet(c, key, vector) == (if |c| >= MAX_CACHE_SIZE then c[1..] else c) + [Entry(key, vector)]
  {
    LookupIs(c, key);
    if |c| >= MAX_CACHE_SIZE {
      PutNew(c[1..], key, vector);
    } else {
      PutNew(c, key, vector);
    }
  }

  predicate Evicts(c: Cache, op: Op, key: string) {
    op.Set? && !Has(c, op.key) && |c| == MAX_CACHE_SIZE && c[0].key == key
  }

  /** A key leaves the cache exactly when it is at the head and a new key meets a full cache. */
  lemma {:induction false} WithoutIsPart(c: Cache, key: string)
    ensures forall e :: e in Without(c, key) ==> e in c
  {
    if c != [] { WithoutIsPart(c[1..], key); }
  }

  lemma GetAddsNothing(c: Cache, read: string, key: string)
    requires Has(AfterGet(c, read), key)
    ensures Has(c, key)
  {
    LookupIs(c, read);
    WithoutIsPart(c, read);
    var c' := AfterGet(c, read);
    var i :| 0 <= i < |c'| && c'[i].key == key;
    if Lookup(c, read).Some? && i < |Without(c, read)| {
      assert c'[i] in Without(c, read);
    }
    hide Without, Lookup;
  }

  lemma OnlyTheHeadIsEvicted(c: Cache, op: Op, key: string)
    requires Distinct(c) && |c| <= MAX_CACHE_SIZE && Has(c, key)
    ensures !Has(Step(c, op), key) <==> Evicts(c, op, key)
  {
    var i := IndexOf(c, key);
    var c' := Step(c, op);
    if Has(c, op.key) {
      var j := IndexOf(c, op.key);
      match op
      case Get(k) =>
        GetMoves(c, k, j);
        assert Holds(c', if i < j then i else if i == j then |c| - 1 else i - 1, key);
      case Set(k, vector) =>
        SetStores(c, k, vector, j);
        assert Holds(c', i, key);
    } else {
      match op
      case Get(k) => GetMisses(c, k);
      case Set(k, vector) =>
        SetAppends(c, k, vector);
        if |c| < MAX_CACHE_SIZE {
          assert Holds(c', i, key);
        } else if i > 0 {
          assert Holds(c', i - 1, key);
        }
    }
  }

  // ---- All sequences of operations -----------------------------------------------------------------------

  // The last vector stored for a key.
  function LastStored(ops: seq<Op>, key: string): Option<Vector> {
    if ops == [] then None
    else
      var last := ops[|ops| - 1];
      if last.Set? && last.key == key then Some(last.vector) else LastStored(ops[..|ops| - 1], key)
  }

  // When a key was last read from the cache or came into it. Storing again does not count.
  function Touched(ops: seq<Op>, key: string): nat {
    if ops == [] then 0
    else
      var before, last := ops[..|ops| - 1], ops[|ops| - 1];
      if last.key == key && (last.Get? <==> Has(Run(before), key)) then |ops| else Touched(before, key)
  }

  predicate InOrder(ops: seq<Op>, c: Cache) {
    && (forall i :: 0 <= i < |c| ==> Touched(ops, c[i].key) <= |ops|)
    && forall i, j :: 0 <= i < j < |c| ==> Touched(ops, c[i].key) < Touched(ops, c[j].key)
  }

  predicate Current(ops: seq<Op>, c: Cache) {
    forall i :: 0 <= i < |c| ==> LastStored(ops, c[i].key) == Some(c[i].vector)
  }

  predicate Good(ops: seq<Op>, c: Cache) {
    |c| <= MAX_CACHE_SIZE && Distinct(c) && InOrder(ops, c) && Current(ops, c)
  }

  lemma TouchedStep(ops: seq<Op>, op: Op, key: string)
    ensures Touched(ops + [op], key) ==
      if op.key == key && (op.Get? <==> Has(Run(ops), key)) then |ops| + 1 else Touched(ops, key)
    ensures LastStored(ops + [op], key) == if op.Set? && op.key == key then Some(op.vector) else LastStored(ops, key)
    ensures Run(ops + [op]) == Step(Run(ops), op)
  {
    assert (ops + [op])[..|ops|] == ops;
  }

  lemma HitKeepsGood(ops: seq<Op>, key: string, i: nat)
    requires Good(ops, Run(ops)) && Holds(Run(ops), i, key)
    ensures Good(ops + [Get(key)], Run(ops)[..i] + Run(ops)[i + 1..] + [Run(ops)[i]])
  {
    hide Run, Touched, LastStored, Step;
    var c, op := Run(ops), Get(key);
    var c' := c[..i] + c[i + 1..] + [c[i]];
    forall k | 0 <= k < |c'|
      ensures Touched(ops + [op], c'[k].key) == (if k == |c'| - 1 then |ops| + 1 else Touched(ops, c'[k].key))
      ensures LastStored(ops + [op], c'[k].key) == Some(c'[k].vector)
    {
      TouchedStep(ops, op, c'[k].key);
      assert c'[k] == c[if k < i then k else if k == |c'| - 1 then i else k + 1];
    }
  }

  lemma StoreKeepsGood(ops: seq<Op>, key: string, vector: Vector, i: nat)
    requires Good(ops, Run(ops)) && Holds(Run(ops), i, key)
    ensures Good(ops + [Set(key, vector)], Run(ops)[i := Entry(key, vector)])
  {
    hide Run, Touched, LastStored, Step;
    var c, op := Run(ops), Set(key, vector);
    var c' := c[i := Entry(key, vector)];
    forall k | 0 <= k < |c'|
      ensures Touched(ops + [op], c'[k].key) == Touched(ops, c[k].key) && c'[k].key == c[k].key
      ensures LastStored(ops + [op], c'[k].key) == Some(c'[k].vector)
    {
      TouchedStep(ops, op, c'[k].key);
    }
  }

  lemma AppendKeepsGood(ops: seq<Op>, key: string, vector: Vector)
    requires Good(ops, Run(ops)) && !Has(Run(ops), key)
    ensures
      var c := Run(ops);
      Good(ops + [Set(key, vector)], (if |c| >= MAX_CACHE_SIZE then c[1..] else c) + [Entry(key, vector)])
  {
    hide Run, Touched, LastStored, Step;
    var c, op := Run(ops), Set(key, vector);
    var kept := if |c| >= MAX_CACHE_SIZE then c[1..] else c;
    var c' := kept + [Entry(key, vector)];
    TouchedStep(ops, op, key);
    forall k | 0 <= k < |kept|
      ensures c'[k].key != key && Touched(ops + [op], c'[k].key) == Touched(ops, kept[k].key)
      ensures LastStored(ops + [op], c'[k].key) == Some(c'[k].vector)
    {
      TouchedStep(ops, op, c'[k].key);
      assert kept[k] == c[|c| - |kept| + k];
    }
  }

  /**
   * After any gets and sets the cache holds at most its maximum, each key once, in the order in which
   * the keys were last read or came in, and each with the vector last stored for it.
   */
  lemma {:induction false} CacheIsGood(ops: seq<Op>)
    ensures Good(ops, Run(ops))
  {
    if ops != [] {
      var before, op := ops[..|ops| - 1], ops[|ops| - 1];
      assert ops == before + [op];
      CacheIsGood(before);
      TouchedStep(before, op, op.key);
      hide Touched, LastStored, InOrder, Current, Run, AfterGet, AfterSet;
      var c := Run(before);
      if Has(c, op.key) {
        var i := IndexOf(c, op.key);
        match op
        case Get(key) => GetMoves(c, key, i); HitKeepsGood(before, key, i);
        case Set(key, vector) => SetStores(c, key, vector, i); StoreKeepsGood(before, key, vector, i);
      } else {
        match op
        case Get(key) => GetMisses(c, key);
        case Set(key, vector) => SetAppends(c, key, vector); AppendKeepsGood(before, key, vector);
      }
    }
  }

  /** A hit returns the vector last stored. */
  lemma HitIsLastStored(ops: seq<Op>, key: string)
    requires Lookup(Run(ops), key).Some?
    ensures Lookup(Run(ops), key) == LastStored(ops, key)
  {
    CacheIsGood(ops);
    LookupIs(Run(ops), key);
    var i := IndexOf(Run(ops), key);
    assert Holds(Run(ops), i, key);
  }
}

/** The embedding service: cache, provider with a fallback, and batches that answer by position. */
module EmbeddingService {
  import opened Wrappers
  import opened EmbeddingCache

  const DEGRADED_RECOVERY_MS: int := 300000

  // What the provider answers to one text: a vector, or it throws.
  type Answer = Option<Vector>

  class LlmEmbeddingService {
    const hasProvider: bool
    const keyword: string -> Vector
    var cache: Cache
    var degraded: bool
    var degradedAt: int
    var hits: nat
    var misses: nat
    ghost var ops: seq<Op>
    // Every vector that was computed, with the text it was computed for.
    ghost var computed: set<(string, Vector)>

    constructor (hasProvider: bool, keyword: string -> Vector)
      ensures Valid() && cache == [] && !degraded
    {
      this.hasProvider, this.keyword := hasProvider, keyword;
      cache, degraded, degradedAt, hits, misses, ops, computed := [], false, 0, 0, 0, [], {};
    }

    ghost predicate Valid()
      reads this
    {
      cache == Run(ops) && Sourced(ops, computed)
    }

    // The real provider is left alone for a while after it failed.
    predicate Tries(now: int)
      reads this
    {
      hasProvider && (!degraded || now - degradedAt >= DEGRADED_RECOVERY_MS)
    }

    method CacheGet(key: string) returns (vector: Option<Vector>)
      requires Valid()
      modifies this`cache, this`ops
      ensures Valid() && ops == old(ops) + [Get(key)] && vector == Lookup(old(cache), key)
      ensures vector.Some? ==> (key, vector.value) in computed
    {
      vector := Lookup(cache, key);
      CacheIsGood(ops);
      SourcedLookup(ops, computed, key);
      TouchedStep(ops, Get(key), key);
      SourcedStep(ops, Get(key), computed);
      if vector.Some? { cache := Without(cache, key) + [Entry(key, vector.value)]; }
      ops := ops + [Get(key)];
    }

    method CacheSet(key: string, vector: Vector)
      requires Valid() && (key, vector) in computed
      modifies this`cache, this`ops
      ensures Valid() && ops == old(ops) + [Set(key, vector)]
    {
      TouchedStep(ops, Set(key, vector), key);
      SourcedStep(ops, Set(key, vector), computed);
      if |cache| >= MAX_CACHE_SIZE && Lookup(cache, key).None? { cache := cache[1..]; }
      cache := Put(cache, key, vector);
      ops := ops + [Set(key, vector)];
    }

    /** `embed`: a hit is the stored vector; a miss asks the provider, or falls back on keywords. */
    method Embed(text: string, answer: Answer, now: int) returns (vector: Vector)
      requires Valid()
      modifies this
      ensures Valid() && (text, vector) in computed && computed >= old(computed)
      ensures Lookup(old(cache), text).Some? ==> vector == Lookup(old(cache), text).value
      ensures Lookup(old(cache), text).None? ==>
        var tries := hasProvider && (!old(degraded) || now - old(degradedAt) >= DEGRADED_RECOVERY_MS);
        && vector == (if tries && answer.Some? then answer.value else keyword(text))
        && degraded == (if tries then answer.None? else old(degraded))
        && degradedAt == if !tries || (old(degraded) && answer.None?) then old(degradedAt)
                         else if answer.None? then now else if old(degraded) then 0 else old(degradedAt)
      ensures Lookup(old(cache), text).Some? ==> degraded == old(degraded) && degradedAt == old(degradedAt)
    {
      hide Run, Sourced, Lookup;
      var cached := CacheGet(text);
      if cached.Some? {
        hits := hits + 1;
        return cached.value;
      }
      misses := misses + 1;
      if Tries(now) {
        if answer.Some? {
          degraded, degradedAt := false, if degraded then 0 else degradedAt;
          Store(text, answer.value);
          return answer.value;
        }
        if !degraded { degraded, degradedAt := true, now; }
      }
      Store(text, keyword(text));
      return keyword(text);
    }

    // A vector just computed goes into the cache.
    method Store(text: string, vector: Vector)
      requires Valid()
      modifies this`computed, this`cache, this`ops
      ensures Valid() && computed == old(computed) + {(text, vector)}
      ensures ops == old(ops) + [Set(text, vector)]
    {
      Compute(text, vector);
      hide Sourced, Run;
      CacheSet(text, vector);
    }

    ghost method Compute(text: string, vector: Vector)
      requires Valid()
      modifies this`computed
      ensures Valid() && computed == old(computed) + {(text, vector)}
    {
      computed := computed + {(text, vector)};
      SourcedMore(ops, old(computed), computed);
    }

    /**
     * `embedBatch`. Every position is answered with a vector computed for its own text, whatever is
     * cached, repeated, missing from the provider's answer or evicted in between.
     */
    method EmbedBatch(texts: seq<string>, batch: Option<seq<Vector>>, singles: nat -> Answer, now: int)
      returns (vectors: seq<Vector>)
      requires Valid()
      modifies this
      ensures Valid() && |vectors| == |texts|
      ensures forall i :: 0 <= i < |texts| ==> (texts[i], vectors[i]) in computed
      ensures forall i :: 0 <= i < |texts| && Has(old(cache), texts[i]) ==>
        Some(vectors[i]) == LastStored(old(ops), texts[i])
      ensures exists asked ::
        && Missing(texts, old(cache), asked)
        && (old(Tries(now)) && batch.Some? ==> Answered(vectors, asked, batch.value))
    {
      hide Run, Sourced, Filled, Kept, Open, Has, LastStored, Lookup, Missing, GivenTo, Answered, CachedAre;
      ghost var before, start, tries := ops, cache, Tries(now);
      var results := LookUpAll(texts);
      ghost var cached := results;
      var uncached: seq<nat> := [];
      NothingOpen(texts, results, before);
      for i := 0 to |results|
        invariant Open(texts, results, uncached, before)
        invariant Valid() && Filled(texts, results, computed)
        invariant |uncached| > 0 || forall k :: 0 <= k < i ==> results[k].Some?
        invariant GapsUpTo(results, uncached, i) && Tries(now) == tries
      {
        if results[i].None? {
          OneMoreOpen(texts, results, uncached, before, i);
          uncached := uncached + [i];
        } else {
          hits := hits + 1;
        }
      }
      GapsAreMissing(texts, start, results, uncached);
      NothingGiven(results, uncached, batch);
      if |uncached| > 0 {
        misses := misses + |uncached|;
        results := AskProvider(texts, results, uncached, batch, now, before);
        for j := 0 to |results|
          invariant Valid() && |results| == |texts|
          invariant Filled(texts, results, computed) && Kept(texts, results, before)
          invariant forall k :: 0 <= k < j ==> results[k].Some?
          invariant tries ==> GivenTo(results, uncached, batch)
        {
          if results[j].None? {
            GivenStays(results, uncached, batch, j);
            ghost var earlier := computed;
            NothingOpen(texts, results, before);
            OneMoreOpen(texts, results, [], before, j);
            var vector := Embed(texts[j], singles(j), now);
            FillOne(texts, results, earlier, computed, before, j, vector);
            results := results[j := Some(vector)];
          }
        }
      }
      vectors := Values(results);
      if tries && batch.Some? { GivenAnswers(results, uncached, batch, vectors); }
      AllFilled(texts, results, vectors, computed, before);
    }

    lemma ValidMeans()
      requires Valid()
      ensures cache == Run(ops)
    {
    }

    // First the cache is asked for every text.
    method LookUpAll(texts: seq<string>) returns (results: seq<Option<Vector>>)
      requires Valid()
      modifies this`cache, this`ops
      ensures Valid() && |results| == |texts|
      ensures Filled(texts, results, computed) && Kept(texts, results, old(ops))
      ensures CachedAre(texts, results, old(cache))
    {
      ghost var start := cache;
      results := [];
      ValidMeans();
      LookUpBegins(texts, computed, ops);
      hide *;
      for i := 0 to |texts|
        invariant Valid() && |results| == i && computed == old(computed)
        invariant Filled(texts[..i], results, computed) && Kept(texts[..i], results, old(ops))
        invariant Reads(old(ops), ops)
        invariant CachedAre(texts[..i], results, start)
      {
        ghost var now := ops;
        ValidMeans();
        var cached := CacheGet(texts[i]);
        ReadsOne(old(ops), now, texts[i]);
        LookedUp(texts, results, i, cached, computed, old(ops), now);
        results := results + [cached];
      }
      assert texts[..|texts|] == texts;
    }

    // Then the provider is asked once for the texts that were not cached. What it leaves out stays open.
    method AskProvider(texts: seq<string>, results: seq<Option<Vector>>, uncached: seq<nat>,
                       batch: Option<seq<Vector>>, now: int, ghost before: seq<Op>)
      returns (results': seq<Option<Vector>>)
      requires Valid() && |results| == |texts| && Open(texts, results, uncached, before)
      requires Filled(texts, results, computed) && Kept(texts, results, before)
      requires forall j, k :: 0 <= j < k < |uncached| ==> uncached[j] != uncached[k]
      modifies this
      ensures Valid() && |results'| == |texts|
      ensures Filled(texts, results', computed) && Kept(texts, results', before)
      ensures old(Tries(now)) ==> GivenTo(results', uncached, batch)
    {
      hide Run, Sourced, Filled, Kept, Open, Has, LastStored, Lookup, GivenUpTo;
      NothingGivenYet(results, uncached, batch);
      results' := results;
      if !Tries(now) { return; }
      if batch.None? {
        if !degraded { degraded, degradedAt := true, now; }
        return;
      }
      degraded, degradedAt := false, if degraded then 0 else degradedAt;
      for j := 0 to |uncached|
        invariant Valid() && |results'| == |texts|
        invariant Filled(texts, results', computed) && Kept(texts, results', before)
        invariant GivenUpTo(results', uncached, batch, j)
      {
        GiveNext(results', uncached, batch, j);
        var i := uncached[j];
        OpenAt(texts, results, uncached, before, j);
        if j < |batch.value| && |batch.value[j]| > 0 {
          var vector := batch.value[j];
          ghost var earlier := computed;
          Compute(texts[i], vector);
          CacheSet(texts[i], vector);
          FillOne(texts, results', earlier, computed, before, i, vector);
          results' := results'[i := Some(vector)];
        }
      }
    }
  }

  // The texts at these places, in order, are those the cache did not have.
  ghost predicate Missing(texts: seq<string>, c: Cache, asked: seq<nat>) {
    && (forall j :: 0 <= j < |asked| ==> asked[j] < |texts|)
    && (forall j, k :: 0 <= j < k < |asked| ==> asked[j] < asked[k])
    && (forall i :: 0 <= i < |texts| ==> (i in asked <==> !Has(c, texts[i])))
  }

  // What the provider answered with a vector is the answer.
  ghost predicate Answered(vectors: seq<Vector>, asked: seq<nat>, batch: seq<Vector>) {
    forall j :: 0 <= j < |asked| && j < |batch| && asked[j] < |vectors| && batch[j] != [] ==>
      vectors[asked[j]] == batch[j]
  }

  // An answer has been found for exactly the texts the cache has.
  ghost predicate CachedAre(texts: seq<string>, results: seq<Option<Vector>>, c: Cache) {
    |results| == |texts| && forall k :: 0 <= k < |texts| ==> (results[k].Some? <==> Has(c, texts[k]))
  }

  // The open places among the first n, in order.
  predicate GapsUpTo(results: seq<Option<Vector>>, gaps: seq<nat>, n: nat) {
    && n <= |results| && (forall j :: 0 <= j < |gaps| ==> gaps[j] < n)
    && (forall j, k :: 0 <= j < k < |gaps| ==> gaps[j] < gaps[k])
    && (forall i :: 0 <= i < n ==> (i in gaps <==> results[i].None?))
  }

  lemma GapsAreMissing(texts: seq<string>, c: Cache, results: seq<Option<Vector>>, gaps: seq<nat>)
    requires |results| == |texts| && GapsUpTo(results, gaps, |results|)
    requires CachedAre(texts, results, c)
    ensures Missing(texts, c, gaps)
  {
    hide Has;
  }

  // The first n of the asked places hold what the provider gave for them.
  predicate GivenUpTo(results: seq<Option<Vector>>, asked: seq<nat>, batch: Option<seq<Vector>>, n: nat) {
    forall j :: 0 <= j < n && j < |asked| && batch.Some? && j < |batch.value| && batch.value[j] != [] ==>
      asked[j] < |results| && results[asked[j]] == Some(batch.value[j])
  }

  predicate GivenTo(results: seq<Option<Vector>>, asked: seq<nat>, batch: Option<seq<Vector>>) {
    GivenUpTo(results, asked, batch, |asked|)
  }

  lemma NothingGivenYet(results: seq<Option<Vector>>, asked: seq<nat>, batch: Option<seq<Vector>>)
    ensures GivenUpTo(results, asked, batch, 0)
    ensures batch.None? || asked == [] ==> GivenUpTo(results, asked, batch, |asked|)
  {
  }

  lemma NothingGiven(results: seq<Option<Vector>>, asked: seq<nat>, batch: Option<seq<Vector>>)
    ensures asked == [] ==> GivenTo(results, asked, batch)
  {
  }

  lemma GiveNext(results: seq<Option<Vector>>, asked: seq<nat>, batch: Option<seq<Vector>>, j: nat)
    requires GivenUpTo(results, asked, batch, j) && j < |asked| && batch.Some?
    requires forall k, l :: 0 <= k < l < |asked| ==> asked[k] != asked[l]
    ensures !(j < |batch.value| && batch.value[j] != []) ==> GivenUpTo(results, asked, batch, j + 1)
    ensures j < |batch.value| && batch.value[j] != [] && asked[j] < |results| ==>
      GivenUpTo(results[asked[j] := Some(batch.value[j])], asked, batch, j + 1)
  {
  }

  lemma GivenStays(results: seq<Option<Vector>>, asked: seq<nat>, batch: Option<seq<Vector>>, i: nat)
    requires i < |results| && results[i].None?
    ensures GivenTo(results, asked, batch) ==> forall v :: GivenTo(results[i := Some(v)], asked, batch)
  {
  }

  lemma GivenAnswers(results: seq<Option<Vector>>, asked: seq<nat>, batch: Option<seq<Vector>>, vectors: seq<Vector>)
    requires GivenTo(results, asked, batch) && batch.Some?
    requires |vectors| == |results| && forall k :: 0 <= k < |vectors| ==> results[k] == Some(vectors[k])
    ensures Answered(vectors, asked, batch.value)
  {
  }

  function Values(results: seq<Option<Vector>>): (vs: seq<Vector>)
    requires forall k :: 0 <= k < |results| ==> results[k].Some?
    ensures |vs| == |results| && forall k :: 0 <= k < |vs| ==> results[k] == Some(vs[k])
  {
    seq(|results|, k requires 0 <= k < |results| => results[k].value)
  }

  // Every answer so far was computed for its own text.
  ghost predicate Filled(texts: seq<string>, results: seq<Option<Vector>>, computed: set<(string, Vector)>) {
    |results| <= |texts| && forall k :: 0 <= k < |results| && results[k].Some? ==>
      (texts[k], results[k].value) in computed
  }

  // What was cached before is answered with what was stored last.
  ghost predicate Kept(texts: seq<string>, results: seq<Option<Vector>>, before: seq<Op>) {
    && |results| <= |texts|
    && forall k :: 0 <= k < |results| && Has(Run(before), texts[k]) ==>
         results[k].Some? && results[k] == LastStored(before, texts[k])
  }

  // The positions left open: nothing was cached for them.
  ghost predicate Open(texts: seq<string>, results: seq<Option<Vector>>, uncached: seq<nat>, before: seq<Op>) {
    forall j :: 0 <= j < |uncached| ==> uncached[j] < |texts| && !Has(Run(before), texts[uncached[j]])
  }

  lemma OpenAt(texts: seq<string>, results: seq<Option<Vector>>, uncached: seq<nat>, before: seq<Op>, j: nat)
    requires Open(texts, results, uncached, before) && j < |uncached|
    ensures uncached[j] < |texts| && !Has(Run(before), texts[uncached[j]])
  {
  }

  lemma NothingOpen(texts: seq<string>, results: seq<Option<Vector>>, before: seq<Op>)
    ensures Open(texts, results, [], before)
  {
  }

  lemma OneMoreOpen(texts: seq<string>, results: seq<Option<Vector>>, uncached: seq<nat>, before: seq<Op>, i: nat)
    requires Open(texts, results, uncached, before) && Kept(texts, results, before)
    requires i < |results| && results[i].None?
    ensures Open(texts, results, uncached + [i], before) && !Has(Run(before), texts[i])
  {
    hide Has, Run;
  }

  lemma FillOne(texts: seq<string>, results: seq<Option<Vector>>, computed: set<(string, Vector)>,
                more: set<(string, Vector)>, before: seq<Op>, i: nat, vector: Vector)
    requires Filled(texts, results, computed) && Kept(texts, results, before) && i < |results| <= |texts|
    requires computed <= more && (texts[i], vector) in more && !Has(Run(before), texts[i])
    ensures Filled(texts, results[i := Some(vector)], more) && Kept(texts, results[i := Some(vector)], before)
  {
    hide Has, Run;
  }

  // Only reads have happened since.
  ghost predicate Reads(before: seq<Op>, ops: seq<Op>) {
    && before <= ops && (forall i :: |before| <= i < |ops| ==> ops[i].Get?)
    && (forall key :: Has(Run(before), key) <==> Has(Run(ops), key))
    && (forall key :: LastStored(ops, key) == LastStored(before, key))
  }

  lemma ReadsOne(before: seq<Op>, ops: seq<Op>, text: string)
    requires Reads(before, ops)
    ensures Reads(before, ops + [Get(text)])
  {
    assert Step(Run(ops), Get(text)) == AfterGet(Run(ops), text);
    hide Has, Run, LastStored, Step;
    CacheIsGood(ops);
    forall key ensures Has(Run(before), key) <==> Has(Run(ops + [Get(text)]), key)
      ensures LastStored(ops + [Get(text)], key) == LastStored(before, key)
    {
      TouchedStep(ops, Get(text), key);
      if Has(Run(before), key) { OnlyTheHeadIsEvicted(Run(ops), Get(text), key); }
      if Has(Run(ops + [Get(text)]), key) { GetAddsNothing(Run(ops), text, key); }
    }
  }

  lemma LookUpBegins(texts: seq<string>, computed: set<(string, Vector)>, ops: seq<Op>)
    ensures Filled(texts[..0], [], computed) && Kept(texts[..0], [], ops) && Reads(ops, ops)
    ensures CachedAre(texts[..0], [], Run(ops))
  {
  }

  lemma LookedUp(texts: seq<string>, results: seq<Option<Vector>>, i: nat, cached: Option<Vector>,
                 computed: set<(string, Vector)>, before: seq<Op>, ops: seq<Op>)
    requires i < |texts| && |results| == i && Reads(before, ops) && cached == Lookup(Run(ops), texts[i])
    requires cached.Some? ==> (texts[i], cached.value) in computed
    requires Filled(texts[..i], results, computed) && Kept(texts[..i], results, before)
    ensures Filled(texts[..i + 1], results + [cached], computed) && Kept(texts[..i + 1], results + [cached], before)
    ensures CachedAre(texts[..i], results, Run(before)) ==>
      CachedAre(texts[..i + 1], results + [cached], Run(before))
  {
    hide Has, Run, LastStored;
    LookupIs(Run(ops), texts[i]);
    if cached.Some? { HitIsLastStored(ops, texts[i]); }
  }

  lemma AllFilled(texts: seq<string>, results: seq<Option<Vector>>, vectors: seq<Vector>,
                  computed: set<(string, Vector)>, before: seq<Op>)
    requires Filled(texts, results, computed) && Kept(texts, results, before)
    requires |vectors| == |results| == |texts| && forall k :: 0 <= k < |vectors| ==> results[k] == Some(vectors[k])
    ensures forall i :: 0 <= i < |texts| ==> (texts[i], vectors[i]) in computed
    ensures forall i :: 0 <= i < |texts| && Has(Run(before), texts[i]) ==>
      Some(vectors[i]) == LastStored(before, texts[i])
  {
    hide Has, Run, LastStored;
  }

  // Everything stored was computed for the key it is stored under.
  ghost predicate Sourced(ops: seq<Op>, computed: set<(string, Vector)>) {
    forall i :: 0 <= i < |ops| && ops[i].Set? ==> (ops[i].key, ops[i].vector) in computed
  }

  lemma {:induction false} SourcedLast(ops: seq<Op>, computed: set<(string, Vector)>, key: string)
    requires Sourced(ops, computed) && LastStored(ops, key).Some?
    ensures (key, LastStored(ops, key).value) in computed
  {
    var last := ops[|ops| - 1];
    if !(last.Set? && last.key == key) { SourcedLast(ops[..|ops| - 1], computed, key); }
  }

  lemma SourcedLookup(ops: seq<Op>, computed: set<(string, Vector)>, key: string)
    requires Sourced(ops, computed)
    ensures Lookup(Run(ops), key).Some? ==> (key, Lookup(Run(ops), key).value) in computed
  {
    if Lookup(Run(ops), key).Some? {
      HitIsLastStored(ops, key);
      SourcedLast(ops, computed, key);
    }
  }

  lemma SourcedStep(ops: seq<Op>, op: Op, computed: set<(string, Vector)>)
    requires Sourced(ops, computed) && (op.Set? ==> (op.key, op.vector) in computed)
    ensures Sourced(ops + [op], computed)
  {
  }

  lemma SourcedMore(ops: seq<Op>, computed: set<(string, Vector)>, more: set<(string, Vector)>)
    requires Sourced(ops, computed) && computed <= more
    ensures Sourced(ops, more)
  {
  }
}
