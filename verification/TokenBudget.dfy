/** The token budgeter: pre-compression, the preferred order and the greedy choice. */
module TokenBudget {
  datatype Source =
    | System | CurrentMessage | ConversationHistory | ConversationSummary | Memory | Artifact | ToolResult
    | SkillCatalog | RunState | SafetyPolicy | External

  datatype Chunk = Chunk(id: string, source: Source, content: string, tokenEstimate: nat, priority: int,
                         preCompressed: bool)

  const ELLIPSIS: char := '\U{2026}'
  const STOPS: set<char> := {'\U{3002}', '.', '!', '?', '\n'}

  predicate Mandatory(c: Chunk) {
    c.source in {System, CurrentMessage, SafetyPolicy, RunState}
  }

  function EstimateTokens(text: string): nat {
    (|text| + 3) / 4
  }

  function Total(chunks: seq<Chunk>): nat {
    if chunks == [] then 0 else Total(chunks[..|chunks| - 1]) + chunks[|chunks| - 1].tokenEstimate
  }

  // ---- Pre-compression --------------------------------------------------------------------------------

  // The index of the last sentence end, or -1.
  function LastStop(text: string): (i: int)
    ensures -1 <= i < |text|
    ensures i >= 0 ==> text[i] in STOPS
    ensures forall k :: i < k < |text| ==> text[k] !in STOPS
  {
    if text == "" then -1
    else if text[|text| - 1] in STOPS then |text| - 1
    else LastStop(text[..|text| - 1])
  }

  function CompressMessage(content: string, maxChars: nat): string {
    if |content| <= maxChars then content
    else
      var stop := LastStop(content[..maxChars]);
      if 2 * stop > maxChars then content[..stop + 1] + [ELLIPSIS] else content[..maxChars] + [ELLIPSIS]
  }

  function Compress(c: Chunk): Chunk {
    if c.source == ConversationHistory && |c.content| > 300 && c.tokenEstimate > 75 then
      var compressed := CompressMessage(c.content, 300);
      c.(content := compressed, tokenEstimate := EstimateTokens(compressed), preCompressed := true)
    else c
  }

  // Where a long message is cut: behind the last sentence end of the first 300 characters if that leaves
  // more than half of them, and otherwise behind them all.
  predicate CutsAt(content: string, k: nat) {
    && k <= 300 <= |content|
    && (k < 300 ==> k > 150 && content[k - 1] in STOPS)
    && (forall j :: k <= j < 300 ==> content[j] !in STOPS || j <= 150)
    && (k == 300 ==> content[299] in STOPS || forall j :: 150 < j < 300 ==> content[j] !in STOPS)
  }

  /**
   * Pre-compression cuts exactly the long messages of the conversation, each behind a sentence if it can,
   * and raises neither length nor estimate; every other chunk stays as it is.
   */
  lemma CompressShortens(c: Chunk)
    ensures
      var c' := Compress(c);
      && c'.tokenEstimate <= c.tokenEstimate && |c'.content| <= |c.content|
      && if c.source == ConversationHistory && |c.content| > 300 && c.tokenEstimate > 75 then
           exists k: nat :: CutsAt(c.content, k) && 150 < k &&
             c' == c.(content := c.content[..k] + [ELLIPSIS], tokenEstimate := (k + 4) / 4, preCompressed := true)
         else c' == c
  {
    if c.source == ConversationHistory && |c.content| > 300 && c.tokenEstimate > 75 {
      var first := c.content[..300];
      var stop := LastStop(first);
      var k := if 2 * stop > 300 then stop + 1 else 300;
      assert stop >= 0 ==> c.content[stop] in STOPS;
      forall j | stop < j < 300 ensures c.content[j] !in STOPS { assert first[j] !in STOPS; }
      assert first[..300] == first && (2 * stop > 300 ==> first[..stop + 1] == c.content[..stop + 1]);
      assert Compress(c).content == c.content[..k] + [ELLIPSIS];
      assert CutsAt(c.content, k);
    }
  }

  // ---- The preferred order --------------------------------------------------------------------------------

  const TRIM_ORDER: seq<Source> :=
    [Memory, ToolResult, Artifact, ConversationHistory, ConversationSummary, SkillCatalog]

  // What is trimmed first has the lowest rank; what is not listed is kept longest.
  function Rank(s: Source): nat {
    match s
    case Memory => 0
    case ToolResult => 1
    case Artifact => 2
    case ConversationHistory => 3
    case ConversationSummary => 4
    case SkillCatalog => 5
    case _ => |TRIM_ORDER|
  }

  predicate Before(a: Chunk, b: Chunk) {
    Rank(a.source) > Rank(b.source) || (Rank(a.source) == Rank(b.source) && a.priority < b.priority)
  }

  predicate Sorted(chunks: seq<Chunk>) {
    forall i, j :: 0 <= i < j < |chunks| ==> !Before(chunks[j], chunks[i])
  }

  // Equals keep their order: the sort is stable.
  function Insert(sorted: seq<Chunk>, c: Chunk): seq<Chunk> {
    if sorted == [] then [c]
    else if Before(c, sorted[|sorted| - 1]) then Insert(sorted[..|sorted| - 1], c) + [sorted[|sorted| - 1]]
    else sorted + [c]
  }

  function Sort(chunks: seq<Chunk>): seq<Chunk> {
    if chunks == [] then [] else Insert(Sort(chunks[..|chunks| - 1]), chunks[|chunks| - 1])
  }

  predicate Tied(a: Chunk, b: Chunk) {
    Rank(a.source) == Rank(b.source) && a.priority == b.priority
  }

  // The chunks that neither come before nor after this one, in order.
  function Ties(chunks: seq<Chunk>, c: Chunk): seq<Chunk> {
    if chunks == [] then []
    else
      var last := chunks[|chunks| - 1];
      Ties(chunks[..|chunks| - 1], c) + if Tied(last, c) then [last] else []
  }

  lemma TiesAppend(chunks: seq<Chunk>, last: Chunk, c: Chunk)
    ensures Ties(chunks + [last], c) ==
      Ties(chunks, c) + if Tied(last, c) then [last] else []
  {
    assert (chunks + [last])[..|chunks|] == chunks;
  }

  lemma {:induction false} InsertKeeps(sorted: seq<Chunk>, c: Chunk)
    ensures multiset(Insert(sorted, c)) == multiset(sorted) + multiset{c}
  {
    hide Before;
    if sorted != [] && Before(c, sorted[|sorted| - 1]) {
      InsertKeeps(sorted[..|sorted| - 1], c);
      assert sorted == sorted[..|sorted| - 1] + [sorted[|sorted| - 1]];
    }
  }

  lemma {:induction false} InsertIsSorted(sorted: seq<Chunk>, c: Chunk)
    requires Sorted(sorted)
    ensures Sorted(Insert(sorted, c))
  {
    hide Rank;
    if sorted != [] && Before(c, sorted[|sorted| - 1]) {
      var n := |sorted| - 1;
      InsertIsSorted(sorted[..n], c);
      var rest := Insert(sorted[..n], c);
      InsertKeeps(sorted[..n], c);
      forall i | 0 <= i < |rest| ensures !Before(sorted[n], rest[i]) {
        assert rest[i] in multiset(rest);
        assert rest[i] == c || rest[i] in sorted[..n];
      }
    }
  }

  lemma NotBothTied(a: Chunk, b: Chunk, d: Chunk)
    requires Before(a, b)
    ensures !Tied(a, d) || !Tied(b, d)
  {
  }

  lemma Swap(a: seq<Chunk>, b: seq<Chunk>, c: seq<Chunk>)
    requires b == [] || c == []
    ensures a + b + c == a + c + b
  {
  }

  lemma {:induction false} InsertIsStable(sorted: seq<Chunk>, c: Chunk, d: Chunk)
    ensures Ties(Insert(sorted, c), d) == Ties(sorted, d) + if Tied(c, d) then [c] else []
  {
    if sorted == [] {
      TiesAppend([], c, d);
      assert [] + [c] == [c];
    } else if Before(c, sorted[|sorted| - 1]) {
      var n := |sorted| - 1;
      InsertIsStable(sorted[..n], c, d);
      assert Insert(sorted, c) == Insert(sorted[..n], c) + [sorted[n]];
      NotBothTied(c, sorted[n], d);
      hide *;
      TiesAppend(Insert(sorted[..n], c), sorted[n], d);
      TiesAppend(sorted[..n], sorted[n], d);
      assert sorted == sorted[..n] + [sorted[n]];
      Swap(Ties(sorted[..n], d), if Tied(c, d) then [c] else [], if Tied(sorted[n], d) then [sorted[n]] else []);
    } else {
      TiesAppend(sorted, c, d);
    }
  }

  lemma {:induction false} SortKeeps(chunks: seq<Chunk>)
    ensures multiset(Sort(chunks)) == multiset(chunks)
  {
    hide Insert;
    if chunks != [] {
      var n := |chunks| - 1;
      SortKeeps(chunks[..n]);
      InsertKeeps(Sort(chunks[..n]), chunks[n]);
      assert chunks == chunks[..n] + [chunks[n]];
    }
  }

  // What is kept longer comes first: a source that is never trimmed before one that is, one that is
  // trimmed later before one that is trimmed earlier, and of one rank what is more urgent.
  predicate KeptLonger(a: Chunk, b: Chunk) {
    || (a.source !in TRIM_ORDER && b.source in TRIM_ORDER)
    || (exists i, j :: 0 <= i < j < |TRIM_ORDER| && TRIM_ORDER[i] == b.source && TRIM_ORDER[j] == a.source)
    || ((a.source == b.source || (a.source !in TRIM_ORDER && b.source !in TRIM_ORDER)) && a.priority < b.priority)
  }

  lemma RankIs(s: Source)
    ensures s in TRIM_ORDER <==> Rank(s) < |TRIM_ORDER|
    ensures Rank(s) < |TRIM_ORDER| ==> TRIM_ORDER[Rank(s)] == s
    ensures Rank(s) <= |TRIM_ORDER|
    ensures forall i :: 0 <= i < |TRIM_ORDER| && TRIM_ORDER[i] == s ==> i == Rank(s)
  {
    match s
    case Memory => assert TRIM_ORDER[0] == s;
    case ToolResult => assert TRIM_ORDER[1] == s;
    case Artifact => assert TRIM_ORDER[2] == s;
    case ConversationHistory => assert TRIM_ORDER[3] == s;
    case ConversationSummary => assert TRIM_ORDER[4] == s;
    case SkillCatalog => assert TRIM_ORDER[5] == s;
    case _ =>
  }

  lemma BeforeIff(a: Chunk, b: Chunk)
    ensures Before(a, b) <==> KeptLonger(a, b)
  {
    RankIs(a.source);
    RankIs(b.source);
    hide Rank;
    if Before(a, b) && Rank(a.source) > Rank(b.source) && Rank(a.source) < |TRIM_ORDER| {
      assert TRIM_ORDER[Rank(b.source)] == b.source && TRIM_ORDER[Rank(a.source)] == a.source;
    }
  }

  // An arrangement of the chunks in which nothing that would be kept longer stands behind, and ties do
  // not change places.
  ghost predicate Preferred(chunks: seq<Chunk>, sorted: seq<Chunk>) {
    && multiset(sorted) == multiset(chunks)
    && (forall i, j :: 0 <= i < j < |sorted| ==> !KeptLonger(sorted[j], sorted[i]))
    && (forall d :: Ties(sorted, d) == Ties(chunks, d))
  }

  lemma SortIsPreferred(chunks: seq<Chunk>)
    ensures Preferred(chunks, Sort(chunks))
  {
    SortKeeps(chunks);
    forall d ensures Ties(Sort(chunks), d) == Ties(chunks, d) && Sorted(Sort(chunks)) { SortSpec(chunks, d); }
    assert Sorted(Sort(chunks)) by { SortSpec(chunks, Chunk("", System, "", 0, 0, false)); }
    var sorted := Sort(chunks);
    hide Sort, Before, KeptLonger;
    forall i, j | 0 <= i < j < |sorted| ensures !KeptLonger(sorted[j], sorted[i]) {
      BeforeIff(sorted[j], sorted[i]);
    }
  }

  /** The order is by trim rank and priority, and it is stable. */
  lemma {:induction false} SortSpec(chunks: seq<Chunk>, d: Chunk)
    ensures Sorted(Sort(chunks))
    ensures Ties(Sort(chunks), d) == Ties(chunks, d)
  {
    if chunks != [] {
      var n := |chunks| - 1;
      SortSpec(chunks[..n], d);
      InsertIsSorted(Sort(chunks[..n]), chunks[n]);
      InsertIsStable(Sort(chunks[..n]), chunks[n], d);
    }
  }

  // ---- The greedy choice ------------------------------------------------------------------------------------

  // What is taken and left of the first chunks.
  function Taken(sorted: seq<Chunk>, budget: nat): seq<Chunk> {
    if sorted == [] then []
    else
      var before, last := Taken(sorted[..|sorted| - 1], budget), sorted[|sorted| - 1];
      if Total(before) + last.tokenEstimate <= budget then before + [last] else before
  }

  function LeftOut(sorted: seq<Chunk>, budget: nat): seq<Chunk> {
    if sorted == [] then []
    else
      var before, last := Taken(sorted[..|sorted| - 1], budget), sorted[|sorted| - 1];
      var left := LeftOut(sorted[..|sorted| - 1], budget);
      if Total(before) + last.tokenEstimate <= budget then left else left + [last]
  }

  lemma TotalAppend(chunks: seq<Chunk>, c: Chunk)
    ensures Total(chunks + [c]) == Total(chunks) + c.tokenEstimate
  {
    assert (chunks + [c])[..|chunks|] == chunks;
  }

  lemma {:induction false} TotalConcat(a: seq<Chunk>, b: seq<Chunk>)
    ensures Total(a + b) == Total(a) + Total(b)
  {
    if b == [] {
      assert a + b == a;
    } else {
      TotalConcat(a, b[..|b| - 1]);
      assert (a + b)[..|a + b| - 1] == a + b[..|b| - 1];
    }
  }

  lemma {:induction false} TakenFits(sorted: seq<Chunk>, budget: nat)
    ensures Total(Taken(sorted, budget)) <= budget
  {
    if sorted != [] {
      var n := |sorted| - 1;
      TakenFits(sorted[..n], budget);
      TotalAppend(Taken(sorted[..n], budget), sorted[n]);
    }
  }

  lemma {:induction false} NothingIsLost(sorted: seq<Chunk>, budget: nat)
    ensures multiset(Taken(sorted, budget)) + multiset(LeftOut(sorted, budget)) == multiset(sorted)
  {
    hide Total;
    if sorted != [] {
      NothingIsLost(sorted[..|sorted| - 1], budget);
      assert sorted == sorted[..|sorted| - 1] + [sorted[|sorted| - 1]];
    }
  }

  lemma {:induction false} NothingElseFits(sorted: seq<Chunk>, budget: nat, i: nat)
    requires i < |LeftOut(sorted, budget)|
    ensures Total(Taken(sorted, budget)) + LeftOut(sorted, budget)[i].tokenEstimate > budget
  {
    var n := |sorted| - 1;
    TotalAppend(Taken(sorted[..n], budget), sorted[n]);
    if i < |LeftOut(sorted[..n], budget)| {
      NothingElseFits(sorted[..n], budget, i);
    }
  }

  // The chunks taken before the i-th leave no room for it.
  predicate NoRoom(sorted: seq<Chunk>, budget: nat, i: nat)
    requires i < |sorted|
  {
    Total(Taken(sorted[..i], budget)) + sorted[i].tokenEstimate > budget
  }

  predicate StandsAt(sorted: seq<Chunk>, budget: nat, c: Chunk, room: bool, i: nat)
    requires i < |sorted|
  {
    sorted[i] == c && NoRoom(sorted, budget, i) == !room
  }

  // The chunk has a place where there is room for it, or one where there is none.
  predicate Stands(sorted: seq<Chunk>, budget: nat, c: Chunk, room: bool) {
    exists i :: 0 <= i < |sorted| && StandsAt(sorted, budget, c, room, i)
  }

  lemma StandsBefore(sorted: seq<Chunk>, budget: nat, c: Chunk, room: bool)
    requires sorted != []
    ensures
      var n := |sorted| - 1;
      Stands(sorted, budget, c, room) <==> Stands(sorted[..n], budget, c, room) || StandsAt(sorted, budget, c, room, n)
  {
    var n := |sorted| - 1;
    forall i | 0 <= i < n ensures StandsAt(sorted[..n], budget, c, room, i) == StandsAt(sorted, budget, c, room, i) {
      assert sorted[..n][..i] == sorted[..i];
    }
    hide StandsAt;
  }

  /** A chunk is left out, or taken, exactly when it stands somewhere without, or with, room for it. */
  lemma {:induction false} LeftOutIff(sorted: seq<Chunk>, budget: nat, c: Chunk)
    ensures c in LeftOut(sorted, budget) <==> Stands(sorted, budget, c, false)
    ensures c in Taken(sorted, budget) <==> Stands(sorted, budget, c, true)
  {
    if sorted == [] {
    } else {
      hide Stands, Total, NoRoom;
      var n := |sorted| - 1;
      LeftOutIff(sorted[..n], budget, c);
      StandsBefore(sorted, budget, c, false);
      StandsBefore(sorted, budget, c, true);
      RoomAt(sorted, budget, n);
    }
  }

  lemma RoomAt(sorted: seq<Chunk>, budget: nat, i: nat)
    requires i < |sorted|
    ensures NoRoom(sorted, budget, i) <==> Total(Taken(sorted[..i], budget)) + sorted[i].tokenEstimate > budget
  {
  }
}

/** The budgeter's one method. */
module TokenBudgeter {
  import opened TokenBudget

  datatype BudgetResult = BudgetResult(included: seq<Chunk>, excluded: seq<Chunk>, totalTokens: nat)

  function CompressAll(chunks: seq<Chunk>): (cs: seq<Chunk>)
    ensures |cs| == |chunks| && forall i :: 0 <= i < |cs| ==> cs[i] == Compress(chunks[i])
  {
    seq(|chunks|, i requires 0 <= i < |chunks| => Compress(chunks[i]))
  }

  function Kind(chunks: seq<Chunk>, mandatory: bool): seq<Chunk> {
    if chunks == [] then []
    else
      var before, last := Kind(chunks[..|chunks| - 1], mandatory), chunks[|chunks| - 1];
      if Mandatory(last) == mandatory then before + [last] else before
  }

  lemma {:induction false} KindsSplit(chunks: seq<Chunk>)
    ensures multiset(Kind(chunks, true)) + multiset(Kind(chunks, false)) == multiset(chunks)
  {
    hide Mandatory;
    if chunks != [] {
      KindsSplit(chunks[..|chunks| - 1]);
      assert chunks == chunks[..|chunks| - 1] + [chunks[|chunks| - 1]];
    }
  }

  // A list of mandatory chunks, then everything else that was taken.
  predicate KeepsMandatory(chunks: seq<Chunk>, r: BudgetResult) {
    Kind(CompressAll(chunks), true) <= r.included
  }

  // If the mandatory chunks fit, the others are gone through in a preferred order, and each is in exactly
  // if those before it leave room for it.
  ghost predicate ChosenInOrder(chunks: seq<Chunk>, available: int, r: BudgetResult) {
    var used := Total(Kind(chunks, true));
    used <= available ==>
      exists sorted ::
        && Preferred(Kind(chunks, false), sorted)
        && r.included == Kind(chunks, true) + Taken(sorted, available - used)
        && r.excluded == LeftOut(sorted, available - used)
  }

  lemma {:induction false} KindHas(chunks: seq<Chunk>, c: Chunk)
    requires c in chunks
    ensures c in Kind(chunks, Mandatory(c))
  {
    hide Mandatory;
    var n := |chunks| - 1;
    if c != chunks[n] {
      var i :| 0 <= i < |chunks| && chunks[i] == c;
      assert chunks[..n][i] == c;
      KindHas(chunks[..n], c);
    }
  }

  // The rules of the system, its safety policy, the state of the run and the message being answered.
  predicate MustStay(c: Chunk) {
    c.source == System || c.source == SafetyPolicy || c.source == RunState || c.source == CurrentMessage
  }

  lemma MandatoryAreIn(chunks: seq<Chunk>, included: seq<Chunk>)
    requires Kind(chunks, true) <= included
    ensures forall c :: c in chunks && MustStay(c) ==> c in included
  {
    forall c | c in chunks && MustStay(c) ensures c in included {
      KindHas(chunks, c);
    }
  }

  method SumTokens(chunks: seq<Chunk>) returns (sum: nat)
    ensures sum == Total(chunks)
  {
    sum := 0;
    for i := 0 to |chunks|
      invariant sum == Total(chunks[..i])
    {
      assert chunks[..i + 1][..i] == chunks[..i];
      sum := sum + chunks[i].tokenEstimate;
    }
    assert chunks[..|chunks|] == chunks;
  }

  method SortChunks(chunks: seq<Chunk>) returns (sorted: seq<Chunk>)
    ensures sorted == Sort(chunks)
  {
    sorted := [];
    for i := 0 to |chunks|
      invariant sorted == Sort(chunks[..i])
    {
      assert chunks[..i + 1][..i] == chunks[..i];
      sorted := Insert(sorted, chunks[i]);
    }
    assert chunks[..|chunks|] == chunks;
  }

  /**
   * `apply`. Nothing is lost; mandatory chunks are always in and come first; if they fit, the whole
   * stays within the budget and no chunk left out would still fit; if they do not, nothing else is in.
   */
  method Apply(chunks: seq<Chunk>, maxTokens: int, reservedForOutput: int) returns (r: BudgetResult)
    ensures multiset(r.included) + multiset(r.excluded) == multiset(CompressAll(chunks))
    ensures KeepsMandatory(chunks, r) && r.totalTokens == Total(r.included)
    ensures forall c :: c in CompressAll(chunks) && MustStay(c) ==> c in r.included
    ensures ChosenInOrder(CompressAll(chunks), maxTokens - reservedForOutput, r)
    ensures Total(Kind(CompressAll(chunks), true)) <= maxTokens - reservedForOutput ==>
      && r.totalTokens <= maxTokens - reservedForOutput
      && forall i :: 0 <= i < |r.excluded| ==>
           r.totalTokens + r.excluded[i].tokenEstimate > maxTokens - reservedForOutput
    ensures Total(Kind(CompressAll(chunks), true)) > maxTokens - reservedForOutput ==>
      r.included == Kind(CompressAll(chunks), true)
  {
    hide Total, Kind, Taken, LeftOut, Sort, CompressAll, Compress, Preferred, Mandatory;
    var available := maxTokens - reservedForOutput;
    var compressed := CompressAll(chunks);
    var mandatory, optional := Separate(compressed);
    KindsSplit(compressed);
    var mandatoryTokens := SumTokens(mandatory);
    MandatoryAreIn(compressed, mandatory);
    if mandatoryTokens > available {
      return BudgetResult(mandatory, optional, mandatoryTokens);
    }
    var sorted := SortChunks(optional);
    SortKeeps(optional);
    SortIsPreferred(optional);
    var taken, excluded, used := Choose(sorted, available - mandatoryTokens);
    TotalConcat(mandatory, taken);
    assert multiset(mandatory + taken) == multiset(mandatory) + multiset(taken);
    r := BudgetResult(mandatory + taken, excluded, mandatoryTokens + used);
  }

  method Separate(chunks: seq<Chunk>) returns (mandatory: seq<Chunk>, optional: seq<Chunk>)
    ensures mandatory == Kind(chunks, true) && optional == Kind(chunks, false)
  {
    mandatory, optional := [], [];
    for i := 0 to |chunks|
      invariant mandatory == Kind(chunks[..i], true) && optional == Kind(chunks[..i], false)
    {
      assert chunks[..i + 1][..i] == chunks[..i];
      if Mandatory(chunks[i]) {
        mandatory := mandatory + [chunks[i]];
      } else {
        optional := optional + [chunks[i]];
      }
    }
    assert chunks[..|chunks|] == chunks;
  }

  lemma ChooseNext(sorted: seq<Chunk>, budget: nat, i: nat)
    requires i < |sorted|
    ensures
      var before, left := Taken(sorted[..i], budget), LeftOut(sorted[..i], budget);
      var fits := Total(before) + sorted[i].tokenEstimate <= budget;
      && Taken(sorted[..i + 1], budget) == (if fits then before + [sorted[i]] else before)
      && LeftOut(sorted[..i + 1], budget) == if fits then left else left + [sorted[i]]
  {
    assert sorted[..i + 1][..i] == sorted[..i];
    hide Total;
  }

  // The optional chunks in their order, as long as there is room.
  method Choose(sorted: seq<Chunk>, remaining: nat) returns (taken: seq<Chunk>, excluded: seq<Chunk>, used: nat)
    ensures taken == Taken(sorted, remaining) && excluded == LeftOut(sorted, remaining) && used == Total(taken)
    ensures used <= remaining && multiset(taken) + multiset(excluded) == multiset(sorted)
    ensures forall i :: 0 <= i < |excluded| ==> used + excluded[i].tokenEstimate > remaining
  {
    taken, excluded, used := [], [], 0;
    assert sorted[..0] == [] && Taken([], remaining) == [] && LeftOut([], remaining) == [] && Total([]) == 0;
    hide Taken, LeftOut, Total;
    for i := 0 to |sorted|
      invariant taken == Taken(sorted[..i], remaining) && excluded == LeftOut(sorted[..i], remaining)
      invariant used == Total(taken)
    {
      ChooseNext(sorted, remaining, i);
      TotalAppend(taken, sorted[i]);
      if used + sorted[i].tokenEstimate <= remaining {
        taken := taken + [sorted[i]];
        used := used + sorted[i].tokenEstimate;
      } else {
        excluded := excluded + [sorted[i]];
      }
    }
    assert sorted[..|sorted|] == sorted;
    TakenFits(sorted, remaining);
    NothingIsLost(sorted, remaining);
    forall i | 0 <= i < |excluded| ensures used + excluded[i].tokenEstimate > remaining {
      NothingElseFits(sorted, remaining, i);
    }
  }
}
