/** How a batch of tool calls is cut into groups and chunks, and in what order the calls then run. */
module ToolBatches {
  datatype SideEffects = None | Readonly | Mutation | Network | Destructive

  datatype TimeoutPolicy = NoPolicy | Policy(retryable: bool, maxRetries: int)

  datatype Call = Call(id: string, skillId: string, idempotent: bool, sideEffects: SideEffects, policy: TimeoutPolicy)

  // ---- Categories ------------------------------------------------------------------------------------

  predicate StartsWith(s: string, prefix: string) {
    |prefix| <= |s| && s[..|prefix|] == prefix
  }

  // The part behind the last colon; the whole id if there is none.
  function Capability(skillId: string): string {
    if skillId == "" then ""
    else if skillId[|skillId| - 1] == ':' then ""
    else Capability(skillId[..|skillId| - 1]) + [skillId[|skillId| - 1]]
  }

  function Category(skillId: string): string {
    var capability := Capability(skillId);
    if StartsWith(capability, "filesystem.read") then "filesystem.read"
    else if StartsWith(capability, "filesystem.write") then "filesystem.write"
    else if StartsWith(capability, "filesystem") then "filesystem.read"
    else if StartsWith(capability, "shell") then "shell.execute"
    else if StartsWith(capability, "network") then "network.request"
    else if StartsWith(capability, "artifact") then "artifact.write"
    else if StartsWith(capability, "database") then "database.write"
    else "shell.execute"
  }

  function Cap(category: string): (cap: nat)
    ensures cap > 0
  {
    match category
    case "filesystem.read" => 8
    case "artifact.write" => 4
    case "network.request" => 4
    case _ => 1
  }

  // The capability is what stands behind the last colon.
  lemma {:induction false} CapabilityIs(skillId: string) returns (before: string)
    ensures skillId == before + Capability(skillId)
    ensures before == "" || before[|before| - 1] == ':'
    ensures forall i :: 0 <= i < |Capability(skillId)| ==> Capability(skillId)[i] != ':'
  {
    if skillId == "" {
      before := "";
    } else {
      var n := |skillId| - 1;
      assert skillId == skillId[..n] + [skillId[n]];
      if skillId[n] == ':' {
        before := skillId;
      } else {
        before := CapabilityIs(skillId[..n]);
        assert skillId == before + (Capability(skillId[..n]) + [skillId[n]]);
      }
    }
  }

  /**
   * How many calls may run at a time: eight that read files, four that reach the network or write
   * artifacts. Whatever writes files, touches a database, runs a command or is not known runs alone.
   */
  lemma CapIs(skillId: string)
    ensures
      var c, cap := Capability(skillId), Cap(Category(skillId));
      && (cap == 8 <==> StartsWith(c, "filesystem") && !StartsWith(c, "filesystem.write"))
      && (cap == 4 <==> StartsWith(c, "network") || StartsWith(c, "artifact"))
      && (cap != 8 && cap != 4 ==> cap == 1)
  {
    var c := Capability(skillId);
    hide Capability;
    FilePrefixes(c);
    OnePrefix(c);
    hide StartsWith;
  }

  lemma FilePrefixes(c: string)
    ensures StartsWith(c, "filesystem.read") || StartsWith(c, "filesystem.write") ==> StartsWith(c, "filesystem")
    ensures StartsWith(c, "filesystem.read") ==> !StartsWith(c, "filesystem.write")
  {
    if StartsWith(c, "filesystem.read") {
      assert c[..10] == "filesystem.read"[..10];
      assert c[11] == "filesystem.read"[11];
      OtherPrefix(c, "filesystem.write", 11);
    }
    if StartsWith(c, "filesystem.write") { assert c[..10] == "filesystem.write"[..10]; }
  }

  lemma OtherPrefix(s: string, prefix: string, i: nat)
    requires i < |s| && i < |prefix| && s[i] != prefix[i]
    ensures !StartsWith(s, prefix)
  {
  }

  lemma OnePrefix(c: string)
    ensures StartsWith(c, "filesystem") ==>
      !StartsWith(c, "shell") && !StartsWith(c, "network") && !StartsWith(c, "artifact")
    ensures StartsWith(c, "shell") ==> !StartsWith(c, "network") && !StartsWith(c, "artifact")
    ensures StartsWith(c, "network") ==> !StartsWith(c, "artifact")
  {
    assert StartsWith(c, "filesystem") ==> c[0] == "filesystem"[0];
    assert StartsWith(c, "shell") ==> c[0] == "shell"[0];
    assert StartsWith(c, "network") ==> c[0] == "network"[0];
    assert StartsWith(c, "artifact") ==> c[0] == "artifact"[0];
  }

  // ---- Groups ------------------------------------------------------------------------------------------

  // The calls of one category, in their own order.
  function Group(calls: seq<Call>, category: string): seq<Call> {
    if calls == [] then []
    else
      var last := calls[|calls| - 1];
      Group(calls[..|calls| - 1], category) + if Category(last.skillId) == category then [last] else []
  }

  // The categories, each once, in the order of their first calls.
  function Categories(calls: seq<Call>): seq<string> {
    if calls == [] then []
    else
      var before, category := Categories(calls[..|calls| - 1]), Category(calls[|calls| - 1].skillId);
      if category in before then before else before + [category]
  }

  lemma {:induction false} GroupConcat(a: seq<Call>, b: seq<Call>, category: string)
    ensures Group(a + b, category) == Group(a, category) + Group(b, category)
  {
    hide Category;
    if b == [] {
      assert a + b == a;
    } else {
      GroupConcat(a, b[..|b| - 1], category);
      assert (a + b)[..|a + b| - 1] == a + b[..|b| - 1];
    }
  }

  predicate AllOf(calls: seq<Call>, category: string) {
    forall i :: 0 <= i < |calls| ==> Category(calls[i].skillId) == category
  }

  lemma {:induction false} GroupIsOf(calls: seq<Call>, category: string)
    ensures AllOf(Group(calls, category), category)
  {
    if calls != [] { GroupIsOf(calls[..|calls| - 1], category); }
  }

  lemma {:induction false} GroupOfGroup(calls: seq<Call>, category: string, other: string)
    requires AllOf(calls, category)
    ensures Group(calls, other) == if other == category then calls else []
  {
    hide Category;
    if calls != [] {
      GroupOfGroup(calls[..|calls| - 1], category, other);
      assert calls == calls[..|calls| - 1] + [calls[|calls| - 1]];
    }
  }

  predicate Distinct(cs: seq<string>) {
    forall i, j :: 0 <= i < j < |cs| ==> cs[i] != cs[j]
  }

  lemma {:induction false} CategoriesSpec(calls: seq<Call>)
    ensures Distinct(Categories(calls))
    ensures forall c :: c in Categories(calls) <==> Group(calls, c) != []
  {
    if calls != [] { CategoriesSpec(calls[..|calls| - 1]); }
  }

  // ---- Chunks --------------------------------------------------------------------------------------------

  function Chunks(calls: seq<Call>, size: nat): seq<seq<Call>>
    requires size > 0
  {
    if calls == [] then []
    else if |calls| <= size then [calls]
    else [calls[..size]] + Chunks(calls[size..], size)
  }

  function Flatten(batches: seq<seq<Call>>): seq<Call> {
    if batches == [] then [] else Flatten(batches[..|batches| - 1]) + batches[|batches| - 1]
  }

  lemma {:induction false} FlattenConcat(a: seq<seq<Call>>, b: seq<seq<Call>>)
    ensures Flatten(a + b) == Flatten(a) + Flatten(b)
  {
    if b == [] {
      assert a + b == a;
    } else {
      FlattenConcat(a, b[..|b| - 1]);
      assert (a + b)[..|a + b| - 1] == a + b[..|b| - 1];
    }
  }

  // A batch that is never empty and never too large, and full unless it is the last one.
  predicate Fits(batches: seq<seq<Call>>, size: nat) {
    && (forall b :: 0 <= b < |batches| ==> 0 < |batches[b]| <= size)
    && (forall b :: 0 <= b < |batches| - 1 ==> |batches[b]| == size)
  }

  lemma {:induction false} ChunksSpec(calls: seq<Call>, size: nat)
    requires size > 0
    ensures Flatten(Chunks(calls, size)) == calls && Fits(Chunks(calls, size), size)
  {
    if |calls| > size {
      ChunksSpec(calls[size..], size);
      FlattenConcat([calls[..size]], Chunks(calls[size..], size));
      assert calls == calls[..size] + calls[size..];
    }
  }

  lemma {:induction false} ChunksAreOf(calls: seq<Call>, size: nat, category: string)
    requires size > 0 && AllOf(calls, category)
    ensures forall b :: 0 <= b < |Chunks(calls, size)| ==> AllOf(Chunks(calls, size)[b], category)
  {
    if |calls| > size { ChunksAreOf(calls[size..], size, category); }
  }

  // ---- The plan --------------------------------------------------------------------------------------------

  // What runs at the same time, batch after batch: the chunks of the groups.
  function PlanOf(calls: seq<Call>, categories: seq<string>): seq<seq<Call>> {
    if categories == [] then []
    else
      var last := categories[|categories| - 1];
      PlanOf(calls, categories[..|categories| - 1]) + Chunks(Group(calls, last), Cap(last))
  }

  function Plan(calls: seq<Call>): seq<seq<Call>> {
    PlanOf(calls, Categories(calls))
  }

  lemma GroupOfNothing(category: string)
    ensures Group([], category) == []
  {
  }

  lemma {:induction false} PlanKeepsGroup(calls: seq<Call>, categories: seq<string>, category: string)
    requires Distinct(categories)
    ensures Group(Flatten(PlanOf(calls, categories)), category) ==
      if category in categories then Group(calls, category) else []
  {
    hide Category, Chunks, Group, Fits, AllOf, Cap;
    if categories == [] {
      GroupOfNothing(category);
    } else {
      var n := |categories| - 1;
      var last := categories[n];
      assert category in categories <==> category in categories[..n] || category == last;
      PlanKeepsGroup(calls, categories[..n], category);
      var chunks := Chunks(Group(calls, last), Cap(last));
      FlattenConcat(PlanOf(calls, categories[..n]), chunks);
      ChunksSpec(Group(calls, last), Cap(last));
      GroupConcat(Flatten(PlanOf(calls, categories[..n])), Group(calls, last), category);
      GroupIsOf(calls, last);
      GroupOfGroup(Group(calls, last), last, category);
    }
  }

  /** The calls of every category run in the order in which they were planned. */
  lemma PlanKeepsOrder(calls: seq<Call>, category: string)
    ensures Group(Flatten(Plan(calls)), category) == Group(calls, category)
  {
    CategoriesSpec(calls);
    PlanKeepsGroup(calls, Categories(calls), category);
    assert category !in Categories(calls) ==> Group(calls, category) == [];
  }

  lemma {:induction false} GroupCounts(calls: seq<Call>, call: Call)
    ensures multiset(calls)[call] == multiset(Group(calls, Category(call.skillId)))[call]
  {
    hide Category;
    if calls != [] {
      var before, last := calls[..|calls| - 1], calls[|calls| - 1];
      GroupCounts(before, call);
      assert calls == before + [last];
    }
  }

  /** No call is lost, and none runs twice. */
  lemma PlanIsPermutation(calls: seq<Call>)
    ensures multiset(Flatten(Plan(calls))) == multiset(calls)
  {
    forall call ensures multiset(Flatten(Plan(calls)))[call] == multiset(calls)[call] {
      PlanKeepsOrder(calls, Category(call.skillId));
      GroupCounts(calls, call);
      GroupCounts(Flatten(Plan(calls)), call);
    }
  }

  predicate BatchOk(batch: seq<Call>) {
    && batch != []
    && AllOf(batch, Category(batch[0].skillId))
    && |batch| <= Cap(Category(batch[0].skillId))
  }

  lemma {:induction false} PlanOfFits(calls: seq<Call>, categories: seq<string>, b: nat)
    requires b < |PlanOf(calls, categories)|
    ensures BatchOk(PlanOf(calls, categories)[b])
  {
    var n := |categories| - 1;
    var last := categories[n];
    var before := PlanOf(calls, categories[..n]);
    if b < |before| {
      PlanOfFits(calls, categories[..n], b);
    } else {
      GroupIsOf(calls, last);
      ChunksSpec(Group(calls, last), Cap(last));
      ChunksAreOf(Group(calls, last), Cap(last), last);
    }
  }

  /** What runs at the same time is of one category and within its cap. */
  lemma PlanRespectsCaps(calls: seq<Call>, b: nat)
    requires b < |Plan(calls)|
    ensures BatchOk(Plan(calls)[b])
  {
    PlanOfFits(calls, Categories(calls), b);
  }
}
