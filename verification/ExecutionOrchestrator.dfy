/** The orchestrator: the loops over groups, chunks and attempts. */
module ExecutionOrchestrator {
  import opened ToolBatches
  import opened ToolRetries

  datatype Summary = Summary(id: string, status: Status)

  // One summary for each call; what the world answers depends on the place in the order of execution.
  function Summaries(calls: seq<Call>, answers: nat -> Answers): (s: seq<Summary>)
    ensures |s| == |calls|
  {
    seq(|calls|, i requires 0 <= i < |calls| => Summary(calls[i].id, WithRetry(calls[i], answers(i)).status))
  }

  // How many batches run when the signal is aborted after b batches just when aborted(b) holds.
  function Started(total: nat, aborted: nat -> bool, from: nat): (n: nat)
    requires from <= total
    ensures from <= n <= total && (n < total ==> aborted(n)) && forall b :: from <= b < n ==> !aborted(b)
    decreases total - from
  {
    if from == total || aborted(from) then from else Started(total, aborted, from + 1)
  }

  lemma {:induction false} StartedIs(total: nat, aborted: nat -> bool, from: nat, n: nat)
    requires from <= n <= total && (n == total || aborted(n)) && forall b :: from <= b < n ==> !aborted(b)
    ensures Started(total, aborted, from) == n
    decreases n - from
  {
    if from < n { StartedIs(total, aborted, from + 1, n); }
  }

  method GroupByConcurrency(calls: seq<Call>) returns (keys: seq<string>, groups: map<string, seq<Call>>)
    ensures keys == Categories(calls)
    ensures forall c :: c in groups <==> c in keys
    ensures forall c :: c in groups ==> groups[c] == Group(calls, c)
  {
    keys, groups := [], map[];
    hide Category;
    for i := 0 to |calls|
      invariant keys == Categories(calls[..i])
      invariant forall c :: c in groups <==> c in keys
      invariant forall c :: c in groups ==> groups[c] == Group(calls[..i], c)
    {
      var category := Category(calls[i].skillId);
      assert calls[..i + 1][..i] == calls[..i];
      CategoriesSpec(calls[..i]);
      if category !in groups {
        groups := groups[category := []];
        keys := keys + [category];
      }
      groups := groups[category := groups[category] + [calls[i]]];
    }
    assert calls[..|calls|] == calls;
  }

  method ChunkArray(calls: seq<Call>, size: nat) returns (chunks: seq<seq<Call>>)
    requires size > 0
    ensures chunks == Chunks(calls, size)
  {
    chunks := [];
    var i := 0;
    while i < |calls|
      invariant chunks + Chunks(if i < |calls| then calls[i..] else [], size) == Chunks(calls, size)
    {
      var end := if i + size <= |calls| then i + size else |calls|;
      ghost var rest := calls[i..];
      assert calls[i..end] == if |rest| <= size then rest else rest[..size];
      assert i + size < |calls| ==> rest[size..] == calls[i + size..];
      chunks := chunks + [calls[i..end]];
      i := i + size;
    }
  }

  method ExecuteWithRetry(call: Call, a: Answers) returns (status: Status, ghost trace: seq<Mark>)
    ensures status == WithRetry(call, a).status
    ensures trace == WithRetry(call, a).trace
  {
    trace := [];
    if !a.valid { return Failed, trace; }
    if !a.safe { return Failed, trace; }
    if !a.owned { return Cancelled, [Refused]; }
    trace := [Passed, Recorded];
    var max := MaxAttempts(call);
    var attempt := 0;
    while attempt < max
      invariant attempt >= 0
      invariant WithRetry(call, a) == Attempts(a, attempt, max, trace)
      decreases max - attempt
    {
      if attempt > 0 {
        if a.waitAborted(attempt) { break; }
        trace := trace + [Waited];
      }
      assert WithRetry(call, a) == AtGate(a, attempt, max, trace);
      var gate := a.gate(attempt);
      if gate == Shut { return Cancelled, trace + [Refused]; }
      var retryable;
      if gate == Open {
        trace := trace + [Passed];
        assert WithRetry(call, a) == AtTool(a, attempt, max, trace);
        var outcome := a.outcome(attempt);
        trace := trace + [Executed];
        match outcome
        case Returns(result) => return result, trace;
        case Throws(r) => retryable := r;
      } else {
        retryable := gate.retryable;
      }
      assert WithRetry(call, a) == Caught(a, attempt, max, retryable, trace);
      if !retryable || a.aborted(attempt) {
        return Failed, trace;
      }
      attempt := attempt + 1;
    }
    return Failed, trace;
  }

  // Everything that one batch adds to the results.
  method ExecuteBatch(batch: seq<Call>, results: seq<Summary>, answers: nat -> Answers, ghost before: seq<Call>)
    returns (more: seq<Summary>)
    requires results == Summaries(before, answers)
    ensures more == Summaries(before + batch, answers)
  {
    hide WithRetry;
    more := results;
    for i := 0 to |batch|
      invariant more == Summaries(before + batch[..i], answers)
    {
      var status, trace := ExecuteWithRetry(batch[i], answers(|more|));
      more := more + [Summary(batch[i].id, status)];
    }
    assert batch[..|batch|] == batch;
  }

  // b batches of the plan have been run: all of the first m, unless the signal was aborted before.
  ghost predicate Running(plan: seq<seq<Call>>, b: nat, m: nat, results: seq<Summary>, answers: nat -> Answers,
                          aborted: nat -> bool)
  {
    && b <= m <= |plan| && (b < m ==> aborted(b)) && (forall j :: 0 <= j < b ==> !aborted(j))
    && results == Summaries(Flatten(plan[..b]), answers)
  }

  lemma RunBegins(plan: seq<seq<Call>>, answers: nat -> Answers, aborted: nat -> bool)
    ensures Running(plan, 0, 0, [], answers, aborted)
  {
    assert plan[..0] == [];
  }

  lemma BatchRuns(plan: seq<seq<Call>>, b: nat, m: nat, results: seq<Summary>, more: seq<Summary>,
                  answers: nat -> Answers, aborted: nat -> bool)
    requires Running(plan, b, m, results, answers, aborted) && m < |plan| && !aborted(b)
    requires more == Summaries(Flatten(plan[..b]) + plan[m], answers)
    ensures Running(plan, b + 1, m + 1, more, answers, aborted)
  {
    assert b == m && plan[..b + 1][..b] == plan[..b];
  }

  lemma RunStops(plan: seq<seq<Call>>, b: nat, m: nat, n: nat, results: seq<Summary>, answers: nat -> Answers,
                 aborted: nat -> bool)
    requires Running(plan, b, m, results, answers, aborted) && m <= n <= |plan| && aborted(b)
    ensures Running(plan, b, n, results, answers, aborted)
  {
  }

  lemma RunEnds(plan: seq<seq<Call>>, b: nat, results: seq<Summary>, answers: nat -> Answers, aborted: nat -> bool)
    requires Running(plan, b, |plan|, results, answers, aborted)
    ensures results == Summaries(Flatten(plan[..Started(|plan|, aborted, 0)]), answers)
  {
    StartedIs(|plan|, aborted, 0, b);
  }

  lemma RunMeans(plan: seq<seq<Call>>, b: nat, m: nat, results: seq<Summary>, answers: nat -> Answers,
                 aborted: nat -> bool)
    requires Running(plan, b, m, results, answers, aborted)
    ensures b <= m <= |plan| && results == Summaries(Flatten(plan[..b]), answers)
  {
  }

  // Where the chunks of the g-th category stand in the plan.
  lemma {:induction false} PlanPrefix(calls: seq<Call>, keys: seq<string>, g: nat)
    requires g <= |keys|
    ensures PlanOf(calls, keys[..g]) <= PlanOf(calls, keys)
    decreases |keys|
  {
    if g == |keys| {
      assert keys[..g] == keys;
    } else {
      var n := |keys| - 1;
      assert keys[..n][..g] == keys[..g];
      PlanPrefix(calls, keys[..n], g);
    }
  }

  lemma GroupPlan(calls: seq<Call>, keys: seq<string>, g: nat)
    requires g < |keys|
    ensures
      var from, chunks := |PlanOf(calls, keys[..g])|, Chunks(Group(calls, keys[g]), Cap(keys[g]));
      && |PlanOf(calls, keys[..g + 1])| == from + |chunks| <= |PlanOf(calls, keys)|
      && forall c :: 0 <= c < |chunks| ==> PlanOf(calls, keys)[from + c] == chunks[c]
  {
    hide *;
    PlanPrefix(calls, keys, g + 1);
    PlanNext(calls, keys, g);
  }

  lemma PlanNext(calls: seq<Call>, keys: seq<string>, g: nat)
    requires g < |keys|
    ensures PlanOf(calls, keys[..g + 1]) == PlanOf(calls, keys[..g]) + Chunks(Group(calls, keys[g]), Cap(keys[g]))
  {
    hide Chunks, Group, Cap;
    assert keys[..g + 1][..g] == keys[..g];
  }

  lemma OneIsOneChunk(calls: seq<Call>, cap: nat)
    requires cap > 0 && |calls| == 1
    ensures Chunks(calls, 1) == Chunks(calls, cap)
  {
  }

  // The chunks of one group, until the signal is aborted.
  method ExecuteGroup(chunks: seq<seq<Call>>, before: seq<Summary>, ranBefore: nat, answers: nat -> Answers,
                      aborted: nat -> bool, ghost plan: seq<seq<Call>>, ghost from: nat)
    returns (results: seq<Summary>, ran: nat)
    requires Running(plan, ranBefore, from, before, answers, aborted) && from + |chunks| <= |plan|
    requires forall c :: 0 <= c < |chunks| ==> plan[from + c] == chunks[c]
    ensures Running(plan, ran, from + |chunks|, results, answers, aborted)
  {
    hide *;
    results, ran := before, ranBefore;
    for c := 0 to |chunks|
      invariant Running(plan, ran, from + c, results, answers, aborted)
    {
      RunMeans(plan, ran, from + c, results, answers, aborted);
      if aborted(ran) {
        RunStops(plan, ran, from + c, from + |chunks|, results, answers, aborted);
        break;
      }
      ghost var earlier := results;
      results := ExecuteBatch(chunks[c], results, answers, Flatten(plan[..ran]));
      BatchRuns(plan, ran, from + c, earlier, results, answers, aborted);
      ran := ran + 1;
    }
  }

  /**
   * `execute`. The results are one summary for each call of the batches that were started, in order;
   * those are all batches of the plan if the signal is never aborted.
   */
  method Execute(calls: seq<Call>, answers: nat -> Answers, aborted: nat -> bool) returns (results: seq<Summary>)
    ensures results == Summaries(Flatten(Plan(calls)[..Started(|Plan(calls)|, aborted, 0)]), answers)
  {
    hide *;
    var keys, groups := GroupByConcurrency(calls);
    results := [];
    ghost var plan := Plan(calls);
    PlanBegins(calls);
    var ran: nat := 0;
    ghost var from: nat := 0;
    RunBegins(plan, answers, aborted);
    for g := 0 to |keys|
      invariant Running(plan, ran, from, results, answers, aborted)
      invariant from == |PlanOf(calls, keys[..g])|
    {
      var group, cap := groups[keys[g]], Cap(keys[g]);
      GroupPlan(calls, keys, g);
      if |group| == 1 { OneIsOneChunk(group, cap); }
      // Serial execution is execution in chunks of one.
      var chunks := ChunkArray(group, if cap == 1 || |group| == 1 then 1 else cap);
      results, ran := ExecuteGroup(chunks, results, ran, answers, aborted, plan, from);
      from := from + |chunks|;
    }
    assert keys[..|keys|] == keys;
    RunEnds(plan, ran, results, answers, aborted);
  }

  lemma PlanBegins(calls: seq<Call>)
    ensures Plan(calls) == PlanOf(calls, Categories(calls)) && PlanOf(calls, Categories(calls)[..0]) == []
  {
  }

  lemma {:induction false} FlattenPrefix(plan: seq<seq<Call>>, n: nat)
    requires n <= |plan|
    ensures Flatten(plan[..n]) <= Flatten(plan)
    decreases |plan|
  {
    if n == |plan| {
      assert plan[..n] == plan;
    } else {
      assert plan[..|plan| - 1][..n] == plan[..n];
      FlattenPrefix(plan[..|plan| - 1], n);
    }
  }

  /**
   * A batch that is never aborted yields exactly one summary for every call. An aborted one yields
   * the summaries of the calls it got to, which stand first in the order of execution.
   */
  lemma OneSummaryPerCall(calls: seq<Call>, answers: nat -> Answers, aborted: nat -> bool)
    ensures
      var order, n := Flatten(Plan(calls)), Started(|Plan(calls)|, aborted, 0);
      var results := Summaries(Flatten(Plan(calls)[..n]), answers);
      && multiset(order) == multiset(calls)
      && |results| <= |order|
      && (forall i :: 0 <= i < |results| ==>
            results[i].id == order[i].id && AnsweredAs(order[i], answers(i), results[i].status))
      && ((forall b: nat :: !aborted(b)) ==> |results| == |calls|)
  {
    PlanIsPermutation(calls);
    var plan := Plan(calls);
    var n := Started(|plan|, aborted, 0);
    FlattenPrefix(plan, n);
    hide Plan, Flatten, WithRetry, AnsweredAs;
    forall i | 0 <= i < |Flatten(plan[..n])|
      ensures AnsweredAs(Flatten(plan)[i], answers(i), WithRetry(Flatten(plan)[i], answers(i)).status)
    {
      AnswerIs(Flatten(plan)[i], answers(i));
    }
    assert |multiset(Flatten(plan))| == |Flatten(plan)| && |multiset(calls)| == |calls|;
    if forall b: nat :: !aborted(b) { assert plan[..n] == plan; }
  }
}
