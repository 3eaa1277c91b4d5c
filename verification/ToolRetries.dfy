/** One tool call: its gates, its attempts and what becomes of it. */
module ToolRetries {
  import opened ToolBatches

  const MAX_RETRIES: int := 2

  datatype Status = Completed | Failed | Cancelled | TimedOut

  datatype Gate = Open | Shut | Breaks(retryable: bool)

  datatype Outcome = Returns(status: Status) | Throws(retryable: bool)

  // What the world answers to one call: validation, the safety check, whether the run still owns its
  // execution before the record is made, and for each attempt the aborted wait, the gate, the tool and
  // whether the signal is aborted when the attempt has failed.
  datatype Answers = Answers(valid: bool, safe: bool, owned: bool, waitAborted: nat -> bool, gate: nat -> Gate,
                             outcome: nat -> Outcome, aborted: nat -> bool)

  // What is done, in order: waiting before a repetition, asking the gate, which lets pass or refuses,
  // making the record, and reaching the tool.
  datatype Mark = Waited | Passed | Refused | Recorded | Executed

  datatype Result = Result(trace: seq<Mark>, status: Status)

  // Repeating the call cannot do harm.
  predicate ReadonlyLike(c: Call) {
    c.idempotent || c.sideEffects == SideEffects.None || c.sideEffects == Readonly
  }

  function MaxAttempts(c: Call): int {
    if !ReadonlyLike(c) then 1
    else if c.policy.Policy? then (if c.policy.retryable then 1 + c.policy.maxRetries else 1)
    else MAX_RETRIES
  }

  // The head of the loop over attempts; `trace` is what has been done so far.
  function Attempts(a: Answers, k: nat, max: int, trace: seq<Mark>): Result
    decreases max - k, 3
  {
    if k >= max then Result(trace, Failed)
    else if k == 0 then AtGate(a, k, max, trace)
    else if a.waitAborted(k) then Result(trace, Failed)
    else AtGate(a, k, max, trace + [Waited])
  }

  function AtGate(a: Answers, k: nat, max: int, trace: seq<Mark>): Result
    requires k < max
    decreases max - k, 2
  {
    match a.gate(k)
    case Shut => Result(trace + [Refused], Cancelled)
    case Breaks(retryable) => Caught(a, k, max, retryable, trace)
    case Open => AtTool(a, k, max, trace + [Passed])
  }

  function AtTool(a: Answers, k: nat, max: int, trace: seq<Mark>): Result
    requires k < max
    decreases max - k, 1
  {
    match a.outcome(k)
    case Returns(status) => Result(trace + [Executed], status)
    case Throws(retryable) => Caught(a, k, max, retryable, trace + [Executed])
  }

  // Whatever breaks in an attempt ends here.
  function Caught(a: Answers, k: nat, max: int, retryable: bool, trace: seq<Mark>): Result
    requires k < max
    decreases max - k, 0
  {
    if !retryable || a.aborted(k) then Result(trace, Failed) else Attempts(a, k + 1, max, trace)
  }

  function WithRetry(c: Call, a: Answers): Result {
    if !a.valid || !a.safe then Result([], Failed)
    else if !a.owned then Result([Refused], Cancelled)
    else Attempts(a, 0, MaxAttempts(c), [Passed, Recorded])
  }

  function Executions(trace: seq<Mark>): nat {
    if trace == [] then 0 else Executions(trace[..|trace| - 1]) + if trace[|trace| - 1] == Executed then 1 else 0
  }

  lemma OneMore(trace: seq<Mark>, m: Mark)
    ensures Executions(trace + [m]) == Executions(trace) + if m == Executed then 1 else 0
  {
    assert (trace + [m])[..|trace|] == trace;
  }

  // The mark at i is the one the tool leaves, and right before it the gate has let it pass, which for a
  // repetition was asked right after the wait.
  predicate GatedAt(trace: seq<Mark>, i: nat)
    requires i < |trace|
  {
    trace[i] == Executed ==>
      i > 0 && trace[i - 1] == Passed && (Executions(trace[..i]) > 0 ==> i > 1 && trace[i - 2] == Waited)
  }

  // The record is made once the run is known to own its execution.
  predicate Prepared(trace: seq<Mark>) {
    |trace| >= 2 && trace[0] == Passed && trace[1] == Recorded
  }

  // The tool is only ever reached directly through a gate, and only after the record has been made.
  predicate Gated(trace: seq<Mark>) {
    && (forall i :: 0 <= i < |trace| ==> GatedAt(trace, i))
    && (Executions(trace) > 0 ==> Prepared(trace))
  }

  lemma AnyMark(trace: seq<Mark>, m: Mark)
    requires Gated(trace) && m != Executed
    ensures Gated(trace + [m])
  {
    OneMore(trace, m);
    forall i | 0 <= i < |trace| ensures GatedAt(trace + [m], i) {
      assert GatedAt(trace, i) && (trace + [m])[..i] == trace[..i];
    }
  }

  lemma ExecutedMark(trace: seq<Mark>)
    requires Gated(trace) && Prepared(trace)
    requires trace[|trace| - 1] == Passed && (Executions(trace) > 0 ==> trace[|trace| - 2] == Waited)
    ensures Gated(trace + [Executed])
  {
    var more := trace + [Executed];
    forall i | 0 <= i < |trace| ensures GatedAt(more, i) {
      assert GatedAt(trace, i) && more[..i] == trace[..i];
    }
    assert more[..|trace|] == trace;
  }

  // What holds of everything done before the head of the loop.
  predicate Begun(k: nat, trace: seq<Mark>) {
    Gated(trace) && Prepared(trace) && Executions(trace) <= k
  }

  lemma {:induction false} AttemptsSpec(a: Answers, k: nat, max: int, trace: seq<Mark>)
    requires Begun(k, trace)
    ensures
      var r := Attempts(a, k, max, trace);
      && Gated(r.trace) && trace <= r.trace
      && Executions(r.trace) <= (if k >= max then k else max)
      && (r.status == Cancelled || r.status == Failed || Executions(r.trace) > 0)
    decreases max - k, 3
  {
    hide AtGate, Gated, Executions;
    if 0 < k < max && !a.waitAborted(k) {
      AnyMark(trace, Waited);
      OneMore(trace, Waited);
      GateSpec(a, k, max, trace + [Waited]);
    } else if k == 0 < max {
      GateSpec(a, k, max, trace);
    }
  }

  lemma {:induction false} GateSpec(a: Answers, k: nat, max: int, trace: seq<Mark>)
    requires k < max && Begun(k, trace) && (Executions(trace) > 0 ==> trace[|trace| - 1] == Waited)
    ensures
      var r := AtGate(a, k, max, trace);
      && Gated(r.trace) && trace <= r.trace && Executions(r.trace) <= max
      && (r.status == Cancelled || r.status == Failed || Executions(r.trace) > 0)
    decreases max - k, 2
  {
    match a.gate(k)
    case Shut =>
      AnyMark(trace, Refused);
      OneMore(trace, Refused);
    case Breaks(retryable) => CaughtSpec(a, k, max, retryable, trace);
    case Open =>
      AnyMark(trace, Passed);
      OneMore(trace, Passed);
      var passed := trace + [Passed];
      assert passed[|passed| - 2] == trace[|trace| - 1];
      hide Gated, Executions;
      ToolSpec(a, k, max, passed);
  }

  lemma {:induction false} ToolSpec(a: Answers, k: nat, max: int, trace: seq<Mark>)
    requires k < max && Begun(k, trace)
    requires trace[|trace| - 1] == Passed && (Executions(trace) > 0 ==> trace[|trace| - 2] == Waited)
    ensures
      var r := AtTool(a, k, max, trace);
      && Gated(r.trace) && trace <= r.trace && Executions(r.trace) <= max
      && (r.status == Cancelled || r.status == Failed || Executions(r.trace) > 0)
    decreases max - k, 1
  {
    ExecutedMark(trace);
    OneMore(trace, Executed);
    hide Gated, Executions;
    if a.outcome(k).Throws? { CaughtSpec(a, k, max, a.outcome(k).retryable, trace + [Executed]); }
  }

  lemma {:induction false} CaughtSpec(a: Answers, k: nat, max: int, retryable: bool, trace: seq<Mark>)
    requires k < max && Begun(k + 1, trace)
    ensures
      var r := Caught(a, k, max, retryable, trace);
      && Gated(r.trace) && trace <= r.trace && Executions(r.trace) <= max
      && (r.status == Cancelled || r.status == Failed || Executions(r.trace) > 0)
    decreases max - k, 0
  {
    hide Gated, Executions;
    if retryable && !a.aborted(k) { AttemptsSpec(a, k + 1, max, trace); }
  }

  lemma {:induction false} NoneExecuted(trace: seq<Mark>)
    requires forall i :: 0 <= i < |trace| ==> trace[i] != Executed
    ensures Executions(trace) == 0 && Gated(trace)
  {
    if trace != [] { NoneExecuted(trace[..|trace| - 1]); }
  }

  /**
   * The tool is reached only after the record has been made and directly through a gate that is asked
   * anew, after the wait, for every attempt; and the attempts are within the policy of the call.
   */
  lemma RetriesAreBounded(c: Call, a: Answers)
    ensures
      var r := WithRetry(c, a);
      && Gated(r.trace)
      && Executions(r.trace) <= (if MaxAttempts(c) > 0 then MaxAttempts(c) else 0)
      && (!ReadonlyLike(c) ==> Executions(r.trace) <= 1)
  {
    NoneExecuted([]);
    NoneExecuted([Refused]);
    NoneExecuted([Passed, Recorded]);
    hide Gated, Executions;
    AttemptsSpec(a, 0, MaxAttempts(c), [Passed, Recorded]);
  }

  // ---- What is answered ---------------------------------------------------------------------------

  // The k-th attempt breaks, in the gate or in the tool, and another one is worth making.
  predicate GoesOn(a: Answers, k: nat) {
    && (k > 0 ==> !a.waitAborted(k)) && !a.aborted(k)
    && (a.gate(k) == Breaks(true) || (a.gate(k) == Open && a.outcome(k) == Throws(true)))
  }

  // What the call is answered with when it ends at the k-th attempt: what the tool says if it is reached
  // and returns, a cancellation if the gate is shut, and a failure otherwise.
  predicate EndsAs(a: Answers, k: nat, max: int, status: Status) {
    if k >= max || (k > 0 && a.waitAborted(k)) then status == Failed
    else
      match a.gate(k)
      case Shut => status == Cancelled
      case Breaks(_) => status == Failed
      case Open => status == if a.outcome(k).Returns? then a.outcome(k).status else Failed
  }

  // The attempts up to the k-th go on; this one ends the call.
  ghost predicate EndsAt(a: Answers, from: nat, k: nat, max: int, status: Status) {
    && from <= k && (k >= max ==> k == from || k == max) && (k < max ==> !GoesOn(a, k))
    && (forall j :: from <= j < k ==> GoesOn(a, j)) && EndsAs(a, k, max, status)
  }

  lemma {:induction false} AttemptsEnd(a: Answers, k: nat, max: int, trace: seq<Mark>) returns (last: nat)
    ensures EndsAt(a, k, last, max, Attempts(a, k, max, trace).status)
    decreases max - k
  {
    last := k;
    if k < max && GoesOn(a, k) {
      var waited := if k == 0 then trace else trace + [Waited];
      assert Attempts(a, k, max, trace) == AtGate(a, k, max, waited);
      var next := if a.gate(k) == Open then waited + [Passed] + [Executed] else waited;
      if a.gate(k) == Open {
        assert AtGate(a, k, max, waited) == AtTool(a, k, max, waited + [Passed]);
        assert AtTool(a, k, max, waited + [Passed]) == Caught(a, k, max, true, next);
      } else {
        assert AtGate(a, k, max, waited) == Caught(a, k, max, true, next);
      }
      last := AttemptsEnd(a, k + 1, max, next);
    } else if k < max {
      AttemptEnds(a, k, max, trace);
    }
  }

  lemma AttemptEnds(a: Answers, k: nat, max: int, trace: seq<Mark>)
    requires k < max && !GoesOn(a, k)
    ensures EndsAs(a, k, max, Attempts(a, k, max, trace).status)
  {
    if k == 0 || !a.waitAborted(k) {
      var waited := if k == 0 then trace else trace + [Waited];
      assert Attempts(a, k, max, trace) == AtGate(a, k, max, waited);
      if a.gate(k) == Open {
        assert AtGate(a, k, max, waited) == AtTool(a, k, max, waited + [Passed]);
      }
    }
  }

  // A failure if the call is not valid or not safe, a cancellation if its run has lost its execution, and
  // otherwise what the attempt says that ends it.
  ghost predicate AnsweredAs(c: Call, a: Answers, status: Status) {
    if !a.valid || !a.safe then status == Failed
    else if !a.owned then status == Cancelled
    else exists k: nat :: EndsAt(a, 0, k, MaxAttempts(c), status)
  }

  /** The answer to a call, and that a call which is not valid, not safe or not owned goes no further. */
  lemma AnswerIs(c: Call, a: Answers)
    ensures AnsweredAs(c, a, WithRetry(c, a).status)
    ensures !a.valid || !a.safe ==> WithRetry(c, a).trace == []
    ensures a.valid && a.safe && !a.owned ==> WithRetry(c, a).trace == [Refused]
  {
    if a.valid && a.safe && a.owned {
      var k := AttemptsEnd(a, 0, MaxAttempts(c), [Passed, Recorded]);
      hide EndsAt, Attempts;
      assert WithRetry(c, a) == Attempts(a, 0, MaxAttempts(c), [Passed, Recorded]);
    }
  }

  // No world makes this call reach the tool twice.
  ghost predicate AtMostOnce(c: Call) {
    forall a :: Executions(WithRetry(c, a).trace) <= 1
  }

  // The tool may be called again: the call does no harm, and no policy of its own forbids a repetition.
  predicate MayRepeat(c: Call) {
    && (c.idempotent || c.sideEffects == SideEffects.None || c.sideEffects == Readonly)
    && (c.policy.Policy? ==> c.policy.retryable && c.policy.maxRetries > 0)
  }

  /** A call reaches its tool at most once, whatever happens, exactly when it may not be repeated. */
  lemma AtMostOnceIff(c: Call)
    ensures AtMostOnce(c) <==> !MayRepeat(c)
  {
    if !MayRepeat(c) {
      forall a ensures Executions(WithRetry(c, a).trace) <= 1 {
        RetriesAreBounded(c, a);
      }
    } else {
      var a := BoundIsReached(c);
    }
  }

  /** The bound is exact: a world in which every attempt throws makes all of them, and no world more. */
  lemma BoundIsReached(c: Call) returns (a: Answers)
    ensures
      var n := Executions(WithRetry(c, a).trace);
      && (!MayRepeat(c) ==> n <= 1)
      && (MayRepeat(c) && c.policy.Policy? ==> n == 1 + c.policy.maxRetries)
      && (MayRepeat(c) && !c.policy.Policy? ==> n == MAX_RETRIES)
    ensures MayRepeat(c) ==> forall b :: Executions(WithRetry(c, b).trace) <= Executions(WithRetry(c, a).trace)
    ensures !MayRepeat(c) ==> forall b :: Executions(WithRetry(c, b).trace) <= 1
  {
    a := Answers(true, true, true, _ => false, _ => Open, _ => Throws(true), _ => false);
    forall b ensures Executions(WithRetry(c, b).trace) <= (if MaxAttempts(c) > 0 then MaxAttempts(c) else 0) {
      RetriesAreBounded(c, b);
    }
    NoneExecuted([Passed, Recorded]);
    if MaxAttempts(c) >= 0 { ThrowsOnAndOn(a, 0, MaxAttempts(c), [Passed, Recorded]); }
  }

  ghost predicate AlwaysThrows(a: Answers) {
    forall n: nat :: !a.waitAborted(n) && a.gate(n) == Open && a.outcome(n) == Throws(true) && !a.aborted(n)
  }

  lemma OneRound(a: Answers, k: nat, max: int, trace: seq<Mark>, waited: seq<Mark>)
    requires AlwaysThrows(a) && k < max && waited == if k == 0 then trace else trace + [Waited]
    ensures Attempts(a, k, max, trace) == Attempts(a, k + 1, max, waited + [Passed] + [Executed])
  {
    assert Attempts(a, k, max, trace) == AtGate(a, k, max, waited);
    assert AtGate(a, k, max, waited) == AtTool(a, k, max, waited + [Passed]);
    assert AtTool(a, k, max, waited + [Passed]) == Caught(a, k, max, true, waited + [Passed] + [Executed]);
  }

  lemma {:induction false} ThrowsOnAndOn(a: Answers, k: nat, max: int, trace: seq<Mark>)
    requires AlwaysThrows(a) && k <= max
    ensures Executions(Attempts(a, k, max, trace).trace) == Executions(trace) + max - k
    decreases max - k
  {
    if k < max {
      var waited := if k == 0 then trace else trace + [Waited];
      OneMore(trace, Waited);
      OneMore(waited, Passed);
      OneMore(waited + [Passed], Executed);
      OneRound(a, k, max, trace, waited);
      hide Executions, Attempts, AlwaysThrows;
      ThrowsOnAndOn(a, k + 1, max, waited + [Passed] + [Executed]);
    }
  }
}
