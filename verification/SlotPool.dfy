/** The execution slots of the skill runner: a counter and a queue, with a gap between wake and resume. */
module SlotPool {
  type Task = nat

  // active and waiters are the runner's fields. A woken task has left the queue and not yet run on;
  // queued and resumed are the tasks that ever had to wait and ever came out of waiting.
  datatype Pool = Pool(active: int, waiters: seq<Task>, holders: multiset<Task>, woken: seq<Task>,
                       queued: seq<Task>, resumed: seq<Task>)

  const IDLE: Pool := Pool(0, [], multiset{}, [], [], [])

  datatype Step = Arrive(task: Task) | Resume | Release(task: Task)

  function Next(p: Pool, max: nat, step: Step): Pool {
    match step
    case Arrive(t) =>
      if p.active >= max then p.(waiters := p.waiters + [t], queued := p.queued + [t])
      else p.(active := p.active + 1, holders := p.holders + multiset{t})
    case Resume =>
      if p.woken == [] then p
      else
        p.(active := p.active + 1, holders := p.holders + multiset{p.woken[0]}, woken := p.woken[1..],
           resumed := p.resumed + [p.woken[0]])
    case Release(t) =>
      if t !in p.holders then p
      else
        var left := p.(active := p.active - 1, holders := p.holders - multiset{t});
        if p.waiters == [] then left
        else left.(waiters := p.waiters[1..], woken := p.woken + [p.waiters[0]])
  }

  function Play(max: nat, steps: seq<Step>): Pool {
    if steps == [] then IDLE else Next(Play(max, steps[..|steps| - 1]), max, steps[|steps| - 1])
  }

  // Those who hold a slot or are about to.
  function Load(p: Pool): nat {
    |p.holders| + |p.woken|
  }

  // ---- What every run keeps --------------------------------------------------------------------------

  predicate Good(p: Pool, max: nat) {
    && p.active == |p.holders|
    && p.resumed + p.woken + p.waiters == p.queued
    && (p.waiters != [] ==> Load(p) >= max)
  }

  lemma Regroup(a: seq<Task>, b: seq<Task>, c: seq<Task>)
    ensures a + b + c == a + (b + c)
  {
  }

  // The first of a list moves to the end of the one before it.
  lemma MoveFirst(a: seq<Task>, b: seq<Task>, c: seq<Task>)
    requires b != []
    ensures (a + [b[0]]) + b[1..] == a + b
    ensures (a + [b[0]]) + b[1..] + c == a + b + c
  {
  }

  lemma StepKeepsGood(p: Pool, max: nat, step: Step)
    requires Good(p, max)
    ensures Good(Next(p, max, step), max)
  {
    match step
    case Arrive(t) => Regroup(p.resumed + p.woken, p.waiters, [t]);
    case Resume =>
      if p.woken != [] { MoveFirst(p.resumed, p.woken, p.waiters); }
    case Release(t) =>
      if t in p.holders && p.waiters != [] {
        MoveFirst(p.woken, p.waiters, []);
        Regroup(p.resumed, p.woken, p.waiters);
        Regroup(p.resumed, p.woken + [p.waiters[0]], p.waiters[1..]);
      }
  }

  /**
   * In every run the counter is the number of holders, tasks come out of waiting in the order they
   * went in, and nobody waits while fewer than the limit hold a slot or are about to.
   */
  lemma {:induction false} PoolIsGood(max: nat, steps: seq<Step>)
    ensures Good(Play(max, steps), max)
  {
    if steps != [] {
      PoolIsGood(max, steps[..|steps| - 1]);
      StepKeepsGood(Play(max, steps[..|steps| - 1]), max, steps[|steps| - 1]);
    }
  }

  // ---- Progress ------------------------------------------------------------------------------------------

  // Someone waits and nothing will ever wake them.
  predicate Stuck(p: Pool) {
    p.waiters != [] && p.holders == multiset{} && p.woken == []
  }

  ghost predicate CanGetStuck(max: nat) {
    exists steps :: Stuck(Play(max, steps))
  }

  /** The pool can get stuck exactly when it has no slots at all. */
  lemma StuckIffNoSlots(max: nat)
    ensures CanGetStuck(max) <==> max == 0
  {
    if max == 0 {
      assert [Arrive(0)][..0] == [];
      assert Stuck(Play(max, [Arrive(0)]));
    } else {
      forall steps ensures !Stuck(Play(max, steps)) {
        PoolIsGood(max, steps);
      }
    }
  }

  // ---- The limit -----------------------------------------------------------------------------------------

  // Step k is an arrival that takes a slot a woken task is about to take.
  predicate Overtakes(max: nat, steps: seq<Step>, k: nat) {
    && k < |steps| && steps[k].Arrive?
    && var p := Play(max, steps[..k]); p.active < max && Load(p) >= max
  }

  ghost predicate NeverOvertakes(max: nat, steps: seq<Step>) {
    forall k | 0 <= k < |steps| :: !Overtakes(max, steps, k)
  }

  ghost predicate LoadBounded(max: nat, steps: seq<Step>) {
    forall k | 0 <= k <= |steps| :: Load(Play(max, steps[..k])) <= max
  }

  lemma StepLoad(p: Pool, max: nat, step: Step)
    requires Good(p, max) && Load(p) <= max
    ensures Load(Next(p, max, step)) > max <==> step.Arrive? && p.active < max && Load(p) >= max
  {
  }

  lemma PlayAt(max: nat, steps: seq<Step>, k: nat)
    requires k < |steps|
    ensures Play(max, steps[..k + 1]) == Next(Play(max, steps[..k]), max, steps[k])
  {
    assert steps[..k + 1][..k] == steps[..k];
  }

  lemma {:induction false} NoOvertakingBounds(max: nat, steps: seq<Step>, k: nat)
    requires NeverOvertakes(max, steps) && k <= |steps|
    ensures Load(Play(max, steps[..k])) <= max
  {
    if k > 0 {
      NoOvertakingBounds(max, steps, k - 1);
      PlayAt(max, steps, k - 1);
      PoolIsGood(max, steps[..k - 1]);
      assert !Overtakes(max, steps, k - 1);
      hide Play;
      StepLoad(Play(max, steps[..k - 1]), max, steps[k - 1]);
    }
  }

  /** Holders and woken tasks stay within the limit through a run exactly when no arrival overtakes. */
  lemma LoadBoundedIff(max: nat, steps: seq<Step>)
    ensures LoadBounded(max, steps) <==> NeverOvertakes(max, steps)
  {
    hide Play, Next;
    if NeverOvertakes(max, steps) {
      forall k | 0 <= k <= |steps| ensures Load(Play(max, steps[..k])) <= max {
        NoOvertakingBounds(max, steps, k);
      }
    }
    if LoadBounded(max, steps) {
      forall k | 0 <= k < |steps| ensures !Overtakes(max, steps, k) {
        PlayAt(max, steps, k);
        PoolIsGood(max, steps[..k]);
        assert Load(Play(max, steps[..k])) <= max && Load(Play(max, steps[..k + 1])) <= max;
        StepLoad(Play(max, steps[..k]), max, steps[k]);
      }
    }
  }

  function Resumes(n: nat): seq<Step> {
    seq(n, _ => Resume)
  }

  /** When all woken tasks run on, the holders number what the load was. */
  lemma {:induction false} ResumingMakesHolders(max: nat, steps: seq<Step>, n: nat)
    requires n <= |Play(max, steps).woken|
    ensures
      var p, p' := Play(max, steps), Play(max, steps + Resumes(n));
      p'.woken == p.woken[n..] && |p'.holders| == |p.holders| + n
  {
    if n == 0 {
      assert steps + Resumes(0) == steps;
    } else {
      ResumingMakesHolders(max, steps, n - 1);
      OneMoreResume(max, steps, n);
      hide Play, Resumes;
      var p := Play(max, steps);
      assert p.woken[n - 1..][1..] == p.woken[n..];
    }
  }

  lemma OneMoreResume(max: nat, steps: seq<Step>, n: nat)
    requires n > 0
    ensures Play(max, steps + Resumes(n)) == Next(Play(max, steps + Resumes(n - 1)), max, Resume)
  {
    var all := steps + Resumes(n);
    assert all[..|all| - 1] == steps + Resumes(n - 1);
  }

  // However far a prefix of the run is resumed, no more tasks than the limit hold a slot.
  ghost predicate HoldersBounded(max: nat, steps: seq<Step>) {
    forall k, n | 0 <= k <= |steps| && 0 <= n <= |Play(max, steps[..k]).woken| ::
      |Play(max, steps[..k] + Resumes(n)).holders| <= max
  }

  /**
   * The limit on simultaneous executions, also right after woken tasks run on, holds through a run
   * exactly when no arrival passes the check between a wake and its resume.
   */
  lemma HoldersBoundedIff(max: nat, steps: seq<Step>)
    ensures HoldersBounded(max, steps) <==> NeverOvertakes(max, steps)
  {
    LoadBoundedIff(max, steps);
    hide Play, NeverOvertakes;
    if LoadBounded(max, steps) {
      forall k, n | 0 <= k <= |steps| && 0 <= n <= |Play(max, steps[..k]).woken|
        ensures |Play(max, steps[..k] + Resumes(n)).holders| <= max
      {
        ResumingMakesHolders(max, steps[..k], n);
      }
    }
    if HoldersBounded(max, steps) {
      forall k | 0 <= k <= |steps| ensures Load(Play(max, steps[..k])) <= max {
        var n := |Play(max, steps[..k]).woken|;
        ResumingMakesHolders(max, steps[..k], n);
        assert |Play(max, steps[..k] + Resumes(n)).holders| <= max;
      }
    }
  }

  lemma PlayMore(max: nat, steps: seq<Step>, step: Step)
    ensures Play(max, steps + [step]) == Next(Play(max, steps), max, step)
  {
    assert (steps + [step])[..|steps|] == steps;
  }

  lemma OvertakenByOne(steps: seq<Step>)
    requires Play(1, steps) == Pool(1, [1], multiset{0}, [], [1], [])
    ensures |Play(1, steps + [Release(0)] + [Arrive(2)] + [Resume]).holders| == 2
  {
    hide Play;
    PlayMore(1, steps, Release(0));
    PlayMore(1, steps + [Release(0)], Arrive(2));
    PlayMore(1, steps + [Release(0)] + [Arrive(2)], Resume);
  }

  /** Such an arrival is possible: one slot, and two tasks in it. */
  lemma LimitCanBePassed()
    ensures |Play(1, [Arrive(0), Arrive(1), Release(0), Arrive(2), Resume]).holders| == 2
  {
    assert Play(1, []) == IDLE;
    hide Play;
    PlayMore(1, [], Arrive(0));
    PlayMore(1, [Arrive(0)], Arrive(1));
    assert [Arrive(0), Arrive(1)] == [Arrive(0)] + [Arrive(1)];
    assert Play(1, [Arrive(0), Arrive(1)]) == Pool(1, [1], multiset{0}, [], [1], []);
    OvertakenByOne([Arrive(0), Arrive(1)]);
    assert [Arrive(0), Arrive(1), Release(0), Arrive(2), Resume]
        == [Arrive(0), Arrive(1)] + [Release(0)] + [Arrive(2)] + [Resume];
  }
}

/** The runner's own fields and the three places that touch them. */
module SkillRunner {
  import opened SlotPool

  class SkillRunner {
    const maxConcurrency: nat
    var activeExecutions: int
    var waiters: seq<Task>
    ghost var pool: Pool

    constructor (maxConcurrency: nat)
      ensures this.maxConcurrency == maxConcurrency && pool == IDLE && Valid()
    {
      this.maxConcurrency := maxConcurrency;
      activeExecutions, waiters, pool := 0, [], IDLE;
    }

    ghost predicate Valid()
      reads this
    {
      pool.active == activeExecutions && pool.waiters == waiters
    }

    /** `acquireSlot` up to its await: the task has a slot or stands in the queue. */
    method AcquireSlot(task: Task) returns (waits: bool)
      requires Valid()
      modifies this
      ensures Valid() && pool == Next(old(pool), maxConcurrency, Arrive(task))
      ensures waits <==> |pool.waiters| > |old(pool).waiters|
    {
      pool := Next(pool, maxConcurrency, Arrive(task));
      if activeExecutions >= maxConcurrency {
        waiters := waiters + [task];
        return true;
      }
      activeExecutions := activeExecutions + 1;
      return false;
    }

    /** `acquireSlot` after its await, for the task that was woken first. It checks nothing again. */
    method RunOn()
      requires Valid() && pool.woken != []
      modifies this
      ensures Valid() && pool == Next(old(pool), maxConcurrency, Resume)
    {
      pool := Next(pool, maxConcurrency, Resume);
      activeExecutions := activeExecutions + 1;
    }

    method ReleaseSlot(ghost task: Task)
      requires Valid() && task in pool.holders
      modifies this
      ensures Valid() && pool == Next(old(pool), maxConcurrency, Release(task))
    {
      pool := Next(pool, maxConcurrency, Release(task));
      activeExecutions := activeExecutions - 1;
      if waiters != [] { waiters := waiters[1..]; }
    }
  }
}
