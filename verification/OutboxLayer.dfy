/** The persistence layer as the daemon runs it; every method is a run of the outbox protocol. */
module OutboxLayer {
  import opened Wrappers
  import opened OutboxProtocol
  import opened OutboxSafety

  /** The two tables. A call reports whether it worked; `Commits` tells whether it took effect. */
  class EventTables {
    var outbox: seq<Event>
    var log: seq<Event>

    method EnqueueOutbox(e: Event, f: Fault) returns (ok: bool)
      modifies this`outbox
      ensures outbox == (if Commits(f) then Put(old(outbox), e) else old(outbox)) && ok == f.Works?
      ensures Commits(f) ==> Inserted(old(outbox), outbox, e)
    {
      PutInserts(outbox, e);
      if Commits(f) { outbox := Put(outbox, e); }
      ok := f.Works?;
    }

    method Append(e: Event, f: Fault) returns (ok: bool)
      modifies this`log
      ensures log == (if Commits(f) then Put(old(log), e) else old(log)) && ok == f.Works?
      ensures Commits(f) ==> Inserted(old(log), log, e)
    {
      PutInserts(log, e);
      if Commits(f) { log := Put(log, e); }
      ok := f.Works?;
    }

    method DeleteOutbox(id: Id, f: Fault) returns (ok: bool)
      modifies this`outbox
      ensures outbox == (if Commits(f) then Remove(old(outbox), id) else old(outbox)) && ok == f.Works?
      ensures Commits(f) ==> Deleted(old(outbox), outbox, id)
    {
      RemoveDeletes(outbox, id);
      if Commits(f) { outbox := Remove(outbox, id); }
      ok := f.Works?;
    }

    method ListOutbox(f: Fault) returns (rows: Option<seq<Event>>)
      ensures rows == if f.Works? then Some(Page(outbox)) else None
      ensures rows.Some? ==> Listed(outbox, rows.value)
    {
      rows := if f.Works? then Some(Page(outbox)) else None;
    }
  }

  class Layer {
    const db: EventTables
    var queue: seq<Task>
    var failed: seq<Event>
    var failures: nat
    var forwarded: seq<Id>
    var live: seq<Id>

    // On startup the recovery flush is queued before any event can arrive.
    constructor (db: EventTables)
      ensures this.db == db && queue == [Flush] && failed == [] && failures == 0
    {
      this.db := db;
      queue, failed, failures, forwarded, live := [Flush], [], 0, [], [];
    }

    // The fields are what the protocol state says they are.
    ghost predicate Matches(s: State)
      reads this, db
    {
      && db.outbox == s.outbox && db.log == s.log && queue == s.queue
      && failed == s.failed && failures == s.failures && forwarded == s.forwarded && live == s.live
    }

    /** The raw-bus subscriber. */
    method Receive(e: Event, ghost s: State)
      requires Matches(s)
      modifies this
      ensures Matches(Step(s, Emit(e)))
      ensures forwarded == if e.kind == Ordinary then old(forwarded) else old(forwarded) + [e.id]
      ensures queue ==
        if e.kind == Lifecycle || e.kind == Ordinary then old(queue) + [Persist(e, e.kind == Ordinary)] else old(queue)
      ensures live == old(live) && failed == old(failed)
    {
      if e.kind == Sequenced {
        forwarded := forwarded + [e.id];
        return;
      }
      if e.kind == Delta || e.kind == Lifecycle {
        forwarded := forwarded + [e.id];
        if e.kind == Delta { return; }
        queue := queue + [Persist(e, false)];
        return;
      }
      queue := queue + [Persist(e, true)];
    }

    method Tick(ghost s: State)
      requires Matches(s)
      modifies this`queue
      ensures Matches(Step(s, Timer))
    {
      queue := queue + [Flush];
    }

    // Matches, except that a failed storage call has not been handled yet.
    ghost predicate Unhandled(s: State, e: Event, forward: bool, attempt: nat)
      reads this, db
    {
      && s.control == Again(e, forward, attempt)
      && db.outbox == s.outbox && db.log == s.log && queue == s.queue && forwarded == s.forwarded && live == s.live
      && s.failed == (if attempt < MAX_ATTEMPTS then failed else failed + [e])
      && s.failures == (if attempt < MAX_ATTEMPTS then failures else failures + 1)
    }

    static function Next(phase: Phase): Phase {
      match phase
      case Enqueue => Append
      case Append => Delete
      case _ => Publish
    }

    // Where a failed attempt leaves the program counter.
    static function Again(e: Event, forward: bool, attempt: nat): Control {
      if attempt < MAX_ATTEMPTS then Persisting(Enqueue, e, forward, attempt + 1) else Idle
    }

    // One storage call of an attempt, with the protocol step it is.
    method Call(phase: Phase, e: Event, ghost forward: bool, ghost attempt: nat, f: Fault, ghost s: State)
      returns (ok: bool)
      requires Matches(s) && s.control == Persisting(phase, e, forward, attempt) && attempt <= MAX_ATTEMPTS
      requires phase != Publish
      modifies db
      ensures Enabled(s, Do(f))
      ensures ok ==> Matches(Step(s, Do(f))) && Step(s, Do(f)).control == Persisting(Next(phase), e, forward, attempt)
      ensures !ok ==> Unhandled(Step(s, Do(f)), e, forward, attempt)
    {
      hide Step, Put, Remove, Inserted, Deleted;
      PersistEffect(s, f);
      match phase {
        case Enqueue => ok := db.EnqueueOutbox(e, f);
        case Append => ok := db.Append(e, f);
        case Delete => ok := db.DeleteOutbox(e.id, f);
      }
    }

    /** One attempt: three storage calls in order, then the event is published. */
    method Attempt(e: Event, forward: bool, attempt: nat, faults: nat -> Fault, n0: nat, ghost s0: State)
      returns (done: bool, n: nat, ghost steps: seq<Input>)
      requires Matches(s0) && s0.control == Persisting(Enqueue, e, forward, attempt) && attempt <= MAX_ATTEMPTS
      modifies this`live, db
      ensures Allowed(s0, steps)
      ensures done ==> Matches(Run(s0, steps)) && Run(s0, steps).control == Idle
      ensures !done ==> Unhandled(Run(s0, steps), e, forward, attempt)
    {
      hide Step, Enabled, Unhandled, Again;
      EmptyRun(s0);
      hide Run, Allowed;
      n, done, steps := n0, false, [];
      Extend(s0, steps, Do(faults(n)));
      var ok := Call(Enqueue, e, forward, attempt, faults(n), s0);
      steps := steps + [Do(faults(n))];
      n := n + 1;
      if !ok { return; }
      Extend(s0, steps, Do(faults(n)));
      ok := Call(Append, e, forward, attempt, faults(n), Run(s0, steps));
      steps := steps + [Do(faults(n))];
      n := n + 1;
      if !ok { return; }
      Extend(s0, steps, Do(faults(n)));
      ok := Call(Delete, e, forward, attempt, faults(n), Run(s0, steps));
      steps := steps + [Do(faults(n))];
      n := n + 1;
      if !ok { return; }
      PublishEffect(Run(s0, steps), e, forward);
      Extend(s0, steps, Do(Works));
      steps := steps + [Do(Works)];
      if forward { live := live + [e.id]; }
      done := true;
    }

    /** Up to three attempts; faults(n) is what happens to the n-th storage call. */
    method PersistWithRetry(e: Event, forward: bool, faults: nat -> Fault, ghost s0: State)
      returns (ghost steps: seq<Input>)
      requires Matches(s0) && s0.control == Persisting(Enqueue, e, forward, 1)
      modifies this, db
      ensures Allowed(s0, steps) && Matches(Run(s0, steps)) && Run(s0, steps).control == Idle
    {
      EmptyRun(s0);
      hide Run, Allowed;
      steps := [];
      var n, done := 0, false;
      for attempt := 1 to MAX_ATTEMPTS + 1
        invariant Allowed(s0, steps) && Matches(Run(s0, steps))
        invariant Run(s0, steps).control ==
                    if attempt <= MAX_ATTEMPTS then Persisting(Enqueue, e, forward, attempt) else Idle
      {
        ghost var more;
        ghost var s := Run(s0, steps);
        done, n, more := Attempt(e, forward, attempt, faults, n, s);
        Chain(s0, steps, more);
        steps := steps + more;
        if done { return; }
        if attempt == MAX_ATTEMPTS {
          failures := failures + 1;
          failed := failed + [e];
        }
      }
    }

    // Matches, except that the rest of the batch has not been put back yet.
    ghost predicate GivenUp(s: State, batch: seq<Event>)
      reads this, db
    {
      Matches(s.(failed := failed)) && s.control == Idle && s.failed == failed + batch
    }

    // One storage call of a replay, with the protocol step it is.
    method FlushCall(phase: Phase, e: Event, ghost rest: seq<Event>, f: Fault, ghost s: State) returns (ok: bool)
      requires Matches(s) && s.control == Flushing(phase, [e] + rest)
      requires phase == Append || phase == Delete
      modifies db
      ensures Enabled(s, Do(f))
      ensures ok ==> Matches(Step(s, Do(f))) && Step(s, Do(f)).control == Flushing(Next(phase), [e] + rest)
      ensures !ok ==> GivenUp(Step(s, Do(f)), [e] + rest)
    {
      hide Step, Put, Remove, Inserted, Deleted;
      FlushEffect(s, e, rest, f);
      if phase == Append {
        ok := db.Append(e, f);
      } else {
        ok := db.DeleteOutbox(e.id, f);
      }
    }

    /** Replays one event of the batch: append, delete, publish. */
    method Replay(e: Event, ghost rest: seq<Event>, faults: nat -> Fault, n0: nat, ghost s0: State)
      returns (ok: bool, n: nat, ghost steps: seq<Input>)
      requires Matches(s0) && s0.control == Flushing(Append, [e] + rest)
      modifies this`live, db
      ensures Allowed(s0, steps)
      ensures ok ==> Matches(Run(s0, steps))
      ensures ok ==> Run(s0, steps).control == if rest == [] then Idle else Flushing(Append, rest)
      ensures !ok ==> GivenUp(Run(s0, steps), [e] + rest)
    {
      hide Step, Enabled, GivenUp;
      EmptyRun(s0);
      hide Run, Allowed;
      n, steps := n0, [];
      Extend(s0, steps, Do(faults(n)));
      ok := FlushCall(Append, e, rest, faults(n), s0);
      steps := steps + [Do(faults(n))];
      n := n + 1;
      if !ok { return; }
      Extend(s0, steps, Do(faults(n)));
      ok := FlushCall(Delete, e, rest, faults(n), Run(s0, steps));
      steps := steps + [Do(faults(n))];
      n := n + 1;
      if !ok { return; }
      FlushPublishEffect(Run(s0, steps), e, rest);
      Extend(s0, steps, Do(Works));
      steps := steps + [Do(Works)];
      live := live + [e.id];
    }

    // The part of a batch from the given index on is replayed, until a storage call fails.
    method ReplayAll(batch: seq<Event>, faults: nat -> Fault, n0: nat, ghost s0: State)
      returns (ghost steps: seq<Input>)
      requires Matches(s0) && s0.control == if batch == [] then Idle else Flushing(Append, batch)
      modifies this, db
      ensures Allowed(s0, steps) && Matches(Run(s0, steps)) && Run(s0, steps).control == Idle
    {
      EmptyRun(s0);
      hide Run, Allowed;
      steps := [];
      var n, ok := n0, true;
      for index := 0 to |batch|
        invariant Allowed(s0, steps) && Matches(Run(s0, steps))
        invariant Run(s0, steps).control == if index < |batch| then Flushing(Append, batch[index..]) else Idle
      {
        FirstOf(batch, index);
        ghost var more;
        ghost var s := Run(s0, steps);
        ok, n, more := Replay(batch[index], batch[index + 1..], faults, n, s);
        Chain(s0, steps, more);
        steps := steps + more;
        if !ok {
          failed := failed + batch[index..];
          return;
        }
      }
    }

    /** Collects the batch, then replays it in order until a storage call fails. */
    method FlushFailedEvents(faults: nat -> Fault, ghost s0: State) returns (ghost steps: seq<Input>)
      requires Matches(s0) && s0.control == Listing
      modifies this, db
      ensures Allowed(s0, steps) && Matches(Run(s0, steps)) && Run(s0, steps).control == Idle
    {
      EmptyRun(s0);
      Extend(s0, [], Do(faults(0)));
      StartEffect(s0, faults(0));
      hide Run, Allowed, Step, ById, Page, Collected, Listed, Enabled;
      ghost var begun := [] + [Do(faults(0))];
      ghost var s1 := Run(s0, begun);
      var rows := db.ListOutbox(faults(0));
      var batch := Collect((if rows.Some? then rows.value else []) + failed);
      failed := [];
      steps := ReplayAll(batch, faults, 1, s1);
      Chain(s0, begun, steps);
      steps := begun + steps;
    }

    /** The serial queue runs its oldest task to the end. */
    method ServeNext(faults: nat -> Fault, ghost s0: State) returns (ghost steps: seq<Input>)
      requires Matches(s0) && queue != [] && s0.control == Idle
      modifies this, db
      ensures Allowed(s0, steps) && Matches(Run(s0, steps)) && Run(s0, steps).control == Idle
    {
      hide Run, Allowed;
      EmptyRun(s0);
      Extend(s0, [], Begin);
      var task := queue[0];
      queue := queue[1..];
      steps := [] + [Begin];
      ghost var s1, more := Run(s0, steps), [];
      match task {
        case Flush =>
          more := FlushFailedEvents(faults, s1);
          Chain(s0, steps, more);
        case Persist(e, forward) =>
          if !e.hasRun { return; }
          more := PersistWithRetry(e, forward, faults, s1);
          Chain(s0, steps, more);
      }
      steps := steps + more;
    }
  }

  /** The batch: every id once, in the order first met, with the event last met. */
  method Collect(all: seq<Event>) returns (batch: seq<Event>)
    ensures batch == ById(all) && Collected(all, batch)
  {
    batch := [];
    for i := 0 to |all|
      invariant batch == ById(all[..i])
    {
      batch := SetById(batch, all[i]);
      assert all[..i + 1][..i] == all[..i];
    }
    assert all[..|all|] == all;
    ByIdCollects(all);
  }

  lemma FirstOf(es: seq<Event>, i: nat)
    requires i < |es|
    ensures es[i..] == [es[i]] + es[i + 1..]
  {
  }

  /**
   * A flush whose storage calls all work leaves nothing on the failure list, and nothing in the
   * outbox either as long as the outbox fits one page.
   */
  lemma FlushWithoutFaults(s: State) returns (steps: seq<Input>)
    requires Inv(s) && s.control == Listing && |s.outbox| <= FLUSH_LIMIT
    ensures Allowed(s, steps) && (forall i :: i in steps ==> i == Do(Works))
    ensures
      var t := Run(s, steps);
      && t.control == Idle && t.failed == [] && t.outbox == [] && t.queue == s.queue
      && Ids(s.outbox) + Ids(s.failed) <= Ids(t.log)
  {
    hide Run, Allowed, Inv, Step, Ids;
    EmptyRun(s);
    Extend(s, [], Do(Works));
    steps := [] + [Do(Works)];
    StartsFlushing(s);
    StepKeepsInv(s, Do(Works));
    var t := Step(s, Do(Works));
    assert Enabled(s, Do(Works));
    while t.control != Idle
      invariant Allowed(s, steps) && Run(s, steps) == t && forall i :: i in steps ==> i == Do(Works)
      invariant Inv(t) && t.failed == [] && t.queue == s.queue
      invariant t.control == Idle || (t.control.Flushing? && t.control.phase == Append && t.control.rest != [])
      invariant Ids(t.outbox) <= Ids(Busy(t.control))
      invariant Ids(s.outbox) + Ids(s.failed) <= Ids(t.log) + Ids(Busy(t.control))
      decreases |Busy(t.control)|
    {
      FlushOne(t);
      var t1 := Step(t, Do(Works));
      var t2 := Step(t1, Do(Works));
      StepKeepsInv(t, Do(Works));
      StepKeepsInv(t1, Do(Works));
      StepKeepsInv(t2, Do(Works));
      Extend(s, steps, Do(Works));
      Extend(s, steps + [Do(Works)], Do(Works));
      Extend(s, steps + [Do(Works)] + [Do(Works)], Do(Works));
      steps := steps + [Do(Works)] + [Do(Works)] + [Do(Works)];
      t := Step(t2, Do(Works));
    }
    EmptyIds();
    NothingLeft(t.outbox);
  }

  lemma NothingLeft(es: seq<Event>)
    requires Ids(es) <= {}
    ensures es == []
  {
    assert es != [] ==> es[0].id in Ids(es);
  }

  lemma StartsFlushing(s: State)
    requires Inv(s) && s.control == Listing && |s.outbox| <= FLUSH_LIMIT
    ensures
      var t := Step(s, Do(Works));
      && t.failed == [] && t.queue == s.queue && t.outbox == s.outbox && t.log == s.log
      && (t.control == Idle || (t.control.Flushing? && t.control.phase == Append && t.control.rest != []))
      && Ids(Busy(t.control)) == Ids(s.outbox) + Ids(s.failed)
  {
    ByIdSpec(s.outbox + s.failed);
    IdsAppend(s.outbox, s.failed);
    EmptyIds();
    hide Ids, ById;
  }

  lemma FlushOne(t: State)
    requires Inv(t) && t.control.Flushing? && t.control.phase == Append && t.control.rest != []
    ensures
      var t1 := Step(t, Do(Works));
      var t2 := Step(t1, Do(Works));
      var t3 := Step(t2, Do(Works));
      var e := t.control.rest[0];
      && !t1.control.Idle? && !t2.control.Idle?
      && t3.failed == t.failed && t3.queue == t.queue
      && (t3.control == Idle || (t3.control.Flushing? && t3.control.phase == Append && t3.control.rest != []))
      && Busy(t3.control) == t.control.rest[1..]
      && Ids(Busy(t3.control)) + {e.id} == Ids(t.control.rest)
      && Ids(t3.outbox) == Ids(t.outbox) - {e.id} && Ids(t3.log) == Ids(t.log) + {e.id}
  {
    hide Step, Progress, Settled, Separate, Tracked, Forwarding, Ids;
    var e, rest := t.control.rest[0], t.control.rest[1..];
    assert t.control.rest == [e] + rest;
    OneId(e);
    IdsAppend([e], rest);
    PutSpec(t.log, e);
    RemoveSpec(t.outbox, e.id);
    FlushEffect(t, e, rest, Works);
    FlushEffect(Step(t, Do(Works)), e, rest, Works);
    FlushEffect(Step(Step(t, Do(Works)), Do(Works)), e, rest, Works);
  }
}
