/** What becomes of events in the long run: nothing stored is lost, and without a crash all are delivered. */
module OutboxDelivery {
  import opened OutboxProtocol
  import opened OutboxSafety
  import opened OutboxVisibility

  // ---- What is held ----------------------------------------------------------------------------

  ghost function Held(s: State): set<Id> {
    Volatile(s) + Durable(s)
  }

  function NewId(i: Input): set<Id> {
    if i.Emit? then {i.event.id} else {}
  }

  lemma AcceptHolds(s: State, e: Event)
    ensures Held(Accept(s, e)) <= Held(s) + {e.id}
    ensures Volatile(s) <= Volatile(Accept(s, e))
    ensures e.kind == Ordinary ==> e.id in Volatile(Accept(s, e))
  {
    TaskEventsAppend(s.queue, Persist(e, e.kind == Ordinary));
    IdsAppend(TaskEvents(s.queue), [e]);
    OneId(e);
    hide Ids, TaskEvents, Busy;
  }

  lemma TimerHolds(s: State)
    ensures Volatile(Step(s, Timer)) == Volatile(s) && Durable(Step(s, Timer)) == Durable(s)
  {
    TaskEventsAppend(s.queue, Flush);
    assert TaskEvents(s.queue) + [] == TaskEvents(s.queue);
    hide Ids, TaskEvents, Busy;
  }

  // Only an event without a run is dropped when its task begins.
  lemma BeginHolds(s: State)
    requires Inv(s) && s.control.Idle? && s.queue != []
    ensures Held(StartTask(s)) <= Held(s)
    ensures forall id :: id in Volatile(s) && id !in Volatile(StartTask(s)) ==>
      id in s.accepted && !s.accepted[id].hasRun
  {
    StartTaskMoves(s);
    hide Ids, TaskEvents, Busy, Clean, Separate, Settled, Tracked, Progress, Forwarding;
  }

  // ---- Storage calls ---------------------------------------------------------------------------

  // The tables hold no new ids but those of the running task.
  predicate TablesKeep(s: State, t: State) {
    && Ids(t.outbox) <= Ids(s.outbox) + Ids(Busy(s.control)) && Ids(t.log) <= Ids(s.log) + Ids(Busy(s.control))
    && t.queue == s.queue && t.accepted == s.accepted && t.lost == s.lost
  }

  lemma PutKeeps(table: seq<Event>, e: Event, s: State)
    requires e in Busy(s.control)
    ensures Ids(Put(table, e)) <= Ids(table) + Ids(Busy(s.control))
  {
    PutInserts(table, e);
    hide Put;
  }

  // What the running task and the failure list hold goes on being held, but for one published event.
  predicate Moves(s: State, t: State) {
    && Ids(Busy(t.control)) + Ids(t.failed) <= Ids(Busy(s.control)) + Ids(s.failed) + Ids(s.outbox)
    && s.live <= t.live
  }

  ghost predicate KeepsBut(s: State, t: State, id: Id) {
    Ids(Busy(s.control)) + Ids(s.failed) <= Ids(Busy(t.control)) + Ids(t.failed) + {id}
  }

  lemma PersistTables(s: State, f: Fault)
    requires s.control.Persisting?
    ensures TablesKeep(s, Step(s, Do(f)))
  {
    var e := s.control.event;
    assert e in Busy(s.control);
    PersistEffect(s, f);
    PutKeeps(s.outbox, e, s);
    PutKeeps(s.log, e, s);
    RemoveKeepsIds(s.outbox, e.id);
    hide Ids, Put, Remove, Step, Busy;
  }

  lemma PersistMoves(s: State, f: Fault)
    requires s.control.Persisting?
    ensures
      var t := Step(s, Do(f));
      Moves(s, t) && KeepsBut(s, t, s.control.event.id)
  {
    var e := s.control.event;
    PersistEffect(s, f);
    OneId(e);
    IdsAppend(s.failed, [e]);
    EmptyIds();
    hide Ids, Put, Remove, Step;
  }

  lemma PersistPublishes(s: State, f: Fault)
    requires s.control.Persisting?
    ensures
      var t := Step(s, Do(f));
      s.control.event.id in Ids(Busy(t.control)) + Ids(t.failed)
      || (s.control.phase == Publish && t.outbox == s.outbox
          && t.live == if s.control.forward then s.live + [s.control.event.id] else s.live)
  {
    var e := s.control.event;
    PersistEffect(s, f);
    OneId(e);
    IdsAppend(s.failed, [e]);
    hide Ids, Put, Remove, Step;
  }

  lemma StartFlushHolds(s: State, f: Fault)
    requires s.control.Listing?
    ensures
      var t := Step(s, Do(f));
      && TablesKeep(s, t) && Moves(s, t) && t.outbox == s.outbox
      && Ids(s.failed) <= Ids(Busy(t.control)) && t.live == s.live
  {
    var listed := if f.Works? then Page(s.outbox) else [];
    StartEffect(s, f);
    ByIdSpec(listed + s.failed);
    IdsAppend(listed, s.failed);
    EmptyIds();
    assert Ids(listed) <= Ids(s.outbox);
    hide ById, Ids, Step, Page, Distinct;
  }

  lemma FlushTables(s: State, f: Fault)
    requires s.control.Flushing? && s.control.phase != Enqueue && s.control.rest != []
    ensures TablesKeep(s, Step(s, Do(f)))
  {
    var e, rest := s.control.rest[0], s.control.rest[1..];
    assert e in Busy(s.control) && s.control.rest == [e] + rest;
    FlushEffect(s, e, rest, f);
    PutKeeps(s.log, e, s);
    RemoveKeepsIds(s.outbox, e.id);
    hide Ids, Put, Remove, Step, Busy;
  }

  // A step of a flush goes on with its batch, gives it up, or publishes the first event of it.
  lemma FlushOutcome(s: State, f: Fault)
    requires s.control.Flushing? && s.control.phase != Enqueue && s.control.rest != []
    ensures
      var t, all := Step(s, Do(f)), s.control.rest;
      || (t.live == s.live && t.failed == s.failed && Busy(t.control) == all)
      || (t.live == s.live && t.failed == s.failed + all && Busy(t.control) == [])
      || (t.live == s.live + [all[0].id] && t.failed == s.failed && Busy(t.control) == all[1..]
          && s.control.phase == Publish && t.outbox == s.outbox)
  {
    hide Put, Remove;
  }

  lemma FlushMoves(s: State, f: Fault)
    requires s.control.Flushing? && s.control.phase != Enqueue && s.control.rest != []
    ensures
      var t := Step(s, Do(f));
      Moves(s, t) && KeepsBut(s, t, s.control.rest[0].id)
  {
    var all := s.control.rest;
    FlushOutcome(s, f);
    RestIds(all);
    IdsAppend(s.failed, all);
    EmptyIds();
    assert Busy(s.control) == all;
    hide Ids, Step, Busy;
  }

  lemma RestIds(es: seq<Event>)
    requires es != []
    ensures Ids(es) == {es[0].id} + Ids(es[1..])
  {
    IdsAppend([es[0]], es[1..]);
    OneId(es[0]);
    assert es == [es[0]] + es[1..];
  }

  lemma FlushPublishes(s: State, f: Fault)
    requires s.control.Flushing? && s.control.phase != Enqueue && s.control.rest != []
    ensures
      var t, id := Step(s, Do(f)), s.control.rest[0].id;
      id in Ids(Busy(t.control)) + Ids(t.failed)
      || (s.control.phase == Publish && t.outbox == s.outbox && t.live == s.live + [id])
  {
    FlushOutcome(s, f);
    RestIds(s.control.rest);
    IdsAppend(s.failed, s.control.rest);
    hide Ids, Step, Busy;
  }

  lemma DoHolds(s: State, f: Fault)
    requires Inv(s)
    ensures TablesKeep(s, Step(s, Do(f))) && Moves(s, Step(s, Do(f)))
  {
    match s.control
    case Idle =>
    case Persisting(_, _, _, _) =>
      PersistTables(s, f);
      PersistMoves(s, f);
    case Listing => StartFlushHolds(s, f);
    case Flushing(_, rest) =>
      FlushTables(s, f);
      FlushMoves(s, f);
    hide Ids, Clean, Separate, Settled, Tracked, Forwarding, PersistStep, StartFlush, FlushStep;
  }

  // ---- Lost is lost -----------------------------------------------------------------------------

  ghost predicate LostForGood(s: State) {
    s.lost <= s.accepted.Keys && s.lost !! Held(s)
  }

  lemma RestartLoses(s: State)
    requires Inv(s) && LostForGood(s)
    ensures LostForGood(Restart(s))
  {
    AcceptedIds(s);
    EmptyIds();
    hide Ids, Inv;
  }

  lemma StepKeepsLost(s: State, i: Input)
    requires Inv(s) && LostForGood(s) && Enabled(s, i)
    ensures LostForGood(Step(s, i))
  {
    hide Inv, Restart, PersistStep, StartFlush, FlushStep, Ids;
    match i
    case Emit(e) => AcceptHolds(s, e);
    case Timer => TimerHolds(s);
    case Begin => BeginHolds(s);
    case Do(f) =>
      hide Step;
      DoHolds(s, f);
    case Crash => RestartLoses(s);
  }

  lemma {:induction false} RunKeepsLost(inputs: seq<Input>)
    requires Allowed(START, inputs)
    ensures LostForGood(Run(START, inputs))
  {
    if inputs == [] {
    } else {
      var n := |inputs| - 1;
      RunKeepsLost(inputs[..n]);
      EveryRunKeepsInv(inputs[..n]);
      LastInput(START, inputs);
      hide LostForGood, Inv, Enabled, Step, Run, Allowed;
      StepKeepsLost(Run(START, inputs[..n]), inputs[n]);
    }
  }

  /** In no run, whatever fails and crashes, is an event lost whose outbox insert has committed. */
  lemma StoredIsNotLost(inputs: seq<Input>)
    requires Allowed(START, inputs)
    ensures Run(START, inputs).stored !! Run(START, inputs).lost
  {
    EveryRunKeepsInv(inputs);
    RunKeepsLost(inputs);
    hide Run, Allowed, Clean, Separate, Settled, Progress, Forwarding, Volatile;
  }

  // ---- Delivery ---------------------------------------------------------------------------------

  predicate CrashFree(inputs: seq<Input>) {
    forall i :: i in inputs ==> !i.Crash?
  }

  predicate IsDue(s: State, id: Id) {
    id in s.accepted && s.accepted[id].kind == Ordinary && s.accepted[id].hasRun
  }

  // Without a crash everything that is due is on its way or has arrived, and the outbox holds no
  // more than memory does.
  ghost predicate Delivering(s: State) {
    && (forall id :: IsDue(s, id) ==> id in Volatile(s) || id in s.live)
    && Ids(s.outbox) <= Volatile(s) && s.lost == {}
  }

  lemma PublishingIsClear(s: State, e: Event)
    requires Inv(s) && (s.control.Persisting? || s.control.Flushing?) && s.control.phase == Publish
    requires s.control.Persisting? ==> s.control.event == e
    requires s.control.Flushing? ==> s.control.rest != [] && s.control.rest[0] == e
    ensures e.id !in Ids(s.outbox)
    ensures s.control.Persisting? && IsDue(s, e.id) ==> s.control.forward
  {
    assert e in Busy(s.control);
    hide Ids, Separate, Settled, Tracked, Forwarding;
  }

  lemma StepCarries(s: State, t: State, id: Id)
    requires Delivering(s) && TablesKeep(s, t) && KeepsBut(s, t, id) && s.live <= t.live
    requires id in Ids(Busy(t.control)) + Ids(t.failed) || (id !in Ids(t.outbox) && (IsDue(s, id) ==> id in t.live))
    requires Ids(t.outbox) <= Ids(s.outbox) + Ids(Busy(s.control))
    ensures Delivering(t)
  {
    hide Ids, Busy, TaskEvents;
    forall x | IsDue(t, x) ensures x in Volatile(t) || x in t.live {
      assert IsDue(s, x);
    }
  }

  lemma PersistDelivers(s: State, f: Fault)
    requires Inv(s) && Delivering(s) && s.control.Persisting?
    ensures Delivering(Step(s, Do(f)))
  {
    var e := s.control.event;
    PersistTables(s, f);
    PersistMoves(s, f);
    PersistPublishes(s, f);
    if s.control.phase == Publish { PublishingIsClear(s, e); }
    hide Inv, KeepsBut, Step, Ids, Delivering, Busy;
    StepCarries(s, Step(s, Do(f)), e.id);
  }

  lemma FlushDelivers(s: State, f: Fault)
    requires Inv(s) && Delivering(s) && s.control.Flushing?
    ensures Delivering(Step(s, Do(f)))
  {
    var rest := s.control.rest;
    FlushTables(s, f);
    FlushMoves(s, f);
    FlushPublishes(s, f);
    if s.control.phase == Publish { PublishingIsClear(s, rest[0]); }
    hide Inv, KeepsBut, Step, Ids, Delivering, Busy;
    StepCarries(s, Step(s, Do(f)), rest[0].id);
  }

  lemma ListingDelivers(s: State, f: Fault)
    requires Delivering(s) && s.control.Listing?
    ensures Delivering(Step(s, Do(f)))
  {
    StartFlushHolds(s, f);
    EmptyIds();
    hide Step, Ids, TaskEvents;
    forall id | IsDue(Step(s, Do(f)), id) ensures id in Volatile(Step(s, Do(f))) || id in s.live {
      assert IsDue(s, id);
    }
  }

  lemma DoDelivers(s: State, f: Fault)
    requires Inv(s) && Delivering(s)
    ensures Delivering(Step(s, Do(f)))
  {
    match s.control
    case Idle =>
    case Persisting(_, _, _, _) => PersistDelivers(s, f);
    case Listing => ListingDelivers(s, f);
    case Flushing(_, _) => FlushDelivers(s, f);
    hide Inv, Delivering, PersistStep, StartFlush, FlushStep;
  }

  lemma BeginDelivers(s: State)
    requires Inv(s) && Delivering(s) && s.control.Idle? && s.queue != []
    ensures Delivering(StartTask(s))
  {
    BeginHolds(s);
    StartTaskMoves(s);
    assert Ids(s.outbox) !! Ids(TaskEvents(s.queue)) by { hide Ids; }
    hide Ids, TaskEvents, Busy, Inv;
  }

  lemma StepDelivers(s: State, i: Input)
    requires Inv(s) && Delivering(s) && Enabled(s, i) && !i.Crash?
    ensures Delivering(Step(s, i))
  {
    hide Inv, StartTask, Ids;
    match i
    case Emit(e) => AcceptHolds(s, e);
    case Timer => TimerHolds(s);
    case Begin => BeginDelivers(s);
    case Do(f) =>
      hide Step;
      DoDelivers(s, f);
  }

  lemma {:induction false} RunDelivers(inputs: seq<Input>)
    requires Allowed(START, inputs) && CrashFree(inputs)
    ensures Delivering(Run(START, inputs))
  {
    if inputs == [] {
      EmptyIds();
    } else {
      var n := |inputs| - 1;
      assert inputs[n] in inputs;
      RunDelivers(inputs[..n]);
      EveryRunKeepsInv(inputs[..n]);
      LastInput(START, inputs);
      hide Delivering, Inv, Enabled, Step, Run, Allowed;
      StepDelivers(Run(START, inputs[..n]), inputs[n]);
    }
  }

  /**
   * Without a crash, whatever the storage does, an ordinary event of a run is published live exactly
   * when nothing in memory holds it any more.
   */
  lemma DeliveredIff(inputs: seq<Input>, id: Id)
    requires Allowed(START, inputs) && CrashFree(inputs) && IsDue(Run(START, inputs), id)
    ensures id in Run(START, inputs).live <==> id !in Volatile(Run(START, inputs))
  {
    RunDelivers(inputs);
    EveryRunKeepsInv(inputs);
    hide Run, Allowed, Ids, TaskEvents, Busy, Clean, Tracked, Progress, Forwarding;
  }

  // Nothing is running, waiting or put aside.
  predicate AtRest(s: State) {
    s.control.Idle? && s.queue == [] && s.failed == []
  }

  /**
   * So when such a run comes to rest the outbox is empty, the log holds exactly the persistable events
   * that were accepted, and of the ordinary ones exactly those of a run have been published.
   */
  lemma RestIsComplete(inputs: seq<Input>)
    requires Allowed(START, inputs) && CrashFree(inputs) && AtRest(Run(START, inputs))
    ensures
      var s := Run(START, inputs);
      && s.outbox == []
      && (forall id :: id in Ids(s.log) <==> id in s.accepted && Persistable(s.accepted[id]))
      && (forall id :: id in s.accepted && s.accepted[id].kind == Ordinary ==>
            (id in s.live <==> s.accepted[id].hasRun))
  {
    var s := Run(START, inputs);
    EveryRunKeepsInv(inputs);
    RunDelivers(inputs);
    hide Run, Allowed;
    NothingHeld(s);
    RunKeepsBound(inputs);
    LoggedIsGenuine(s);
    hide Ids, Inv, Volatile, Bound;
    InOutbox(s.outbox);
  }

  lemma InOutbox(es: seq<Event>)
    requires Ids(es) == {}
    ensures es == []
  {
    assert es != [] ==> es[0].id in Ids(es);
  }

  lemma NothingHeld(s: State)
    requires AtRest(s)
    ensures Volatile(s) == {}
  {
    EmptyIds();
    hide Ids;
  }

  lemma LoggedIsGenuine(s: State)
    requires Inv(s) && Bound(s)
    ensures forall id :: id in Ids(s.log) ==> id in s.accepted && Persistable(s.accepted[id])
    ensures forall id :: id in s.live ==> id in Ids(s.log)
    ensures forall id :: id in s.accepted && Persistable(s.accepted[id]) ==> id in Held(s) + s.lost
  {
    hide Separate, Progress, Forwarding;
  }
}
