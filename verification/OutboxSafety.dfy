/** What every run of the outbox protocol keeps, whatever fails and whenever the daemon crashes. */
module OutboxSafety {
  import opened OutboxProtocol

  // ---- Ids of lists ----------------------------------------------------------------------------

  lemma IdsAppend(a: seq<Event>, b: seq<Event>)
    ensures Ids(a + b) == Ids(a) + Ids(b)
  {
    forall id | id in Ids(a) + Ids(b) ensures id in Ids(a + b) {
      if id in Ids(a) {
        var e :| e in a && e.id == id;
        assert e in a + b;
      } else {
        var e :| e in b && e.id == id;
        assert e in a + b;
      }
    }
  }

  lemma DistinctAppend(a: seq<Event>, b: seq<Event>)
    requires Distinct(a) && Distinct(b) && Ids(a) !! Ids(b)
    ensures Distinct(a + b)
  {
    forall i, j | 0 <= i < j < |a + b| ensures (a + b)[i].id != (a + b)[j].id {
      if i < |a| && j >= |a| {
        assert a[i].id in Ids(a) && b[j - |a|].id in Ids(b);
      }
    }
  }

  lemma {:induction false} RemoveSpec(t: seq<Event>, id: Id)
    requires Distinct(t)
    ensures Ids(Remove(t, id)) == Ids(t) - {id} && Distinct(Remove(t, id))
    ensures forall e :: e in Remove(t, id) ==> e in t
  {
    if t != [] {
      RemoveSpec(t[1..], id);
      assert t == [t[0]] + t[1..];
      IdsAppend([t[0]], t[1..]);
      assert Ids([t[0]]) == {t[0].id};
      assert t[0].id !in Ids(t[1..]);
      if t[0].id != id {
        IdsAppend([t[0]], Remove(t[1..], id));
        DistinctAppend([t[0]], Remove(t[1..], id));
      }
    }
  }

  // ---- What the table operations mean --------------------------------------------------------------

  // One row more, at the end, unless the id is there already.
  predicate Inserted(before: seq<Event>, after: seq<Event>, e: Event) {
    && before <= after && Ids(after) == Ids(before) + {e.id}
    && (Distinct(before) ==> Distinct(after))
    && (e.id in Ids(before) ==> after == before)
    && (e.id !in Ids(before) ==> after == before + [e])
  }

  predicate Without(before: seq<Event>, after: seq<Event>, i: nat)
    requires i < |before|
  {
    after == before[..i] + before[i + 1..]
  }

  // No row of the id is left; in a table of distinct ids the other rows are all there, in their order.
  predicate Deleted(before: seq<Event>, after: seq<Event>, id: Id) {
    && Ids(after) == Ids(before) - {id}
    && (id !in Ids(before) ==> after == before)
    && (Distinct(before) ==> Distinct(after))
    && (Distinct(before) && id in Ids(before) ==>
          exists i :: 0 <= i < |before| && before[i].id == id && Without(before, after, i))
  }

  // The oldest rows, as many as fit a page.
  predicate Listed(table: seq<Event>, rows: seq<Event>) {
    rows <= table && |rows| == if |table| <= FLUSH_LIMIT then |table| else FLUSH_LIMIT
  }

  lemma PutInserts(t: seq<Event>, e: Event)
    ensures Inserted(t, Put(t, e), e)
  {
    if e.id !in Ids(t) {
      IdsAppend(t, [e]);
      OneId(e);
      if Distinct(t) { PutSpec(t, e); }
    }
  }

  lemma {:induction false} RemoveKeepsIds(t: seq<Event>, id: Id)
    ensures Ids(Remove(t, id)) == Ids(t) - {id}
    ensures id !in Ids(t) ==> Remove(t, id) == t
  {
    if t == [] {
    } else {
      RemoveKeepsIds(t[1..], id);
      IdsAppend([t[0]], t[1..]);
      OneId(t[0]);
      assert [t[0]] + t[1..] == t;
      IdsAppend([t[0]], Remove(t[1..], id));
    }
  }

  lemma {:induction false} RemoveIsWithout(t: seq<Event>, id: Id) returns (i: nat)
    requires Distinct(t) && id in Ids(t)
    ensures i < |t| && t[i].id == id && Without(t, Remove(t, id), i)
  {
    if t[0].id == id {
      i := 0;
      assert id !in Ids(t[1..]);
      RemoveKeepsIds(t[1..], id);
      assert t[..0] + t[1..] == t[1..];
    } else {
      i := RemoveIsWithout(t[1..], id);
      assert t[..i + 1] + t[i + 2..] == [t[0]] + (t[1..][..i] + t[1..][i + 1..]);
      i := i + 1;
    }
  }

  lemma RemoveDeletes(t: seq<Event>, id: Id)
    ensures Deleted(t, Remove(t, id), id)
  {
    RemoveKeepsIds(t, id);
    if Distinct(t) {
      RemoveSpec(t, id);
      if id in Ids(t) { var _ := RemoveIsWithout(t, id); }
    }
  }

  lemma PutSpec(t: seq<Event>, e: Event)
    requires Distinct(t)
    ensures Ids(Put(t, e)) == Ids(t) + {e.id} && Distinct(Put(t, e))
    ensures forall x :: x in Put(t, e) ==> x in t || x == e
    ensures t <= Put(t, e)
  {
    IdsAppend(t, [e]);
    assert Ids([e]) == {e.id};
    if e.id !in Ids(t) { DistinctAppend(t, [e]); }
  }

  lemma {:induction false} SetByIdSpec(b: seq<Event>, e: Event)
    requires Distinct(b)
    ensures Ids(SetById(b, e)) == Ids(b) + {e.id} && Distinct(SetById(b, e))
    ensures forall x :: x in SetById(b, e) ==> x in b || x == e
  {
    assert Ids([e]) == {e.id};
    if b != [] {
      assert b == [b[0]] + b[1..] && Ids([b[0]]) == {b[0].id};
      IdsAppend([b[0]], b[1..]);
      if b[0].id == e.id {
        IdsAppend([e], b[1..]);
      } else {
        SetByIdSpec(b[1..], e);
        IdsAppend([b[0]], SetById(b[1..], e));
        assert b[0].id !in Ids(b[1..]);
        DistinctAppend([b[0]], SetById(b[1..], e));
      }
    }
  }

  /** Collecting by id loses no id and repeats none. */
  lemma {:induction false} ByIdSpec(es: seq<Event>)
    ensures Ids(ById(es)) == Ids(es) && Distinct(ById(es))
    ensures forall x :: x in ById(es) ==> x in es
  {
    if es != [] {
      var n := |es| - 1;
      ByIdSpec(es[..n]);
      SetByIdSpec(ById(es[..n]), es[n]);
      assert es == es[..n] + [es[n]] && Ids([es[n]]) == {es[n].id};
      IdsAppend(es[..n], [es[n]]);
    }
  }

  // Some event of id x stands before every event of id y.
  predicate MetBefore(es: seq<Event>, x: Id, y: Id) {
    exists k :: 0 <= k < |es| && es[k].id == x && forall l :: 0 <= l <= k ==> es[l].id != y
  }

  predicate IsLastOfItsId(es: seq<Event>, e: Event) {
    exists k :: 0 <= k < |es| && es[k] == e && forall l :: k < l < |es| ==> es[l].id != e.id
  }

  // Every id once, in the order first met, with the event last met.
  predicate Collected(es: seq<Event>, batch: seq<Event>) {
    && Distinct(batch) && Ids(batch) == Ids(es)
    && (forall i, j :: 0 <= i < j < |batch| ==> MetBefore(es, batch[i].id, batch[j].id))
    && (forall i :: 0 <= i < |batch| ==> IsLastOfItsId(es, batch[i]))
  }

  lemma {:induction false} SetByIdAt(b: seq<Event>, e: Event) returns (p: nat)
    ensures p <= |b|
    ensures p < |b| ==> b[p].id == e.id && SetById(b, e) == b[p := e]
    ensures p == |b| ==> e.id !in Ids(b) && SetById(b, e) == b + [e]
  {
    if b == [] || b[0].id == e.id {
      p := 0;
      assert b != [] ==> b[0 := e] == [e] + b[1..];
    } else {
      var q := SetByIdAt(b[1..], e);
      p := q + 1;
      assert b == [b[0]] + b[1..];
      if q == |b[1..]| { IdsAppend([b[0]], b[1..]); }
    }
  }

  lemma MetBeforeGrows(es: seq<Event>, e: Event, x: Id, y: Id)
    requires MetBefore(es, x, y)
    ensures MetBefore(es + [e], x, y)
  {
    var k :| 0 <= k < |es| && es[k].id == x && forall l :: 0 <= l <= k ==> es[l].id != y;
    assert (es + [e])[k].id == x && forall l :: 0 <= l <= k ==> (es + [e])[l] == es[l];
  }

  lemma NewIsMetLast(es: seq<Event>, e: Event, x: Id)
    requires x in Ids(es) && e.id !in Ids(es)
    ensures MetBefore(es + [e], x, e.id)
  {
    var y :| y in es && y.id == x;
    var k :| 0 <= k < |es| && es[k] == y;
    assert (es + [e])[k].id == x && forall l :: 0 <= l <= k ==> (es + [e])[l] == es[l];
  }

  lemma StillLast(es: seq<Event>, e: Event, x: Event)
    requires x.id != e.id ==> IsLastOfItsId(es, x)
    requires x.id == e.id ==> x == e
    ensures IsLastOfItsId(es + [e], x)
  {
    var more := es + [e];
    if x == e {
      assert more[|es|] == x;
    } else {
      var k :| 0 <= k < |es| && es[k] == x && forall l :: k < l < |es| ==> es[l].id != x.id;
      assert more[k] == x;
    }
  }

  lemma SetByIdCollects(es: seq<Event>, batch: seq<Event>, e: Event)
    requires Collected(es, batch)
    ensures Collected(es + [e], SetById(batch, e))
  {
    SetByIdSpec(batch, e);
    IdsAppend(es, [e]);
    OneId(e);
    var p := SetByIdAt(batch, e);
    var more, next := es + [e], SetById(batch, e);
    hide SetById, Ids, MetBefore, IsLastOfItsId;
    forall i, j | 0 <= i < j < |next| ensures MetBefore(more, next[i].id, next[j].id) {
      if j < |batch| {
        MetBeforeGrows(es, e, batch[i].id, batch[j].id);
      } else {
        InIds(batch, i);
        NewIsMetLast(es, e, batch[i].id);
      }
    }
    forall i | 0 <= i < |next| ensures IsLastOfItsId(more, next[i]) {
      StillLast(es, e, next[i]);
    }
  }

  lemma InIds(es: seq<Event>, i: nat)
    requires i < |es|
    ensures es[i].id in Ids(es)
  {
  }

  lemma {:induction false} ByIdCollects(es: seq<Event>)
    ensures Collected(es, ById(es))
  {
    if es != [] {
      hide Collected;
      var n := |es| - 1;
      ByIdCollects(es[..n]);
      SetByIdCollects(es[..n], ById(es[..n]), es[n]);
      assert es == es[..n] + [es[n]];
    }
  }

  lemma {:induction false} TaskEventsAppend(queue: seq<Task>, t: Task)
    ensures TaskEvents(queue + [t]) == TaskEvents(queue) + if t.Persist? then [t.event] else []
  {
    if queue == [] {
      assert queue + [t] == [t];
    } else {
      TaskEventsAppend(queue[1..], t);
      assert (queue + [t])[1..] == queue[1..] + [t];
    }
  }

  lemma AcceptedIds(s: State)
    requires Clean(s)
    ensures Durable(s) + Volatile(s) <= s.accepted.Keys
  {
  }

  // ---- Steps keep the invariant ------------------------------------------------------------------

  lemma EmptyIds()
    ensures Ids([]) == {} && Distinct([])
  {
  }

  lemma OneId(e: Event)
    ensures Ids([e]) == {e.id} && Distinct([e])
  {
  }

  // The queue after one more task.
  lemma QueueGrows(s: State, t: Task)
    ensures Ids(TaskEvents(s.queue + [t])) == Ids(TaskEvents(s.queue)) + if t.Persist? then {t.event.id} else {}
    ensures t.Persist? && t.event.id !in Ids(TaskEvents(s.queue)) && Distinct(TaskEvents(s.queue)) ==>
      Distinct(TaskEvents(s.queue + [t]))
    ensures !t.Persist? ==> TaskEvents(s.queue + [t]) == TaskEvents(s.queue)
    ensures forall e :: e in TaskEvents(s.queue + [t]) ==> e in TaskEvents(s.queue) || t == Persist(e, t.forward)
  {
    hide Ids, Distinct;
    TaskEventsAppend(s.queue, t);
    assert TaskEvents(s.queue) + [] == TaskEvents(s.queue);
    if t.Persist? {
      OneId(t.event);
      IdsAppend(TaskEvents(s.queue), [t.event]);
      if t.event.id !in Ids(TaskEvents(s.queue)) && Distinct(TaskEvents(s.queue)) {
        DistinctAppend(TaskEvents(s.queue), [t.event]);
      }
    }
  }

  lemma AcceptKeepsClean(s: State, e: Event)
    requires Clean(s) && e.id !in s.accepted
    ensures Clean(Accept(s, e))
  {
    hide Ids, Distinct, TaskEvents, Busy;
    AcceptedIds(s);
    if e.kind == Lifecycle || e.kind == Ordinary {
      QueueGrows(s, Persist(e, e.kind == Ordinary));
    }
  }

  // How accepting an event changes what the protocol holds.
  lemma AcceptGrows(s: State, e: Event)
    requires Clean(s) && e.id !in s.accepted
    ensures
      var t := Accept(s, e);
      && Ids(TaskEvents(t.queue)) ==
           Ids(TaskEvents(s.queue)) + (if e.kind == Lifecycle || e.kind == Ordinary then {e.id} else {})
      && e.id !in Durable(s) && e.id !in Volatile(s)
  {
    AcceptedIds(s);
    hide Ids, Distinct, TaskEvents, Busy;
    if e.kind == Lifecycle || e.kind == Ordinary {
      QueueGrows(s, Persist(e, e.kind == Ordinary));
    }
  }

  lemma AcceptKeepsForwarding(s: State, e: Event)
    requires Forwarding(s) && e.id !in s.accepted
    ensures Forwarding(Accept(s, e))
  {
  }

  lemma AcceptKeepsTracked(s: State, e: Event)
    requires Clean(s) && Tracked(s) && e.id !in s.accepted
    ensures Tracked(Accept(s, e))
  {
    AcceptGrows(s, e);
    hide Ids, Clean, TaskEvents, Busy;
    var t := Accept(s, e);
    forall id | id in t.accepted && Persistable(t.accepted[id]) ensures id in Durable(t) + Volatile(t) + t.lost {
      if id != e.id { assert id in s.accepted && t.accepted[id] == s.accepted[id]; }
    }
  }

  lemma AcceptKeepsSeparate(s: State, e: Event)
    requires Clean(s) && Separate(s) && e.id !in s.accepted
    ensures Separate(Accept(s, e))
  {
    AcceptGrows(s, e);
    hide Ids, TaskEvents, Busy, Clean;
  }

  lemma AcceptKeepsSettled(s: State, e: Event)
    requires Settled(s) && Progress(s)
    ensures Settled(Accept(s, e)) && Progress(Accept(s, e))
  {
    hide Ids, TaskEvents, Busy;
  }

  lemma AcceptKeepsInv(s: State, e: Event)
    requires Inv(s) && e.id !in s.accepted
    ensures Inv(Accept(s, e))
  {
    AcceptKeepsClean(s, e);
    AcceptKeepsSeparate(s, e);
    AcceptKeepsForwarding(s, e);
    AcceptKeepsTracked(s, e);
    AcceptKeepsSettled(s, e);
    hide Accept, Clean, Forwarding, Tracked, Separate, Settled, Progress;
  }

  lemma TimerKeepsInv(s: State)
    requires Inv(s)
    ensures Inv(s.(queue := s.queue + [Flush]))
  {
    hide Ids, Distinct, TaskEvents, Busy;
    QueueGrows(s, Flush);
  }

  lemma DistinctSplit(first: Event, rest: seq<Event>)
    requires Distinct([first] + rest)
    ensures Distinct(rest) && first.id !in Ids(rest)
  {
    var all := [first] + rest;
    assert forall j :: 0 <= j < |rest| ==> all[j + 1] == rest[j] && all[0].id != all[j + 1].id;
  }

  // The queue without its first task.
  lemma QueueShrinks(queue: seq<Task>)
    requires queue != [] && Distinct(TaskEvents(queue))
    ensures Distinct(TaskEvents(queue[1..]))
    ensures queue[0].Persist? ==> queue[0].event in TaskEvents(queue)
    ensures queue[0].Persist? ==> queue[0].event.id !in Ids(TaskEvents(queue[1..]))
    ensures Ids(TaskEvents(queue)) ==
      Ids(TaskEvents(queue[1..])) + if queue[0].Persist? then {queue[0].event.id} else {}
    ensures forall e :: e in TaskEvents(queue[1..]) ==> e in TaskEvents(queue)
  {
    hide Ids, Distinct;
    var rest := TaskEvents(queue[1..]);
    assert [] + rest == rest;
    if queue[0].Persist? {
      OneId(queue[0].event);
      IdsAppend([queue[0].event], rest);
      DistinctSplit(queue[0].event, rest);
    }
  }

  // Everything but the program counter.
  ghost predicate Base(s: State) {
    Clean(s) && Separate(s) && Settled(s) && Tracked(s) && Forwarding(s)
  }

  lemma StartTaskKeepsClean(s: State)
    requires Clean(s) && s.control.Idle? && s.queue != []
    ensures Clean(StartTask(s))
    ensures s.queue[0].Persist? ==> Genuine(s.accepted, [s.queue[0].event])
  {
    QueueShrinks(s.queue);
    EmptyIds();
    if s.queue[0].Persist? { OneId(s.queue[0].event); }
    hide Ids, Distinct, TaskEvents;
  }

  lemma StartTaskMoves(s: State)
    requires Clean(s) && s.control.Idle? && s.queue != []
    ensures
      var t := StartTask(s);
      var moved := if s.queue[0].Persist? then {s.queue[0].event.id} else {};
      && Ids(TaskEvents(s.queue)) == Ids(TaskEvents(t.queue)) + moved
      && moved !! Ids(TaskEvents(t.queue))
      && Ids(Busy(s.control)) == {}
      && Ids(Busy(t.control)) == (if s.queue[0].Persist? && !s.queue[0].event.hasRun then {} else moved)
      && (s.queue[0].Persist? ==>
           s.queue[0].event.id in s.accepted && s.accepted[s.queue[0].event.id] == s.queue[0].event)
  {
    QueueShrinks(s.queue);
    EmptyIds();
    if s.queue[0].Persist? { OneId(s.queue[0].event); }
    hide Ids, Distinct, TaskEvents;
  }

  lemma StartTaskKeepsRest(s: State)
    requires Inv(s) && s.control.Idle? && s.queue != []
    ensures Separate(StartTask(s)) && Settled(StartTask(s)) && Tracked(StartTask(s))
  {
    StartTaskMoves(s);
    hide Ids, TaskEvents, Clean, Forwarding, Busy;
  }

  lemma StartTaskKeepsProgress(s: State)
    requires Forwarding(s) && s.control.Idle? && s.queue != []
    ensures Progress(StartTask(s)) && Forwarding(StartTask(s))
  {
    hide Ids;
    assert s.queue[0] in s.queue;
    assert forall t :: t in StartTask(s).queue ==> t in s.queue;
  }

  lemma StartTaskKeepsInv(s: State)
    requires Inv(s) && s.control.Idle? && s.queue != []
    ensures Inv(StartTask(s))
  {
    StartTaskKeepsClean(s);
    StartTaskKeepsRest(s);
    StartTaskKeepsProgress(s);
    hide StartTask, Clean, Separate, Settled, Tracked, Progress, Forwarding;
  }

  // ---- Table writes of the running task ----------------------------------------------------------

  lemma PutOutboxKeepsBase(s: State, e: Event)
    requires Base(s) && e in Busy(s.control)
    requires e.id !in s.live
    ensures Base(s.(outbox := Put(s.outbox, e), stored := s.stored + {e.id}))
  {
    PutSpec(s.outbox, e);
    assert e.id in Ids(Busy(s.control));
    var t := s.(outbox := Put(s.outbox, e), stored := s.stored + {e.id});
    hide Ids, Distinct, TaskEvents, Put, Busy;
    assert Clean(t) by { hide Separate, Settled, Tracked, Forwarding; }
    assert Separate(t) && Settled(t) && Tracked(t) && Forwarding(t) by { hide Clean, Genuine; }
  }

  lemma PutLogKeepsBase(s: State, e: Event)
    requires Base(s) && e in Busy(s.control)
    ensures Base(s.(log := Put(s.log, e)))
    ensures e.id in Ids(Put(s.log, e))
  {
    PutSpec(s.log, e);
    assert e.id in Ids(Busy(s.control));
    var t := s.(log := Put(s.log, e));
    hide Ids, Distinct, TaskEvents, Put, Busy;
    assert Clean(t) by { hide Separate, Settled, Tracked, Forwarding; }
    assert Separate(t) && Settled(t) && Tracked(t) && Forwarding(t) by { hide Clean, Genuine; }
  }

  lemma RemoveKeepsBase(s: State, e: Event)
    requires Base(s) && e.id in Ids(s.log)
    ensures Base(s.(outbox := Remove(s.outbox, e.id)))
    ensures e.id !in Ids(Remove(s.outbox, e.id))
  {
    RemoveSpec(s.outbox, e.id);
    hide Ids, Distinct, TaskEvents, Remove;
  }

  lemma BusyIsUnpublished(s: State, e: Event)
    requires Base(s) && e in Busy(s.control)
    ensures e.id !in s.live && e.id in Ids(Busy(s.control))
  {
  }

  // The running task hands what it holds to the failure list.
  lemma AbandonKeepsBase(s: State)
    requires Base(s)
    ensures Base(s.(control := Idle, failed := s.failed + Busy(s.control)))
  {
    IdsAppend(s.failed, Busy(s.control));
    DistinctAppend(s.failed, Busy(s.control));
    EmptyIds();
    hide Ids, Distinct, TaskEvents;
  }

  lemma AnyFailures(s: State, n: nat)
    requires Base(s)
    ensures Base(s.(failures := n))
  {
    hide Ids, Distinct, TaskEvents;
  }

  // Only what the running task holds matters, not how far it has come.
  lemma SameBusy(s: State, c: Control)
    requires Base(s) && Busy(c) == Busy(s.control)
    ensures Base(s.(control := c))
  {
    hide Ids, Distinct, TaskEvents, Busy;
  }

  lemma RetryKeepsInv(s: State)
    requires Base(s) && s.control.Persisting? && 1 <= s.control.attempt <= MAX_ATTEMPTS
    requires s.control.event.hasRun && (s.control.forward <==> s.control.event.kind == Ordinary)
    ensures Inv(Retry(s))
  {
    hide Base, Clean, Separate, Settled, Tracked, Forwarding;
    if s.control.attempt >= MAX_ATTEMPTS {
      AbandonKeepsBase(s);
      AnyFailures(s.(control := Idle, failed := s.failed + Busy(s.control)), s.failures + 1);
      BaseIsInv(Retry(s));
    } else {
      SameBusy(s, Retry(s).control);
      BaseIsInv(Retry(s));
    }
  }

  lemma BaseIsInv(s: State)
    requires Base(s) && Progress(s)
    ensures Inv(s)
  {
  }

  lemma InvIsBase(s: State)
    requires Inv(s)
    ensures Base(s) && Progress(s)
  {
  }

  // The first event the running task holds is published and dropped.
  function Published(s: State, e: Event, c: Control, visible: bool): State {
    s.(control := c, live := if visible then s.live + [e.id] else s.live)
  }

  lemma PublishKeepsClean(s: State, e: Event, rest: seq<Event>, c: Control, visible: bool)
    requires Clean(s) && Busy(s.control) == [e] + rest && Busy(c) == rest
    ensures Clean(Published(s, e, c, visible))
  {
    DistinctSplit(e, rest);
    hide Distinct, TaskEvents, Busy;
  }

  lemma PublishKeepsSettled(s: State, e: Event, rest: seq<Event>, c: Control, visible: bool)
    requires Clean(s) && Separate(s) && Settled(s) && Busy(s.control) == [e] + rest && Busy(c) == rest
    requires e.id in Ids(s.log) && e.id !in Ids(s.outbox)
    ensures Settled(Published(s, e, c, visible))
  {
    OneId(e);
    IdsAppend([e], rest);
    DistinctSplit(e, rest);
    hide Ids, Distinct, TaskEvents, Busy, Genuine;
  }

  lemma PublishKeepsBase(s: State, e: Event, rest: seq<Event>, c: Control, visible: bool)
    requires Base(s) && Busy(s.control) == [e] + rest && Busy(c) == rest
    requires e.id in Ids(s.log) && e.id !in Ids(s.outbox)
    ensures Base(s.(control := c, live := if visible then s.live + [e.id] else s.live))
  {
    OneId(e);
    IdsAppend([e], rest);
    PublishKeepsClean(s, e, rest, c, visible);
    PublishKeepsSettled(s, e, rest, c, visible);
    hide Ids, Clean, Settled, TaskEvents, Busy;
  }

  lemma PersistKeepsInv(s: State, f: Fault)
    requires Inv(s) && s.control.Persisting?
    ensures Inv(PersistStep(s, f))
  {
    hide Inv, Base, Retry;
    InvIsBase(s);
    var e, c := s.control.event, s.control;
    BusyIsUnpublished(s, e);
    match s.control.phase {
      case Enqueue =>
        var t := if Commits(f) then s.(outbox := Put(s.outbox, e), stored := s.stored + {e.id}) else s;
        PutOutboxKeepsBase(s, e);
        RetryKeepsInv(t);
        SameBusy(t, Persisting(Append, e, c.forward, c.attempt));
        BaseIsInv(t.(control := Persisting(Append, e, c.forward, c.attempt)));
      case Append =>
        var t := if Commits(f) then s.(log := Put(s.log, e)) else s;
        PutLogKeepsBase(s, e);
        RetryKeepsInv(t);
        SameBusy(t, Persisting(Delete, e, c.forward, c.attempt));
        if f.Works? { BaseIsInv(t.(control := Persisting(Delete, e, c.forward, c.attempt))); }
      case Delete =>
        var t := if Commits(f) then s.(outbox := Remove(s.outbox, e.id)) else s;
        RemoveKeepsBase(s, e);
        RetryKeepsInv(t);
        SameBusy(t, Persisting(Publish, e, c.forward, c.attempt));
        if f.Works? { BaseIsInv(t.(control := Persisting(Publish, e, c.forward, c.attempt))); }
      case Publish =>
        assert Busy(c) == [e] + [];
        PublishKeepsBase(s, e, [], Idle, c.forward);
        BaseIsInv(PersistStep(s, f));
    }
  }

  lemma BatchSpec(s: State, f: Fault)
    requires Clean(s)
    ensures
      var batch := ById((if f.Works? then Page(s.outbox) else []) + s.failed);
      && Distinct(batch) && Genuine(s.accepted, batch)
      && Ids(s.failed) <= Ids(batch) <= Ids(s.outbox) + Ids(s.failed)
  {
    var listed := if f.Works? then Page(s.outbox) else [];
    ByIdSpec(listed + s.failed);
    IdsAppend(listed, s.failed);
    assert Ids(listed) <= Ids(s.outbox) && forall e :: e in listed ==> e in s.outbox;
    hide ById, Ids, Distinct, TaskEvents;
    assert forall e :: e in ById(listed + s.failed) ==> e in s.outbox || e in s.failed;
  }

  lemma StartFlushKeepsClean(s: State, f: Fault)
    requires Clean(s) && s.control.Listing?
    ensures Clean(StartFlush(s, f))
  {
    BatchSpec(s, f);
    hide Ids, Distinct, ById, Page, TaskEvents, Genuine;
    AnyDistinct(s.accepted);
  }

  lemma AnyDistinct(accepted: map<Id, Event>)
    ensures Distinct([]) && Genuine(accepted, [])
  {
  }

  // The failure list moves into the batch, together with what was listed.
  lemma StartFlushMoves(s: State, f: Fault)
    requires Clean(s) && s.control.Listing?
    ensures
      var t := StartFlush(s, f);
      && t == s.(failed := [], control := t.control) && Ids(Busy(s.control)) == {}
      && Ids(s.failed) <= Ids(Busy(t.control)) <= Ids(s.outbox) + Ids(s.failed)
  {
    BatchSpec(s, f);
    EmptyIds();
    hide Ids, Distinct, ById, Page, Genuine, Clean;
  }

  lemma StartFlushKeepsRest(s: State, f: Fault)
    requires Clean(s) && Separate(s) && Settled(s) && Tracked(s) && s.control.Listing?
    ensures
      var t := StartFlush(s, f);
      Separate(t) && Settled(t) && Tracked(t)
  {
    StartFlushMoves(s, f);
    EmptyIds();
    hide Ids, StartFlush, TaskEvents, Busy, Clean;
  }

  lemma StartFlushKeepsInv(s: State, f: Fault)
    requires Inv(s) && s.control.Listing?
    ensures Inv(StartFlush(s, f))
  {
    StartFlushKeepsClean(s, f);
    StartFlushKeepsRest(s, f);
    hide ById, Page, Clean, Separate, Settled, Tracked;
  }

  lemma GiveUpKeepsInv(s: State)
    requires Base(s) && s.control.Flushing?
    ensures Inv(GiveUp(s))
  {
    hide Base;
    AbandonKeepsBase(s);
    BaseIsInv(GiveUp(s));
  }

  lemma FlushKeepsInv(s: State, f: Fault)
    requires Inv(s) && s.control.Flushing?
    ensures s.control.rest != [] && Inv(FlushStep(s, f))
  {
    hide Inv, Base, GiveUp;
    InvIsBase(s);
    var rest := s.control.rest;
    var e := rest[0];
    assert rest == [e] + rest[1..];
    match s.control.phase {
      case Delete =>
        var t := if Commits(f) then s.(outbox := Remove(s.outbox, e.id)) else s;
        RemoveKeepsBase(s, e);
        GiveUpKeepsInv(t);
        SameBusy(t, Flushing(Publish, rest));
        if f.Works? { BaseIsInv(t.(control := Flushing(Publish, rest))); }
      case Publish =>
        PublishKeepsBase(s, e, rest[1..], FlushStep(s, f).control, true);
        BaseIsInv(FlushStep(s, f));
      case _ =>
        var t := if Commits(f) then s.(log := Put(s.log, e)) else s;
        PutLogKeepsBase(s, e);
        GiveUpKeepsInv(t);
        SameBusy(t, Flushing(Delete, rest));
        if f.Works? { BaseIsInv(t.(control := Flushing(Delete, rest))); }
    }
  }

  lemma RestartKeepsInv(s: State)
    requires Inv(s)
    ensures Inv(Restart(s))
  {
    EmptyIds();
    hide Ids, Distinct;
    assert TaskEvents([Flush]) == [];
  }

  lemma StepKeepsInv(s: State, i: Input)
    requires Inv(s) && Enabled(s, i)
    ensures Inv(Step(s, i))
  {
    hide Inv, Accept, StartTask, PersistStep, StartFlush, FlushStep, Restart;
    match i
    case Emit(e) => AcceptKeepsInv(s, e);
    case Timer => TimerKeepsInv(s);
    case Begin => StartTaskKeepsInv(s);
    case Do(f) =>
      if s.control.Persisting? { PersistKeepsInv(s, f); }
      else if s.control.Listing? { StartFlushKeepsInv(s, f); }
      else { FlushKeepsInv(s, f); }
    case Crash => RestartKeepsInv(s);
  }

  lemma StartIsInv()
    ensures Inv(START)
  {
    EmptyIds();
    assert TaskEvents([Flush]) == [];
  }

  // ---- Every run -----------------------------------------------------------------------------------

  // What one storage call of a persist task does to the protocol state.
  lemma PersistEffect(s: State, f: Fault)
    requires s.control.Persisting?
    ensures Enabled(s, Do(f))
    ensures
      var t := Step(s, Do(f));
      var Persisting(phase, e, forward, attempt) := s.control;
      var retry := phase != Publish && !f.Works?;
      && t.outbox == (if phase == Enqueue && Commits(f) then Put(s.outbox, e)
                      else if phase == Delete && Commits(f) then Remove(s.outbox, e.id) else s.outbox)
      && t.log == (if phase == Append && Commits(f) then Put(s.log, e) else s.log)
      && t.queue == s.queue && t.forwarded == s.forwarded && t.accepted == s.accepted && t.lost == s.lost
      && t.live == (if phase == Publish && forward then s.live + [e.id] else s.live)
      && t.failed == (if retry && attempt >= MAX_ATTEMPTS then s.failed + [e] else s.failed)
      && t.failures == (if retry && attempt >= MAX_ATTEMPTS then s.failures + 1 else s.failures)
      && t.control == (if retry then
                         if attempt >= MAX_ATTEMPTS then Idle else Persisting(Enqueue, e, forward, attempt + 1)
                       else match phase
                         case Enqueue => Persisting(Append, e, forward, attempt)
                         case Append => Persisting(Delete, e, forward, attempt)
                         case Delete => Persisting(Publish, e, forward, attempt)
                         case Publish => Idle)
  {
    hide Put, Remove;
  }

  lemma PublishEffect(s: State, e: Event, forward: bool)
    requires s.control.Persisting? && s.control.phase == Publish && s.control.event == e && s.control.forward == forward
    ensures Enabled(s, Do(Works))
    ensures Step(s, Do(Works)) == s.(control := Idle, live := if forward then s.live + [e.id] else s.live)
  {
  }

  lemma FlushPublishEffect(s: State, e: Event, rest: seq<Event>)
    requires s.control == Flushing(Publish, [e] + rest)
    ensures Enabled(s, Do(Works))
    ensures Step(s, Do(Works)) ==
      s.(control := if rest == [] then Idle else Flushing(Append, rest), live := s.live + [e.id])
  {
    assert ([e] + rest)[1..] == rest;
  }

  lemma StartEffect(s: State, f: Fault)
    requires s.control == Listing
    ensures Enabled(s, Do(f))
    ensures
      var t := Step(s, Do(f));
      var batch := ById((if f.Works? then Page(s.outbox) else []) + s.failed);
      && t.outbox == s.outbox && t.log == s.log && t.queue == s.queue && t.failed == [] && t.failures == s.failures
      && t.forwarded == s.forwarded && t.live == s.live && t.accepted == s.accepted && t.lost == s.lost
      && t.control == (if batch == [] then Idle else Flushing(Append, batch))
  {
  }

  // What one storage call of a flush does to the protocol state.
  lemma FlushEffect(s: State, e: Event, rest: seq<Event>, f: Fault)
    requires s.control.Flushing? && s.control.phase != Enqueue && s.control.rest == [e] + rest
    ensures Enabled(s, Do(f))
    ensures
      var t := Step(s, Do(f));
      var phase := s.control.phase;
      var quit := phase != Publish && !f.Works?;
      && t.outbox == (if phase == Delete && Commits(f) then Remove(s.outbox, e.id) else s.outbox)
      && t.log == (if phase == Append && Commits(f) then Put(s.log, e) else s.log)
      && t.queue == s.queue && t.forwarded == s.forwarded && t.failures == s.failures
      && t.accepted == s.accepted && t.lost == s.lost
      && t.live == (if phase == Publish then s.live + [e.id] else s.live)
      && t.failed == (if quit then s.failed + ([e] + rest) else s.failed)
      && t.control == (if quit then Idle
                       else match phase
                         case Append => Flushing(Delete, [e] + rest)
                         case Delete => Flushing(Publish, [e] + rest)
                         case _ => if rest == [] then Idle else Flushing(Append, rest))
  {
    hide Put, Remove;
    assert ([e] + rest)[1..] == rest;
  }

  lemma EmptyRun(s: State)
    ensures Allowed(s, []) && Run(s, []) == s
  {
  }

  lemma Extend(s0: State, steps: seq<Input>, i: Input)
    requires Allowed(s0, steps) && Enabled(Run(s0, steps), i)
    ensures Allowed(s0, steps + [i]) && Run(s0, steps + [i]) == Step(Run(s0, steps), i)
  {
    assert (steps + [i])[..|steps|] == steps;
  }

  lemma LastInput(s: State, inputs: seq<Input>)
    requires inputs != [] && Allowed(s, inputs)
    ensures
      var n := |inputs| - 1;
      && Allowed(s, inputs[..n]) && Enabled(Run(s, inputs[..n]), inputs[n])
      && Run(s, inputs) == Step(Run(s, inputs[..n]), inputs[n])
  {
    hide Step, Enabled;
  }

  lemma Regroup(first: seq<Input>, more: seq<Input>)
    requires more != []
    ensures first + more == first + more[..|more| - 1] + [more[|more| - 1]]
  {
  }

  lemma {:induction false} Chain(s0: State, first: seq<Input>, more: seq<Input>)
    requires Allowed(s0, first) && Allowed(Run(s0, first), more)
    ensures Allowed(s0, first + more) && Run(s0, first + more) == Run(Run(s0, first), more)
  {
    hide Step, Enabled;
    if more == [] {
      assert first + more == first;
    } else {
      hide Run, Allowed;
      var n := |more| - 1;
      LastInput(Run(s0, first), more);
      Chain(s0, first, more[..n]);
      Regroup(first, more);
      Extend(s0, first + more[..n], more[n]);
    }
  }

  lemma {:induction false} RunKeepsInv(s: State, inputs: seq<Input>)
    requires Inv(s) && Allowed(s, inputs)
    ensures Inv(Run(s, inputs))
  {
    hide Inv, Step, Enabled;
    if inputs != [] {
      var n := |inputs| - 1;
      RunKeepsInv(s, inputs[..n]);
      StepKeepsInv(Run(s, inputs[..n]), inputs[n]);
    }
  }

  lemma EveryRunKeepsInv(inputs: seq<Input>)
    requires Allowed(START, inputs)
    ensures Inv(Run(START, inputs))
  {
    hide Inv, Run, Allowed;
    StartIsInv();
    RunKeepsInv(START, inputs);
  }

  /** Once an outbox insert has committed, the event is in the outbox or in the log for good. */
  lemma StoredIsNeverLost(inputs: seq<Input>, id: Id)
    requires Allowed(START, inputs)
    ensures
      var s := Run(START, inputs);
      id in s.stored ==> id in Ids(s.outbox) || id in Ids(s.log)
  {
    EveryRunKeepsInv(inputs);
    hide Run;
  }

  /** The log never holds an id twice, and every row is the event that was emitted under that id. */
  lemma LogIsUniqueAndGenuine(inputs: seq<Input>)
    requires Allowed(START, inputs)
    ensures
      var s := Run(START, inputs);
      && (forall i, j :: 0 <= i < j < |s.log| ==> s.log[i].id != s.log[j].id)
      && forall i :: 0 <= i < |s.log| ==> s.log[i].id in s.accepted && s.accepted[s.log[i].id] == s.log[i]
  {
    EveryRunKeepsInv(inputs);
    hide Run;
  }

  /**
   * The persistence path publishes every event at most once, and only after it is logged. Together
   * with forwarding, an ordinary event is seen live at most once.
   */
  lemma PublishedAtMostOnce(inputs: seq<Input>)
    requires Allowed(START, inputs)
    ensures
      var s := Run(START, inputs);
      && (forall i, j :: 0 <= i < j < |s.live| ==> s.live[i] != s.live[j])
      && (forall id :: id in s.live ==> id in Ids(s.log))
      && forall id :: id in s.accepted && s.accepted[id].kind == Ordinary ==> id !in s.forwarded
  {
    EveryRunKeepsInv(inputs);
    hide Run;
  }

  /** A replayable event is logged, in the outbox, still held in memory, or was in memory at a crash. */
  lemma NothingVanishes(inputs: seq<Input>, id: Id)
    requires Allowed(START, inputs)
    ensures
      var s := Run(START, inputs);
      id in s.accepted && Persistable(s.accepted[id]) ==>
        id in Ids(s.log) || id in Ids(s.outbox) || id in Volatile(s) || id in s.lost
  {
    EveryRunKeepsInv(inputs);
    hide Run;
  }

  /** What a crash can cost: only events whose outbox insert never committed. */
  lemma CrashSparesStored(inputs: seq<Input>)
    requires Allowed(START, inputs)
    ensures
      var s := Run(START, inputs);
      && s.stored !! (Volatile(s) - Durable(s))
      && Step(s, Crash).outbox == s.outbox && Step(s, Crash).log == s.log
  {
    EveryRunKeepsInv(inputs);
    hide Run;
  }

  lemma {:induction false} LogGrows(s: State, inputs: seq<Input>)
    ensures s.log <= Run(s, inputs).log
  {
    if inputs != [] {
      var n := |inputs| - 1;
      LogGrows(s, inputs[..n]);
      StepKeepsLog(Run(s, inputs[..n]), inputs[n]);
      hide Step;
    }
  }

  lemma StepKeepsLog(s: State, i: Input)
    ensures s.log <= Step(s, i).log
  {
    hide Remove, ById, Ids, Page;
  }

  // A state of the example below, in which only one lifecycle event was ever emitted.
  function Example(e: Event, queue: seq<Task>, control: Control, outbox: seq<Event>, log: seq<Event>,
                   live: seq<Id>): State {
    State(outbox, log, queue, control, [], 0, map[e.id := e],
          if outbox == [] && log == [] then {} else {e.id}, {}, [e.id], live)
  }

  lemma ExampleCrashes(e: Event)
    requires e.kind == Lifecycle && e.hasRun
    ensures
      && Step(START, Emit(e)) == Example(e, [Flush, Persist(e, false)], Idle, [], [], [])
      && Step(Example(e, [Flush, Persist(e, false)], Idle, [], [], []), Begin) ==
           Example(e, [Persist(e, false)], Listing, [], [], [])
      && Step(Example(e, [Persist(e, false)], Listing, [], [], []), Do(Works)) ==
           Example(e, [Persist(e, false)], Idle, [], [], [])
      && Step(Example(e, [Persist(e, false)], Idle, [], [], []), Begin) ==
           Example(e, [], Persisting(Enqueue, e, false, 1), [], [], [])
  {
    assert [Flush, Persist(e, false)][1..] == [Persist(e, false)] && [Persist(e, false)][1..] == [];
    assert Page([]) == [] && ById([] + []) == [];
  }

  lemma ExampleStores(e: Event)
    requires e.kind == Lifecycle && e.hasRun
    ensures
      && Step(Example(e, [], Persisting(Enqueue, e, false, 1), [], [], []), Do(Works))
         == Example(e, [], Persisting(Append, e, false, 1), [e], [], [])
      && Step(Example(e, [], Persisting(Append, e, false, 1), [e], [], []), Crash) ==
           Example(e, [Flush], Idle, [e], [], [])
      && Step(Example(e, [Flush], Idle, [e], [], []), Begin) == Example(e, [], Listing, [e], [], [])
  {
    EmptyIds();
    OneId(e);
    assert [] + [e] == [e];
    var s := Example(e, [], Persisting(Append, e, false, 1), [e], [], []);
    assert Volatile(s) - Durable(s) == {};
  }

  lemma ExampleRecovers(e: Event)
    requires e.kind == Lifecycle && e.hasRun
    ensures
      && Step(Example(e, [], Listing, [e], [], []), Do(Works)) == Example(e, [], Flushing(Append, [e]), [e], [], [])
      && Step(Example(e, [], Flushing(Append, [e]), [e], [], []), Do(Works)) ==
           Example(e, [], Flushing(Delete, [e]), [e], [e], [])
      && Step(Example(e, [], Flushing(Delete, [e]), [e], [e], []), Do(Works)) ==
           Example(e, [], Flushing(Publish, [e]), [], [e], [])
      && Step(Example(e, [], Flushing(Publish, [e]), [], [e], []), Do(Works)) == Example(e, [], Idle, [], [e], [e.id])
  {
    EmptyIds();
    assert Page([e]) == [e] && [e] + [] == [e] && [] + [e] == [e] && [e][..0] == [];
    assert ById([]) == [] && SetById([], e) == [e];
    assert ById([e]) == [e];
    assert [e][1..] == [];
    assert Remove([], e.id) == [] && Remove([e], e.id) == [];
  }

  predicate LeadsTo(inputs: seq<Input>, s: State) {
    Allowed(START, inputs) && Run(START, inputs) == s
  }

  lemma LeadsOn(inputs: seq<Input>, s: State, i: Input, t: State)
    requires LeadsTo(inputs, s) && Enabled(s, i) && Step(s, i) == t
    ensures LeadsTo(inputs + [i], t)
  {
    Extend(START, inputs, i);
    hide Run, Allowed, Step;
  }

  // The daemon crashes when the event is in the outbox and not yet in the log.
  lemma CrashWhileStored(e: Event) returns (inputs: seq<Input>)
    requires e.kind == Lifecycle && e.hasRun
    ensures LeadsTo(inputs, Example(e, [Flush], Idle, [e], [], []))
  {
    var p := Persist(e, false);
    EmptyRun(START);
    ExampleCrashes(e);
    ExampleStores(e);
    assert LeadsTo([], START);
    hide Step, LeadsTo;
    LeadsOn([], START, Emit(e), Example(e, [Flush, p], Idle, [], [], []));
    inputs := [] + [Emit(e)];
    LeadsOn(inputs, Example(e, [Flush, p], Idle, [], [], []), Begin, Example(e, [p], Listing, [], [], []));
    inputs := inputs + [Begin];
    LeadsOn(inputs, Example(e, [p], Listing, [], [], []), Do(Works), Example(e, [p], Idle, [], [], []));
    inputs := inputs + [Do(Works)];
    var storing := Example(e, [], Persisting(Enqueue, e, false, 1), [], [], []);
    LeadsOn(inputs, Example(e, [p], Idle, [], [], []), Begin, storing);
    inputs := inputs + [Begin];
    var stored := Example(e, [], Persisting(Append, e, false, 1), [e], [], []);
    LeadsOn(inputs, storing, Do(Works), stored);
    inputs := inputs + [Do(Works)];
    LeadsOn(inputs, stored, Crash, Example(e, [Flush], Idle, [e], [], []));
    inputs := inputs + [Crash];
  }

  // The restarted daemon replays what it finds in the outbox.
  lemma ReplayAfterCrash(e: Event, crashed: seq<Input>) returns (inputs: seq<Input>)
    requires e.kind == Lifecycle && e.hasRun && LeadsTo(crashed, Example(e, [Flush], Idle, [e], [], []))
    ensures LeadsTo(inputs, Example(e, [], Idle, [], [e], [e.id]))
  {
    ExampleStores(e);
    ExampleRecovers(e);
    hide Step, LeadsTo;
    LeadsOn(crashed, Example(e, [Flush], Idle, [e], [], []), Begin, Example(e, [], Listing, [e], [], []));
    inputs := crashed + [Begin];
    var appending := Example(e, [], Flushing(Append, [e]), [e], [], []);
    LeadsOn(inputs, Example(e, [], Listing, [e], [], []), Do(Works), appending);
    inputs := inputs + [Do(Works)];
    var deleting := Example(e, [], Flushing(Delete, [e]), [e], [e], []);
    LeadsOn(inputs, appending, Do(Works), deleting);
    inputs := inputs + [Do(Works)];
    var publishing := Example(e, [], Flushing(Publish, [e]), [], [e], []);
    LeadsOn(inputs, deleting, Do(Works), publishing);
    inputs := inputs + [Do(Works)];
    LeadsOn(inputs, publishing, Do(Works), Example(e, [], Idle, [], [e], [e.id]));
    inputs := inputs + [Do(Works)];
  }

  /**
   * Lifecycle starts are outside the at-most-once claim: forwarded at once, and after a crash
   * published a second time by the recovery flush.
   */
  lemma LifecycleSeenTwice(id: Id)
    ensures exists inputs ::
      && Allowed(START, inputs)
      && Run(START, inputs).accepted == map[id := Event(id, Lifecycle, true)]
      && Run(START, inputs).forwarded == [id] && Run(START, inputs).live == [id]
  {
    var e := Event(id, Lifecycle, true);
    var crashed := CrashWhileStored(e);
    var inputs := ReplayAfterCrash(e, crashed);
    hide Run, Allowed;
  }
}
