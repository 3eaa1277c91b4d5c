/** What a live listener sees: how often the id of an event comes by, forwarded or published. */
module OutboxVisibility {
  import opened OutboxProtocol
  import opened OutboxSafety

  predicate AllRun(es: seq<Event>) {
    forall e :: e in es ==> e.hasRun
  }

  // Past the queue there are only events that belong to a run.
  ghost predicate Bound(s: State) {
    AllRun(s.outbox) && AllRun(s.log) && AllRun(s.failed) && AllRun(Busy(s.control))
  }

  lemma {:induction false} RemoveKeeps(t: seq<Event>, id: Id)
    ensures forall e :: e in Remove(t, id) ==> e in t
  {
    if t != [] { RemoveKeeps(t[1..], id); }
  }

  lemma FlushKeepsBound(s: State, f: Fault)
    requires Bound(s) && s.control.Flushing? && s.control.rest != []
    ensures Bound(FlushStep(s, f))
  {
    RemoveKeeps(s.outbox, s.control.rest[0].id);
    assert s.control.rest[0] in s.control.rest;
  }

  lemma PersistKeepsBound(s: State, f: Fault)
    requires Bound(s) && s.control.Persisting?
    ensures Bound(PersistStep(s, f))
  {
    RemoveKeeps(s.outbox, s.control.event.id);
    assert s.control.event in Busy(s.control);
  }

  lemma StartFlushKeepsBound(s: State, f: Fault)
    requires Bound(s)
    ensures Bound(StartFlush(s, f))
  {
    ByIdSpec((if f.Works? then Page(s.outbox) else []) + s.failed);
    hide ById;
  }

  lemma StepKeepsBound(s: State, i: Input)
    requires Bound(s)
    ensures Bound(Step(s, i))
  {
    hide PersistStep, StartFlush, FlushStep;
    match i
    case Do(f) =>
      if s.control.Persisting? { PersistKeepsBound(s, f); }
      if s.control.Listing? { StartFlushKeepsBound(s, f); }
      if s.control.Flushing? && s.control.rest != [] { FlushKeepsBound(s, f); }
    case _ =>
  }

  lemma {:induction false} RunKeepsBound(inputs: seq<Input>)
    ensures Bound(Run(START, inputs))
  {
    if inputs != [] {
      RunKeepsBound(inputs[..|inputs| - 1]);
      StepKeepsBound(Run(START, inputs[..|inputs| - 1]), inputs[|inputs| - 1]);
    }
  }

  // ---- What is forwarded -------------------------------------------------------------------------

  // Everything but ordinary events goes to the live bus as it arrives.
  predicate GoesAtOnce(i: Input) {
    i.Emit? && (i.event.kind == Sequenced || i.event.kind == Delta || i.event.kind == Lifecycle)
  }

  // The ids are those of the events that arrived at these places and go at once, and there are no others.
  ghost predicate ArrivedAt(inputs: seq<Input>, ids: seq<Id>, places: seq<nat>) {
    && |places| == |ids|
    && (forall k :: 0 <= k < |places| ==>
          places[k] < |inputs| && GoesAtOnce(inputs[places[k]]) && inputs[places[k]].event.id == ids[k])
    && (forall k, l :: 0 <= k < l < |places| ==> places[k] < places[l])
    && (forall i :: 0 <= i < |inputs| && GoesAtOnce(inputs[i]) ==> i in places)
  }

  lemma StepForwards(s: State, i: Input)
    ensures
      var t := Step(s, i);
      && t.forwarded == (if GoesAtOnce(i) then s.forwarded + [i.event.id] else s.forwarded)
      && t.accepted == if i.Emit? then s.accepted[i.event.id := i.event] else s.accepted
  {
    if i.Do? { DoForwardsNothing(s, i.fault); }
    hide PersistStep, StartFlush, FlushStep, Restart;
  }

  lemma DoForwardsNothing(s: State, f: Fault)
    ensures Step(s, Do(f)).forwarded == s.forwarded && Step(s, Do(f)).accepted == s.accepted
  {
    match s.control
    case Persisting(_, _, _, _) => PersistEffect(s, f);
    case Listing => StartEffect(s, f);
    case _ =>
    hide Put, Remove, PersistStep, StartFlush;
  }

  lemma ArriveOne(inputs: seq<Input>, ids: seq<Id>, places: seq<nat>, i: Input)
    requires ArrivedAt(inputs, ids, places)
    ensures GoesAtOnce(i) ==> ArrivedAt(inputs + [i], ids + [i.event.id], places + [|inputs|])
    ensures !GoesAtOnce(i) ==> ArrivedAt(inputs + [i], ids, places)
  {
    hide GoesAtOnce;
  }

  lemma {:induction false} RunForwards(inputs: seq<Input>) returns (places: seq<nat>)
    ensures ArrivedAt(inputs, Run(START, inputs).forwarded, places)
  {
    if inputs == [] {
      places := [];
    } else {
      var n := |inputs| - 1;
      places := RunForwards(inputs[..n]);
      ArriveOne(inputs[..n], Run(START, inputs[..n]).forwarded, places, inputs[n]);
      StepForwards(Run(START, inputs[..n]), inputs[n]);
      assert inputs == inputs[..n] + [inputs[n]];
      if GoesAtOnce(inputs[n]) { places := places + [n]; }
      hide Step, ArrivedAt;
    }
  }

  // Accepted are the emitted events.
  ghost predicate AcceptedAre(inputs: seq<Input>, accepted: map<Id, Event>) {
    && (forall id :: id in accepted ==> Emit(accepted[id]) in inputs && accepted[id].id == id)
    && (forall e :: Emit(e) in inputs ==> e.id in accepted && accepted[e.id] == e)
  }

  lemma AcceptOne(inputs: seq<Input>, accepted: map<Id, Event>, i: Input)
    requires AcceptedAre(inputs, accepted) && (i.Emit? ==> i.event.id !in accepted)
    ensures AcceptedAre(inputs + [i], if i.Emit? then accepted[i.event.id := i.event] else accepted)
  {
  }

  lemma {:induction false} RunAccepts(inputs: seq<Input>)
    requires Allowed(START, inputs)
    ensures AcceptedAre(inputs, Run(START, inputs).accepted)
  {
    if inputs != [] {
      var n := |inputs| - 1;
      RunAccepts(inputs[..n]);
      LastInput(START, inputs);
      StepForwards(Run(START, inputs[..n]), inputs[n]);
      AcceptOne(inputs[..n], Run(START, inputs[..n]).accepted, inputs[n]);
      assert inputs == inputs[..n] + [inputs[n]];
      hide Step, AcceptedAre;
    }
  }

  /**
   * In every run what has been forwarded is exactly the sequenced events, the deltas and the lifecycle
   * starts that have been emitted, each once and in the order of their arrival.
   */
  lemma ForwardedAreTheArrivals(inputs: seq<Input>)
    requires Allowed(START, inputs)
    ensures
      var s := Run(START, inputs);
      && (exists places :: ArrivedAt(inputs, s.forwarded, places)) && Once(s.forwarded)
      && AcceptedAre(inputs, s.accepted)
      && (forall id :: id in s.forwarded <==> id in s.accepted && s.accepted[id].kind != Ordinary)
  {
    var s := Run(START, inputs);
    var places := RunForwards(inputs);
    RunAccepts(inputs);
    EveryRunKeepsInv(inputs);
    hide Run, Allowed, Clean, Separate, Settled, Tracked, Progress;
    forall id | id in s.accepted && s.accepted[id].kind != Ordinary ensures id in s.forwarded {
      var i :| 0 <= i < |inputs| && inputs[i] == Emit(s.accepted[id]);
      assert GoesAtOnce(inputs[i]);
      var k :| 0 <= k < |places| && places[k] == i;
      assert s.forwarded[k] == id;
    }
  }

  /** Deltas and events that were persisted before are in no queue, table or list, ever, and never published. */
  lemma TransientStaysTransient(inputs: seq<Input>, e: Event)
    requires Allowed(START, inputs) && Emit(e) in inputs && (e.kind == Sequenced || e.kind == Delta)
    ensures
      var s := Run(START, inputs);
      e.id in s.forwarded && e.id !in Volatile(s) && e.id !in Durable(s) && e.id !in s.live
  {
    ForwardedAreTheArrivals(inputs);
    EveryRunKeepsInv(inputs);
    RunAccepts(inputs);
    NothingTransientHeld(Run(START, inputs), e);
    hide Run, Allowed;
  }

  lemma NothingTransientHeld(s: State, e: Event)
    requires Inv(s) && e.id in s.accepted && s.accepted[e.id] == e && (e.kind == Sequenced || e.kind == Delta)
    ensures e.id !in Volatile(s) && e.id !in Durable(s) && e.id !in s.live
  {
    hide Separate, Tracked, Progress, Forwarding;
  }

  predicate AtMostOnce(ids: seq<Id>, id: Id) {
    forall i, j :: 0 <= i < j < |ids| && ids[i] == id ==> ids[j] != id
  }

  // In no run that accepts the event does its id reach live listeners twice.
  ghost predicate SeenAtMostOnce(e: Event) {
    forall inputs :: Allowed(START, inputs) && Accepts(Run(START, inputs), e) ==>
      AtMostOnce(Seen(Run(START, inputs)), e.id)
  }

  predicate Accepts(s: State, e: Event) {
    e.id in s.accepted && s.accepted[e.id] == e
  }

  function Seen(s: State): seq<Id> {
    s.forwarded + s.live
  }

  lemma NotBothWays(s: State, e: Event)
    requires Inv(s) && Bound(s) && Accepts(s, e) && !(e.kind == Lifecycle && e.hasRun)
    ensures AtMostOnce(Seen(s), e.id)
  {
    hide Tracked, Progress, Separate;
    if e.id in s.live {
      var x :| x in s.log && x.id == e.id;
      assert x == e;
    }
    assert e.id !in s.live || e.id !in s.forwarded;
  }

  lemma TwiceIsTwice(ids: seq<Id>, id: Id)
    requires ids == [id, id]
    ensures !AtMostOnce(ids, id)
  {
    assert ids[0] == id && ids[1] == id;
  }

  lemma StartIsSeenTwice(e: Event)
    requires e.kind == Lifecycle && e.hasRun
    ensures !SeenAtMostOnce(e)
  {
    hide Run, Allowed;
    LifecycleSeenTwice(e.id);
    var inputs :| Allowed(START, inputs) && Run(START, inputs).accepted == map[e.id := Event(e.id, Lifecycle, true)]
      && Run(START, inputs).forwarded == [e.id] && Run(START, inputs).live == [e.id];
    TwiceIsTwice(Seen(Run(START, inputs)), e.id);
    assert Accepts(Run(START, inputs), e);
    hide AtMostOnce, Seen, Accepts;
  }

  lemma OthersAreSeenOnce(e: Event)
    requires !(e.kind == Lifecycle && e.hasRun)
    ensures SeenAtMostOnce(e)
  {
    forall inputs | Allowed(START, inputs) && Accepts(Run(START, inputs), e)
      ensures AtMostOnce(Seen(Run(START, inputs)), e.id)
    {
      hide Run, Allowed, Inv, Bound, AtMostOnce, Seen, Accepts;
      EveryRunKeepsInv(inputs);
      RunKeepsBound(inputs);
      NotBothWays(Run(START, inputs), e);
    }
  }

  /**
   * An event is seen live at most once in every run exactly when it is not a lifecycle start of a run.
   * Such a start is forwarded at once and may be published again by a recovery flush.
   */
  lemma SeenAtMostOnceIff(e: Event)
    ensures SeenAtMostOnce(e) <==> !(e.kind == Lifecycle && e.hasRun)
  {
    hide SeenAtMostOnce;
    if e.kind == Lifecycle && e.hasRun {
      StartIsSeenTwice(e);
    } else {
      OthersAreSeenOnce(e);
    }
  }
}
