/** The event outbox as a protocol: one storage call, one arrival, one timer tick or one crash at a time. */
module OutboxProtocol {
  type Id(==, !new)

  // Sequenced events were persisted upstream; deltas are never persisted; lifecycle starts are
  // forwarded at once and persisted as well; everything else is forwarded after persistence only.
  datatype Kind = Sequenced | Delta | Lifecycle | Ordinary

  datatype Event = Event(id: Id, kind: Kind, hasRun: bool)

  // What becomes of one storage call: it works, it fails, or it commits and still reports failure.
  datatype Fault = Works | Fails | CommitsThenFails

  datatype Task = Persist(event: Event, forward: bool) | Flush

  datatype Phase = Enqueue | Append | Delete | Publish

  // What the serial queue is working on. A flush holds the part of its batch still to be done.
  datatype Control =
    | Idle
    | Persisting(phase: Phase, event: Event, forward: bool, attempt: nat)
    | Listing
    | Flushing(phase: Phase, rest: seq<Event>)

  // The tables survive a crash. accepted, stored, lost, forwarded and live only record what happened.
  datatype State = State(
    outbox: seq<Event>, log: seq<Event>,
    queue: seq<Task>, control: Control, failed: seq<Event>, failures: nat,
    accepted: map<Id, Event>, stored: set<Id>, lost: set<Id>,
    forwarded: seq<Id>, live: seq<Id>)

  datatype Input = Emit(event: Event) | Timer | Begin | Do(fault: Fault) | Crash

  const MAX_ATTEMPTS: nat := 3
  const FLUSH_LIMIT: nat := 200

  function Ids(es: seq<Event>): set<Id> {
    set e | e in es :: e.id
  }

  predicate Distinct(es: seq<Event>) {
    forall i, j :: 0 <= i < j < |es| ==> es[i].id != es[j].id
  }

  // ---- Table operations ----------------------------------------------------------------------

  // INSERT ... ON CONFLICT keeps the row that is there.
  function Put(table: seq<Event>, e: Event): seq<Event> {
    if e.id in Ids(table) then table else table + [e]
  }

  function Remove(table: seq<Event>, id: Id): seq<Event> {
    if table == [] then []
    else if table[0].id == id then Remove(table[1..], id)
    else [table[0]] + Remove(table[1..], id)
  }

  predicate Commits(f: Fault) {
    f != Fails
  }

  // new Map(): the place of the first, the value of the last event of an id.
  function SetById(batch: seq<Event>, e: Event): seq<Event> {
    if batch == [] then [e]
    else if batch[0].id == e.id then [e] + batch[1..]
    else [batch[0]] + SetById(batch[1..], e)
  }

  function ById(es: seq<Event>): seq<Event> {
    if es == [] then [] else SetById(ById(es[..|es| - 1]), es[|es| - 1])
  }

  function Page(table: seq<Event>): seq<Event> {
    if |table| <= FLUSH_LIMIT then table else table[..FLUSH_LIMIT]
  }

  // ---- Steps -----------------------------------------------------------------------------------

  function TaskEvents(queue: seq<Task>): seq<Event> {
    if queue == [] then []
    else (if queue[0].Persist? then [queue[0].event] else []) + TaskEvents(queue[1..])
  }

  // The events the running task may still publish or hand to the failure list.
  function Busy(c: Control): seq<Event> {
    match c
    case Persisting(_, e, _, _) => [e]
    case Flushing(_, rest) => rest
    case _ => []
  }

  function Volatile(s: State): set<Id> {
    Ids(TaskEvents(s.queue)) + Ids(Busy(s.control)) + Ids(s.failed)
  }

  function Durable(s: State): set<Id> {
    Ids(s.outbox) + Ids(s.log)
  }

  predicate Enabled(s: State, i: Input) {
    match i
    case Emit(e) => e.id !in s.accepted
    case Begin => s.control.Idle? && s.queue != []
    case Do(_) => !s.control.Idle?
    case _ => true
  }

  function Accept(s: State, e: Event): State {
    var t := s.(accepted := s.accepted[e.id := e]);
    match e.kind
    case Sequenced => t.(forwarded := s.forwarded + [e.id])
    case Delta => t.(forwarded := s.forwarded + [e.id])
    case Lifecycle => t.(forwarded := s.forwarded + [e.id], queue := s.queue + [Persist(e, false)])
    case Ordinary => t.(queue := s.queue + [Persist(e, true)])
  }

  function StartTask(s: State): State
    requires s.queue != []
  {
    var t := s.(queue := s.queue[1..]);
    match s.queue[0]
    case Flush => t.(control := Listing)
    case Persist(e, forward) => if e.hasRun then t.(control := Persisting(Enqueue, e, forward, 1)) else t
  }

  // A failed attempt is repeated, or after the third one the event joins the failure list.
  function Retry(s: State): State
    requires s.control.Persisting?
  {
    if s.control.attempt >= MAX_ATTEMPTS then
      s.(control := Idle, failed := s.failed + [s.control.event], failures := s.failures + 1)
    else s.(control := Persisting(Enqueue, s.control.event, s.control.forward, s.control.attempt + 1))
  }

  function PersistStep(s: State, f: Fault): State
    requires s.control.Persisting?
  {
    var e, c := s.control.event, s.control;
    match s.control.phase
    case Enqueue =>
      var t := if Commits(f) then s.(outbox := Put(s.outbox, e), stored := s.stored + {e.id}) else s;
      if f.Works? then t.(control := Persisting(Append, e, c.forward, c.attempt)) else Retry(t)
    case Append =>
      var t := if Commits(f) then s.(log := Put(s.log, e)) else s;
      if f.Works? then t.(control := Persisting(Delete, e, c.forward, c.attempt)) else Retry(t)
    case Delete =>
      var t := if Commits(f) then s.(outbox := Remove(s.outbox, e.id)) else s;
      if f.Works? then t.(control := Persisting(Publish, e, c.forward, c.attempt)) else Retry(t)
    case Publish =>
      s.(control := Idle, live := if c.forward then s.live + [e.id] else s.live)
  }

  function StartFlush(s: State, f: Fault): State {
    var batch := ById((if f.Works? then Page(s.outbox) else []) + s.failed);
    s.(failed := [], control := if batch == [] then Idle else Flushing(Append, batch))
  }

  // The first failure puts the rest of the batch on the failure list.
  function GiveUp(s: State): State
    requires s.control.Flushing?
  {
    s.(control := Idle, failed := s.failed + s.control.rest)
  }

  function FlushStep(s: State, f: Fault): State
    requires s.control.Flushing? && s.control.rest != []
  {
    var rest := s.control.rest;
    match s.control.phase
    case Delete =>
      var t := if Commits(f) then s.(outbox := Remove(s.outbox, rest[0].id)) else s;
      if f.Works? then t.(control := Flushing(Publish, rest)) else GiveUp(t)
    case Publish =>
      s.(live := s.live + [rest[0].id], control := if |rest| == 1 then Idle else Flushing(Append, rest[1..]))
    case _ =>
      var t := if Commits(f) then s.(log := Put(s.log, rest[0])) else s;
      if f.Works? then t.(control := Flushing(Delete, rest)) else GiveUp(t)
  }

  // Memory is gone; the restarted daemon queues a flush before anything else.
  function Restart(s: State): State {
    s.(queue := [Flush], control := Idle, failed := [], failures := 0, lost := s.lost + (Volatile(s) - Durable(s)))
  }

  function Step(s: State, i: Input): State {
    match i
    case Emit(e) => Accept(s, e)
    case Timer => s.(queue := s.queue + [Flush])
    case Begin => if s.queue != [] then StartTask(s) else s
    case Do(f) =>
      (match s.control
       case Idle => s
       case Persisting(_, _, _, _) => PersistStep(s, f)
       case Listing => StartFlush(s, f)
       case Flushing(_, rest) => if rest != [] then FlushStep(s, f) else s)
    case Crash => Restart(s)
  }

  const START: State := State([], [], [Flush], Idle, [], 0, map[], {}, {}, [], [])

  function Run(s: State, inputs: seq<Input>): State {
    if inputs == [] then s else Step(Run(s, inputs[..|inputs| - 1]), inputs[|inputs| - 1])
  }

  predicate Allowed(s: State, inputs: seq<Input>) {
    inputs == [] ||
    (var n := |inputs| - 1; Allowed(s, inputs[..n]) && Enabled(Run(s, inputs[..n]), inputs[n]))
  }

  // ---- The invariant ---------------------------------------------------------------------------

  predicate Once(ids: seq<Id>) {
    forall i, j :: 0 <= i < j < |ids| ==> ids[i] != ids[j]
  }

  ghost predicate Genuine(accepted: map<Id, Event>, es: seq<Event>) {
    forall e :: e in es ==> e.id in accepted && accepted[e.id] == e && (e.kind == Lifecycle || e.kind == Ordinary)
  }

  // Every table and list holds genuine events, each at most once.
  ghost predicate Clean(s: State) {
    && Distinct(s.outbox) && Distinct(s.log) && Distinct(s.failed)
    && Distinct(Busy(s.control)) && Distinct(TaskEvents(s.queue))
    && Genuine(s.accepted, s.outbox) && Genuine(s.accepted, s.log) && Genuine(s.accepted, s.failed)
    && Genuine(s.accepted, Busy(s.control)) && Genuine(s.accepted, TaskEvents(s.queue))
  }

  // What waits in the queue has not been touched; what is being worked on has not failed.
  ghost predicate Separate(s: State) {
    && Ids(TaskEvents(s.queue)) !! (Ids(s.outbox) + Ids(s.log) + Ids(s.failed) + Ids(Busy(s.control)))
    && Ids(Busy(s.control)) !! Ids(s.failed)
  }

  // Published means logged, done with and never to be published again.
  ghost predicate Settled(s: State) {
    && Once(s.live)
    && (forall id :: id in s.live ==>
          id in Ids(s.log) && id !in Ids(s.outbox) && id !in Ids(s.failed) && id !in Ids(Busy(s.control)))
  }

  ghost predicate Tracked(s: State) {
    && s.stored <= Durable(s)
    && (forall id :: id in s.accepted && Persistable(s.accepted[id]) ==> id in Durable(s) + Volatile(s) + s.lost)
  }

  predicate Persistable(e: Event) {
    e.hasRun && (e.kind == Lifecycle || e.kind == Ordinary)
  }

  // The program counter knows how far the current event has come.
  ghost predicate Progress(s: State) {
    match s.control
    case Persisting(phase, e, forward, attempt) =>
      && 1 <= attempt <= MAX_ATTEMPTS && e.hasRun && (forward <==> e.kind == Ordinary)
      && (phase == Delete || phase == Publish ==> e.id in Ids(s.log))
      && (phase == Publish ==> e.id !in Ids(s.outbox))
    case Flushing(phase, rest) =>
      && rest != [] && phase != Enqueue
      && (phase == Delete || phase == Publish ==> rest[0].id in Ids(s.log))
      && (phase == Publish ==> rest[0].id !in Ids(s.outbox))
    case _ => true
  }

  ghost predicate Forwarding(s: State) {
    && Once(s.forwarded)
    && (forall id :: id in s.forwarded ==> id in s.accepted && s.accepted[id].kind != Ordinary)
    && (forall t :: t in s.queue && t.Persist? ==> (t.forward <==> t.event.kind == Ordinary))
  }

  ghost predicate Inv(s: State) {
    Clean(s) && Separate(s) && Settled(s) && Tracked(s) && Progress(s) && Forwarding(s)
  }
}
