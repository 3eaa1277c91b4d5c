/** Tasks as rows of actions that run one after the other and pause while an agent run works. */
module TaskActions {
  import opened Wrappers

  type Id = nat

  datatype Kind =
    | Wake
    | MoveTo(node: string)
    | WorkOn(work: string)
    | ArtifactCreated(artifact: string)
    | Sleep(reason: string)

  datatype ActionStatus = Pending | Running | Completed | Failed

  datatype Action = Action(kind: Kind, status: ActionStatus, agentRun: Option<Id>)

  datatype TaskStatus = Queued | Claimed | Succeeded | Broken

  datatype Task = Task(kind: string, status: TaskStatus, actions: seq<Action>)

  function Template(kind: string): seq<Kind> {
    match kind
    case "make_video" =>
      [Wake, MoveTo("video_workstation"), WorkOn("make_video"), ArtifactCreated("video"),
       MoveTo("artifact_box"), MoveTo("home"), Sleep("task_done")]
    case "publish_to_tiktok" =>
      [Wake, MoveTo("artifact_box"), MoveTo("tiktok_station"), WorkOn("publish_to_tiktok"), MoveTo("home"),
       Sleep("task_done")]
    case "make_and_publish_video" =>
      [Wake, MoveTo("video_workstation"), WorkOn("make_video"), ArtifactCreated("video"), MoveTo("artifact_box"),
       MoveTo("tiktok_station"), WorkOn("publish_to_tiktok"), MoveTo("home"), Sleep("task_done")]
    case "return_home" => [MoveTo("home")]
    case "sleep" => [Sleep("manual")]
    case _ => []
  }

  // ---- Executing a row of actions --------------------------------------------------------------------

  // How far an execution that breaks has come: the row as yet untouched, marked running, given its
  // agent run, or marked completed by a write that was committed and still reported a failure.
  datatype Reach = Untouched | Begun | RunStored | Ended

  // What one execution meets. It works, or it breaks; writing the failure to the action or to the task
  // may break as well.
  datatype Outcome = Works | Breaks(reach: Reach, actionMarked: bool, taskMarked: bool)

  // The world's answers: whether an agent is configured, what the execution at each index meets, and
  // whether the writes after the last action close the task.
  datatype Oracle = Oracle(hasAgent: bool, outcome: nat -> Outcome, closes: bool)

  datatype Ending = AllDone | Waiting | Stopped(taskMarked: bool)

  datatype Progress = Progress(actions: seq<Action>, nextRun: Id, ending: Ending)

  predicate StartsRun(a: Action, o: Oracle) {
    a.kind.WorkOn? && o.hasAgent
  }

  // The row as the breaking execution leaves it.
  function Interrupted(a: Action, reach: Reach, nextRun: Id, o: Oracle): Action {
    match reach
    case Untouched => a
    case Begun => Action(a.kind, Running, a.agentRun)
    case RunStored => Action(a.kind, Running, if StartsRun(a, o) then Some(nextRun) else a.agentRun)
    case Ended => Action(a.kind, if StartsRun(a, o) then Running else Completed, a.agentRun)
  }

  function Execute(actions: seq<Action>, i: nat, nextRun: Id, o: Oracle): (p: Progress)
    requires i <= |actions|
    ensures |p.actions| == |actions| && p.nextRun >= nextRun
    decreases |actions| - i
  {
    if i == |actions| then Progress(actions, nextRun, AllDone)
    else
      var a := actions[i];
      match o.outcome(i)
      case Works =>
        if StartsRun(a, o) then
          Progress(actions[i := Action(a.kind, Running, Some(nextRun))], nextRun + 1, Waiting)
        else Execute(actions[i := Action(a.kind, Completed, a.agentRun)], i + 1, nextRun, o)
      case Breaks(reach, actionMarked, taskMarked) =>
        var b := Interrupted(a, reach, nextRun, o);
        Progress(actions[i := if actionMarked then b.(status := Failed) else b], nextRun + 1, Stopped(taskMarked))
  }

  function Closed(status: TaskStatus, ending: Ending, o: Oracle): TaskStatus {
    match ending
    case AllDone => if o.closes then Succeeded else status
    case Waiting => status
    case Stopped(taskMarked) => if taskMarked then Broken else status
  }

  // ---- Events ------------------------------------------------------------------------------------------

  // Before the first action: the claim fails, or something fails after some rows have been created (a
  // rejected write, a being that is not there), or the task is ready.
  datatype Preparation = NotClaimed | StopsAt(created: nat) | Prepared

  // What a report brings about: nothing (a being that is not there, a rejected write), the status of
  // its own action and no more, or everything that follows.
  datatype Effect = Nothing | OwnAction | Everything

  datatype World = World(tasks: map<Id, Task>, nextRun: Id)

  datatype Event =
    | Enqueue(id: Id, kind: string)
    | ExecuteTask(id: Id, preparation: Preparation, oracle: Oracle)
    | RunCompleted(run: Id, success: bool, effect: Effect, oracle: Oracle)

  const EMPTY: World := World(map[], 0)

  function NewAction(kind: Kind): Action {
    Action(kind, Pending, None)
  }

  function NewActions(kinds: seq<Kind>): seq<Action> {
    seq(|kinds|, i requires 0 <= i < |kinds| => NewAction(kinds[i]))
  }

  predicate Owns(w: World, id: Id, i: nat, run: Id) {
    id in w.tasks && i < |w.tasks[id].actions| && w.tasks[id].actions[i].agentRun == Some(run)
  }

  // The action the indexed lookup can find: it owns the run and is still running.
  predicate InFlight(w: World, id: Id, i: nat, run: Id) {
    Owns(w, id, i, run) && w.tasks[id].actions[i].status == Running
  }

  // A claimed task gets its rows and is executed from the first.
  function Execution(t: Task, preparation: Preparation, nextRun: Id, o: Oracle): (Task, Id) {
    var rows := NewActions(Template(t.kind));
    match preparation
    case NotClaimed => (t, nextRun)
    case StopsAt(created) => (Task(t.kind, Claimed, if created < |rows| then rows[..created] else rows), nextRun)
    case Prepared =>
      var p := Execute(rows, 0, nextRun, o);
      (Task(t.kind, Closed(Claimed, p.ending, o), p.actions), p.nextRun)
  }

  // The completion of the run owned by action i.
  function Completion(t: Task, i: nat, success: bool, effect: Effect, nextRun: Id, o: Oracle): (Task, Id)
    requires i < |t.actions|
  {
    var marked := t.actions[i := t.actions[i].(status := if success then Completed else Failed)];
    match effect
    case Nothing => (t, nextRun)
    case OwnAction => (Task(t.kind, t.status, marked), nextRun)
    case Everything =>
      if !success then (Task(t.kind, Broken, marked), nextRun)
      else
        var p := Execute(marked, i + 1, nextRun, o);
        (Task(t.kind, Closed(t.status, p.ending, o), p.actions), p.nextRun)
  }

  predicate Claimable(w: World, id: Id) {
    id in w.tasks && w.tasks[id].status == Queued && Template(w.tasks[id].kind) != []
  }

  // What an event does to the one task it touches. Whose run has completed is looked up by the caller.
  function Apply(w: World, id: Id, next: (Task, Id)): World {
    World(w.tasks[id := next.0], next.1)
  }

  ghost predicate Happens(w: World, e: Event, w': World) {
    match e
    case Enqueue(id, kind) => w' == if id in w.tasks then w else World(w.tasks[id := Task(kind, Queued, [])], w.nextRun)
    case ExecuteTask(id, preparation, o) =>
      w' == if Claimable(w, id) then Apply(w, id, Execution(w.tasks[id], preparation, w.nextRun, o)) else w
    case RunCompleted(run, success, effect, o) =>
      || (exists id, i: nat ::
            InFlight(w, id, i, run) && w' == Apply(w, id, Completion(w.tasks[id], i, success, effect, w.nextRun, o)))
      || ((forall id, i: nat :: !InFlight(w, id, i, run)) && w' == w)
  }

  // worlds[k] is the world before the k-th event.
  ghost predicate IsRunFrom(w: World, events: seq<Event>, worlds: seq<World>) {
    && |worlds| == |events| + 1 && worlds[0] == w
    && forall k :: 0 <= k < |events| ==> Happens(worlds[k], events[k], worlds[k + 1])
  }

  ghost predicate IsRun(events: seq<Event>, worlds: seq<World>) {
    IsRunFrom(EMPTY, events, worlds)
  }

  // ---- The shape of a task -------------------------------------------------------------------------------

  // Nothing has begun before everything ahead of it has completed.
  predicate Shaped(actions: seq<Action>) {
    forall i, j :: 0 <= i < j < |actions| && actions[j].status != Pending ==> actions[i].status == Completed
  }

  // completed*, then at most one running or failed, then pending*.
  predicate ShapedAt(actions: seq<Action>, k: nat) {
    && k <= |actions|
    && (forall i :: 0 <= i < k ==> actions[i].status == Completed)
    && (forall i :: k < i < |actions| ==> actions[i].status == Pending)
    && (k < |actions| ==> actions[k].status != Completed)
  }

  /** The two ways to say it agree. */
  lemma {:induction false} ShapeIs(actions: seq<Action>)
    ensures Shaped(actions) <==> exists k :: ShapedAt(actions, k)
  {
    if Shaped(actions) {
      var k := 0;
      while k < |actions| && actions[k].status == Completed
        invariant k <= |actions| && forall i :: 0 <= i < k ==> actions[i].status == Completed
      {
        k := k + 1;
      }
      assert ShapedAt(actions, k);
    }
  }

  // An action that has not begun owns no run.
  predicate PendingIsFree(actions: seq<Action>) {
    forall i :: 0 <= i < |actions| && actions[i].status == Pending ==> actions[i].agentRun == None
  }

  predicate AllCompleted(actions: seq<Action>) {
    forall i :: 0 <= i < |actions| ==> actions[i].status == Completed
  }

  // The first i actions have completed and the rest is untouched.
  predicate ReadyAt(actions: seq<Action>, i: nat) {
    && i <= |actions|
    && (forall k :: 0 <= k < i ==> actions[k].status == Completed)
    && (forall k :: i <= k < |actions| ==> actions[k].status == Pending)
  }

  lemma {:induction false} ExecuteShapes(actions: seq<Action>, i: nat, nextRun: Id, o: Oracle)
    requires ReadyAt(actions, i) && PendingIsFree(actions)
    ensures Shaped(Execute(actions, i, nextRun, o).actions)
    ensures PendingIsFree(Execute(actions, i, nextRun, o).actions)
    ensures Execute(actions, i, nextRun, o).ending == AllDone ==> AllCompleted(Execute(actions, i, nextRun, o).actions)
    decreases |actions| - i
  {
    if i < |actions| && o.outcome(i).Works? && !StartsRun(actions[i], o) {
      ExecuteShapes(actions[i := Action(actions[i].kind, Completed, actions[i].agentRun)], i + 1, nextRun, o);
    }
  }

  // Statuses only go forward; a completed or failed action keeps everything it has.
  predicate Later(a: Action, a': Action) {
    && a'.kind == a.kind
    && (a.status == Completed || a.status == Failed ==> a' == a)
    && (a.status == Running ==> a'.status != Pending)
  }

  lemma {:induction false} ExecuteGoesForward(actions: seq<Action>, i: nat, nextRun: Id, o: Oracle, k: nat)
    requires ReadyAt(actions, i) && k < |actions|
    ensures Later(actions[k], Execute(actions, i, nextRun, o).actions[k])
    ensures k < i ==> Execute(actions, i, nextRun, o).actions[k] == actions[k]
    decreases |actions| - i
  {
    if i < |actions| && o.outcome(i).Works? && !StartsRun(actions[i], o) {
      ExecuteGoesForward(actions[i := Action(actions[i].kind, Completed, actions[i].agentRun)], i + 1, nextRun, o, k);
    }
  }

  // ---- What every run keeps --------------------------------------------------------------------------

  predicate TaskOk(t: Task) {
    && Shaped(t.actions) && PendingIsFree(t.actions)
    && (t.status == Queued ==> t.actions == [])
    && (t.status == Succeeded ==> AllCompleted(t.actions))
  }

  // Runs are numbered in the order they start, and no two actions own the same run.
  ghost predicate RunsOk(w: World) {
    && (forall id, i: nat, run: Id :: Owns(w, id, i, run) ==> run < w.nextRun)
    && (forall id, i: nat, id', i': nat, run: Id :: Owns(w, id, i, run) && Owns(w, id', i', run) ==>
         id == id' && i == i')
  }

  ghost predicate Good(w: World) {
    RunsOk(w) && forall id :: id in w.tasks ==> TaskOk(w.tasks[id])
  }

  lemma ExecutionIsOk(t: Task, preparation: Preparation, nextRun: Id, o: Oracle)
    requires TaskOk(t)
    ensures TaskOk(Execution(t, preparation, nextRun, o).0)
  {
    ExecuteShapes(NewActions(Template(t.kind)), 0, nextRun, o);
    hide Execute, Template;
  }

  lemma CompletionIsOk(t: Task, i: nat, success: bool, effect: Effect, nextRun: Id, o: Oracle)
    requires TaskOk(t) && i < |t.actions| && t.actions[i].status == Running
    ensures TaskOk(Completion(t, i, success, effect, nextRun, o).0)
  {
    assert t.status != Succeeded;
    ExecuteShapes(t.actions[i := t.actions[i].(status := Completed)], i + 1, nextRun, o);
    hide Execute;
  }

  // Ownership after an execution: an action keeps its run, or gets one that is new.
  predicate KeepsOrNew(before: Option<Id>, after: Option<Id>, nextRun: Id, nextRun': Id) {
    after == before || (after.Some? && nextRun <= after.value < nextRun')
  }

  lemma {:induction false} ExecuteOwns(actions: seq<Action>, i: nat, nextRun: Id, o: Oracle)
    requires i <= |actions|
    ensures
      var p := Execute(actions, i, nextRun, o);
      && (forall k :: 0 <= k < |actions| ==>
            KeepsOrNew(actions[k].agentRun, p.actions[k].agentRun, nextRun, p.nextRun))
      && (forall k, l :: 0 <= k < l < |actions| && p.actions[k].agentRun != actions[k].agentRun ==>
            p.actions[l].agentRun == actions[l].agentRun)
    decreases |actions| - i
  {
    if i < |actions| && o.outcome(i).Works? && !StartsRun(actions[i], o) {
      ExecuteOwns(actions[i := Action(actions[i].kind, Completed, actions[i].agentRun)], i + 1, nextRun, o);
    }
  }

  // One task is replaced: its actions keep their runs, but one may own a new run.
  ghost predicate Rewrites(w: World, id: Id, t: Task, nextRun': Id) {
    && nextRun' >= w.nextRun
    && (forall k :: 0 <= k < |t.actions| ==> KeepsOrNew(RunAt(w, id, k), t.actions[k].agentRun, w.nextRun, nextRun'))
    && (forall k, l :: 0 <= k < l < |t.actions| && t.actions[k].agentRun != RunAt(w, id, k) ==>
          t.actions[l].agentRun == RunAt(w, id, l))
  }

  function RunAt(w: World, id: Id, k: nat): Option<Id> {
    if id in w.tasks && k < |w.tasks[id].actions| then w.tasks[id].actions[k].agentRun else None
  }

  lemma RewriteKeepsRuns(w: World, id: Id, t: Task, nextRun': Id)
    requires RunsOk(w) && Rewrites(w, id, t, nextRun')
    ensures RunsOk(World(w.tasks[id := t], nextRun'))
  {
    var w' := World(w.tasks[id := t], nextRun');
    forall a, i: nat, run: Id | Owns(w', a, i, run)
      ensures run < nextRun' && (Owns(w, a, i, run) || (a == id && run >= w.nextRun))
    {
      if a == id {
        assert KeepsOrNew(RunAt(w, id, i), t.actions[i].agentRun, w.nextRun, nextRun');
      }
      if RunAt(w, a, i) == Some(run) { assert Owns(w, a, i, run); }
    }
    forall a, i: nat, a', i': nat, run: Id | Owns(w', a, i, run) && Owns(w', a', i', run) ensures a == a' && i == i' {
      if Owns(w, a, i, run) || Owns(w, a', i', run) {
        assert run < w.nextRun;
        assert Owns(w, a, i, run) && Owns(w, a', i', run);
      } else {
        assert RunAt(w, id, i) != Some(run) && RunAt(w, id, i') != Some(run);
      }
    }
  }

  lemma ExecutionRewrites(w: World, id: Id, preparation: Preparation, o: Oracle)
    requires Good(w) && Claimable(w, id)
    ensures
      var n := Execution(w.tasks[id], preparation, w.nextRun, o);
      Rewrites(w, id, n.0, n.1)
  {
    assert TaskOk(w.tasks[id]);
    ExecuteOwns(NewActions(Template(w.tasks[id].kind)), 0, w.nextRun, o);
    hide Execute, Template, Good;
  }

  lemma CompletionRewrites(w: World, id: Id, i: nat, run: Id, success: bool, effect: Effect, o: Oracle)
    requires InFlight(w, id, i, run)
    ensures
      var n := Completion(w.tasks[id], i, success, effect, w.nextRun, o);
      Rewrites(w, id, n.0, n.1)
  {
    var t := w.tasks[id];
    ExecuteOwns(t.actions[i := t.actions[i].(status := Completed)], i + 1, w.nextRun, o);
    hide Execute;
  }

  lemma EventKeepsGood(w: World, e: Event, w': World)
    requires Good(w) && Happens(w, e, w')
    ensures Good(w')
  {
    hide Rewrites, RunsOk, Execution, Completion, TaskOk, Template;
    match e
    case Enqueue(id, kind) =>
      if id !in w.tasks {
        EmptyIsOk(w, id, kind);
      }
    case ExecuteTask(id, preparation, o) =>
      if Claimable(w, id) {
        var n := Execution(w.tasks[id], preparation, w.nextRun, o);
        ExecutionIsOk(w.tasks[id], preparation, w.nextRun, o);
        ExecutionRewrites(w, id, preparation, o);
        RewriteKeepsRuns(w, id, n.0, n.1);
      }
    case RunCompleted(run, success, effect, o) =>
      if id, i: nat :|
        && InFlight(w, id, i, run)
        && w' == Apply(w, id, Completion(w.tasks[id], i, success, effect, w.nextRun, o))
      {
        var n := Completion(w.tasks[id], i, success, effect, w.nextRun, o);
        CompletionIsOk(w.tasks[id], i, success, effect, w.nextRun, o);
        CompletionRewrites(w, id, i, run, success, effect, o);
        RewriteKeepsRuns(w, id, n.0, n.1);
      }
  }

  lemma EmptyIsOk(w: World, id: Id, kind: string)
    requires RunsOk(w) && id !in w.tasks
    ensures TaskOk(Task(kind, Queued, []))
    ensures RunsOk(World(w.tasks[id := Task(kind, Queued, [])], w.nextRun))
  {
    RewriteKeepsRuns(w, id, Task(kind, Queued, []), w.nextRun);
  }

  /**
   * In every reachable world each task has the shape completed*, at most one running or failed,
   * pending*; a task has succeeded only if all of its actions have completed; and no agent run belongs
   * to two actions.
   */
  lemma {:induction false} RunIsGood(events: seq<Event>, worlds: seq<World>, k: nat)
    requires IsRun(events, worlds) && k < |worlds|
    ensures Good(worlds[k])
  {
    if k > 0 {
      RunIsGood(events, worlds, k - 1);
      EventKeepsGood(worlds[k - 1], events[k - 1], worlds[k]);
    }
  }

  /** Nothing runs past a running agent run, or past a failure. */
  lemma NothingPassesARunningRun(events: seq<Event>, worlds: seq<World>, k: nat, id: Id, i: nat, j: nat)
    requires IsRun(events, worlds) && k < |worlds| && id in worlds[k].tasks
    requires i < j < |worlds[k].tasks[id].actions|
    requires worlds[k].tasks[id].actions[i].status != Completed
    ensures worlds[k].tasks[id].actions[j].status == Pending
    ensures worlds[k].tasks[id].status != Succeeded
  {
    RunIsGood(events, worlds, k);
    assert TaskOk(worlds[k].tasks[id]);
  }

  // ---- Steps go forward ----------------------------------------------------------------------------------

  // What a task keeps: its actions, each at least as far as it was.
  ghost predicate Advances(t: Task, t': Task) {
    && t'.kind == t.kind && |t.actions| <= |t'.actions|
    && forall k :: 0 <= k < |t.actions| ==> Later(t.actions[k], t'.actions[k])
  }

  lemma CompletionAdvances(t: Task, i: nat, success: bool, effect: Effect, nextRun: Id, o: Oracle)
    requires TaskOk(t) && i < |t.actions| && t.actions[i].status == Running
    ensures Advances(t, Completion(t, i, success, effect, nextRun, o).0)
    ensures effect != Nothing ==> Completion(t, i, success, effect, nextRun, o).0.actions[i].status != Running
  {
    if success && effect == Everything {
      var done := t.actions[i := t.actions[i].(status := Completed)];
      forall k | 0 <= k < |t.actions|
        ensures Later(t.actions[k], Completion(t, i, success, effect, nextRun, o).0.actions[k])
        ensures k == i ==> Completion(t, i, success, effect, nextRun, o).0.actions[k].status == Completed
      {
        ExecuteGoesForward(done, i + 1, nextRun, o, k);
      }
    }
  }

  /** An event never takes a task back: completed and failed actions stay exactly as they are. */
  lemma EventAdvances(w: World, e: Event, w': World, id: Id)
    requires Good(w) && Happens(w, e, w') && id in w.tasks
    ensures id in w'.tasks && Advances(w.tasks[id], w'.tasks[id])
  {
    hide Completion, RunsOk, Template, Execute;
    assert TaskOk(w.tasks[id]);
    if e.RunCompleted? {
      if a, i: nat :|
        && InFlight(w, a, i, e.run)
        && w' == Apply(w, a, Completion(w.tasks[a], i, e.success, e.effect, w.nextRun, e.oracle))
      {
        assert TaskOk(w.tasks[a]);
        CompletionAdvances(w.tasks[a], i, e.success, e.effect, w.nextRun, e.oracle);
      }
    }
  }

  // ---- Repeated completions --------------------------------------------------------------------------------

  ghost predicate Over(w: World, run: Id) {
    run < w.nextRun && forall id, i: nat :: !InFlight(w, id, i, run)
  }

  // Old runs change hands never.
  lemma EventOwns(w: World, e: Event, w': World, run: Id, id: Id, i: nat)
    requires Good(w) && Happens(w, e, w') && run < w.nextRun && Owns(w', id, i, run)
    ensures Owns(w, id, i, run) && w'.nextRun >= w.nextRun
  {
    hide Completion, Execution, RunsOk, Template, TaskOk;
    match e
    case Enqueue(_, _) =>
    case ExecuteTask(a, preparation, o) =>
      if Claimable(w, a) {
        ExecutionRewrites(w, a, preparation, o);
      }
    case RunCompleted(_, success, effect, o) =>
      if a, k: nat :|
        && InFlight(w, a, k, e.run)
        && w' == Apply(w, a, Completion(w.tasks[a], k, success, effect, w.nextRun, o))
      {
        CompletionRewrites(w, a, k, e.run, success, effect, o);
      }
  }

  lemma NextRunGrows(w: World, e: Event, w': World)
    requires Good(w) && Happens(w, e, w')
    ensures w'.nextRun >= w.nextRun
  {
  }

  lemma EventKeepsOver(w: World, e: Event, w': World, run: Id)
    requires Good(w) && Happens(w, e, w') && Over(w, run)
    ensures Over(w', run)
  {
    NextRunGrows(w, e, w');
    hide Happens, RunsOk;
    forall id, i: nat ensures !InFlight(w', id, i, run) {
      if Owns(w', id, i, run) {
        EventOwns(w, e, w', run, id, i);
        assert !InFlight(w, id, i, run);
        assert TaskOk(w.tasks[id]);
        EventAdvances(w, e, w', id);
        assert Later(w.tasks[id].actions[i], w'.tasks[id].actions[i]);
      }
    }
  }

  lemma CompletionEndsRun(w: World, e: Event, w': World)
    requires Good(w) && e.RunCompleted? && e.run < w.nextRun && Happens(w, e, w')
    requires e.effect != Nothing || Over(w, e.run)
    ensures Over(w', e.run)
  {
    NextRunGrows(w, e, w');
    if Over(w, e.run) {
      EventKeepsOver(w, e, w', e.run);
    } else if a, k: nat :|
      && InFlight(w, a, k, e.run)
      && w' == Apply(w, a, Completion(w.tasks[a], k, e.success, e.effect, w.nextRun, e.oracle))
    {
      assert TaskOk(w.tasks[a]);
      CompletionAdvances(w.tasks[a], k, e.success, e.effect, w.nextRun, e.oracle);
      hide Happens, Completion;
      forall id, i: nat ensures !InFlight(w', id, i, e.run) {
        if Owns(w', id, i, e.run) {
          EventOwns(w, e, w', e.run, id, i);
          assert Owns(w, a, k, e.run);
        }
      }
    }
  }

  lemma {:induction false} StaysOver(w: World, events: seq<Event>, worlds: seq<World>, l: nat, run: Id)
    requires Good(w) && Over(w, run) && IsRunFrom(w, events, worlds) && l < |worlds|
    ensures Good(worlds[l]) && Over(worlds[l], run)
  {
    if l > 0 {
      StaysOver(w, events, worlds, l - 1, run);
      EventKeepsGood(worlds[l - 1], events[l - 1], worlds[l]);
      EventKeepsOver(worlds[l - 1], events[l - 1], worlds[l], run);
    }
  }

  // However the world goes on from here, no report of the run changes anything.
  ghost predicate IgnoredFromNowOn(w: World, run: Id) {
    forall events, worlds, l: nat :: IsRunFrom(w, events, worlds) && l < |events| && IsReport(events[l], run) ==>
      worlds[l + 1] == worlds[l]
  }

  predicate IsReport(e: Event, run: Id) {
    e.RunCompleted? && e.run == run
  }

  lemma OverIsIgnored(w: World, run: Id)
    requires Good(w) && Over(w, run)
    ensures IgnoredFromNowOn(w, run)
  {
    forall events, worlds, l: nat | IsRunFrom(w, events, worlds) && l < |events| && IsReport(events[l], run)
      ensures worlds[l + 1] == worlds[l]
    {
      StaysOver(w, events, worlds, l, run);
      assert Happens(worlds[l], events[l], worlds[l + 1]);
    }
  }

  lemma InFlightIsHeard(w: World, id: Id, i: nat, run: Id)
    requires InFlight(w, id, i, run)
    ensures !IgnoredFromNowOn(w, run)
  {
    var e, w' := FailingReport(w, id, i, run);
    assert IsRunFrom(w, [e], [w, w']) && IsReport([e][0], run);
    assert [w, w'][0 + 1] != [w, w'][0];
  }

  lemma FailingReport(w: World, id: Id, i: nat, run: Id) returns (e: Event, w': World)
    requires InFlight(w, id, i, run)
    ensures IsReport(e, run) && Happens(w, e, w') && id in w'.tasks && w'.tasks[id] != w.tasks[id]
  {
    var o := Oracle(false, _ => Works, true);
    e := RunCompleted(run, false, Everything, o);
    w' := Apply(w, id, Completion(w.tasks[id], i, false, Everything, w.nextRun, o));
    assert w'.tasks[id].actions[i].status == Failed;
  }

  /**
   * Once a started run has been reported, reporting it again changes nothing however the world goes on,
   * exactly when the first report reached its own action or found none in flight. A report that is
   * stopped before that leaves the action running, and the next one acts.
   */
  lemma RepeatedCompletionIsIgnoredIff(events: seq<Event>, worlds: seq<World>, k: nat)
    requires IsRun(events, worlds) && k < |events| && events[k].RunCompleted?
    requires events[k].run < worlds[k].nextRun
    ensures IgnoredFromNowOn(worlds[k + 1], events[k].run) <==>
      events[k].effect != Nothing || forall id, i: nat :: !InFlight(worlds[k], id, i, events[k].run)
  {
    hide Good, IgnoredFromNowOn, Completion;
    var e, w, w' := events[k], worlds[k], worlds[k + 1];
    RunIsGood(events, worlds, k);
    RunIsGood(events, worlds, k + 1);
    assert Happens(w, e, w');
    if e.effect != Nothing || Over(w, e.run) {
      CompletionEndsRun(w, e, w');
      OverIsIgnored(w', e.run);
    } else {
      var id, i: nat :| InFlight(w, id, i, e.run);
      NothingChanges(w, e, w');
      InFlightIsHeard(w', id, i, e.run);
    }
  }

  lemma NothingChanges(w: World, e: Event, w': World)
    requires e.RunCompleted? && e.effect == Nothing && Happens(w, e, w')
    ensures w' == w
  {
  }

  // ---- What an execution does ------------------------------------------------------------------------

  // The row as it is left behind a whole execution: completed, owning what it owned.
  predicate IsDone(a: Action, a': Action) {
    a'.kind == a.kind && a'.status == Completed && a'.agentRun == a.agentRun
  }

  predicate IsWork(a: Action) {
    match a.kind
    case WorkOn(_) => true
    case _ => false
  }

  // Rows from i up to the k-th have completed, those behind it are as they were, and this is why it
  // ends there: the rows are at an end, an agent run has been started, or the row has broken.
  ghost predicate ExecutesTo(actions: seq<Action>, i: nat, nextRun: Id, o: Oracle, p: Progress, k: nat) {
    && i <= k <= |actions| == |p.actions|
    && (forall j :: i <= j < k ==> o.outcome(j) == Works && !(IsWork(actions[j]) && o.hasAgent))
    && (forall j :: i <= j < k ==> IsDone(actions[j], p.actions[j]))
    && (forall j :: 0 <= j < |actions| && (j < i || j > k) ==> p.actions[j] == actions[j])
    && if k == |actions| then p.ending == AllDone && p.nextRun == nextRun
       else
         match o.outcome(k)
         case Works =>
           && IsWork(actions[k]) && o.hasAgent && p.ending == Waiting && p.nextRun == nextRun + 1
           && p.actions[k] == Action(actions[k].kind, Running, Some(nextRun))
         case Breaks(reach, actionMarked, taskMarked) =>
           && p.ending == Stopped(taskMarked) && p.nextRun == nextRun + 1 && p.actions[k].kind == actions[k].kind
           && (actionMarked ==> p.actions[k].status == Failed)
           && (!actionMarked && reach == Untouched ==> p.actions[k] == actions[k])
           && (!actionMarked && (reach == Begun || reach == RunStored) ==> p.actions[k].status == Running)
           && (!actionMarked && reach == Ended ==>
                 p.actions[k].status == if IsWork(actions[k]) && o.hasAgent then Running else Completed)
           && p.actions[k].agentRun == (if reach == RunStored && IsWork(actions[k]) && o.hasAgent
                                        then Some(nextRun) else actions[k].agentRun)
  }

  /**
   * An execution completes one row after the other, up to the first one that starts an agent run or
   * breaks; with an agent configured exactly the work rows start one.
   */
  lemma {:induction false} ExecutesInOrder(actions: seq<Action>, i: nat, nextRun: Id, o: Oracle) returns (k: nat)
    requires i <= |actions|
    ensures ExecutesTo(actions, i, nextRun, o, Execute(actions, i, nextRun, o), k)
    decreases |actions| - i
  {
    k := i;
    if i < |actions| && o.outcome(i).Works? && !StartsRun(actions[i], o) {
      var a := actions[i];
      k := ExecutesInOrder(actions[i := Action(a.kind, Completed, a.agentRun)], i + 1, nextRun, o);
    }
  }

  // When all is done the task has succeeded, if that gets written; a failure breaks it, if that is written.
  predicate IsClosed(before: TaskStatus, ending: Ending, closes: bool, after: TaskStatus) {
    && (ending == AllDone && closes ==> after == Succeeded)
    && (ending == Stopped(true) ==> after == Broken)
    && (ending == Waiting || ending == Stopped(false) || (ending == AllDone && !closes) ==> after == before)
  }

  /**
   * What a report brings about in the task whose action owns the run. A failed agent run fails its action
   * and breaks its task; after a success the action has completed and the rows behind it are executed.
   */
  lemma ReportIs(t: Task, i: nat, success: bool, nextRun: Id, o: Oracle) returns (p: Progress, k: nat)
    requires i < |t.actions|
    ensures Completion(t, i, success, Nothing, nextRun, o) == (t, nextRun)
    ensures
      var a := t.actions[i];
      Completion(t, i, success, OwnAction, nextRun, o) ==
      (Task(t.kind, t.status, t.actions[i := Action(a.kind, if success then Completed else Failed, a.agentRun)]),
        nextRun)
    ensures
      var a, (t', nextRun') := t.actions[i], Completion(t, i, success, Everything, nextRun, o);
      if !success then
        t' == Task(t.kind, Broken, t.actions[i := Action(a.kind, Failed, a.agentRun)]) && nextRun' == nextRun
      else
        && ExecutesTo(t.actions[i := Action(a.kind, Completed, a.agentRun)], i + 1, nextRun, o, p, k)
        && t'.kind == t.kind && t'.actions == p.actions && nextRun' == p.nextRun
        && IsClosed(t.status, p.ending, o.closes, t'.status)
  {
    var a := t.actions[i];
    var marked := t.actions[i := Action(a.kind, Completed, a.agentRun)];
    p := Execute(marked, i + 1, nextRun, o);
    k := ExecutesInOrder(marked, i + 1, nextRun, o);
    hide Execute, ExecutesTo;
  }

  /** What a claimed task becomes: its rows, executed from the first. */
  lemma ExecutionIs(t: Task, nextRun: Id, o: Oracle) returns (p: Progress, k: nat)
    ensures
      var t', rows := Execution(t, Prepared, nextRun, o).0, NewActions(Template(t.kind));
      && ExecutesTo(rows, 0, nextRun, o, p, k) && t'.kind == t.kind && t'.actions == p.actions
      && IsClosed(Claimed, p.ending, o.closes, t'.status)
  {
    var rows := NewActions(Template(t.kind));
    p := Execute(rows, 0, nextRun, o);
    k := ExecutesInOrder(rows, 0, nextRun, o);
    hide Execute, ExecutesTo, Template;
  }

  // ---- The templates ------------------------------------------------------------------------------------

  // Where a kind of work is done.
  predicate Station(work: string, node: string) {
    (work == "make_video" && node == "video_workstation") || (work == "publish_to_tiktok" && node == "tiktok_station")
  }

  // The being wakes first and goes home to sleep in the end.
  predicate WakesAndSleeps(kinds: seq<Kind>) {
    && |kinds| > 2 && kinds[0] == Wake && kinds[|kinds| - 2] == MoveTo("home")
    && kinds[|kinds| - 1] == Sleep("task_done")
  }

  // It stands where it works.
  predicate WorksInPlace(kinds: seq<Kind>) {
    forall i :: 0 <= i < |kinds| && kinds[i].WorkOn? ==>
      i > 0 && kinds[i - 1].MoveTo? && Station(kinds[i].work, kinds[i - 1].node)
  }

  // A video goes into the box when it is made.
  predicate PutsAway(kinds: seq<Kind>) {
    forall i :: 0 <= i < |kinds| && kinds[i].ArtifactCreated? ==>
      0 < i < |kinds| - 1 && kinds[i - 1] == WorkOn("make_video") && kinds[i] == ArtifactCreated("video")
      && kinds[i + 1] == MoveTo("artifact_box")
  }

  // It is fetched from there to be published.
  predicate Fetches(kinds: seq<Kind>) {
    forall i :: 0 <= i < |kinds| && kinds[i] == MoveTo("tiktok_station") ==>
      i > 0 && kinds[i - 1] == MoveTo("artifact_box")
  }

  predicate Sensible(kinds: seq<Kind>) {
    WakesAndSleeps(kinds) && WorksInPlace(kinds) && PutsAway(kinds) && Fetches(kinds)
  }

  // A task makes, or publishes, what its name says.
  predicate Makes(kind: string) {
    kind == "make_video" || kind == "make_and_publish_video"
  }

  predicate Publishes(kind: string) {
    kind == "publish_to_tiktok" || kind == "make_and_publish_video"
  }

  lemma WorkIsInPlace(kind: string)
    ensures WorksInPlace(Template(kind))
  {
  }

  lemma NothingToPutAway(kind: string)
    requires !Makes(kind)
    ensures PutsAway(Template(kind))
  {
  }

  lemma VideosArePutAway(kind: string)
    ensures PutsAway(Template(kind))
  {
    if Makes(kind) {
      var kinds := Template(kind);
      assert kinds[2] == WorkOn("make_video") && kinds[3] == ArtifactCreated("video");
      assert kinds[4] == MoveTo("artifact_box");
      assert forall i :: 0 <= i < |kinds| && kinds[i].ArtifactCreated? ==> i == 3;
      hide Template;
    } else {
      NothingToPutAway(kind);
    }
  }

  lemma VideosAreFetched(kind: string)
    ensures Fetches(Template(kind))
  {
  }

  lemma DaysAreFramed(kind: string)
    ensures Makes(kind) || Publishes(kind) ==> WakesAndSleeps(Template(kind))
  {
  }

  lemma WorkIsAsNamed(kind: string)
    ensures WorkOn("make_video") in Template(kind) <==> Makes(kind)
    ensures WorkOn("publish_to_tiktok") in Template(kind) <==> Publishes(kind)
    ensures forall work :: WorkOn(work) in Template(kind) ==> work == "make_video" || work == "publish_to_tiktok"
  {
    var kinds := Template(kind);
    match kind
    case "make_video" => assert kinds[2] == WorkOn("make_video");
    case "publish_to_tiktok" => assert kinds[3] == WorkOn("publish_to_tiktok");
    case "make_and_publish_video" =>
      assert kinds[2] == WorkOn("make_video") && kinds[6] == WorkOn("publish_to_tiktok");
    case _ =>
  }

  /** Every task with work in it is done sensibly, and does exactly the work its name says. */
  lemma TemplatesAreSensible(kind: string)
    ensures Makes(kind) || Publishes(kind) ==> Sensible(Template(kind))
    ensures WorkOn("make_video") in Template(kind) <==> Makes(kind)
    ensures WorkOn("publish_to_tiktok") in Template(kind) <==> Publishes(kind)
    ensures forall work :: WorkOn(work) in Template(kind) ==> work == "make_video" || work == "publish_to_tiktok"
  {
    DaysAreFramed(kind);
    WorkIsInPlace(kind);
    VideosArePutAway(kind);
    VideosAreFetched(kind);
    WorkIsAsNamed(kind);
    hide Template, WakesAndSleeps, WorksInPlace, PutsAway, Fetches;
  }

  // ---- Finished tasks ----------------------------------------------------------------------------------------

  predicate Finished(w: World, id: Id) {
    id in w.tasks && w.tasks[id].actions != [] && AllCompleted(w.tasks[id].actions)
  }

  // The last action to be executed works, and so do the writes behind it.
  predicate EndsWell(o: Oracle, from: nat, n: nat) {
    o.closes && (from < n ==> o.outcome(n - 1).Works?)
  }

  // The event, should it complete the task's last action, goes on to close the task.
  ghost predicate Closes(w: World, e: Event, id: Id, n: nat) {
    match e
    case Enqueue(_, _) => false
    case ExecuteTask(_, preparation, o) => EndsWell(o, 0, n)
    case RunCompleted(run, _, effect, o) =>
      effect == Everything && exists i: nat :: InFlight(w, id, i, run) && EndsWell(o, i + 1, n)
  }

  lemma NotDone(actions: seq<Action>, i: nat, all: seq<Action>)
    requires i <= |actions| == |all| && all[i..] == actions[i..] && AllCompleted(all)
    requires forall k :: i <= k < |actions| ==> actions[k].status == Pending
    ensures i == |actions|
  {
    assert i < |actions| ==> all[i..][0] == actions[i..][0];
  }

  lemma {:induction false} AllDoneIff(actions: seq<Action>, i: nat, nextRun: Id, o: Oracle)
    requires ReadyAt(actions, i) && AllCompleted(Execute(actions, i, nextRun, o).actions)
    ensures Execute(actions, i, nextRun, o).ending == AllDone <==> (i < |actions| ==> o.outcome(|actions| - 1).Works?)
    decreases |actions| - i
  {
    if i < |actions| {
      var a := actions[i];
      var all := Execute(actions, i, nextRun, o).actions;
      assert all[i].status == Completed;
      if o.outcome(i).Works? {
        AllDoneIff(actions[i := Action(a.kind, Completed, a.agentRun)], i + 1, nextRun, o);
      } else {
        assert all[i + 1..] == actions[i + 1..];
        NotDone(actions, i + 1, all);
      }
    }
  }

  lemma FinishingExecution(t: Task, preparation: Preparation, nextRun: Id, o: Oracle)
    requires TaskOk(t) && t.status == Queued
    ensures
      var t' := Execution(t, preparation, nextRun, o).0;
      t'.actions != [] && AllCompleted(t'.actions) ==> (t'.status == Succeeded <==> EndsWell(o, 0, |t'.actions|))
  {
    var rows, t' := NewActions(Template(t.kind)), Execution(t, preparation, nextRun, o).0;
    if t'.actions != [] && AllCompleted(t'.actions) {
      assert t'.actions[0].status == Completed;
      if preparation == Prepared { AllDoneIff(rows, 0, nextRun, o); }
    }
  }

  lemma FinishingCompletion(t: Task, i: nat, success: bool, effect: Effect, nextRun: Id, o: Oracle)
    requires TaskOk(t) && i < |t.actions| && t.actions[i].status == Running
    ensures
      var t' := Completion(t, i, success, effect, nextRun, o).0;
      AllCompleted(t'.actions) ==>
        (t'.status == Succeeded <==> effect == Everything && EndsWell(o, i + 1, |t'.actions|))
  {
    var t' := Completion(t, i, success, effect, nextRun, o).0;
    assert t.status != Succeeded;
    if AllCompleted(t'.actions) {
      assert t'.actions[i].status == Completed;
      if effect == Everything && success {
        AllDoneIff(t.actions[i := t.actions[i].(status := Completed)], i + 1, nextRun, o);
      }
    }
  }

  lemma EventFinishes(w: World, e: Event, w': World, id: Id)
    requires Good(w) && Happens(w, e, w') && !Finished(w, id) && Finished(w', id)
    ensures w'.tasks[id].status == Succeeded <==> Closes(w, e, id, |w'.tasks[id].actions|)
  {
    hide Execution, Completion, TaskOk, AllCompleted, EndsWell;
    match e
    case Enqueue(_, _) =>
    case ExecuteTask(a, preparation, o) =>
      if Claimable(w, a) {
        assert TaskOk(w.tasks[a]);
        FinishingExecution(w.tasks[a], preparation, w.nextRun, o);
      }
    case RunCompleted(run, success, effect, o) =>
      if a, i: nat :|
        && InFlight(w, a, i, run)
        && w' == Apply(w, a, Completion(w.tasks[a], i, success, effect, w.nextRun, o))
      {
        assert TaskOk(w.tasks[a]);
        FinishingCompletion(w.tasks[a], i, success, effect, w.nextRun, o);
      }
  }

  lemma EventKeepsFinished(w: World, e: Event, w': World, id: Id)
    requires Good(w) && Happens(w, e, w') && Finished(w, id)
    ensures w'.tasks == w.tasks || (id in w'.tasks && w'.tasks[id] == w.tasks[id])
  {
    hide Execution, Completion;
    assert TaskOk(w.tasks[id]);
  }

  /**
   * A task all of whose actions have completed has been finished by one event, and has succeeded
   * exactly when that event closed it: every write behind its last action took effect.
   */
  lemma {:induction false} FinishedSucceedsIff(events: seq<Event>, worlds: seq<World>, m: nat, id: Id) returns (k: nat)
    requires IsRun(events, worlds) && m < |worlds| && Finished(worlds[m], id)
    ensures k < m && !Finished(worlds[k], id) && Finished(worlds[k + 1], id)
    ensures worlds[m].tasks[id].status == Succeeded <==> Closes(worlds[k], events[k], id, |worlds[m].tasks[id].actions|)
  {
    hide Finished, Closes, Happens;
    NotFinishedYet(id);
    k := m - 1;
    RunIsGood(events, worlds, k);
    if Finished(worlds[k], id) {
      EventKeepsFinished(worlds[k], events[k], worlds[m], id);
      FinishedIsThere(worlds[k], id);
      k := FinishedSucceedsIff(events, worlds, k, id);
    } else {
      EventFinishes(worlds[k], events[k], worlds[m], id);
    }
  }

  lemma NotFinishedYet(id: Id)
    ensures !Finished(EMPTY, id)
  {
  }

  lemma FinishedIsThere(w: World, id: Id)
    requires Finished(w, id)
    ensures id in w.tasks
  {
  }

  // ---- Failed tasks ------------------------------------------------------------------------------------------

  ghost predicate Untouchable(w: World, id: Id)
    requires id in w.tasks
  {
    forall e, w' :: Happens(w, e, w') ==> id in w'.tasks && w'.tasks[id] == w.tasks[id]
  }

  ghost predicate SomethingInFlight(w: World, id: Id) {
    exists i: nat, run: Id :: InFlight(w, id, i, run)
  }

  /**
   * A task that has been claimed, be it failed or succeeded, is beyond change exactly when none of its
   * actions is still running with an agent run of its own.
   */
  lemma UntouchableIff(w: World, id: Id)
    requires Good(w) && id in w.tasks && w.tasks[id].status != Queued
    ensures Untouchable(w, id) <==> !SomethingInFlight(w, id)
  {
    hide Good, Completion, Execution;
    if SomethingInFlight(w, id) {
      var i: nat, run: Id :| InFlight(w, id, i, run);
      var _, _ := FailingReport(w, id, i, run);
    }
  }

  /** A failed task is therefore not always final: its failing action may have kept a live run. */
  lemma FailedTaskCanBeTouchable()
    ensures
      var o := Oracle(true, i => if i == 2 then Breaks(RunStored, false, true) else Works, true);
      var t := Execution(Task("make_video", Queued, []), Prepared, 0, o).0;
      t.status == Broken && t.actions[2].status == Running && t.actions[2].agentRun == Some(0)
  {
    var o := Oracle(true, i => if i == 2 then Breaks(RunStored, false, true) else Works, true);
    var a0 := NewActions(Template("make_video"));
    var a1 := a0[0 := Action(Wake, Completed, None)];
    var a2 := a1[1 := Action(MoveTo("video_workstation"), Completed, None)];
    assert Execute(a0, 0, 0, o) == Execute(a1, 1, 0, o);
    assert Execute(a1, 1, 0, o) == Execute(a2, 2, 0, o);
  }
}
