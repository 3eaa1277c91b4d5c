/** The executor: two loops over a task's rows, in place. */
module TaskExecutor {
  import opened Wrappers
  import opened TaskActions

  datatype Result = Done | WaitingAgent | Threw(actionMarked: bool, taskMarked: bool)

  class TaskExecutor {
    var tasks: map<Id, Task>
    var nextRun: Id

    constructor ()
      ensures Rows() == EMPTY
    {
      tasks, nextRun := map[], 0;
    }

    function Rows(): World
      reads this
    {
      World(tasks, nextRun)
    }

    method SetAction(id: Id, i: nat, a: Action)
      requires id in tasks && i < |tasks[id].actions|
      modifies this`tasks
      ensures tasks == old(tasks)[id := old(tasks)[id].(actions := old(tasks)[id].actions[i := a])]
    {
      tasks := tasks[id := tasks[id].(actions := tasks[id].actions[i := a])];
    }

    method SetStatus(id: Id, status: TaskStatus)
      requires id in tasks
      modifies this`tasks
      ensures tasks == old(tasks)[id := old(tasks)[id].(status := status)]
    {
      tasks := tasks[id := tasks[id].(status := status)];
    }

    // What is left to do after one execution, told in terms of the whole row.
    ghost predicate Continues(before: seq<Action>, i: nat, run: Id, o: Oracle, actions: seq<Action>, r: Result)
      requires i < |before| && |actions| == |before|
      reads this`nextRun
    {
      var all := Execute(before, i, run, o);
      match r
      case Done => all == Execute(actions, i + 1, nextRun, o)
      case WaitingAgent => all == Progress(actions, nextRun, Waiting)
      case Threw(actionMarked, taskMarked) =>
        all == Progress(if actionMarked then actions[i := actions[i].(status := Failed)] else actions, nextRun,
                           Stopped(taskMarked))
    }

    /** One action: it is marked running, and completed unless it starts an agent run or throws on the way. */
    method ExecuteAction(id: Id, i: nat, o: Oracle) returns (r: Result)
      requires id in tasks && i < |tasks[id].actions|
      modifies this
      ensures
        && id in tasks && |tasks[id].actions| == |old(tasks)[id].actions|
        && tasks == old(tasks)[id := old(tasks)[id].(actions := tasks[id].actions)]
      ensures Continues(old(tasks)[id].actions, i, old(nextRun), o, tasks[id].actions, r)
    {
      var a := tasks[id].actions[i];
      var outcome := o.outcome(i);
      if outcome.Breaks? && outcome.reach == Untouched {
        nextRun := nextRun + 1;
        assert tasks[id].actions[i := a] == tasks[id].actions;
        return Threw(outcome.actionMarked, outcome.taskMarked);
      }
      SetAction(id, i, a.(status := Running));
      match outcome
      case Works =>
        if StartsRun(a, o) {
          SetAction(id, i, Action(a.kind, Running, Some(nextRun)));
          nextRun := nextRun + 1;
          return WaitingAgent;
        }
        SetAction(id, i, Action(a.kind, Completed, a.agentRun));
        assert tasks[id].actions == old(tasks)[id].actions[i := Action(a.kind, Completed, a.agentRun)];
        return Done;
      case Breaks(reach, actionMarked, taskMarked) =>
        if StartsRun(a, o) {
          if reach == RunStored { SetAction(id, i, Action(a.kind, Running, Some(nextRun))); }
        } else if reach == Ended {
          SetAction(id, i, Action(a.kind, Completed, a.agentRun));
        }
        nextRun := nextRun + 1;
        return Threw(actionMarked, taskMarked);
    }

    // What of the failure gets written.
    method MarkFailure(id: Id, i: nat, actionMarked: bool, taskMarked: bool)
      requires id in tasks && i < |tasks[id].actions|
      modifies this`tasks
      ensures
        var Task(kind, status, actions) := old(tasks)[id];
        tasks == old(tasks)[id :=
          Task(kind, if taskMarked then Broken else status,
               if actionMarked then actions[i := actions[i].(status := Failed)] else actions)]
    {
      if actionMarked { SetAction(id, i, tasks[id].actions[i].(status := Failed)); }
      if taskMarked { SetStatus(id, Broken); }
    }

    static lemma ExecuteEnds(o: Oracle)
      ensures forall actions, run :: Execute(actions, |actions|, run, o) == Progress(actions, run, AllDone)
    {
    }

    // The loop both callers run, from the given row on.
    method ExecuteFrom(id: Id, from: nat, o: Oracle)
      requires id in tasks && from <= |tasks[id].actions|
      modifies this
      ensures
        var t, p := old(tasks)[id], Execute(old(tasks)[id].actions, from, old(nextRun), o);
        Rows() == Apply(old(Rows()), id, (Task(t.kind, Closed(t.status, p.ending, o), p.actions), p.nextRun))
    {
      ghost var t, all := tasks[id], Execute(tasks[id].actions, from, nextRun, o);
      ExecuteEnds(o);
      hide Execute;
      var n := |tasks[id].actions|;
      for i := from to n
        invariant id in tasks && |tasks[id].actions| == n
        invariant tasks == old(tasks)[id := t.(actions := tasks[id].actions)]
        invariant Execute(tasks[id].actions, i, nextRun, o) == all
      {
        var r := ExecuteAction(id, i, o);
        match r
        case WaitingAgent => return;
        case Threw(actionMarked, taskMarked) =>
          MarkFailure(id, i, actionMarked, taskMarked);
          return;
        case Done =>
      }
      if o.closes { SetStatus(id, Succeeded); }
    }

    // One row after the other, unless something fails in between.
    method CreateRows(kinds: seq<Kind>, preparation: Preparation) returns (rows: seq<Action>)
      ensures
        var all := NewActions(kinds);
        rows == if preparation.StopsAt? && preparation.created < |all| then all[..preparation.created] else all
    {
      rows := [];
      for i := 0 to |kinds|
        invariant rows == NewActions(kinds)[..i]
        invariant preparation.StopsAt? ==> i <= preparation.created
      {
        if preparation.StopsAt? && i == preparation.created { return; }
        rows := rows + [NewAction(kinds[i])];
      }
      assert NewActions(kinds)[..|kinds|] == NewActions(kinds);
    }

    method ExecuteTask(id: Id, preparation: Preparation, o: Oracle)
      modifies this
      ensures Happens(old(Rows()), TaskActions.ExecuteTask(id, preparation, o), Rows())
    {
      if id !in tasks { return; }
      ghost var w, t := Rows(), tasks[id];
      var kinds := Template(tasks[id].kind);
      if |kinds| == 0 { return; }
      if tasks[id].status != Queued { return; }
      if preparation.NotClaimed? {
        assert tasks == tasks[id := t];
        return;
      }
      SetStatus(id, Claimed);
      var rows := CreateRows(kinds, preparation);
      tasks := tasks[id := tasks[id].(actions := rows)];
      if preparation.StopsAt? { return; }
      hide Execute, Template;
      ExecuteFrom(id, 0, o);
    }

    /** The indexed lookup: an action that owns the run and is still running, if there is one. */
    method FindActionByRunId(run: Id) returns (found: Option<(Id, nat)>)
      ensures found.Some? ==> InFlight(Rows(), found.value.0, found.value.1, run)
      ensures found.None? ==> forall id, i: nat :: !InFlight(Rows(), id, i, run)
    {
      var left := tasks.Keys;
      while left != {}
        invariant forall id, i: nat :: InFlight(Rows(), id, i, run) ==> id in left
        decreases left
      {
        var id :| id in left;
        for i := 0 to |tasks[id].actions|
          invariant forall k: nat :: k < i ==> !InFlight(Rows(), id, k, run)
        {
          if tasks[id].actions[i].agentRun == Some(run) && tasks[id].actions[i].status == Running {
            return Some((id, i));
          }
        }
        left := left - {id};
      }
      return None;
    }

    method OnAgentRunCompleted(run: Id, success: bool, effect: Effect, o: Oracle)
      modifies this
      ensures Happens(old(Rows()), RunCompleted(run, success, effect, o), Rows())
    {
      ghost var w := Rows();
      var found := FindActionByRunId(run);
      if found.None? { return; }
      var (id, i) := found.value;
      if effect != Nothing {
        if !success {
          SetAction(id, i, tasks[id].actions[i].(status := Failed));
          if effect == Everything { SetStatus(id, Broken); }
        } else {
          SetAction(id, i, tasks[id].actions[i].(status := Completed));
          if effect == Everything { ExecuteFrom(id, i + 1, o); }
        }
      }
      assert InFlight(w, id, i, run)
        && Rows() == Apply(w, id, Completion(w.tasks[id], i, success, effect, w.nextRun, o));
    }
  }
}
