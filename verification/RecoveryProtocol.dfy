/** Suspension, crash and restart recovery of runs, as steps over the tables and the executors in memory. */
module RecoveryProtocol {
  import opened Wrappers
  import opened RunStateMachine

  type Id = nat

  datatype Checkpoint = Checkpoint(runId: Id, conversationId: Id, parses: bool)

  datatype Run = Run(status: Status, conversationId: Id, updatedAt: nat, checkpoint: Option<Checkpoint>)

  datatype ApprovalState = Pending | Decided | Expired

  datatype Approval = Approval(id: Id, runId: Id, state: ApprovalState)

  type Runs = map<Id, Run>

  // The approvals stand in listing order, newest first.
  datatype Tables = Tables(runs: Runs, approvals: seq<Approval>)

  predicate HasPending(approvals: seq<Approval>, id: Id) {
    exists i :: 0 <= i < |approvals| && approvals[i].runId == id && approvals[i].state == Pending
  }

  // A checkpoint the restart accepts, and one a coordinator resumes from.
  predicate Parses(run: Run) {
    run.checkpoint.Some? && run.checkpoint.value.parses
  }

  predicate Resumable(id: Id, run: Run) {
    Parses(run) && run.checkpoint.value.runId == id && run.checkpoint.value.conversationId == run.conversationId
  }

  // ---- The status writes -------------------------------------------------------------------------

  predicate Moves(run: Run, next: Status) {
    run.status != next && !Terminal(run.status) && next in LegalNext(run.status)
  }

  // Same status and terminal statuses are left alone; an illegal move throws and writes nothing.
  function Marked(runs: Runs, id: Id, next: Status, now: nat): Runs {
    if id in runs && Moves(runs[id], next) then runs[id := runs[id].(status := next, updatedAt := now)] else runs
  }

  predicate Throws(runs: Runs, id: Id, next: Status) {
    id !in runs || (runs[id].status != next && !Terminal(runs[id].status) && next !in LegalNext(runs[id].status))
  }

  // ---- What a restart makes of one run -------------------------------------------------------------

  // `unlucky` are the runs whose interruption fails to commit.
  function Verdict(run: Run, id: Id, approvals: seq<Approval>, unlucky: set<Id>): Status {
    match run.status
    case Created => Failed
    case Running => if id in unlucky then Failed else Interrupted
    case WaitingApproval => if HasPending(approvals, id) then WaitingApproval else Failed
    case WaitingUser => if Parses(run) then WaitingUser else Failed
    case other => other
  }

  function Settled(run: Run, id: Id, approvals: seq<Approval>, unlucky: set<Id>, now: nat): Run {
    var status := Verdict(run, id, approvals, unlucky);
    if status == run.status then run else run.(status := status, updatedAt := now)
  }

  function Recovered(t: Tables, unlucky: set<Id>, now: nat): Tables {
    t.(runs := map id | id in t.runs :: Settled(t.runs[id], id, t.approvals, unlucky, now))
  }

  // What becomes of one run, told about the run before and after.
  predicate Restarts(id: Id, run: Run, after: Run, approvals: seq<Approval>, unlucky: set<Id>, now: nat) {
    && (run.status == Created ==> after == run.(status := Failed, updatedAt := now))
    && (run.status == Running ==>
          after == run.(status := if id in unlucky then Failed else Interrupted, updatedAt := now))
    && (run.status == WaitingApproval ==>
          if exists i :: 0 <= i < |approvals| && approvals[i].runId == id && approvals[i].state == Pending
          then after == run else after == run.(status := Failed, updatedAt := now))
    && (run.status == WaitingUser ==>
          if run.checkpoint.Some? && run.checkpoint.value.parses
          then after == run else after == run.(status := Failed, updatedAt := now))
    && (run.status != Created && run.status != Running && run.status != WaitingApproval && run.status != WaitingUser ==>
          after == run)
  }

  predicate AllRestart(t: Tables, unlucky: set<Id>, now: nat, runs: Runs) {
    runs.Keys == t.runs.Keys && forall id :: id in t.runs ==>
      Restarts(id, t.runs[id], runs[id], t.approvals, unlucky, now)
  }

  lemma SettledRestarts(run: Run, id: Id, approvals: seq<Approval>, unlucky: set<Id>, now: nat)
    ensures Restarts(id, run, Settled(run, id, approvals, unlucky, now), approvals, unlucky, now)
  {
  }

  /**
   * A restart fails the created runs, interrupts the running ones or fails those whose interruption is
   * not written, keeps a waiting run exactly if it has a pending approval or a checkpoint that parses,
   * and leaves every other run alone.
   */
  lemma RestartIs(t: Tables, unlucky: set<Id>, now: nat)
    ensures AllRestart(t, unlucky, now, Recovered(t, unlucky, now).runs)
    ensures Recovered(t, unlucky, now).approvals == t.approvals
  {
    hide Restarts, Settled;
    forall id | id in t.runs
      ensures Restarts(id, t.runs[id], Recovered(t, unlucky, now).runs[id], t.approvals, unlucky, now)
    {
      SettledRestarts(t.runs[id], id, t.approvals, unlucky, now);
    }
  }

  // A recovery that dies when it has come to some of the runs only.
  function PartlyRecovered(t: Tables, seen: set<Id>, unlucky: set<Id>, now: nat): Tables {
    t.(runs := map id | id in t.runs ::
         if id in seen then Settled(t.runs[id], id, t.approvals, unlucky, now) else t.runs[id])
  }

  /** A recovery, whatever it finds, leaves no run unfinished that nothing will ever finish. */
  lemma RecoveryLeavesNothingUnfinished(t: Tables, unlucky: set<Id>, now: nat, id: Id)
    requires id in t.runs
    ensures
      var run := Recovered(t, unlucky, now).runs[id];
      && run.status != Created && run.status != Running
      && (run.status == WaitingApproval ==> HasPending(t.approvals, id))
      && (run.status == WaitingUser ==> Parses(run))
      && run.checkpoint == t.runs[id].checkpoint
      && (run.status != t.runs[id].status ==> run.status in LegalNext(t.runs[id].status))
  {
  }

  lemma SettledOnce(run: Run, id: Id, approvals: seq<Approval>, unlucky: set<Id>, again: set<Id>, now: nat, later: nat)
    ensures
      var once := Settled(run, id, approvals, unlucky, now);
      Settled(once, id, approvals, again, later) == once
  {
    hide HasPending;
  }

  /** Recovering twice is recovering once, at whatever time the second restart comes. */
  lemma RecoveryIsIdempotent(t: Tables, unlucky: set<Id>, again: set<Id>, now: nat, later: nat)
    ensures Recovered(Recovered(t, unlucky, now), again, later) == Recovered(t, unlucky, now)
  {
    hide Settled;
    forall id | id in t.runs
      ensures Recovered(Recovered(t, unlucky, now), again, later).runs[id] == Recovered(t, unlucky, now).runs[id]
    {
      SettledOnce(t.runs[id], id, t.approvals, unlucky, again, now, later);
    }
  }

  // ---- Steps ---------------------------------------------------------------------------------------

  // Where an executor stands between two awaited writes.
  datatype Phase = Working | SavedForUser | SavedForApproval | MarkedForApproval

  datatype Executor = Executor(runId: Id, phase: Phase)

  datatype World = World(tables: Tables, live: map<Id, Executor>)

  datatype Step =
    | Create(id: Id, conversationId: Id)
    | Lease(executor: Id, id: Id)
    | Save(executor: Id, phase: Phase)
    | WaitForUser(executor: Id)
    | RequestApproval(executor: Id, approval: Id)
    | MarkApproval(executor: Id)
    | CreateApproval(executor: Id, approval: Id)
    | Decide(approval: Id)
    | Expire(approval: Id)
    | Complete(executor: Id)
    | Fail(executor: Id)
    | Abandon(executor: Id)
    | Cancel(id: Id)
    | Restart(unlucky: set<Id>)
    | StoppedRestart(seen: set<Id>, unlucky: set<Id>)

  const START: World := World(Tables(map[], []), map[])

  predicate Resting(s: Status) {
    s == WaitingApproval || s == WaitingUser || s == Interrupted
  }

  // The engine takes a created run; a continuation needs the run's own checkpoint as well.
  predicate CanLease(w: World, executor: Id, id: Id) {
    && executor !in w.live && id in w.tables.runs
    && var run := w.tables.runs[id];
       run.status == Created || (Resting(run.status) && Resumable(id, run))
  }

  function Close(approvals: seq<Approval>, id: Id, state: ApprovalState): seq<Approval> {
    seq(|approvals|, i requires 0 <= i < |approvals| =>
      if approvals[i].id == id && approvals[i].state == Pending then approvals[i].(state := state) else approvals[i])
  }

  predicate Fresh(approvals: seq<Approval>, id: Id) {
    forall i :: 0 <= i < |approvals| ==> approvals[i].id != id
  }

  predicate Open(approvals: seq<Approval>, id: Id, runId: Id) {
    exists i :: 0 <= i < |approvals| && approvals[i] == Approval(id, runId, Pending)
  }

  function Gone(w: World, executor: Id): map<Id, Executor> {
    map e | e in w.live && e != executor :: w.live[e]
  }

  // Whether the executor exists and stands in the phase the step starts from.
  predicate At(w: World, executor: Id, phase: Phase) {
    executor in w.live && w.live[executor].phase == phase
  }

  function WithRuns(w: World, runs: Runs): World {
    w.(tables := w.tables.(runs := runs))
  }

  // The executor's last write: the status, if the move is legal, and the executor is gone.
  function Finish(w: World, executor: Id, next: Status, now: nat): World
    requires executor in w.live
  {
    WithRuns(w, Marked(w.tables.runs, w.live[executor].runId, next, now)).(live := Gone(w, executor))
  }

  function SaveCheckpoint(w: World, executor: Id, phase: Phase, now: nat): World
    requires executor in w.live
  {
    var id := w.live[executor].runId;
    if id !in w.tables.runs then w
    else
      var run := w.tables.runs[id];
      var saved := run.(checkpoint := Some(Checkpoint(id, run.conversationId, true)), updatedAt := now);
      WithRuns(w, w.tables.runs[id := saved]).(live := w.live[executor := Executor(id, phase)])
  }

  // A step that does not apply changes nothing. `transactional` is whether approvals are requested
  // through the service that marks the run and creates the approval in one transaction.
  function Next(w: World, step: Step, transactional: bool, now: nat): World {
    match step
    case Create(id, conversationId) =>
      if id in w.tables.runs then w
      else WithRuns(w, w.tables.runs[id := Run(Created, conversationId, now, None)])
    case Lease(e, id) =>
      if !CanLease(w, e, id) then w
      else WithRuns(w, Marked(w.tables.runs, id, Running, now)).(live := w.live[e := Executor(id, Working)])
    case Save(e, phase) =>
      if !At(w, e, Working) || phase == MarkedForApproval then w else SaveCheckpoint(w, e, phase, now)
    case WaitForUser(e) =>
      if !At(w, e, SavedForUser) || Throws(w.tables.runs, w.live[e].runId, WaitingUser) then w
      else Finish(w, e, WaitingUser, now)
    case RequestApproval(e, a) =>
      if !transactional || !At(w, e, SavedForApproval) || !Fresh(w.tables.approvals, a)
         || Throws(w.tables.runs, w.live[e].runId, WaitingApproval) then w
      else
        var marked := Finish(w, e, WaitingApproval, now);
        marked.(tables := marked.tables.(approvals := [Approval(a, w.live[e].runId, Pending)] + w.tables.approvals))
    case MarkApproval(e) =>
      if transactional || !At(w, e, SavedForApproval) || Throws(w.tables.runs, w.live[e].runId, WaitingApproval) then w
      else
        var id := w.live[e].runId;
        var marked := Marked(w.tables.runs, id, WaitingApproval, now);
        WithRuns(w, marked).(live := w.live[e := Executor(id, MarkedForApproval)])
    case CreateApproval(e, a) =>
      if !At(w, e, MarkedForApproval) || !Fresh(w.tables.approvals, a) then w
      else
        w.(tables := w.tables.(approvals := [Approval(a, w.live[e].runId, Pending)] + w.tables.approvals),
           live := Gone(w, e))
    case Decide(a) => w.(tables := w.tables.(approvals := Close(w.tables.approvals, a, Decided)))
    case Expire(a) =>
      var expired := w.(tables := w.tables.(approvals := Close(w.tables.approvals, a, Expired)));
      WithRuns(expired, map id | id in w.tables.runs ::
        if Open(w.tables.approvals, a, id) && w.tables.runs[id].status == WaitingApproval
        then w.tables.runs[id].(status := Cancelled, updatedAt := now) else w.tables.runs[id])
    case Complete(e) => if !At(w, e, Working) then w else Finish(w, e, Completed, now)
    case Fail(e) => if e !in w.live then w else Finish(w, e, Failed, now)
    case Abandon(e) => w.(live := Gone(w, e))
    case Cancel(id) => WithRuns(w, Marked(w.tables.runs, id, Cancelled, now))
    case Restart(unlucky) => World(Recovered(w.tables, unlucky, now), map[])
    case StoppedRestart(seen, unlucky) => World(PartlyRecovered(w.tables, seen, unlucky, now), map[])
  }

  // The clock shows the number of steps taken.
  function Play(steps: seq<Step>, transactional: bool): World {
    if steps == [] then START
    else Next(Play(steps[..|steps| - 1], transactional), steps[|steps| - 1], transactional, |steps|)
  }

  // ---- What the steps bring about ------------------------------------------------------------------

  // The checkpoint is there, can be read, and is that of this very run and conversation.
  predicate OwnCheckpoint(id: Id, run: Run) {
    match run.checkpoint
    case None => false
    case Some(c) => c.parses && c.runId == id && c.conversationId == run.conversationId
  }

  /**
   * A run is leased exactly if it has just been created, or rests and has its own checkpoint; it is
   * running then, in the hands of this executor. Otherwise nothing happens.
   */
  lemma LeaseIs(w: World, e: Id, id: Id, transactional: bool, now: nat)
    requires e !in w.live
    ensures
      var w' := Next(w, Lease(e, id), transactional, now);
      if id in w.tables.runs
         && (w.tables.runs[id].status == Created
             || (w.tables.runs[id].status in {WaitingApproval, WaitingUser, Interrupted}
                 && OwnCheckpoint(id, w.tables.runs[id])))
      then
        && w'.live == w.live[e := Executor(id, Working)] && w'.tables.approvals == w.tables.approvals
        && w'.tables.runs == w.tables.runs[id := w.tables.runs[id].(status := Running, updatedAt := now)]
      else w' == w
  {
  }

  // The run has gone over to the status if that is a legal move, and else is as it was.
  predicate Written(runs: Runs, runs': Runs, id: Id, next: Status, now: nat) {
    runs' ==
    if id in runs && next != runs[id].status && next in LegalNext(runs[id].status)
    then runs[id := runs[id].(status := next, updatedAt := now)] else runs
  }

  predicate IsGone(w: World, w': World, e: Id) {
    w'.live.Keys == w.live.Keys - {e} && forall x :: x in w'.live ==> w'.live[x] == w.live[x]
  }

  lemma FinishIs(w: World, e: Id, next: Status, now: nat)
    requires e in w.live
    ensures Written(w.tables.runs, Finish(w, e, next, now).tables.runs, w.live[e].runId, next, now)
    ensures IsGone(w, Finish(w, e, next, now), e)
  {
  }

  /** An executor that is done, or breaks, or gives up writes completed, failed or nothing, and is gone. */
  lemma EndsAre(w: World, e: Id, transactional: bool, now: nat)
    requires e in w.live
    ensures
      var id := w.live[e].runId;
      var completed, failed := Next(w, Complete(e), transactional, now), Next(w, Fail(e), transactional, now);
      var abandoned := Next(w, Abandon(e), transactional, now);
      && (if w.live[e].phase == Working then
            Written(w.tables.runs, completed.tables.runs, id, Completed, now) && IsGone(w, completed, e)
          else completed == w)
      && Written(w.tables.runs, failed.tables.runs, id, Failed, now) && IsGone(w, failed, e)
      && abandoned.tables == w.tables && IsGone(w, abandoned, e)
  {
    FinishIs(w, e, Completed, now);
    FinishIs(w, e, Failed, now);
    hide Recovered, PartlyRecovered, Close, Open, Finish;
  }

  /** Once its checkpoint is saved an executor may leave the run waiting for the user. */
  lemma WaitIs(w: World, e: Id, transactional: bool, now: nat)
    requires e in w.live
    ensures
      var id, asked := w.live[e].runId, Next(w, WaitForUser(e), transactional, now);
      && (asked == w || (w.live[e].phase == SavedForUser && IsGone(w, asked, e)
                         && Written(w.tables.runs, asked.tables.runs, id, WaitingUser, now)))
      && (w.live[e].phase == SavedForUser && id in w.tables.runs && w.tables.runs[id].status == Running ==>
            asked.tables.runs[id].status == WaitingUser)
  {
    FinishIs(w, e, WaitingUser, now);
    hide Recovered, PartlyRecovered, Close, Open, Finish;
  }

  /** A save stores the run's own checkpoint. */
  lemma SaveIs(w: World, e: Id, phase: Phase, transactional: bool, now: nat)
    requires e in w.live && w.live[e].phase == Working && phase != MarkedForApproval && w.live[e].runId in w.tables.runs
    ensures
      var id := w.live[e].runId;
      var w' := Next(w, Save(e, phase), transactional, now);
      && id in w'.tables.runs && OwnCheckpoint(id, w'.tables.runs[id])
      && w'.tables.runs[id].status == w.tables.runs[id].status && w'.live == w.live[e := Executor(id, phase)]
      && (forall x :: x in w.tables.runs && x != id ==> x in w'.tables.runs && w'.tables.runs[x] == w.tables.runs[x])
  {
    hide Recovered, PartlyRecovered, Close, Open;
  }

  /** A request makes the run wait and adds a pending approval of it, in one step or in two. */
  lemma RequestIs(w: World, e: Id, a: Id, now: nat)
    requires e in w.live && Fresh(w.tables.approvals, a) && w.live[e].phase == SavedForApproval
    requires w.live[e].runId in w.tables.runs && w.tables.runs[w.live[e].runId].status == Running
    ensures
      var id := w.live[e].runId;
      var atOnce, marked := Next(w, RequestApproval(e, a), true, now), Next(w, MarkApproval(e), false, now);
      var added := Next(marked, CreateApproval(e, a), false, now);
      && atOnce.tables.approvals == added.tables.approvals == [Approval(a, id, Pending)] + w.tables.approvals
      && Written(w.tables.runs, atOnce.tables.runs, id, WaitingApproval, now)
      && Written(w.tables.runs, marked.tables.runs, id, WaitingApproval, now)
      && marked.tables.approvals == w.tables.approvals && added.tables.runs == marked.tables.runs
      && IsGone(w, atOnce, e) && IsGone(w, added, e)
  {
    hide Recovered, PartlyRecovered, Close, Open, Fresh;
  }

  /** Expiring an approval cancels the run that waits for it; deciding it leaves the runs as they are. */
  lemma ExpiryIs(w: World, a: Id, transactional: bool, now: nat)
    ensures
      var expired, decided := Next(w, Expire(a), transactional, now), Next(w, Decide(a), transactional, now);
      && expired.live == w.live && decided.live == w.live && decided.tables.runs == w.tables.runs
      && expired.tables.runs.Keys == w.tables.runs.Keys
      && (forall id :: id in w.tables.runs ==>
            expired.tables.runs[id] ==
            if w.tables.runs[id].status == WaitingApproval && Approval(a, id, Pending) in w.tables.approvals
            then w.tables.runs[id].(status := Cancelled, updatedAt := now) else w.tables.runs[id])
      && Answers(w.tables.approvals, expired.tables.approvals, a, Expired)
      && Answers(w.tables.approvals, decided.tables.approvals, a, Decided)
  {
    hide Recovered, PartlyRecovered;
  }

  // Exactly the pending approval of that id has got an answer.
  predicate Answers(before: seq<Approval>, after: seq<Approval>, a: Id, state: ApprovalState) {
    |after| == |before| && forall i :: 0 <= i < |before| ==>
      var pending := before[i].id == a && before[i].state == Pending;
      after[i] == if pending then Approval(a, before[i].runId, state) else before[i]
  }

  // ---- What every run keeps ----------------------------------------------------------------------

  // A stored checkpoint is the run's own.
  predicate Owned(id: Id, run: Run) {
    run.checkpoint.Some? ==> Resumable(id, run)
  }

  // A run that waits has saved first.
  predicate SavedFirst(run: Run) {
    run.status == WaitingUser || run.status == WaitingApproval ==> run.checkpoint.Some?
  }

  predicate Asked(approvals: seq<Approval>, id: Id) {
    exists i :: 0 <= i < |approvals| && approvals[i].runId == id
  }

  predicate RunOk(id: Id, run: Run, approvals: seq<Approval>, transactional: bool) {
    && Owned(id, run) && SavedFirst(run)
    && (transactional && run.status == WaitingApproval ==> Asked(approvals, id))
  }

  // An executor past its save left a checkpoint behind.
  predicate ExecutorOk(executor: Executor, runs: Runs) {
    && executor.runId in runs
    && (executor.phase != Working ==> runs[executor.runId].checkpoint.Some?)
  }

  ghost predicate Good(w: World, transactional: bool) {
    && (forall id :: id in w.tables.runs ==> RunOk(id, w.tables.runs[id], w.tables.approvals, transactional))
    && (forall e :: e in w.live ==> ExecutorOk(w.live[e], w.tables.runs))
  }

  // No step takes a run or its checkpoint away, or an approval's run.
  ghost predicate Grows(w: World, w': World) {
    && (forall id :: id in w.tables.runs ==> KeepsRun(w.tables.runs, w'.tables.runs, id))
    && (forall id :: Asked(w.tables.approvals, id) ==> Asked(w'.tables.approvals, id))
  }

  predicate KeepsRun(runs: Runs, runs': Runs, id: Id)
    requires id in runs
  {
    id in runs' && (runs[id].checkpoint.Some? ==> runs'[id].checkpoint.Some?)
  }

  lemma CloseKeepsAsked(approvals: seq<Approval>, a: Id, state: ApprovalState)
    ensures forall id :: Asked(approvals, id) ==> Asked(Close(approvals, a, state), id)
  {
    forall id | Asked(approvals, id) ensures Asked(Close(approvals, a, state), id) {
      var i :| 0 <= i < |approvals| && approvals[i].runId == id;
      assert Close(approvals, a, state)[i].runId == id;
    }
  }

  lemma NewIsAsked(approvals: seq<Approval>, new_: Approval)
    ensures Asked([new_] + approvals, new_.runId)
    ensures forall id :: Asked(approvals, id) ==> Asked([new_] + approvals, id)
  {
    assert ([new_] + approvals)[0] == new_;
    forall id | Asked(approvals, id) ensures Asked([new_] + approvals, id) {
      var i :| 0 <= i < |approvals| && approvals[i].runId == id;
      assert ([new_] + approvals)[i + 1].runId == id;
    }
  }

  lemma StepGrows(w: World, step: Step, transactional: bool, now: nat)
    ensures Grows(w, Next(w, step, transactional, now))
  {
    hide Asked, Close, Fresh, Open, Verdict;
    match step
    case RequestApproval(e, a) =>
      if e in w.live { NewIsAsked(w.tables.approvals, Approval(a, w.live[e].runId, Pending)); }
    case CreateApproval(e, a) =>
      if e in w.live { NewIsAsked(w.tables.approvals, Approval(a, w.live[e].runId, Pending)); }
    case Decide(a) => CloseKeepsAsked(w.tables.approvals, a, Decided);
    case Expire(a) => CloseKeepsAsked(w.tables.approvals, a, Expired);
    case _ =>
  }

  lemma StepKeepsExecutors(w: World, step: Step, transactional: bool, now: nat)
    requires Good(w, transactional)
    ensures
      var w' := Next(w, step, transactional, now);
      forall e :: e in w'.live ==> ExecutorOk(w'.live[e], w'.tables.runs)
  {
    hide Asked, Close, Fresh, Open, HasPending;
    StepGrows(w, step, transactional, now);
    var w' := Next(w, step, transactional, now);
    forall e | e in w'.live ensures ExecutorOk(w'.live[e], w'.tables.runs) {
      if e in w.live { assert ExecutorOk(w.live[e], w.tables.runs); }
    }
  }

  // The steps that make a run wait.
  predicate Suspends(step: Step) {
    step.WaitForUser? || step.RequestApproval? || step.MarkApproval?
  }

  lemma SuspendingKeepsRuns(w: World, step: Step, transactional: bool, now: nat, id: Id)
    requires Good(w, transactional) && Suspends(step) && id in Next(w, step, transactional, now).tables.runs
    ensures
      var t := Next(w, step, transactional, now).tables;
      RunOk(id, t.runs[id], t.approvals, transactional)
  {
    hide Asked, Fresh;
    var e := step.executor;
    if e in w.live {
      assert ExecutorOk(w.live[e], w.tables.runs);
      if step.RequestApproval? {
        NewIsAsked(w.tables.approvals, Approval(step.approval, w.live[e].runId, Pending));
      }
    }
    assert RunOk(id, w.tables.runs[id], w.tables.approvals, transactional);
  }

  predicate Recovers(step: Step) {
    step.Restart? || step.StoppedRestart?
  }

  lemma RecoveringKeepsRuns(w: World, step: Step, transactional: bool, now: nat, id: Id)
    requires Good(w, transactional) && Recovers(step) && id in w.tables.runs
    ensures
      var t := Next(w, step, transactional, now).tables;
      id in t.runs && RunOk(id, t.runs[id], t.approvals, transactional)
  {
    hide Asked, HasPending;
    assert RunOk(id, w.tables.runs[id], w.tables.approvals, transactional);
  }

  // The steps that only write approvals, and the expiry that cancels a run as well.
  predicate WritesApprovals(step: Step) {
    step.Decide? || step.Expire? || step.CreateApproval?
  }

  lemma ApprovalStepsKeepRuns(w: World, step: Step, transactional: bool, now: nat, id: Id)
    requires Good(w, transactional) && WritesApprovals(step)
    requires id in Next(w, step, transactional, now).tables.runs
    ensures
      var t := Next(w, step, transactional, now).tables;
      RunOk(id, t.runs[id], t.approvals, transactional)
  {
    StepGrows(w, step, transactional, now);
    hide Asked, Close, Fresh, Open, HasPending;
    assert id in w.tables.runs;
    assert RunOk(id, w.tables.runs[id], w.tables.approvals, transactional);
  }

  // The steps that begin or carry on a run.
  predicate Advances(step: Step) {
    step.Create? || step.Lease? || step.Save?
  }

  lemma AdvancingKeepsRuns(w: World, step: Step, transactional: bool, now: nat, id: Id)
    requires Good(w, transactional) && Advances(step) && id in Next(w, step, transactional, now).tables.runs
    ensures
      var t := Next(w, step, transactional, now).tables;
      RunOk(id, t.runs[id], t.approvals, transactional)
  {
    hide Asked, HasPending;
    if id in w.tables.runs { assert RunOk(id, w.tables.runs[id], w.tables.approvals, transactional); }
  }

  lemma OtherStepsKeepRuns(w: World, step: Step, transactional: bool, now: nat, id: Id)
    requires Good(w, transactional) && !Suspends(step) && !Recovers(step) && !WritesApprovals(step) && !Advances(step)
    requires id in Next(w, step, transactional, now).tables.runs
    ensures
      var t := Next(w, step, transactional, now).tables;
      RunOk(id, t.runs[id], t.approvals, transactional)
  {
    StepGrows(w, step, transactional, now);
    hide Asked, Close, Fresh, Open, HasPending;
    if id in w.tables.runs { assert RunOk(id, w.tables.runs[id], w.tables.approvals, transactional); }
  }

  lemma RecoveredAreThere(w: World, step: Step, transactional: bool, now: nat, id: Id)
    requires Recovers(step) && id in Next(w, step, transactional, now).tables.runs
    ensures id in w.tables.runs
  {
    hide Settled;
  }

  lemma StepKeepsRuns(w: World, step: Step, transactional: bool, now: nat, id: Id)
    requires Good(w, transactional) && id in Next(w, step, transactional, now).tables.runs
    ensures
      var t := Next(w, step, transactional, now).tables;
      RunOk(id, t.runs[id], t.approvals, transactional)
  {
    hide Good, Next, RunOk;
    if Suspends(step) {
      SuspendingKeepsRuns(w, step, transactional, now, id);
    } else if Recovers(step) {
      RecoveredAreThere(w, step, transactional, now, id);
      RecoveringKeepsRuns(w, step, transactional, now, id);
    } else if WritesApprovals(step) {
      ApprovalStepsKeepRuns(w, step, transactional, now, id);
    } else if Advances(step) {
      AdvancingKeepsRuns(w, step, transactional, now, id);
    } else {
      OtherStepsKeepRuns(w, step, transactional, now, id);
    }
  }

  /** Whatever happens, crashes and restarts included, a waiting run has its own checkpoint. */
  lemma {:induction false} PlayIsGood(steps: seq<Step>, transactional: bool)
    ensures Good(Play(steps, transactional), transactional)
  {
    if steps != [] {
      var before := steps[..|steps| - 1];
      PlayIsGood(before, transactional);
      hide Next;
      var w, step := Play(before, transactional), steps[|steps| - 1];
      StepKeepsExecutors(w, step, transactional, |steps|);
      forall id | id in Next(w, step, transactional, |steps|).tables.runs
        ensures RunOk(id, Next(w, step, transactional, |steps|).tables.runs[id],
                      Next(w, step, transactional, |steps|).tables.approvals, transactional)
      {
        StepKeepsRuns(w, step, transactional, |steps|, id);
      }
    }
  }

  /** No step, however the executors race, and no restart makes an illegal status change. */
  lemma StepsAreLegal(w: World, step: Step, transactional: bool, now: nat, id: Id)
    requires id in w.tables.runs
    ensures
      var before, after := w.tables.runs, Next(w, step, transactional, now).tables.runs;
      id in after && (after[id].status == before[id].status || after[id].status in LegalNext(before[id].status))
  {
    hide Close, Fresh, Open, HasPending, Throws;
    StepGrows(w, step, transactional, now);
  }

  // ---- Crash anywhere, then recover -------------------------------------------------------------------

  /**
   * Stop the process after any steps and restart it: a run that was suspended for the user is still
   * waiting, from a checkpoint its continuation accepts, and no run waits without one.
   */
  lemma SuspendedRunsSurvive(steps: seq<Step>, transactional: bool, unlucky: set<Id>, id: Id)
    requires id in Play(steps, transactional).tables.runs
    ensures
      var before := Play(steps, transactional).tables.runs[id];
      var after := Play(steps + [Restart(unlucky)], transactional).tables.runs[id];
      && (before.status == WaitingUser ==> after == before && Resumable(id, after))
      && (after.status == WaitingUser || after.status == WaitingApproval ==> after == before && Resumable(id, after))
      && after.status != Created && after.status != Running
  {
    PlayIsGood(steps, transactional);
    var w := Play(steps, transactional);
    assert RunOk(id, w.tables.runs[id], w.tables.approvals, transactional);
    assert (steps + [Restart(unlucky)])[..|steps|] == steps;
  }

  // The same world, whenever its runs were last written.
  predicate SameButTimes(w: World, w': World) {
    && w.live == w'.live && w.tables.approvals == w'.tables.approvals && w.tables.runs.Keys == w'.tables.runs.Keys
    && forall id :: id in w.tables.runs ==> w.tables.runs[id].(updatedAt := 0) == w'.tables.runs[id].(updatedAt := 0)
  }

  // The interruptions that fail: of a run seen before the stop then, of any other at the next restart.
  function Unlucky(seen: set<Id>, unlucky: set<Id>, again: set<Id>): set<Id> {
    unlucky * seen + (again - seen)
  }

  lemma SettledInTheEnd(run: Run, id: Id, approvals: seq<Approval>, seen: set<Id>, unlucky: set<Id>, again: set<Id>,
                        now: nat, later: nat, once: nat)
    ensures
      var stopped := if id in seen then Settled(run, id, approvals, unlucky, now) else run;
      Settled(stopped, id, approvals, again, later).(updatedAt := 0) ==
      Settled(run, id, approvals, Unlucky(seen, unlucky, again), once).(updatedAt := 0)
  {
    hide HasPending;
  }

  lemma StoppedOnce(w: World, seen: set<Id>, unlucky: set<Id>, again: set<Id>, transactional: bool, now: nat,
                    later: nat, once: nat)
    ensures
      var stopped := Next(w, StoppedRestart(seen, unlucky), transactional, now);
      SameButTimes(Next(stopped, Restart(again), transactional, later),
                   Next(w, Restart(Unlucky(seen, unlucky, again)), transactional, once))
  {
    var stopped := Next(w, StoppedRestart(seen, unlucky), transactional, now);
    var last := Next(stopped, Restart(again), transactional, later);
    var single := Next(w, Restart(Unlucky(seen, unlucky, again)), transactional, once);
    hide Settled, Unlucky;
    forall id | id in w.tables.runs
      ensures last.tables.runs[id].(updatedAt := 0) == single.tables.runs[id].(updatedAt := 0)
    {
      SettledInTheEnd(w.tables.runs[id], id, w.tables.approvals, seen, unlucky, again, now, later, once);
    }
  }

  /**
   * However often the process dies in the middle of its startup recovery, the recovery that gets
   * through ends where a single one would have: the same statuses, checkpoints and approvals.
   */
  lemma {:induction false} StoppedRecoveries(steps: seq<Step>, stops: seq<Step>, again: set<Id>, transactional: bool)
    returns (unlucky: set<Id>)
    requires forall s :: s in stops ==> s.StoppedRestart?
    ensures SameButTimes(Play(steps + stops + [Restart(again)], transactional),
                         Play(steps + [Restart(unlucky)], transactional))
  {
    hide Next, SameButTimes;
    unlucky := again;
    LastStep(steps + stops, Restart(again), transactional);
    if stops == [] {
      assert steps + stops == steps;
      SameIsSame(Play(steps + [Restart(again)], transactional));
    } else {
      var n := |stops| - 1;
      var before, s := steps + stops[..n], stops[n];
      assert s in stops && steps + stops == before + [s];
      var mixed := Unlucky(s.seen, s.unlucky, again);
      LastStep(before, s, transactional);
      LastStep(before, Restart(mixed), transactional);
      StoppedOnce(Play(before, transactional), s.seen, s.unlucky, again, transactional,
                  |before| + 1, |before| + 2, |before| + 1);
      unlucky := StoppedRecoveries(steps, stops[..n], mixed, transactional);
      SameIsTransitive(Play(steps + stops + [Restart(again)], transactional),
                       Play(before + [Restart(mixed)], transactional), Play(steps + [Restart(unlucky)], transactional));
    }
  }

  lemma LastStep(steps: seq<Step>, step: Step, transactional: bool)
    ensures Play(steps + [step], transactional) == Next(Play(steps, transactional), step, transactional, |steps| + 1)
  {
    assert (steps + [step])[..|steps|] == steps;
  }

  lemma SameIsSame(w: World)
    ensures SameButTimes(w, w)
  {
  }

  lemma SameIsTransitive(a: World, b: World, c: World)
    requires SameButTimes(a, b) && SameButTimes(b, c)
    ensures SameButTimes(a, c)
  {
  }

  /** A restart fails a run that waits for an approval exactly when none of its approvals is pending. */
  lemma WaitingForApprovalFailsIff(steps: seq<Step>, transactional: bool, unlucky: set<Id>, id: Id)
    requires id in Play(steps, transactional).tables.runs
    requires Play(steps, transactional).tables.runs[id].status == WaitingApproval
    ensures
      var after := Play(steps + [Restart(unlucky)], transactional).tables.runs;
      id in after && (after[id].status == Failed <==> !HasPending(Play(steps, transactional).tables.approvals, id))
  {
    LastStep(steps, Restart(unlucky), transactional);
    hide Play, HasPending;
  }

  // Every approval of the run has been answered or has run out.
  predicate Answered(approvals: seq<Approval>, id: Id) {
    Asked(approvals, id) && !HasPending(approvals, id)
  }

  /**
   * With the transactional service a restart fails a run that waits for an approval exactly when its
   * approvals have all been answered and nobody has taken the run up yet.
   */
  lemma ApprovalRunFailsIff(steps: seq<Step>, unlucky: set<Id>, id: Id)
    requires id in Play(steps, true).tables.runs && Play(steps, true).tables.runs[id].status == WaitingApproval
    ensures Play(steps + [Restart(unlucky)], true).tables.runs[id].status == Failed
            <==> Answered(Play(steps, true).tables.approvals, id)
  {
    PlayIsGood(steps, true);
    var w := Play(steps, true);
    WaitingForApprovalFailsIff(steps, true, unlucky, id);
    hide Play, HasPending, Asked;
    assert RunOk(id, w.tables.runs[id], w.tables.approvals, true);
  }

  predicate WaitsAsked(w: World, id: Id) {
    id in w.tables.runs && w.tables.runs[id].status == WaitingApproval ==> Asked(w.tables.approvals, id)
  }

  // Whenever a run waits for an approval, one has been requested.
  ghost predicate AlwaysAsked(transactional: bool) {
    forall steps, id :: WaitsAsked(Play(steps, transactional), id)
  }

  /** A run never waits for an approval nobody has been asked for exactly when requests are transactional. */
  lemma AlwaysAskedIff(transactional: bool)
    ensures AlwaysAsked(transactional) <==> transactional
  {
    hide Play;
    if transactional {
      forall steps, id ensures WaitsAsked(Play(steps, transactional), id) {
        PlayIsGood(steps, transactional);
        var w := Play(steps, transactional);
        if id in w.tables.runs { assert RunOk(id, w.tables.runs[id], w.tables.approvals, transactional); }
      }
    } else {
      UnaskedRunIsFailed({});
      assert !WaitsAsked(Play(ABOUT_TO_ASK + [MarkApproval(0)], false), 0);
    }
  }

  // A run that has just saved its checkpoint for an approval.
  const ABOUT_TO_ASK: seq<Step> := [Create(0, 0), Lease(0, 0), Save(0, SavedForApproval)]

  lemma CreatesAndLeases(transactional: bool)
    ensures
      var created := World(Tables(map[0 := Run(Created, 0, 1, None)], []), map[]);
      && Next(START, Create(0, 0), transactional, 1) == created
      && Next(created, Lease(0, 0), transactional, 2) ==
         World(Tables(map[0 := Run(Running, 0, 2, None)], []), map[0 := Executor(0, Working)])
  {
  }

  lemma Saves(transactional: bool)
    ensures
      var leased := World(Tables(map[0 := Run(Running, 0, 2, None)], []), map[0 := Executor(0, Working)]);
      Next(leased, Save(0, SavedForApproval), transactional, 3) ==
      World(Tables(map[0 := Run(Running, 0, 3, Some(Checkpoint(0, 0, true)))], []),
            map[0 := Executor(0, SavedForApproval)])
  {
  }

  lemma AboutToAskWorld(transactional: bool)
    ensures Play(ABOUT_TO_ASK, transactional) ==
      World(Tables(map[0 := Run(Running, 0, 3, Some(Checkpoint(0, 0, true)))], []),
            map[0 := Executor(0, SavedForApproval)])
  {
    var s1: seq<Step> := [] + [Create(0, 0)];
    var s2 := s1 + [Lease(0, 0)];
    assert ABOUT_TO_ASK == s2 + [Save(0, SavedForApproval)];
    assert Play([], transactional) == START;
    hide Play, Next;
    LastStep([], Create(0, 0), transactional);
    LastStep(s1, Lease(0, 0), transactional);
    LastStep(s2, Save(0, SavedForApproval), transactional);
    CreatesAndLeases(transactional);
    Saves(transactional);
  }

  /** That case is real: an answer that no continuation has picked up before the crash is lost. */
  lemma AnsweredRunIsFailed()
    ensures
      var w := Play(ABOUT_TO_ASK + [RequestApproval(0, 0)] + [Decide(0)], true);
      0 in w.tables.runs && w.tables.runs[0].status == WaitingApproval && Answered(w.tables.approvals, 0)
  {
    AboutToAskWorld(true);
    LastStep(ABOUT_TO_ASK, RequestApproval(0, 0), true);
    LastStep(ABOUT_TO_ASK + [RequestApproval(0, 0)], Decide(0), true);
    hide Play;
    var w := Play(ABOUT_TO_ASK + [RequestApproval(0, 0)], true);
    assert w.tables.approvals == [Approval(0, 0, Pending)];
    assert Close(w.tables.approvals, 0, Decided)[0].runId == 0;
  }

  lemma MarkedWorld()
    ensures Play(ABOUT_TO_ASK + [MarkApproval(0)], false).tables ==
      Tables(map[0 := Run(WaitingApproval, 0, 4, Some(Checkpoint(0, 0, true)))], [])
  {
    AboutToAskWorld(false);
    LastStep(ABOUT_TO_ASK, MarkApproval(0), false);
    hide Play;
  }

  /**
   * Without the transactional service the run is marked before its approval exists. A crash between
   * the two leaves a suspended run that the restart fails.
   */
  lemma UnaskedRunIsFailed(unlucky: set<Id>)
    ensures
      var w := Play(ABOUT_TO_ASK + [MarkApproval(0)], false);
      0 in w.tables.runs && w.tables.runs[0].status == WaitingApproval && !Asked(w.tables.approvals, 0)
    ensures
      var w := Play(ABOUT_TO_ASK + [MarkApproval(0)] + [Restart(unlucky)], false);
      0 in w.tables.runs && w.tables.runs[0].status == Failed
  {
    MarkedWorld();
    WaitingForApprovalFailsIff(ABOUT_TO_ASK + [MarkApproval(0)], false, unlucky, 0);
    hide Play;
  }

  /**
   * Recovery looks less closely than a continuation: over tables the engine did not write, a waiting
   * run is kept and can still not be resumed exactly when its checkpoint belongs to another run or
   * conversation.
   */
  lemma KeptButStuckIff(t: Tables, unlucky: set<Id>, now: nat, id: Id)
    requires id in t.runs && t.runs[id].status == WaitingUser
    ensures
      var run := Recovered(t, unlucky, now).runs[id];
      run.status == WaitingUser && !Resumable(id, run) <==>
        Parses(t.runs[id]) && (t.runs[id].checkpoint.value.runId != id
                               || t.runs[id].checkpoint.value.conversationId != t.runs[id].conversationId)
  {
  }

  /** An interrupted run can be taken up again exactly when it had saved a checkpoint before the crash. */
  lemma InterruptedResumesIff(steps: seq<Step>, transactional: bool, unlucky: set<Id>, id: Id, executor: Id)
    requires id in Play(steps, transactional).tables.runs && id !in unlucky
    requires Play(steps, transactional).tables.runs[id].status == Running
    ensures
      var after := Play(steps + [Restart(unlucky)], transactional);
      && after.tables.runs[id].status == Interrupted
      && (CanLease(after, executor, id) <==> Play(steps, transactional).tables.runs[id].checkpoint.Some?)
  {
    PlayIsGood(steps, transactional);
    var w := Play(steps, transactional);
    assert RunOk(id, w.tables.runs[id], w.tables.approvals, transactional);
  }
}
