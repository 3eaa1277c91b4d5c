/** The table of legal status changes. */
module RunStateMachine {
  datatype Status = Created | Running | WaitingApproval | WaitingUser | Completed | Cancelled | Failed | Interrupted

  function LegalNext(s: Status): set<Status> {
    match s
    case Created => {Running, Cancelled, Failed}
    case Running => {WaitingApproval, WaitingUser, Completed, Cancelled, Failed, Interrupted}
    case WaitingApproval => {Running, Cancelled, Failed, Interrupted}
    case WaitingUser => {Running, Cancelled, Failed, Interrupted}
    case Interrupted => {Running, Cancelled, Failed}
    case _ => {}
  }

  predicate Terminal(s: Status) {
    LegalNext(s) == {}
  }
}

/** Run statuses, the manager's commands and what every interleaving of coordinators keeps. */
module RunLifecycle {
  import opened Wrappers
  import opened RunStateMachine

  type RunId(==, !new)

  datatype Entry = Entry(runId: RunId, previous: Option<Status>, next: Status)

  // One awaited call on the manager. Coordinators interleave between calls, never inside one.
  datatype Command =
    | Create(id: RunId)
    | Mark(id: RunId, next: Status)
    | MarkFailed(id: RunId)
    | Acquire(id: RunId, expected: set<Status>)
    | Look(id: RunId)

  datatype Reply = Fine(status: Status) | NotAcquired(status: Status) | NotFound | Conflict

  // history is the whole history; the manager retains its newest part.
  datatype World = World(status: map<RunId, Status>, history: seq<Entry>)

  const EMPTY: World := World(map[], [])

  function Move(w: World, id: RunId, next: Status): World
    requires id in w.status
  {
    World(w.status[id := next], w.history + [Entry(id, Some(w.status[id]), next)])
  }

  // Same status and terminal statuses are quietly left alone; an illegal move is an error.
  function MarkStatus(w: World, id: RunId, next: Status): (World, Reply) {
    if id !in w.status then (w, NotFound)
    else if w.status[id] == next || Terminal(w.status[id]) then (w, Fine(w.status[id]))
    else if next !in LegalNext(w.status[id]) then (w, Conflict)
    else (Move(w, id, next), Fine(next))
  }

  function Exec(w: World, c: Command): (World, Reply) {
    match c
    case Create(id) => (World(w.status[id := Created], w.history + [Entry(id, None, Created)]), Fine(Created))
    case Mark(id, next) => MarkStatus(w, id, next)
    case MarkFailed(id) => MarkStatus(w, id, Failed)
    case Acquire(id, expected) =>
      if id !in w.status then (w, NotFound)
      else if w.status[id] !in expected then (w, NotAcquired(w.status[id]))
      else (Move(w, id, Running), Fine(Running))
    case Look(id) => if id in w.status then (w, Fine(w.status[id])) else (w, NotFound)
  }

  function After(cs: seq<Command>): World {
    if cs == [] then EMPTY else Exec(After(cs[..|cs| - 1]), cs[|cs| - 1]).0
  }

  // What the coordinators send: run ids are fresh, and a lease is only asked of a resting run.
  predicate Resting(s: Status) {
    s == Created || s == WaitingApproval || s == WaitingUser || s == Interrupted
  }

  predicate Coordinated(w: World, c: Command) {
    match c
    case Create(id) => id !in w.status
    case Acquire(_, expected) => forall s :: s in expected ==> Resting(s)
    case _ => true
  }

  predicate AllCoordinated(cs: seq<Command>) {
    cs == [] || (AllCoordinated(cs[..|cs| - 1]) && Coordinated(After(cs[..|cs| - 1]), cs[|cs| - 1]))
  }

  // ---- History ---------------------------------------------------------------------------------

  function Of(history: seq<Entry>, id: RunId): seq<Entry> {
    if history == [] then []
    else
      var e := history[|history| - 1];
      Of(history[..|history| - 1], id) + if e.runId == id then [e] else []
  }

  // A gap-free chain of legal moves that starts at the creation of the run.
  predicate Chain(es: seq<Entry>) {
    && (es != [] ==> es[0].previous == None && es[0].next == Created)
    && forall k :: 0 < k < |es| ==> es[k].previous == Some(es[k - 1].next) && es[k].next in LegalNext(es[k - 1].next)
  }

  ghost predicate Recorded(w: World) {
    forall id ::
      && Chain(Of(w.history, id))
      && (id in w.status <==> Of(w.history, id) != [])
      && (id in w.status ==> w.status[id] == Of(w.history, id)[|Of(w.history, id)| - 1].next)
  }

  lemma OfAppend(history: seq<Entry>, e: Entry, id: RunId)
    ensures Of(history + [e], id) == Of(history, id) + if e.runId == id then [e] else []
  {
    assert (history + [e])[..|history|] == history;
  }

  // One more entry that continues the record of its run.
  predicate Continues(w: World, e: Entry) {
    if e.previous == None then e.runId !in w.status && e.next == Created
    else e.runId in w.status && e.previous == Some(w.status[e.runId]) && e.next in LegalNext(w.status[e.runId])
  }

  lemma CommandAppends(w: World, c: Command)
    requires Coordinated(w, c)
    ensures
      var w' := Exec(w, c).0;
      w' == w || (|w'.history| == |w.history| + 1
                  && var e := w'.history[|w.history|];
                     Continues(w, e) && w'.history == w.history + [e] && w'.status == w.status[e.runId := e.next])
  {
  }

  lemma ChainGrows(es: seq<Entry>, e: Entry)
    requires Chain(es)
    requires if es == [] then e.previous == None && e.next == Created
             else e.previous == Some(es[|es| - 1].next) && e.next in LegalNext(es[|es| - 1].next)
    ensures Chain(es + [e])
  {
    hide LegalNext;
  }

  lemma EntryKeepsRecord(w: World, e: Entry)
    requires Recorded(w) && Continues(w, e)
    ensures Recorded(World(w.status[e.runId := e.next], w.history + [e]))
  {
    var w' := World(w.status[e.runId := e.next], w.history + [e]);
    forall id
      ensures Chain(Of(w'.history, id))
      ensures id in w'.status <==> Of(w'.history, id) != []
      ensures id in w'.status ==> w'.status[id] == Of(w'.history, id)[|Of(w'.history, id)| - 1].next
    {
      OfAppend(w.history, e, id);
      assert Chain(Of(w.history, id));
      hide Of, LegalNext;
      if e.runId == id {
        ChainGrows(Of(w.history, id), e);
      } else {
        assert Of(w.history, id) + [] == Of(w.history, id);
      }
      hide Chain;
    }
  }

  lemma CommandKeepsRecord(w: World, c: Command)
    requires Recorded(w) && Coordinated(w, c)
    ensures Recorded(Exec(w, c).0)
  {
    hide Recorded, Exec, Coordinated, Continues;
    CommandAppends(w, c);
    if Exec(w, c).0 != w {
      EntryKeepsRecord(w, Exec(w, c).0.history[|w.history|]);
    }
  }

  /** For every run the history is a gap-free chain of legal moves from created to the current status. */
  lemma {:induction false} HistoryIsChain(cs: seq<Command>)
    requires AllCoordinated(cs)
    ensures Recorded(After(cs))
  {
    if cs != [] {
      var n := |cs| - 1;
      HistoryIsChain(cs[..n]);
      CommandKeepsRecord(After(cs[..n]), cs[n]);
    }
  }

  // ---- The retained part -------------------------------------------------------------------------

  const MAX_HISTORY: nat := 1000

  function Newest(history: seq<Entry>): seq<Entry> {
    if |history| <= MAX_HISTORY then history else history[|history| - MAX_HISTORY..]
  }

  lemma {:induction false} OfConcat(a: seq<Entry>, b: seq<Entry>, id: RunId)
    ensures Of(a + b, id) == Of(a, id) + Of(b, id)
  {
    if b == [] {
      assert a + b == a;
    } else {
      var n := |b| - 1;
      OfConcat(a, b[..n], id);
      assert (a + b)[..|a + b| - 1] == a + b[..n];
    }
  }

  predicate Suffix(part: seq<Entry>, whole: seq<Entry>) {
    |part| <= |whole| && part == whole[|whole| - |part|..]
  }

  /** What the manager still remembers of a run is a suffix of the run's whole chain, without gaps. */
  lemma RetainedIsSuffix(cs: seq<Command>, id: RunId)
    requires AllCoordinated(cs)
    ensures
      var whole, kept := Of(After(cs).history, id), Of(Newest(After(cs).history), id);
      && Suffix(kept, whole) && Chain(whole)
      && forall k :: 0 < k < |kept| ==> kept[k].previous == Some(kept[k - 1].next)
  {
    HistoryIsChain(cs);
    assert Chain(Of(After(cs).history, id));
    hide After, AllCoordinated, Recorded, Chain, Of, Newest, Suffix;
    NewestIsSuffix(After(cs).history, id);
    SuffixOfChain(Of(Newest(After(cs).history), id), Of(After(cs).history, id));
  }

  lemma NewestIsSuffix(history: seq<Entry>, id: RunId)
    ensures Suffix(Of(Newest(history), id), Of(history, id))
  {
    var kept := Newest(history);
    var dropped := history[..|history| - |kept|];
    assert history == dropped + kept;
    OfConcat(dropped, kept, id);
    hide Of;
  }

  lemma SuffixOfChain(kept: seq<Entry>, whole: seq<Entry>)
    requires Suffix(kept, whole) && Chain(whole)
    ensures forall k :: 0 < k < |kept| ==> kept[k].previous == Some(kept[k - 1].next)
  {
    forall k | 0 < k < |kept| ensures kept[k].previous == Some(kept[k - 1].next) {
      var n := |whole| - |kept| + k;
      assert kept[k] == whole[n] && kept[k - 1] == whole[n - 1];
    }
  }

  // ---- Terminal statuses ---------------------------------------------------------------------------

  lemma CommandKeepsTerminal(w: World, c: Command, id: RunId)
    requires Coordinated(w, c) && id in w.status && Terminal(w.status[id])
    ensures id in Exec(w, c).0.status && Exec(w, c).0.status[id] == w.status[id]
  {
  }

  /** A terminal status is never left, whoever still sends commands for the run. */
  lemma {:induction false} TerminalIsForever(cs: seq<Command>, n: nat, id: RunId)
    requires AllCoordinated(cs) && n <= |cs|
    requires id in After(cs[..n]).status && Terminal(After(cs[..n]).status[id])
    ensures id in After(cs).status && After(cs).status[id] == After(cs[..n]).status[id]
    decreases |cs|
  {
    if n == |cs| {
      assert cs[..n] == cs;
    } else {
      var m := |cs| - 1;
      assert cs[..m][..n] == cs[..n];
      TerminalIsForever(cs[..m], n, id);
      CommandKeepsTerminal(After(cs[..m]), cs[m], id);
    }
  }

  // ---- The execution lease ---------------------------------------------------------------------------

  predicate TakesLease(cs: seq<Command>, k: nat, id: RunId) {
    k < |cs| && cs[k].Acquire? && cs[k].id == id && Exec(After(cs[..k]), cs[k]).1 == Fine(Running)
  }

  predicate RunningAt(cs: seq<Command>, k: nat, id: RunId) {
    k <= |cs| && id in After(cs[..k]).status && After(cs[..k]).status[id] == Running
  }

  // A command that takes the run out of running, legally and on record.
  predicate LeavesRunning(cs: seq<Command>, k: nat, id: RunId) {
    && k < |cs| && RunningAt(cs, k, id) && !RunningAt(cs, k + 1, id)
    && (cs[k].Mark? || cs[k].MarkFailed?) && cs[k].id == id
  }

  lemma {:induction false} SomethingLeaves(cs: seq<Command>, i: nat, j: nat, id: RunId)
    requires AllCoordinated(cs) && i <= j <= |cs|
    requires RunningAt(cs, i, id) && !RunningAt(cs, j, id)
    ensures exists k :: i <= k < j && LeavesRunning(cs, k, id)
    decreases j - i
  {
    var m := j - 1;
    CommandAt(cs, m);
    hide After, AllCoordinated;
    if RunningAt(cs, m, id) {
      assert LeavesRunning(cs, m, id);
    } else {
      SomethingLeaves(cs, i, m, id);
    }
  }

  lemma {:induction false} PrefixCoordinated(cs: seq<Command>, n: nat)
    requires AllCoordinated(cs) && n <= |cs|
    ensures AllCoordinated(cs[..n])
    decreases |cs|
  {
    if n == |cs| {
      assert cs[..n] == cs;
    } else {
      assert cs[..|cs| - 1][..n] == cs[..n];
      PrefixCoordinated(cs[..|cs| - 1], n);
    }
  }

  lemma CommandAt(cs: seq<Command>, k: nat)
    requires AllCoordinated(cs) && k < |cs|
    ensures After(cs[..k + 1]) == Exec(After(cs[..k]), cs[k]).0
    ensures Coordinated(After(cs[..k]), cs[k])
  {
    PrefixCoordinated(cs, k + 1);
    assert cs[..k + 1][..k] == cs[..k];
  }

  /** Between two leases of a run some coordinator has taken it out of running. */
  lemma LeasesAreSeparated(cs: seq<Command>, i: nat, j: nat, id: RunId)
    requires AllCoordinated(cs) && i < j && TakesLease(cs, i, id) && TakesLease(cs, j, id)
    ensures exists k :: i < k < j && LeavesRunning(cs, k, id)
  {
    CommandAt(cs, i);
    CommandAt(cs, j);
    assert RunningAt(cs, i + 1, id) && !RunningAt(cs, j, id) by {
      hide After, AllCoordinated;
    }
    hide *;
    SomethingLeaves(cs, i + 1, j, id);
  }

  // Two leases in a row with nothing in between, granted to this set of expected statuses.
  ghost predicate GrantsTwice(expected: set<Status>) {
    exists w: World, id: RunId ::
      Exec(w, Acquire(id, expected)).1 == Fine(Running)
      && Exec(Exec(w, Acquire(id, expected)).0, Acquire(id, expected)).1 == Fine(Running)
  }

  /** The manager itself guards a lease exactly as long as nobody expects a running run. */
  lemma GrantsTwiceIff(expected: set<Status>, anyone: RunId)
    ensures GrantsTwice(expected) <==> Running in expected
  {
    if Running in expected {
      var w := World(map[anyone := Running], []);
      assert Exec(w, Acquire(anyone, expected)).1 == Fine(Running);
    }
  }
}

/** The in-memory manager: a map of runs and a capped history. */
module RunStateManager {
  import opened Wrappers
  import opened RunLifecycle
  import opened RunStateMachine

  datatype RunState = RunState(status: Status, previousStatus: Option<Status>, taskState: Option<string>,
    error: Option<string>)

  class InMemoryRunStateManager {
    var runs: map<RunId, RunState>
    var history: seq<Entry>
    ghost var all: seq<Entry>

    constructor ()
      ensures Matches(EMPTY)
    {
      runs, history, all := map[], [], [];
    }

    // The manager's fields show this world; of its history only the newest part is kept.
    ghost predicate Matches(w: World)
      reads this
    {
      && runs.Keys == w.status.Keys && (forall id :: id in runs ==> runs[id].status == w.status[id])
      && all == w.history && history == Newest(w.history)
    }

    // The run has gone over to the status, and that is on record.
    twostate predicate Moved(id: RunId, next: Status, error: Option<string>)
      reads this
    {
      && id in old(runs)
      && runs == old(runs)[id := RunState(next, Some(old(runs)[id].status), old(runs)[id].taskState, error)]
      && all == old(all) + [Entry(id, Some(old(runs)[id].status), next)]
    }

    twostate predicate Untouched()
      reads this
    {
      runs == old(runs) && history == old(history) && all == old(all)
    }

    method RecordHistory(e: Entry)
      requires history == Newest(all)
      modifies this`history, this`all
      ensures all == old(all) + [e] && history == Newest(all)
    {
      history := history + [e];
      if |history| > MAX_HISTORY { history := history[|history| - MAX_HISTORY..]; }
      all := all + [e];
    }

    method CreateRun(id: RunId, ghost w: World)
      requires Matches(w)
      modifies this
      ensures Matches(Exec(w, Create(id)).0)
      ensures runs == old(runs)[id := RunState(Created, None, None, None)]
      ensures all == old(all) + [Entry(id, None, Created)]
    {
      runs := runs[id := RunState(Created, None, None, None)];
      RecordHistory(Entry(id, None, Created));
    }

    method MarkStatus(id: RunId, next: Status, ghost w: World) returns (reply: Reply)
      requires Matches(w)
      modifies this
      ensures Matches(Exec(w, Mark(id, next)).0) && reply == Exec(w, Mark(id, next)).1
      ensures id !in old(runs) ==> reply == NotFound && Untouched()
      ensures id in old(runs) ==>
        var status := old(runs)[id].status;
        if status != next && next in LegalNext(status) then
          reply == Fine(next) && Moved(id, next, old(runs)[id].error)
        else Untouched() && reply == if status == next || LegalNext(status) == {} then Fine(status) else Conflict
    {
      if id !in runs { return NotFound; }
      var current := runs[id];
      if current.status == next { return Fine(current.status); }
      if Terminal(current.status) { return Fine(current.status); }
      if next !in LegalNext(current.status) { return Conflict; }
      runs := runs[id := current.(status := next, previousStatus := Some(current.status))];
      RecordHistory(Entry(id, Some(current.status), next));
      return Fine(next);
    }

    method FailRun(id: RunId, message: string, ghost w: World) returns (reply: Reply)
      requires Matches(w)
      modifies this
      ensures Matches(Exec(w, MarkFailed(id)).0) && reply == Exec(w, MarkFailed(id)).1
      ensures id !in old(runs) ==> reply == NotFound && Untouched()
      ensures id in old(runs) ==>
        var status := old(runs)[id].status;
        if Failed in LegalNext(status) then reply == Fine(Failed) && Moved(id, Failed, Some(message))
        else Untouched() && reply == if LegalNext(status) == {} then Fine(status) else Conflict
    {
      if id !in runs { return NotFound; }
      var current := runs[id];
      if Terminal(current.status) { return Fine(current.status); }
      if Failed !in LegalNext(current.status) { return Conflict; }
      runs := runs[id := current.(status := Failed, previousStatus := Some(current.status), error := Some(message))];
      RecordHistory(Entry(id, Some(current.status), Failed));
      return Fine(Failed);
    }

    method AcquireExecution(id: RunId, expected: set<Status>, ghost w: World) returns (reply: Reply)
      requires Matches(w)
      modifies this
      ensures Matches(Exec(w, Acquire(id, expected)).0) && reply == Exec(w, Acquire(id, expected)).1
      ensures id !in old(runs) ==> reply == NotFound && Untouched()
      ensures id in old(runs) ==>
        var status := old(runs)[id].status;
        if status in expected then reply == Fine(Running) && Moved(id, Running, old(runs)[id].error)
        else Untouched() && reply == NotAcquired(status)
    {
      if id !in runs { return NotFound; }
      var current := runs[id];
      if current.status !in expected { return NotAcquired(current.status); }
      runs := runs[id := current.(status := Running, previousStatus := Some(current.status))];
      RecordHistory(Entry(id, Some(current.status), Running));
      return Fine(Running);
    }

    method SaveTaskState(id: RunId, taskState: string, ghost w: World) returns (reply: Reply)
      requires Matches(w)
      modifies this
      ensures Matches(w) && reply == if id in old(runs) then Fine(old(runs)[id].status) else NotFound
      ensures id in old(runs) ==> runs == old(runs)[id := old(runs)[id].(taskState := Some(taskState))]
      ensures id !in old(runs) ==> runs == old(runs)
    {
      if id !in runs { return NotFound; }
      runs := runs[id := runs[id].(taskState := Some(taskState))];
      return Fine(runs[id].status);
    }

    method GetHistory(id: RunId) returns (entries: seq<Entry>)
      ensures entries == Of(history, id)
    {
      entries := [];
      for i := 0 to |history|
        invariant entries == Of(history[..i], id)
      {
        OfAppend(history[..i], history[i], id);
        assert history[..i + 1] == history[..i] + [history[i]];
        if history[i].runId == id { entries := entries + [history[i]]; }
      }
      assert history[..|history|] == history;
    }
  }
}
