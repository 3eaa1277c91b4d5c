/** The restart scan: four loops over the paged runs of one status each. */
module Recovery {
  import opened Wrappers
  import opened RunStateMachine
  import opened RecoveryProtocol
  import opened KeysetPaging

  const PAGE: nat := 200

  // ---- The listing of one status -------------------------------------------------------------------

  function KeysOf(runs: Runs, status: Status): set<Key> {
    set id | id in runs && runs[id].status == status :: Key(runs[id].updatedAt, id)
  }

  function Ids(keys: seq<Key>): (ids: seq<Id>)
    ensures |ids| == |keys| && forall i :: 0 <= i < |keys| ==> ids[i] == keys[i].id
  {
    seq(|keys|, i requires 0 <= i < |keys| => keys[i].id)
  }

  // The runs of a status, most recently updated first.
  ghost function Listing(runs: Runs, status: Status): seq<Id> {
    Ids(Ordered(KeysOf(runs, status)))
  }

  predicate Distinct(ids: seq<Id>) {
    forall i, j :: 0 <= i < j < |ids| ==> ids[i] != ids[j]
  }

  lemma ListingSpec(runs: Runs, status: Status)
    ensures Distinct(Listing(runs, status))
    ensures forall id :: id in Listing(runs, status) <==> id in runs && runs[id].status == status
  {
    var keys := KeysOf(runs, status);
    OrderedSpec(keys);
    var order := Ordered(keys);
    hide Ordered;
    forall id ensures id in Listing(runs, status) <==> id in runs && runs[id].status == status {
      if id in runs && runs[id].status == status {
        assert Key(runs[id].updatedAt, id) in order;
        var i :| 0 <= i < |order| && order[i] == Key(runs[id].updatedAt, id);
        assert Ids(order)[i] == id;
      }
      if id in Ids(order) {
        var i :| 0 <= i < |order| && Ids(order)[i] == id;
        assert order[i] in keys;
      }
    }
    forall i, j | 0 <= i < j < |order| ensures Ids(order)[i] != Ids(order)[j] {
      assert order[i] in keys && order[j] in keys;
    }
  }

  // ---- What the scan reports -----------------------------------------------------------------------

  datatype Report = Report(recovered: seq<Id>, interrupted: seq<Id>, failed: seq<Id>, snapshotted: seq<Id>)

  // The ids, in order, that a restart moves to the given status.
  function MovedTo(ids: seq<Id>, next: Status, t: Tables, unlucky: set<Id>): seq<Id> {
    if ids == [] then []
    else MovedTo(ids[..|ids| - 1], next, t, unlucky) + Moved(ids[|ids| - 1], next, t, unlucky)
  }

  function Moved(id: Id, next: Status, t: Tables, unlucky: set<Id>): seq<Id> {
    if id in t.runs && Verdict(t.runs[id], id, t.approvals, unlucky) == next then [id] else []
  }

  function PendingOf(approvals: seq<Approval>, id: Id): seq<Id> {
    if approvals == [] then []
    else
      (if approvals[0].runId == id && approvals[0].state == Pending then [approvals[0].id] else [])
        + PendingOf(approvals[1..], id)
  }

  lemma {:induction false} PendingMeansSome(approvals: seq<Approval>, id: Id)
    ensures PendingOf(approvals, id) != [] <==> HasPending(approvals, id)
  {
    if approvals != [] {
      PendingMeansSome(approvals[1..], id);
      if HasPending(approvals, id) {
        var i :| 0 <= i < |approvals| && approvals[i].runId == id && approvals[i].state == Pending;
        if i > 0 { assert approvals[1..][i - 1] == approvals[i]; }
      }
      if HasPending(approvals[1..], id) {
        var i :| 0 <= i < |approvals[1..]| && approvals[1..][i].runId == id && approvals[1..][i].state == Pending;
        assert approvals[i + 1] == approvals[1..][i];
      }
    }
  }

  predicate IsPendingOf(a: Approval, id: Id) {
    a.runId == id && a.state == Pending
  }

  // The approvals at these places, from the given one on, are pending ones of the run, and in order.
  ghost predicate PendingAt(approvals: seq<Approval>, id: Id, ids: seq<Id>, from: nat, places: seq<nat>) {
    && |places| == |ids|
    && (forall k :: 0 <= k < |places| ==>
          from <= places[k] < |approvals| && IsPendingOf(approvals[places[k]], id) && approvals[places[k]].id == ids[k])
    && (forall k, l :: 0 <= k < l < |places| ==> places[k] < places[l])
  }

  // No other place from there up to the end stands for a pending one.
  ghost predicate PendingOnlyAt(approvals: seq<Approval>, id: Id, from: nat, to: nat, places: seq<nat>) {
    forall i :: from <= i < to && i < |approvals| && IsPendingOf(approvals[i], id) ==> i in places
  }

  // The first page of the pending approvals of the run: all of them, or as many as fit.
  ghost predicate FirstPending(approvals: seq<Approval>, id: Id, ids: seq<Id>) {
    exists places, to: nat :: PendingAt(approvals, id, ids, 0, places) && PendingOnlyAt(approvals, id, 0, to, places)
      && (to >= |approvals| || |ids| == PAGE) && |ids| <= PAGE
  }

  lemma PendingNext(approvals: seq<Approval>, id: Id, from: nat)
    requires from < |approvals|
    ensures
      var more := PendingOf(approvals[from + 1..], id);
      PendingOf(approvals[from..], id) ==
      if IsPendingOf(approvals[from], id) then [approvals[from].id] + more else more
  {
    assert approvals[from..][1..] == approvals[from + 1..] && approvals[from..][0] == approvals[from];
    assert [] + PendingOf(approvals[from + 1..], id) == PendingOf(approvals[from + 1..], id);
  }

  lemma PlaceOne(approvals: seq<Approval>, id: Id, more: seq<Id>, from: nat, rest: seq<nat>)
    requires from < |approvals| && PendingAt(approvals, id, more, from + 1, rest)
    requires PendingOnlyAt(approvals, id, from + 1, |approvals|, rest)
    ensures
      if IsPendingOf(approvals[from], id) then
        && PendingAt(approvals, id, [approvals[from].id] + more, from, [from] + rest)
        && PendingOnlyAt(approvals, id, from, |approvals|, [from] + rest)
      else PendingAt(approvals, id, more, from, rest) && PendingOnlyAt(approvals, id, from, |approvals|, rest)
  {
    hide IsPendingOf;
  }

  lemma {:induction false} PendingPlaces(approvals: seq<Approval>, id: Id, from: nat) returns (places: seq<nat>)
    requires from <= |approvals|
    ensures PendingAt(approvals, id, PendingOf(approvals[from..], id), from, places)
    ensures PendingOnlyAt(approvals, id, from, |approvals|, places)
    decreases |approvals| - from
  {
    if from == |approvals| {
      places := [];
    } else {
      var rest := PendingPlaces(approvals, id, from + 1);
      hide *;
      PendingNext(approvals, id, from);
      PlaceOne(approvals, id, PendingOf(approvals[from + 1..], id), from, rest);
      places := if IsPendingOf(approvals[from], id) then [from] + rest else rest;
    }
  }

  /** What is announced again are the newest pending approvals of the run. */
  lemma SnapshotIs(approvals: seq<Approval>, id: Id)
    ensures FirstPending(approvals, id, Snapshot(approvals, id))
  {
    var places := PendingPlaces(approvals, id, 0);
    assert approvals[0..] == approvals;
    var all := PendingOf(approvals, id);
    hide PendingOf, IsPendingOf;
    if |all| > PAGE {
      assert PendingAt(approvals, id, all[..PAGE], 0, places[..PAGE]);
      FirstPlaces(approvals, id, all, places);
    }
  }

  lemma FirstPlaces(approvals: seq<Approval>, id: Id, all: seq<Id>, places: seq<nat>)
    requires PendingAt(approvals, id, all, 0, places) && PendingOnlyAt(approvals, id, 0, |approvals|, places)
    requires |all| > PAGE
    ensures PendingOnlyAt(approvals, id, 0, places[PAGE], places[..PAGE])
  {
    hide IsPendingOf;
    forall i | 0 <= i < places[PAGE] && IsPendingOf(approvals[i], id) ensures i in places[..PAGE] {
      var k :| 0 <= k < |places| && places[k] == i;
      assert k < PAGE;
      assert places[..PAGE][k] == i;
    }
  }

  // One query returns at most a page of them, newest first.
  function Snapshot(approvals: seq<Approval>, id: Id): seq<Id> {
    var all := PendingOf(approvals, id);
    if |all| <= PAGE then all else all[..PAGE]
  }

  function Snapshots(ids: seq<Id>, approvals: seq<Approval>): seq<Id> {
    if ids == [] then [] else Snapshots(ids[..|ids| - 1], approvals) + Snapshot(approvals, ids[|ids| - 1])
  }

  // The order in which the scan visits the runs.
  ghost function Visited(runs: Runs): seq<Id> {
    Listing(runs, Created) + Listing(runs, Running) + Listing(runs, WaitingApproval) + Listing(runs, WaitingUser)
  }

  // ---- Progress --------------------------------------------------------------------------------------

  // The runs of `done` are settled and the others are as they were.
  ghost predicate Progress(t: Tables, unlucky: set<Id>, now: nat, done: seq<Id>, runs: Runs) {
    && runs.Keys == t.runs.Keys
    && forall id :: id in t.runs ==>
         runs[id] == if id in done then Settled(t.runs[id], id, t.approvals, unlucky, now) else t.runs[id]
  }

  // One more run of a listing is settled.
  lemma Turn(t: Tables, unlucky: set<Id>, now: nat, done: seq<Id>, ids: seq<Id>, i: nat, runs: Runs)
    requires i < |ids| && Distinct(ids) && ids[i] !in done && ids[i] in t.runs
    requires Progress(t, unlucky, now, done + ids[..i], runs)
    ensures ids[i] in runs && runs[ids[i]] == t.runs[ids[i]]
    ensures
      var status := Verdict(t.runs[ids[i]], ids[i], t.approvals, unlucky);
      && Progress(t, unlucky, now, done + ids[..i + 1], Marked(runs, ids[i], status, now))
      && !Throws(runs, ids[i], status)
  {
    hide HasPending, Parses;
    assert forall id :: id in done + ids[..i + 1] <==> id in done + ids[..i] || id == ids[i];
    assert ids[i] !in done + ids[..i];
  }

  lemma MovedToNext(ids: seq<Id>, i: nat, next: Status, t: Tables, unlucky: set<Id>)
    requires i < |ids| && ids[i] in t.runs
    ensures
      var before, id := MovedTo(ids[..i], next, t, unlucky), ids[i];
      MovedTo(ids[..i + 1], next, t, unlucky) ==
      if Verdict(t.runs[id], id, t.approvals, unlucky) == next then before + [id] else before
  {
    assert ids[..i + 1][..i] == ids[..i];
    assert MovedTo(ids[..i], next, t, unlucky) + [] == MovedTo(ids[..i], next, t, unlucky);
    hide Verdict;
  }

  // What recovery makes of a run that it looks at.
  lemma VerdictIs(run: Run, id: Id, approvals: seq<Approval>, unlucky: set<Id>)
    ensures
      var verdict := Verdict(run, id, approvals, unlucky);
      && (run.status == Created ==> verdict == Failed)
      && (run.status == Running ==> verdict == if id in unlucky then Failed else Interrupted)
      && (run.status == WaitingUser ==> verdict == if Parses(run) then WaitingUser else Failed)
      && (run.status == WaitingApproval ==> verdict == if HasPending(approvals, id) then WaitingApproval else Failed)
      && (!LeftOver(run) ==> verdict == run.status)
  {
    hide Parses, HasPending;
  }

  // The scan looks at the runs that are created, running or waiting.
  predicate LeftOver(run: Run) {
    run.status == Created || run.status == Running || run.status == WaitingApproval || run.status == WaitingUser
  }

  lemma MovedNothing(t: Tables, unlucky: set<Id>)
    ensures forall next :: MovedTo([], next, t, unlucky) == []
    ensures Snapshots([], t.approvals) == []
  {
  }

  lemma MarkedAsItIs(runs: Runs, id: Id, now: nat)
    requires id in runs
    ensures Marked(runs, id, runs[id].status, now) == runs
  {
  }

  lemma Regroup(a: seq<Id>, b: seq<Id>, c: seq<Id>)
    ensures a + (b + c) == a + b + c
  {
  }

  lemma MovedToLast(ids: seq<Id>, id: Id, next: Status, t: Tables, unlucky: set<Id>)
    ensures MovedTo(ids + [id], next, t, unlucky) == MovedTo(ids, next, t, unlucky) + Moved(id, next, t, unlucky)
  {
    assert (ids + [id])[..|ids|] == ids;
  }

  lemma {:induction false} MovedToConcat(a: seq<Id>, b: seq<Id>, next: Status, t: Tables, unlucky: set<Id>)
    ensures MovedTo(a + b, next, t, unlucky) == MovedTo(a, next, t, unlucky) + MovedTo(b, next, t, unlucky)
  {
    hide Verdict;
    if b == [] {
      assert a + b == a;
    } else {
      var n := |b| - 1;
      MovedToConcat(a, b[..n], next, t, unlucky);
      hide *;
      assert b == b[..n] + [b[n]] && a + b == a + b[..n] + [b[n]];
      MovedToLast(b[..n], b[n], next, t, unlucky);
      MovedToLast(a + b[..n], b[n], next, t, unlucky);
      Regroup(MovedTo(a, next, t, unlucky), MovedTo(b[..n], next, t, unlucky), Moved(b[n], next, t, unlucky));
    }
  }

  lemma {:induction false} MovedSpec(ids: seq<Id>, next: Status, t: Tables, unlucky: set<Id>)
    requires Distinct(ids)
    ensures Distinct(MovedTo(ids, next, t, unlucky))
    ensures forall id :: id in MovedTo(ids, next, t, unlucky) <==>
      id in ids && id in t.runs && Verdict(t.runs[id], id, t.approvals, unlucky) == next
  {
    hide Verdict;
    if ids != [] {
      var n := |ids| - 1;
      MovedSpec(ids[..n], next, t, unlucky);
      assert ids == ids[..n] + [ids[n]];
    }
  }

  // The ids of the runs that the scan has moved to the status, each once.
  ghost predicate MovedAre(before: Runs, after: Runs, next: Status, ids: seq<Id>) {
    Distinct(ids) && forall id :: id in ids <==>
      id in before && id in after && before[id].status != next && after[id].status == next
  }

  lemma VisitedSpec(runs: Runs)
    ensures Distinct(Visited(runs))
    ensures forall id :: id in Visited(runs) <==> id in runs && LeftOver(runs[id])
  {
    ListingSpec(runs, Created);
    ListingSpec(runs, Running);
    ListingSpec(runs, WaitingApproval);
    ListingSpec(runs, WaitingUser);
    var created, running := Listing(runs, Created), Listing(runs, Running);
    var asking, waiting := Listing(runs, WaitingApproval), Listing(runs, WaitingUser);
    hide Listing;
    Apart(created, running);
    Apart(created + running, asking);
    Apart(created + running + asking, waiting);
  }

  lemma Apart(a: seq<Id>, b: seq<Id>)
    requires Distinct(a) && Distinct(b) && forall id :: id in a ==> id !in b
    ensures Distinct(a + b) && forall id :: id in a + b <==> id in a || id in b
  {
    forall i, j | 0 <= i < j < |a + b| ensures (a + b)[i] != (a + b)[j] {
      if i < |a| <= j { assert a[i] in a && b[j - |a|] in b; }
    }
  }

  lemma {:induction false} AllMoved(ids: seq<Id>, next: Status, t: Tables, unlucky: set<Id>)
    requires forall i :: 0 <= i < |ids| ==>
      ids[i] in t.runs && Verdict(t.runs[ids[i]], ids[i], t.approvals, unlucky) == next
    ensures MovedTo(ids, next, t, unlucky) == ids
  {
    hide Verdict;
    if ids != [] {
      AllMoved(ids[..|ids| - 1], next, t, unlucky);
      assert ids == ids[..|ids| - 1] + [ids[|ids| - 1]];
    }
  }

  lemma CreatedAreFailed(t: Tables, unlucky: set<Id>)
    ensures MovedTo(Listing(t.runs, Created), Failed, t, unlucky) == Listing(t.runs, Created)
  {
    var ids := Listing(t.runs, Created);
    ListingSpec(t.runs, Created);
    hide Listing, Verdict;
    forall i | 0 <= i < |ids|
      ensures ids[i] in t.runs && Verdict(t.runs[ids[i]], ids[i], t.approvals, unlucky) == Failed
    {
      assert ids[i] in ids;
      VerdictIs(t.runs[ids[i]], ids[i], t.approvals, unlucky);
    }
    AllMoved(ids, Failed, t, unlucky);
  }

  lemma RecoveredStatus(t: Tables, unlucky: set<Id>, now: nat)
    ensures Recovered(t, unlucky, now).runs.Keys == t.runs.Keys
    ensures forall id :: id in t.runs ==>
      Recovered(t, unlucky, now).runs[id].status == Verdict(t.runs[id], id, t.approvals, unlucky)
  {
    hide Verdict;
  }

  lemma FailedAreMoved(t: Tables, unlucky: set<Id>, now: nat)
    ensures MovedAre(t.runs, Recovered(t, unlucky, now).runs, Failed, MovedTo(Visited(t.runs), Failed, t, unlucky))
  {
    RecoveredStatus(t, unlucky, now);
    VisitedSpec(t.runs);
    MovedSpec(Visited(t.runs), Failed, t, unlucky);
    hide Visited, Verdict, MovedTo, Distinct, Recovered;
    forall id | id in t.runs && Verdict(t.runs[id], id, t.approvals, unlucky) == Failed
      ensures LeftOver(t.runs[id]) <==> t.runs[id].status != Failed
    {
      VerdictIs(t.runs[id], id, t.approvals, unlucky);
    }
  }

  lemma InterruptedAreMoved(t: Tables, unlucky: set<Id>, now: nat)
    ensures MovedAre(t.runs, Recovered(t, unlucky, now).runs, Interrupted,
                     MovedTo(Listing(t.runs, Running), Interrupted, t, unlucky))
  {
    RecoveredStatus(t, unlucky, now);
    ListingSpec(t.runs, Running);
    MovedSpec(Listing(t.runs, Running), Interrupted, t, unlucky);
    hide Listing, Verdict, MovedTo, Distinct, Recovered;
    forall id | id in t.runs && Verdict(t.runs[id], id, t.approvals, unlucky) == Interrupted
      ensures t.runs[id].status == Running <==> t.runs[id].status != Interrupted
    {
      VerdictIs(t.runs[id], id, t.approvals, unlucky);
    }
  }

  // The runs just visited have become what a restart makes of them, and the others are as they were.
  ghost predicate VisitedRestart(t: Tables, unlucky: set<Id>, now: nat, visited: seq<Id>, before: Runs, runs: Runs) {
    && before.Keys == runs.Keys == t.runs.Keys
    && (forall id :: id in runs ==>
          if id in visited then Restarts(id, t.runs[id], runs[id], t.approvals, unlucky, now)
          else runs[id] == before[id])
  }

  lemma ProgressRestarts(t: Tables, unlucky: set<Id>, now: nat, done: seq<Id>, visited: seq<Id>, before: Runs,
                         runs: Runs)
    requires Progress(t, unlucky, now, done, before) && Progress(t, unlucky, now, done + visited, runs)
    ensures VisitedRestart(t, unlucky, now, visited, before, runs)
  {
    hide Settled, Restarts;
    forall id | id in runs && id in visited ensures Restarts(id, t.runs[id], runs[id], t.approvals, unlucky, now) {
      SettledRestarts(t.runs[id], id, t.approvals, unlucky, now);
    }
  }

  // The scan is about to visit a status none of whose runs it has touched.
  ghost predicate Before(t: Tables, unlucky: set<Id>, now: nat, done: seq<Id>, runs: Runs, status: Status) {
    && Progress(t, unlucky, now, done, runs)
    && (status == Created || status == Running || status == WaitingApproval || status == WaitingUser)
    && forall id :: id in done && id in t.runs ==> t.runs[id].status != status
  }

  // A listing is not disturbed by the runs settled before it.
  lemma LaterListing(t: Tables, unlucky: set<Id>, now: nat, done: seq<Id>, runs: Runs, status: Status)
    requires Before(t, unlucky, now, done, runs, status)
    ensures Listing(runs, status) == Listing(t.runs, status)
    ensures Distinct(Listing(runs, status))
    ensures forall i :: 0 <= i < |Listing(runs, status)| ==>
      ListedAs(t, done, Listing(runs, status)[i], status)
  {
    assert KeysOf(runs, status) == KeysOf(t.runs, status);
    ListingSpec(t.runs, status);
  }

  predicate ListedAs(t: Tables, done: seq<Id>, id: Id, status: Status) {
    id !in done && id in t.runs && t.runs[id].status == status
  }

  lemma BeforeFirst(t: Tables, unlucky: set<Id>, now: nat)
    ensures Before(t, unlucky, now, [], t.runs, Created)
  {
  }

  lemma SnapshotsNext(ids: seq<Id>, i: nat, approvals: seq<Approval>)
    requires i < |ids|
    ensures Snapshots(ids[..i + 1], approvals) == Snapshots(ids[..i], approvals) + Snapshot(approvals, ids[i])
  {
    assert ids[..i + 1][..i] == ids[..i];
  }

  lemma SnapshotMeansPending(approvals: seq<Approval>, id: Id)
    ensures Snapshot(approvals, id) != [] <==> HasPending(approvals, id)
  {
    PendingMeansSome(approvals, id);
  }

  lemma AllDone(t: Tables, unlucky: set<Id>, now: nat, runs: Runs)
    requires Progress(t, unlucky, now, Visited(t.runs), runs)
    ensures Tables(runs, t.approvals) == Recovered(t, unlucky, now)
  {
    ListingSpec(t.runs, Created);
    ListingSpec(t.runs, Running);
    ListingSpec(t.runs, WaitingApproval);
    ListingSpec(t.runs, WaitingUser);
    hide Listing;
  }

  lemma OrderedFrom(s: set<Key>, m: Key)
    requires IsGreatest(m, s)
    ensures Ordered(s) == [m] + Ordered(s - {m})
  {
  }

  lemma OrderedNothing()
    ensures Ordered({}) == []
  {
  }

  /** The database as the daemon finds it after a restart. */
  class Database {
    var runs: Runs
    var approvals: seq<Approval>

    constructor (t: Tables)
      ensures Contents() == t
    {
      runs, approvals := t.runs, t.approvals;
    }

    function Contents(): Tables
      reads this
    {
      Tables(runs, approvals)
    }

    method MarkStatus(id: Id, next: Status, now: nat) returns (threw: bool)
      modifies this`runs
      ensures runs == Marked(old(runs), id, next, now) && threw == Throws(old(runs), id, next)
      ensures id in old(runs) && old(runs)[id].status != next && next in LegalNext(old(runs)[id].status) ==>
        !threw && runs == old(runs)[id := old(runs)[id].(status := next, updatedAt := now)]
      ensures id in old(runs) && (old(runs)[id].status == next || LegalNext(old(runs)[id].status) == {}) ==>
        !threw && runs == old(runs)
      ensures id !in old(runs) ==> threw && runs == old(runs)
      ensures threw ==> runs == old(runs)
      ensures threw <==> (id in old(runs) ==>
        var status := old(runs)[id].status; status != next && LegalNext(status) != {} && next !in LegalNext(status))
    {
      if id !in runs { return true; }
      var run := runs[id];
      if run.status == next || Terminal(run.status) { return false; }
      if next !in LegalNext(run.status) { return true; }
      runs := runs[id := run.(status := next, updatedAt := now)];
      return false;
    }

    /** SELECT ... WHERE status = $1, as a table that can be paged. */
    method Select(status: Status) returns (table: Table)
      ensures table.Valid() && table.rows == KeysOf(runs, status)
      ensures fresh(table)
    {
      hide Ordered;
      var rest := KeysOf(runs, status);
      var listing: seq<Key> := [];
      ghost var rows := rest;
      while rest != {}
        invariant listing + Ordered(rest) == Ordered(rows)
        decreases |rest|
      {
        GreatestExists(rest);
        var m :| IsGreatest(m, rest);
        OrderedFrom(rest, m);
        assert listing + ([m] + Ordered(rest - {m})) == listing + [m] + Ordered(rest - {m});
        listing := listing + [m];
        rest := rest - {m};
      }
      OrderedNothing();
      table := new Table(rows, listing);
    }

    method ListAllRuns(status: Status) returns (ids: seq<Id>)
      ensures ids == Listing(runs, status)
    {
      var table := Select(status);
      var keys := ListAll(table, PAGE);
      PagedIsAll(Ordered(table.rows), PAGE);
      ids := Ids(keys);
    }

    method ListPending(id: Id) returns (ids: seq<Id>)
      ensures ids == Snapshot(approvals, id) && FirstPending(approvals, id, ids)
    {
      SnapshotIs(approvals, id);
      var all := PendingOf(approvals, id);
      ids := if |all| <= PAGE then all else all[..PAGE];
    }

    /** Whether the interruption commits is not up to the scan; if it does not, the run is failed. */
    method Interrupt(id: Id, unlucky: set<Id>, now: nat) returns (committed: bool)
      requires id in runs && runs[id].status == Running
      modifies this`runs
      ensures committed == (id !in unlucky)
      ensures runs == if committed then Marked(old(runs), id, Interrupted, now) else old(runs)
    {
      if id in unlucky { return false; }
      var threw := MarkStatus(id, Interrupted, now);
      return true;
    }

    // Created runs never entered execution.
    method FailCreated(unlucky: set<Id>, now: nat, ghost t: Tables, ghost done: seq<Id>)
      returns (visited: seq<Id>, failed: seq<Id>)
      requires Before(t, unlucky, now, done, runs, Created) && approvals == t.approvals
      modifies this`runs
      ensures visited == Listing(t.runs, Created)
      ensures Progress(t, unlucky, now, done + visited, runs)
      ensures failed == MovedTo(visited, Failed, t, unlucky) && failed == visited
      ensures VisitedRestart(t, unlucky, now, visited, old(runs), runs)
    {
      CreatedAreFailed(t, unlucky);
      LaterListing(t, unlucky, now, done, runs, Created);
      visited := ListAllRuns(Created);
      hide Listing, Settled, Marked, Progress, HasPending, Throws, MovedTo, Snapshots, Snapshot, Parses,
        VisitedRestart, Verdict;
      MovedNothing(t, unlucky);
      failed := [];
      assert done + visited[..0] == done;
      for i := 0 to |visited|
        invariant Progress(t, unlucky, now, done + visited[..i], runs)
        invariant failed == MovedTo(visited[..i], Failed, t, unlucky)
      {
        var id := visited[i];
        assert ListedAs(t, done, id, Created);
        Turn(t, unlucky, now, done, visited, i, runs);
        VerdictIs(t.runs[id], id, t.approvals, unlucky);
        MovedToNext(visited, i, Failed, t, unlucky);
        var threw := MarkStatus(id, Failed, now);
        failed := failed + [id];
      }
      assert visited[..|visited|] == visited;
      ProgressRestarts(t, unlucky, now, done, visited, old(runs), runs);
    }

    // Running runs are interrupted, or failed if that does not commit.
    method InterruptRunning(unlucky: set<Id>, now: nat, ghost t: Tables, ghost done: seq<Id>)
      returns (visited: seq<Id>, interrupted: seq<Id>, failed: seq<Id>)
      requires Before(t, unlucky, now, done, runs, Running) && approvals == t.approvals
      modifies this`runs
      ensures visited == Listing(t.runs, Running)
      ensures Progress(t, unlucky, now, done + visited, runs)
      ensures VisitedRestart(t, unlucky, now, visited, old(runs), runs)
      ensures interrupted == MovedTo(visited, Interrupted, t, unlucky)
      ensures failed == MovedTo(visited, Failed, t, unlucky)
    {
      LaterListing(t, unlucky, now, done, runs, Running);
      visited := ListAllRuns(Running);
      hide Listing, Settled, Marked, Progress, HasPending, Throws, MovedTo, Snapshots, Snapshot, Parses,
        VisitedRestart, Verdict;
      MovedNothing(t, unlucky);
      interrupted, failed := [], [];
      assert done + visited[..0] == done;
      for i := 0 to |visited|
        invariant Progress(t, unlucky, now, done + visited[..i], runs)
        invariant interrupted == MovedTo(visited[..i], Interrupted, t, unlucky)
        invariant failed == MovedTo(visited[..i], Failed, t, unlucky)
      {
        var id := visited[i];
        assert ListedAs(t, done, id, Running);
        Turn(t, unlucky, now, done, visited, i, runs);
        VerdictIs(t.runs[id], id, t.approvals, unlucky);
        MovedToNext(visited, i, Interrupted, t, unlucky);
        MovedToNext(visited, i, Failed, t, unlucky);
        var committed := Interrupt(id, unlucky, now);
        if committed {
          interrupted := interrupted + [id];
        } else {
          var threw := MarkStatus(id, Failed, now);
          failed := failed + [id];
        }
      }
      assert visited[..|visited|] == visited;
      ProgressRestarts(t, unlucky, now, done, visited, old(runs), runs);
    }

    // The pending approvals of a waiting run, which is failed if there are none.
    method AnnounceOne(id: Id, now: nat) returns (pending: seq<Id>)
      requires id in runs && runs[id].status == WaitingApproval
      modifies this`runs
      ensures pending == Snapshot(approvals, id) && (pending != [] <==> HasPending(approvals, id))
      ensures runs == Marked(old(runs), id, if pending == [] then Failed else WaitingApproval, now)
    {
      hide Marked, Throws, Snapshot, FirstPending, HasPending;
      pending := ListPending(id);
      SnapshotMeansPending(approvals, id);
      if |pending| == 0 {
        var threw := MarkStatus(id, Failed, now);
      } else {
        MarkedAsItIs(runs, id, now);
      }
    }

    // Runs that wait for an approval need a pending one, which is announced again.
    method AnnounceApprovals(unlucky: set<Id>, now: nat, ghost t: Tables, ghost done: seq<Id>)
      returns (visited: seq<Id>, failed: seq<Id>, snapshotted: seq<Id>)
      requires Before(t, unlucky, now, done, runs, WaitingApproval) && approvals == t.approvals
      modifies this`runs
      ensures visited == Listing(t.runs, WaitingApproval)
      ensures Progress(t, unlucky, now, done + visited, runs)
      ensures VisitedRestart(t, unlucky, now, visited, old(runs), runs)
      ensures failed == MovedTo(visited, Failed, t, unlucky)
      ensures snapshotted == Snapshots(visited, approvals)
    {
      LaterListing(t, unlucky, now, done, runs, WaitingApproval);
      visited := ListAllRuns(WaitingApproval);
      hide Listing, Settled, Marked, Progress, HasPending, Throws, MovedTo, Snapshots, Snapshot, Parses, Verdict,
        VisitedRestart, FirstPending;
      MovedNothing(t, unlucky);
      failed, snapshotted := [], [];
      assert done + visited[..0] == done;
      for i := 0 to |visited|
        invariant Progress(t, unlucky, now, done + visited[..i], runs)
        invariant failed == MovedTo(visited[..i], Failed, t, unlucky)
        invariant snapshotted == Snapshots(visited[..i], approvals)
      {
        var id := visited[i];
        assert ListedAs(t, done, id, WaitingApproval);
        Turn(t, unlucky, now, done, visited, i, runs);
        VerdictIs(t.runs[id], id, t.approvals, unlucky);
        MovedToNext(visited, i, Failed, t, unlucky);
        SnapshotsNext(visited, i, approvals);
        var pending := AnnounceOne(id, now);
        snapshotted := snapshotted + pending;
        if |pending| == 0 { failed := failed + [id]; }
      }
      assert visited[..|visited|] == visited;
      ProgressRestarts(t, unlucky, now, done, visited, old(runs), runs);
    }

    // Runs that wait for the user need a checkpoint that parses.
    method KeepWaitingUsers(unlucky: set<Id>, now: nat, ghost t: Tables, ghost done: seq<Id>)
      returns (visited: seq<Id>, failed: seq<Id>)
      requires Before(t, unlucky, now, done, runs, WaitingUser) && approvals == t.approvals
      modifies this`runs
      ensures visited == Listing(t.runs, WaitingUser)
      ensures Progress(t, unlucky, now, done + visited, runs)
      ensures VisitedRestart(t, unlucky, now, visited, old(runs), runs)
      ensures failed == MovedTo(visited, Failed, t, unlucky)
    {
      LaterListing(t, unlucky, now, done, runs, WaitingUser);
      visited := ListAllRuns(WaitingUser);
      hide Listing, Settled, Marked, Progress, HasPending, Throws, MovedTo, Snapshots, Snapshot, Parses, Verdict,
        VisitedRestart;
      MovedNothing(t, unlucky);
      failed := [];
      assert done + visited[..0] == done;
      for i := 0 to |visited|
        invariant Progress(t, unlucky, now, done + visited[..i], runs)
        invariant failed == MovedTo(visited[..i], Failed, t, unlucky)
      {
        var id := visited[i];
        assert ListedAs(t, done, id, WaitingUser);
        Turn(t, unlucky, now, done, visited, i, runs);
        VerdictIs(t.runs[id], id, t.approvals, unlucky);
        MovedToNext(visited, i, Failed, t, unlucky);
        if !Parses(runs[id]) {
          var threw := MarkStatus(id, Failed, now);
          failed := failed + [id];
        } else {
          MarkedAsItIs(runs, id, now);
        }
      }
      assert visited[..|visited|] == visited;
      ProgressRestarts(t, unlucky, now, done, visited, old(runs), runs);
    }

    /**
     * `recoverAgentRuntimeRuns`. The tables end as `Recovered` says, and the report names every
     * unfinished run in the order of the scan, with what became of it.
     */
    method RecoverAgentRuntimeRuns(unlucky: set<Id>, now: nat) returns (report: Report)
      modifies this`runs
      ensures Contents() == Recovered(old(Contents()), unlucky, now)
      ensures approvals == old(approvals) && AllRestart(old(Contents()), unlucky, now, runs)
      ensures MovedAre(old(runs), runs, Failed, report.failed)
      ensures MovedAre(old(runs), runs, Interrupted, report.interrupted)
      ensures report.recovered == Visited(old(runs))
      ensures report.interrupted == MovedTo(Listing(old(runs), Running), Interrupted, old(Contents()), unlucky)
      ensures report.failed == MovedTo(report.recovered, Failed, old(Contents()), unlucky)
      ensures report.snapshotted == Snapshots(Listing(old(runs), WaitingApproval), approvals)
    {
      ghost var t := Contents();
      RestartIs(t, unlucky, now);
      FailedAreMoved(t, unlucky, now);
      InterruptedAreMoved(t, unlucky, now);
      BeforeFirst(t, unlucky, now);
      ListingSpec(t.runs, Created);
      ListingSpec(t.runs, Running);
      ListingSpec(t.runs, WaitingApproval);
      hide Listing, MovedTo, Snapshots, Progress, Settled, Recovered, AllRestart, MovedAre, VisitedRestart;
      var created, failed0 := FailCreated(unlucky, now, t, []);
      var running, interrupted, failed1 := InterruptRunning(unlucky, now, t, [] + created);
      var asking, failed2, snapshotted := AnnounceApprovals(unlucky, now, t, [] + created + running);
      var waiting, failed3 := KeepWaitingUsers(unlucky, now, t, [] + created + running + asking);
      assert [] + created + running + asking + waiting == Visited(t.runs);
      AllDone(t, unlucky, now, runs);
      MovedToConcat(created, running, Failed, t, unlucky);
      MovedToConcat(created + running, asking, Failed, t, unlucky);
      MovedToConcat(created + running + asking, waiting, Failed, t, unlucky);
      report := Report(created + running + asking + waiting, interrupted, failed0 + failed1 + failed2 + failed3,
        snapshotted);
    }
  }
}
