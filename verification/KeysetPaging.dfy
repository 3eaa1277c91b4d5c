/** Cursor paging in descending (time, id) order, and two loops that page through a table. */
module KeysetPaging {
  import opened Wrappers

  // Ids are compared like numbers; together with the time they order all rows strictly.
  datatype Key = Key(time: nat, id: nat)

  predicate Below(a: Key, b: Key) {
    a.time < b.time || (a.time == b.time && a.id < b.id)
  }

  ghost predicate Descending(ks: seq<Key>) {
    forall i, j :: 0 <= i < j < |ks| ==> Below(ks[j], ks[i])
  }

  // ---- The order of a table ------------------------------------------------------------------

  predicate IsGreatest(m: Key, s: set<Key>) {
    m in s && forall k :: k in s && k != m ==> Below(k, m)
  }

  lemma {:induction false} GreatestExists(s: set<Key>)
    requires s != {}
    ensures exists m :: IsGreatest(m, s)
  {
    var k :| k in s;
    if s == {k} {
      assert IsGreatest(k, s);
    } else {
      GreatestExists(s - {k});
      var m :| IsGreatest(m, s - {k});
      var top := if Below(m, k) then k else m;
      forall x | x in s && x != top ensures Below(x, top) {
        assert x == k || x == m || Below(x, m);
      }
      assert IsGreatest(top, s);
    }
  }

  ghost function Greatest(s: set<Key>): (m: Key)
    requires s != {}
    ensures IsGreatest(m, s)
  {
    GreatestExists(s);
    var m :| IsGreatest(m, s);
    m
  }

  // ORDER BY time DESC, id DESC
  ghost function Ordered(s: set<Key>): seq<Key> {
    if s == {} then [] else [Greatest(s)] + Ordered(s - {Greatest(s)})
  }

  lemma {:induction false} OrderedSpec(s: set<Key>)
    ensures Descending(Ordered(s)) && |Ordered(s)| == |s|
    ensures forall k :: k in Ordered(s) <==> k in s
  {
    if s != {} {
      var m := Greatest(s);
      OrderedSpec(s - {m});
      var rest := Ordered(s - {m});
      forall j | 0 <= j < |rest| ensures Below(rest[j], m) {
        assert rest[j] in rest;
      }
    }
  }

  lemma FirstIsIn(ks: seq<Key>)
    ensures ks != [] ==> ks[0] in ks
  {
  }

  /** There is only one way to list a set in descending order. */
  lemma {:induction false} OrderIsUnique(ks: seq<Key>, s: set<Key>)
    requires Descending(ks) && forall k :: k in ks <==> k in s
    ensures ks == Ordered(s)
  {
    if s == {} {
      FirstIsIn(ks);
    } else {
      var m := Greatest(s);
      assert ks != [] by { assert m in ks; }
      assert ks[0] in s;
      var i :| 0 <= i < |ks| && ks[i] == m;
      assert i == 0;
      forall k ensures k in ks[1..] <==> k in s - {m} {
        if k in s - {m} {
          var j :| 0 <= j < |ks| && ks[j] == k;
          assert ks[1..][j - 1] == k;
        }
      }
      OrderIsUnique(ks[1..], s - {m});
    }
  }

  // The rows the cursor clause lets through.
  ghost function Behind(s: set<Key>, cursor: Option<Key>): set<Key> {
    if cursor.None? then s else set k | k in s && Below(k, cursor.value)
  }

  /** What stands behind the k-th row of the order is the rest of the order. */
  lemma BehindRow(s: set<Key>, cursor: Option<Key>, k: nat)
    requires k < |Ordered(Behind(s, cursor))|
    ensures Ordered(Behind(s, Some(Ordered(Behind(s, cursor))[k]))) == Ordered(Behind(s, cursor))[k + 1..]
  {
    hide Ordered;
    var all := Ordered(Behind(s, cursor));
    OrderedSpec(Behind(s, cursor));
    assert all[k] in all;
    forall x ensures x in all[k + 1..] <==> x in Behind(s, Some(all[k])) {
      RowsAfter(all, k, x);
    }
    OrderIsUnique(all[k + 1..], Behind(s, Some(all[k])));
  }

  lemma RowsAfter(all: seq<Key>, k: nat, x: Key)
    requires Descending(all) && k < |all|
    ensures x in all[k + 1..] <==> x in all && Below(x, all[k])
  {
    if x in all && Below(x, all[k]) {
      var j :| 0 <= j < |all| && all[j] == x;
      assert j > k;
      assert all[k + 1..][j - k - 1] == x;
    }
  }

  function Take(ks: seq<Key>, n: nat): seq<Key> {
    if |ks| <= n then ks else ks[..n]
  }

  ghost function Page(s: set<Key>, cursor: Option<Key>, limit: nat): seq<Key> {
    Take(Ordered(Behind(s, cursor)), limit)
  }

  predicate Passes(k: Key, cursor: Option<Key>) {
    cursor.Some? ==> Below(k, cursor.value)
  }

  ghost predicate Filtered(matching: seq<Key>, listing: seq<Key>, i: nat, cursor: Option<Key>) {
    && i <= |listing| && Descending(matching)
    && forall k :: k in matching <==> k in listing[..i] && Passes(k, cursor)
  }

  lemma FilterStep(matching: seq<Key>, listing: seq<Key>, i: nat, cursor: Option<Key>)
    requires Descending(listing) && i < |listing| && Filtered(matching, listing, i, cursor)
    ensures Filtered(if Passes(listing[i], cursor) then matching + [listing[i]] else matching, listing, i + 1, cursor)
  {
    assert listing[..i + 1] == listing[..i] + [listing[i]];
    forall k | k in matching ensures Below(listing[i], k) {
      var j :| 0 <= j < i && listing[j] == k;
    }
  }

  /** A table whose rows do not change while it is paged. */
  class Table {
    ghost const rows: set<Key>
    const listing: seq<Key>

    constructor (ghost rows: set<Key>, listing: seq<Key>)
      requires listing == Ordered(rows)
      ensures this.rows == rows
      ensures Valid()
    {
      this.rows, this.listing := rows, listing;
    }

    ghost predicate Valid() {
      listing == Ordered(rows)
    }

    /** SELECT ... WHERE key < cursor ORDER BY key DESC LIMIT limit */
    method List(cursor: Option<Key>, limit: nat) returns (page: seq<Key>)
      requires Valid()
      ensures page == Page(rows, cursor, limit)
    {
      OrderedSpec(rows);
      var matching: seq<Key> := [];
      assert Filtered(matching, listing, 0, cursor);
      hide Ordered, Descending;
      for i := 0 to |listing|
        invariant Filtered(matching, listing, i, cursor)
      {
        FilterStep(matching, listing, i, cursor);
        if cursor.None? || Below(listing[i], cursor.value) {
          matching := matching + [listing[i]];
        }
      }
      OrderIsUnique(matching, Behind(rows, cursor));
      page := if |matching| <= limit then matching else matching[..limit];
    }

    /** The run repository's listing, which never takes the limit beyond its bounds. */
    method ListClamped(cursor: Option<Key>, limit: int) returns (page: seq<Key>)
      requires Valid()
      ensures page == Page(rows, cursor, Clamp(limit))
    {
      page := List(cursor, Clamp(limit));
    }
  }

  // The page size the repository really uses: between 1 and 200.
  function Clamp(limit: int): nat {
    if limit < 1 then 1 else if limit > 200 then 200 else limit
  }

  // What paging collects from these rows on: a page as full as was asked for asks for another one.
  function Paged(rest: seq<Key>, pageSize: int): seq<Key>
    decreases |rest|
  {
    var page := Take(rest, Clamp(pageSize));
    if |page| == pageSize && page != [] then page + Paged(rest[|page|..], pageSize) else page
  }

  // The page listed behind a cursor is the first of what is paged from there on.
  lemma PagedBehind(rows: set<Key>, cursor: Option<Key>, pageSize: int, page: seq<Key>)
    requires page == Page(rows, cursor, Clamp(pageSize))
    ensures
      var rest := Ordered(Behind(rows, cursor));
      if |page| == pageSize && page != [] then
        var next := Ordered(Behind(rows, Some(page[|page| - 1])));
        Paged(rest, pageSize) == page + Paged(next, pageSize) && |next| < |rest|
      else Paged(rest, pageSize) == page
  {
    if |page| == pageSize && page != [] { BehindRow(rows, cursor, |page| - 1); }
    hide Ordered, Behind, Clamp;
  }

  /** `listAllRuns`, with any page size, over the repository's clamped pages. */
  method ListAll(table: Table, pageSize: int) returns (all: seq<Key>)
    requires table.Valid()
    ensures all == Paged(Ordered(table.rows), pageSize)
  {
    BehindNothing(table.rows);
    hide Ordered, Behind, Paged, Page;
    all := [];
    var cursor: Option<Key> := None;
    while true
      invariant all + Paged(Ordered(Behind(table.rows, cursor)), pageSize) == Paged(Ordered(table.rows), pageSize)
      decreases |Ordered(Behind(table.rows, cursor))|
    {
      var page := table.ListClamped(cursor, pageSize);
      PagedBehind(table.rows, cursor, pageSize, page);
      if |page| == pageSize && page != [] {
        Regroup(all, page, Paged(Ordered(Behind(table.rows, Some(page[|page| - 1]))), pageSize));
        all := all + page;
        cursor := Some(page[|page| - 1]);
      } else {
        all := all + page;
        break;
      }
    }
  }

  lemma Regroup(a: seq<Key>, b: seq<Key>, c: seq<Key>)
    ensures (a + b) + c == a + (b + c)
  {
  }

  lemma BehindNothing(s: set<Key>)
    ensures Behind(s, None) == s
  {
  }

  lemma {:induction false} PagedIsAll(rest: seq<Key>, pageSize: int)
    requires 1 <= pageSize <= 200
    ensures Paged(rest, pageSize) == rest
    decreases |rest|
  {
    if |rest| >= pageSize {
      PagedIsAll(rest[pageSize..], pageSize);
      assert rest == rest[..pageSize] + rest[pageSize..];
    }
  }

  ghost predicate PagingIsComplete(pageSize: int) {
    forall s :: Paged(Ordered(s), pageSize) == Ordered(s)
  }

  /**
   * The pages make up every table's rows, in descending order and each once, exactly when the page
   * size is one the repository takes as it is.
   */
  lemma PagingIsCompleteIff(pageSize: int)
    ensures PagingIsComplete(pageSize) <==> 1 <= pageSize <= 200
  {
    if 1 <= pageSize <= 200 {
      forall s ensures Paged(Ordered(s), pageSize) == Ordered(s) {
        PagedIsAll(Ordered(s), pageSize);
      }
    } else {
      var n := Clamp(pageSize) + 1;
      var s := FirstKeys(n);
      FirstKeysCount(n);
      OrderedSpec(s);
      assert |Paged(Ordered(s), pageSize)| == n - 1;
    }
  }

  // ---- The stale scanner -----------------------------------------------------------------------

  // The rows that a scan's pages cover: whole pages, until the budget is used up.
  function Reach(budget: nat, pageSize: nat): (r: nat)
    requires pageSize > 0
    ensures budget <= r < budget + pageSize
    ensures budget > 0 ==> r >= pageSize
  {
    if budget == 0 then 0
    else if budget <= pageSize then pageSize
    else pageSize + Reach(budget - pageSize, pageSize)
  }

  /** The scanner keeps its cursor between scans and spends a budget of rows on each. */
  class StaleDetectionWorker {
    var scanCursor: Option<Key>
    var running: bool
    const budget: nat
    const pageSize: nat

    constructor (budget: nat, pageSize: nat)
      requires pageSize > 0
      ensures this.budget == budget && this.pageSize == pageSize && scanCursor == None && !running
    {
      this.budget, this.pageSize := budget, pageSize;
      scanCursor, running := None, false;
    }

    /**
     * One scan. It looks at the next `budget` rows, but the cursor moves by whole pages. A scan that
     * finds another one under way does nothing.
     */
    method Scan(table: Table) returns (looked: seq<Key>)
      requires table.Valid() && pageSize > 0
      modifies this
      ensures running == old(running)
      ensures old(running) ==> looked == [] && scanCursor == old(scanCursor)
      ensures !old(running) ==>
        var rest := Ordered(Behind(table.rows, old(scanCursor)));
        && looked == Take(rest, budget)
        && scanCursor == NextCursor(rest, old(scanCursor), budget, pageSize)
    {
      looked := [];
      if running { return; }
      running := true;
      hide *;
      ghost var scan := Pass(table.rows, scanCursor, budget, pageSize);
      ghost var passed: nat := 0;
      var processed, more := 0, true;
      ScanBegins(scan);
      while processed < budget && more
        invariant more ==> Scanning(scan, passed, looked, scanCursor)
        invariant processed == |looked| && (processed < budget && more ==> passed == processed)
        invariant processed >= budget || !more ==> Ends(scan, looked, scanCursor)
        invariant running
        decreases more, budget - processed
      {
        looked, more := ScanPage(table, scan, passed, looked);
        processed := |looked|;
        passed := passed + pageSize;
      }
      EndsMeans(scan, looked, scanCursor);
      running := false;
    }

    // One more page. Its rows are looked at within the budget, and the cursor moves behind all of them,
    // or is reset if the page is not full.
    method ScanPage(table: Table, ghost scan: Pass, ghost passed: nat, looked: seq<Key>)
      returns (next: seq<Key>, more: bool)
      requires table.Valid() && pageSize > 0
      requires scan == Pass(table.rows, scan.start, budget, pageSize)
      requires Scanning(scan, passed, looked, scanCursor) && passed == |looked| < budget
      modifies this`scanCursor
      ensures more ==> Scanning(scan, passed + pageSize, next, scanCursor) && |next| > |looked|
      ensures more && |next| < budget ==> |next| == passed + pageSize
      ensures |next| >= budget || !more ==> Ends(scan, next, scanCursor)
    {
      hide *;
      var page := table.List(scanCursor, pageSize);
      var n := Count(|page|, budget - |looked|);
      next := looked + page[..n];
      NextPageOf(scan, passed, looked, scanCursor, page, n, next);
      more := |page| >= pageSize;
      if more {
        scanCursor := Some(page[|page| - 1]);
      } else {
        scanCursor := None;
      }
    }

    // The inner loop over one page stops when the budget is used up.
    method Count(length: nat, left: nat) returns (n: nat)
      ensures n == if length <= left then length else left
    {
      n := 0;
      while n < length && n < left
        invariant n <= length && n <= left
      {
        n := n + 1;
      }
    }
  }

  ghost function NextCursor(rest: seq<Key>, cursor: Option<Key>, budget: nat, pageSize: nat): Option<Key>
    requires pageSize > 0
  {
    var reach := Reach(budget, pageSize);
    if reach == 0 then cursor else if |rest| < reach then None else Some(rest[reach - 1])
  }

  // A scan that starts behind a cursor of a table.
  datatype Pass = Pass(rows: set<Key>, start: Option<Key>, budget: nat, pageSize: nat)

  // What a scan keeps between two pages: the rows passed are whole pages, short of what it will reach.
  ghost predicate Scanning(scan: Pass, passed: nat, looked: seq<Key>, cursor: Option<Key>) {
    var rest := Ordered(Behind(scan.rows, scan.start));
    && scan.pageSize > 0 && passed <= |rest| && Ordered(Behind(scan.rows, cursor)) == rest[passed..]
    && |looked| == (if passed < scan.budget then passed else scan.budget) && looked == rest[..|looked|]
    && Reach(scan.budget, scan.pageSize) ==
       passed + (if passed < scan.budget then Reach(scan.budget - passed, scan.pageSize) else 0)
    && cursor == if passed == 0 then scan.start else Some(rest[passed - 1])
  }

  // Whether the whole scan ends with these rows looked at and this cursor.
  ghost predicate Ends(scan: Pass, looked: seq<Key>, cursor: Option<Key>)
    requires scan.pageSize > 0
  {
    var rest := Ordered(Behind(scan.rows, scan.start));
    looked == Take(rest, scan.budget) && cursor == NextCursor(rest, scan.start, scan.budget, scan.pageSize)
  }

  lemma EndsMeans(scan: Pass, looked: seq<Key>, cursor: Option<Key>)
    requires scan.pageSize > 0 && Ends(scan, looked, cursor)
    ensures
      var rest := Ordered(Behind(scan.rows, scan.start));
      looked == Take(rest, scan.budget) && cursor == NextCursor(rest, scan.start, scan.budget, scan.pageSize)
  {
  }

  lemma ScanBegins(scan: Pass)
    requires scan.pageSize > 0
    ensures Scanning(scan, 0, [], scan.start)
    ensures scan.budget == 0 ==> Ends(scan, [], scan.start)
  {
    hide Ordered, Behind;
  }

  lemma PageIsNext(rest: seq<Key>, passed: nat, page: seq<Key>, limit: nat, n: nat)
    requires passed <= |rest| && page == Take(rest[passed..], limit) && n <= |page|
    ensures |page| == (if |rest| - passed <= limit then |rest| - passed else limit)
    ensures rest[..passed] + page[..n] == rest[..passed + n]
    ensures page != [] ==> page[|page| - 1] == rest[passed + |page| - 1]
    ensures rest[passed..][|page|..] == rest[passed + |page|..]
  {
  }

  lemma FullPage(scan: Pass, passed: nat, looked: seq<Key>, cursor: Option<Key>, page: seq<Key>, n: nat)
    requires Scanning(scan, passed, looked, cursor) && passed < scan.budget
    requires page == Page(scan.rows, cursor, scan.pageSize) && |page| == scan.pageSize
    requires n == if |page| <= scan.budget - passed then |page| else scan.budget - passed
    ensures Scanning(scan, passed + scan.pageSize, looked + page[..n], Some(page[|page| - 1]))
  {
    var rest := Ordered(Behind(scan.rows, scan.start));
    PageIsTaken(scan.rows, cursor, scan.pageSize);
    hide Ordered, Behind, Take, Reach, Page;
    PageIsNext(rest, passed, page, scan.pageSize, n);
    NextPage(scan.budget - passed, scan.pageSize);
    BehindRow(scan.rows, cursor, |page| - 1);
  }

  lemma PageIsTaken(rows: set<Key>, cursor: Option<Key>, limit: nat)
    ensures Page(rows, cursor, limit) == Take(Ordered(Behind(rows, cursor)), limit)
  {
  }

  lemma NextPage(left: nat, pageSize: nat)
    requires pageSize > 0 && left > 0
    ensures Reach(left, pageSize) == pageSize + if left > pageSize then Reach(left - pageSize, pageSize) else 0
  {
  }

  lemma NextPageOf(scan: Pass, passed: nat, looked: seq<Key>, cursor: Option<Key>, page: seq<Key>, n: nat,
                   more: seq<Key>)
    requires Scanning(scan, passed, looked, cursor) && passed < scan.budget
    requires page == Page(scan.rows, cursor, scan.pageSize) && scan.pageSize > 0
    requires n == if |page| <= scan.budget - passed then |page| else scan.budget - passed
    requires more == looked + page[..n]
    ensures |more| == |looked| + n && (page == [] ==> more == looked)
    ensures |page| < scan.pageSize ==> Ends(scan, more, None)
    ensures |page| >= scan.pageSize ==> Scanning(scan, passed + scan.pageSize, more, Some(page[|page| - 1]))
    ensures |page| >= scan.pageSize && passed + scan.pageSize >= scan.budget ==>
      Ends(scan, more, Some(page[|page| - 1]))
    ensures |page| <= scan.pageSize
  {
    hide *;
    PageFits(scan.rows, cursor, scan.pageSize);
    if |page| < scan.pageSize {
      LastPage(scan, passed, looked, cursor, page, n);
    } else {
      FullPage(scan, passed, looked, cursor, page, n);
      if passed + scan.pageSize >= scan.budget {
        BudgetUsed(scan, passed + scan.pageSize, more, Some(page[|page| - 1]));
      }
    }
  }

  lemma PageFits(rows: set<Key>, cursor: Option<Key>, limit: nat)
    ensures |Page(rows, cursor, limit)| <= limit
  {
  }

  lemma BudgetUsed(scan: Pass, passed: nat, looked: seq<Key>, cursor: Option<Key>)
    requires Scanning(scan, passed, looked, cursor) && passed >= scan.budget
    ensures Ends(scan, looked, cursor)
  {
    hide Ordered, Behind;
  }

  lemma LastPage(scan: Pass, passed: nat, looked: seq<Key>, cursor: Option<Key>, page: seq<Key>, n: nat)
    requires Scanning(scan, passed, looked, cursor) && passed < scan.budget
    requires page == Page(scan.rows, cursor, scan.pageSize) && |page| < scan.pageSize
    requires n == if |page| <= scan.budget - passed then |page| else scan.budget - passed
    ensures Ends(scan, looked + page[..n], None)
  {
    hide Ordered, Behind;
  }

  lemma MorePages(a: nat, b: nat, n: nat)
    requires a < b
    ensures a * n + n <= b * n
  {
    assert (b - a - 1) * n >= 0;
    assert (b - a - 1) * n == b * n - a * n - n;
  }

  lemma Remainder(a: nat, n: nat, q: nat, r: nat)
    requires n > 0 && a == q * n + r && r < n
    ensures a % n == r
  {
    var q', r' := a / n, a % n;
    assert a == q' * n + r';
    if q > q' { MorePages(q', q, n); }
    if q < q' { MorePages(q, q', n); }
  }

  lemma OnePageLess(budget: nat, pageSize: nat)
    requires 0 < pageSize <= budget
    ensures budget % pageSize == (budget - pageSize) % pageSize
  {
    var q, r := (budget - pageSize) / pageSize, (budget - pageSize) % pageSize;
    assert budget == (q + 1) * pageSize + r;
    Remainder(budget, pageSize, q + 1, r);
  }

  /** The pages end exactly on the budget when the page size divides it. */
  lemma {:induction false} ReachIsBudgetIff(budget: nat, pageSize: nat)
    requires pageSize > 0
    ensures Reach(budget, pageSize) == budget <==> budget % pageSize == 0
  {
    if budget < pageSize {
      Remainder(budget, pageSize, 0, budget);
    } else {
      OnePageLess(budget, pageSize);
      ReachIsBudgetIff(budget - pageSize, pageSize);
    }
  }

  // ---- Sweeps ------------------------------------------------------------------------------------

  // What consecutive scans look at, from a reset cursor until it is reset again; `rest` is what
  // stands behind the cursor.
  function Sweep(rest: seq<Key>, budget: nat, pageSize: nat): seq<Key>
    requires pageSize > 0 && budget > 0
    decreases |rest|
  {
    var reach := Reach(budget, pageSize);
    Take(rest, budget) + if |rest| < reach then [] else Sweep(rest[reach..], budget, pageSize)
  }

  lemma {:induction false} SweepMissesNothing(rest: seq<Key>, budget: nat, pageSize: nat)
    requires pageSize > 0 && budget > 0 && budget % pageSize == 0
    ensures Sweep(rest, budget, pageSize) == rest
    decreases |rest|
  {
    ReachIsBudgetIff(budget, pageSize);
    if |rest| >= budget {
      SweepMissesNothing(rest[budget..], budget, pageSize);
      assert rest == rest[..budget] + rest[budget..];
    }
  }

  lemma SweepMissesARow(rest: seq<Key>, budget: nat, pageSize: nat)
    requires pageSize > 0 && budget > 0 && budget % pageSize != 0 && |rest| == budget + 1
    ensures Sweep(rest, budget, pageSize) == rest[..budget]
  {
    ReachIsBudgetIff(budget, pageSize);
    var reach := Reach(budget, pageSize);
    if |rest| >= reach {
      assert rest[reach..] == [];
      assert Sweep([], budget, pageSize) == [];
    }
  }

  ghost predicate SweepsEverything(budget: nat, pageSize: nat)
    requires pageSize > 0 && budget > 0
  {
    forall s :: Sweep(Ordered(s), budget, pageSize) == Ordered(s)
  }

  function FirstKeys(n: nat): set<Key> {
    set t | 0 <= t < n :: Key(t, 0)
  }

  lemma {:induction false} FirstKeysCount(n: nat)
    ensures |FirstKeys(n)| == n
  {
    if n > 0 {
      FirstKeysCount(n - 1);
      assert FirstKeys(n) == FirstKeys(n - 1) + {Key(n - 1, 0)};
    }
  }

  /**
   * One sweep of the scanner looks at every row of every table, in order and once, exactly when the
   * page size divides the budget.
   */
  lemma SweepsEverythingIff(budget: nat, pageSize: nat)
    requires pageSize > 0 && budget > 0
    ensures SweepsEverything(budget, pageSize) <==> budget % pageSize == 0
  {
    if budget % pageSize == 0 {
      forall s ensures Sweep(Ordered(s), budget, pageSize) == Ordered(s) {
        SweepMissesNothing(Ordered(s), budget, pageSize);
      }
    } else {
      var s := FirstKeys(budget + 1);
      FirstKeysCount(budget + 1);
      OrderedSpec(s);
      SweepMissesARow(Ordered(s), budget, pageSize);
      assert |Sweep(Ordered(s), budget, pageSize)| == budget;
    }
  }

  const SCAN_BUDGET: nat := 200
  const PAGE_SIZE: nat := 50

  /** The constants the worker ships with divide. */
  lemma ShippedSweepIsComplete(s: set<Key>)
    ensures Sweep(Ordered(s), SCAN_BUDGET, PAGE_SIZE) == Ordered(s)
  {
    SweepMissesNothing(Ordered(s), SCAN_BUDGET, PAGE_SIZE);
  }

  /** `Sweep` is what the scans do: this one looks at its first part and the next goes on behind it. */
  lemma ScanIsSweepStep(s: set<Key>, cursor: Option<Key>, budget: nat, pageSize: nat)
    requires pageSize > 0 && budget > 0
    ensures
      var rest := Ordered(Behind(s, cursor));
      var next := NextCursor(rest, cursor, budget, pageSize);
      Sweep(rest, budget, pageSize) ==
        Take(rest, budget) + if next.None? then [] else Sweep(Ordered(Behind(s, next)), budget, pageSize)
  {
    hide Ordered, Behind, Reach, Take;
    var rest, reach := Ordered(Behind(s, cursor)), Reach(budget, pageSize);
    if |rest| >= reach { BehindRow(s, cursor, reach - 1); }
  }
}
