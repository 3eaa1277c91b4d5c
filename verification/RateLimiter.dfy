/** The sliding-window limiter against the specification that remembers every accepted request. */
module SlidingWindow {
  datatype Limits = Limits(windowMs: int, maxRequests: nat)

  type Hits = map<string, seq<int>>

  // The times later than the cutoff, in order.
  function Fresh(times: seq<int>, cutoff: int): seq<int> {
    if times == [] then []
    else
      var last := times[|times| - 1];
      Fresh(times[..|times| - 1], cutoff) + if last > cutoff then [last] else []
  }

  function Bucket(hits: Hits, ip: string): seq<int> {
    if ip in hits then hits[ip] else []
  }

  predicate Allows(l: Limits, hits: Hits, ip: string, now: int) {
    |Fresh(Bucket(hits, ip), now - l.windowMs)| < l.maxRequests
  }

  // The buckets after a request, and after a sweep.
  function Checked(l: Limits, hits: Hits, ip: string, now: int): Hits {
    var recent := Fresh(Bucket(hits, ip), now - l.windowMs);
    hits[ip := if Allows(l, hits, ip, now) then recent + [now] else recent]
  }

  function Swept(l: Limits, hits: Hits, now: int): Hits {
    map ip | ip in hits && Fresh(hits[ip], now - l.windowMs) != [] :: Fresh(hits[ip], now - l.windowMs)
  }

  datatype Event = Check(ip: string, now: int) | Sweep(now: int)

  function Live(l: Limits, es: seq<Event>): Hits {
    if es == [] then map[]
    else
      var hits := Live(l, es[..|es| - 1]);
      match es[|es| - 1]
      case Check(ip, now) => Checked(l, hits, ip, now)
      case Sweep(now) => Swept(l, hits, now)
  }

  // ---- The specification ---------------------------------------------------------------------------

  datatype Accept = Accept(ip: string, at: int)

  function Times(log: seq<Accept>, ip: string): seq<int> {
    if log == [] then []
    else
      var last := log[|log| - 1];
      Times(log[..|log| - 1], ip) + if last.ip == ip then [last.at] else []
  }

  predicate Grants(l: Limits, log: seq<Accept>, ip: string, now: int) {
    |Fresh(Times(log, ip), now - l.windowMs)| < l.maxRequests
  }

  // Every request ever accepted. Sweeps mean nothing here.
  function Log(l: Limits, es: seq<Event>): seq<Accept> {
    if es == [] then []
    else
      var log := Log(l, es[..|es| - 1]);
      match es[|es| - 1]
      case Check(ip, now) => if Grants(l, log, ip, now) then log + [Accept(ip, now)] else log
      case Sweep(_) => log
  }

  // ---- Refinement ------------------------------------------------------------------------------------

  // The clock does not run backwards.
  predicate Monotone(es: seq<Event>) {
    forall i, j :: 0 <= i < j < |es| ==> es[i].now <= es[j].now
  }

  lemma {:induction false} FreshTwice(times: seq<int>, early: int, late: int)
    requires forall t :: t in times && t <= early ==> t <= late
    ensures Fresh(Fresh(times, early), late) == Fresh(times, late)
  {
    if times != [] {
      var n := |times| - 1;
      assert times[n] in times && forall t :: t in times[..n] ==> t in times;
      FreshTwice(times[..n], early, late);
      FreshAppend(Fresh(times[..n], early), times[n], late);
      assert Fresh(times[..n], early) + [] == Fresh(times[..n], early);
      assert Fresh(times[..n], late) + [] == Fresh(times[..n], late);
    }
  }

  lemma FreshAppend(times: seq<int>, t: int, cutoff: int)
    ensures Fresh(times + [t], cutoff) == Fresh(times, cutoff) + if t > cutoff then [t] else []
  {
    assert (times + [t])[..|times|] == times;
  }

  lemma TimesAppend(log: seq<Accept>, a: Accept, ip: string)
    ensures Times(log + [a], ip) == Times(log, ip) + if a.ip == ip then [a.at] else []
  {
    assert (log + [a])[..|log|] == log;
  }

  // The live buckets show what the full history shows, for this address and from this cutoff on.
  predicate Agrees(hits: Hits, log: seq<Accept>, ip: string, cutoff: int) {
    Fresh(Bucket(hits, ip), cutoff) == Fresh(Times(log, ip), cutoff)
  }

  lemma CheckAgrees(l: Limits, hits: Hits, log: seq<Accept>, who: string, now: int, ip: string, cutoff: int)
    requires forall t :: t in Bucket(hits, ip) && t <= now - l.windowMs ==> t <= cutoff
    requires Agrees(hits, log, ip, cutoff) && Agrees(hits, log, who, now - l.windowMs)
    ensures
      var log' := if Grants(l, log, who, now) then log + [Accept(who, now)] else log;
      Agrees(Checked(l, hits, who, now), log', ip, cutoff)
  {
    hide Fresh, Times;
    TimesAppend(log, Accept(who, now), ip);
    FreshAppend(Times(log, ip), now, cutoff);
    if ip == who {
      var recent := Fresh(Bucket(hits, ip), now - l.windowMs);
      FreshTwice(Bucket(hits, ip), now - l.windowMs, cutoff);
      FreshAppend(recent, now, cutoff);
    } else {
      assert Times(log, ip) + [] == Times(log, ip);
    }
  }

  lemma SweepAgrees(l: Limits, hits: Hits, log: seq<Accept>, now: int, ip: string, cutoff: int)
    requires forall t :: t in Bucket(hits, ip) && t <= now - l.windowMs ==> t <= cutoff
    requires Agrees(hits, log, ip, cutoff)
    ensures Agrees(Swept(l, hits, now), log, ip, cutoff)
  {
    NoneIsFresh(cutoff);
    NoneIsFresh(now - l.windowMs);
    hide Fresh, Times;
    if ip in hits { FreshTwice(hits[ip], now - l.windowMs, cutoff); }
  }

  function Readings(es: seq<Event>): (ts: seq<int>)
    ensures |ts| == |es| && forall i :: 0 <= i < |es| ==> ts[i] == es[i].now
  {
    seq(|es|, i requires 0 <= i < |es| => es[i].now)
  }

  lemma {:induction false} FreshIsPart(times: seq<int>, cutoff: int)
    ensures forall t :: t in Fresh(times, cutoff) ==> t in times
  {
    if times != [] { FreshIsPart(times[..|times| - 1], cutoff); }
  }

  lemma CheckKeeps(l: Limits, hits: Hits, who: string, now: int, ip: string)
    ensures forall t :: t in Bucket(Checked(l, hits, who, now), ip) ==> t in Bucket(hits, ip) || t == now
  {
    FreshIsPart(Bucket(hits, who), now - l.windowMs);
    hide Fresh;
  }

  lemma SweepKeeps(l: Limits, hits: Hits, now: int, ip: string)
    ensures forall t :: t in Bucket(Swept(l, hits, now), ip) ==> t in Bucket(hits, ip)
  {
    FreshIsPart(Bucket(hits, ip), now - l.windowMs);
    hide Fresh;
  }

  // Every kept time is one of the clock's readings.
  lemma {:induction false} KeptIsRead(l: Limits, es: seq<Event>, ip: string)
    ensures forall t :: t in Bucket(Live(l, es), ip) ==> t in Readings(es)
  {
    if es == [] {
    } else {
      hide Live, Readings, Checked, Swept, Bucket;
      var before, last := es[..|es| - 1], es[|es| - 1];
      KeptIsRead(l, before, ip);
      if last.Check? {
        CheckKeeps(l, Live(l, before), last.ip, last.now, ip);
      } else {
        SweepKeeps(l, Live(l, before), last.now, ip);
      }
      assert Readings(es) == Readings(before) + [last.now];
      LiveStep(l, es);
    }
  }

  lemma LiveStep(l: Limits, es: seq<Event>)
    requires es != []
    ensures
      var before, last := Live(l, es[..|es| - 1]), es[|es| - 1];
      Live(l, es) == if last.Check? then Checked(l, before, last.ip, last.now) else Swept(l, before, last.now)
  {
    hide Checked, Swept;
  }

  // What some reading among ts throws out counts no more at the cutoff.
  predicate OutStaysOut(windowMs: int, ts: seq<int>, cutoff: int) {
    forall i, j :: 0 <= i < j < |ts| && ts[i] + windowMs <= ts[j] ==> ts[i] <= cutoff
  }

  // No reading falls back into a window that an earlier reading has left.
  predicate NeverFallsBack(windowMs: int, ts: seq<int>) {
    forall i, j, k :: 0 <= i < j < k < |ts| && ts[i] + windowMs <= ts[j] ==> ts[i] + windowMs <= ts[k]
  }

  lemma {:induction false} LiveAgrees(l: Limits, es: seq<Event>, ip: string, cutoff: int)
    requires NeverFallsBack(l.windowMs, Readings(es)) && OutStaysOut(l.windowMs, Readings(es), cutoff)
    ensures Agrees(Live(l, es), Log(l, es), ip, cutoff)
  {
    if es == [] {
    } else {
      hide Agrees, Checked, Swept, Grants, Live, Readings, Bucket, NeverFallsBack, OutStaysOut;
      var before, last := es[..|es| - 1], es[|es| - 1];
      ShorterRun(l.windowMs, es, cutoff);
      LiveAgrees(l, before, ip, cutoff);
      KeptIsRead(l, before, ip);
      LiveStep(l, es);
      match last
      case Check(who, now) =>
        LiveAgrees(l, before, who, now - l.windowMs);
        CheckAgrees(l, Live(l, before), Log(l, before), who, now, ip, cutoff);
      case Sweep(now) => SweepAgrees(l, Live(l, before), Log(l, before), now, ip, cutoff);
    }
  }

  lemma ShorterRun(windowMs: int, es: seq<Event>, cutoff: int)
    requires es != [] && NeverFallsBack(windowMs, Readings(es)) && OutStaysOut(windowMs, Readings(es), cutoff)
    ensures
      var before, now := Readings(es[..|es| - 1]), es[|es| - 1].now;
      && NeverFallsBack(windowMs, before) && OutStaysOut(windowMs, before, cutoff)
      && OutStaysOut(windowMs, before, now - windowMs)
      && (forall t :: t in before && t <= now - windowMs ==> t <= cutoff)
  {
    var ts, before := Readings(es), Readings(es[..|es| - 1]);
    var n := |es| - 1;
    hide Readings;
    assert ts == before + [ts[n]];
    forall t | t in before && t <= ts[n] - windowMs ensures t <= cutoff {
      var i :| 0 <= i < n && before[i] == t;
      assert ts[i] + windowMs <= ts[n];
    }
    forall i, j | 0 <= i < j < n && before[i] + windowMs <= before[j] ensures before[i] <= ts[n] - windowMs {
      assert ts[i] + windowMs <= ts[j];
    }
  }

  // Event k, if it is a request, is decided as by the full history.
  predicate DecidesAt(l: Limits, es: seq<Event>, k: nat)
    requires k < |es|
  {
    es[k].Check? ==>
      (Allows(l, Live(l, es[..k]), es[k].ip, es[k].now) <==> Grants(l, Log(l, es[..k]), es[k].ip, es[k].now))
  }

  predicate DecidesThroughout(l: Limits, es: seq<Event>) {
    forall k :: 0 <= k < |es| ==> DecidesAt(l, es, k)
  }

  // Whatever the limit, and whoever asks or sweeps at these readings of the clock.
  ghost predicate NeverDiffers(windowMs: int, ts: seq<int>) {
    forall maxRequests: nat, es :: Readings(es) == ts ==> DecidesThroughout(Limits(windowMs, maxRequests), es)
  }

  lemma BeforeOne(windowMs: int, es: seq<Event>, k: nat)
    requires k < |es| && NeverFallsBack(windowMs, Readings(es))
    ensures NeverFallsBack(windowMs, Readings(es[..k]))
    ensures OutStaysOut(windowMs, Readings(es[..k]), es[k].now - windowMs)
  {
    var ts := Readings(es);
    assert Readings(es[..k]) == ts[..k];
    hide Readings;
    assert forall i, j :: 0 <= i < j < k && ts[i] + windowMs <= ts[j] ==> ts[i] <= ts[k] - windowMs;
  }

  lemma DecidesOne(l: Limits, es: seq<Event>, k: nat)
    requires k < |es| && NeverFallsBack(l.windowMs, Readings(es))
    ensures DecidesAt(l, es, k)
  {
    hide Readings, NeverFallsBack, OutStaysOut, Live, Log, Fresh, Times;
    if es[k].Check? {
      BeforeOne(l.windowMs, es, k);
      LiveAgrees(l, es[..k], es[k].ip, es[k].now - l.windowMs);
    }
  }

  // ---- The failing family ----------------------------------------------------------------------------

  // A time is kept as often as it stands there if it is later than the cutoff, and else not at all.
  lemma {:induction false} FreshCounts(times: seq<int>, cutoff: int, t: int)
    ensures multiset(Fresh(times, cutoff))[t] == if t > cutoff then multiset(times)[t] else 0
  {
    if times != [] {
      var n := |times| - 1;
      FreshCounts(times[..n], cutoff, t);
      var before, kept := times[..n], Fresh(times[..n], cutoff);
      assert times == before + [times[n]];
      OneMore(before, times[n]);
      OneMore(kept, times[n]);
      FreshAppend(before, times[n], cutoff);
      hide Fresh;
      if times[n] <= cutoff { assert kept + [] == kept; }
    }
  }

  lemma OneMore(times: seq<int>, last: int)
    ensures multiset(times + [last]) == multiset(times) + multiset{last}
  {
  }

  ghost predicate SomeLater(times: seq<int>, cutoff: int) {
    exists t :: t in times && t > cutoff
  }

  // Of the times those later than the cutoff are left, each as often as it was there.
  ghost predicate OnlyLater(before: seq<int>, after: seq<int>, cutoff: int) {
    forall t :: multiset(after)[t] == if t > cutoff then multiset(before)[t] else 0
  }

  // Of every bucket the times later than the cutoff are left, and the bucket is gone if there are none.
  ghost predicate Trimmed(before: Hits, after: Hits, cutoff: int) {
    && (forall ip :: ip in after <==> ip in before && SomeLater(before[ip], cutoff))
    && (forall ip :: ip in after && ip in before ==> OnlyLater(before[ip], after[ip], cutoff))
  }

  lemma FreshIs(times: seq<int>, cutoff: int)
    ensures Fresh(times, cutoff) != [] <==> SomeLater(times, cutoff)
    ensures OnlyLater(times, Fresh(times, cutoff), cutoff)
  {
    forall t ensures multiset(Fresh(times, cutoff))[t] == if t > cutoff then multiset(times)[t] else 0 {
      FreshCounts(times, cutoff, t);
    }
    var kept := Fresh(times, cutoff);
    hide Fresh;
    if kept != [] { assert multiset(kept)[kept[0]] > 0 && kept[0] in times; }
    if t :| t in times && t > cutoff { assert multiset(kept)[t] > 0; }
  }

  /** A sweep keeps exactly the times inside the window and the addresses that have some. */
  lemma SweptIs(l: Limits, hits: Hits, now: int)
    ensures Trimmed(hits, Swept(l, hits, now), now - l.windowMs)
  {
    var cutoff := now - l.windowMs;
    hide Fresh, SomeLater, OnlyLater;
    forall ip | ip in hits
      ensures Fresh(hits[ip], cutoff) != [] <==> SomeLater(hits[ip], cutoff)
      ensures OnlyLater(hits[ip], Fresh(hits[ip], cutoff), cutoff)
    {
      FreshIs(hits[ip], cutoff);
    }
  }

  // Address "a" asks at readings i and k; at every other reading there is a sweep.
  function AskTwice(ts: seq<int>, i: nat, k: nat): (es: seq<Event>)
    ensures Readings(es) == ts
  {
    seq(|ts|, m requires 0 <= m < |ts| => if m == i || m == k then Check("a", ts[m]) else Sweep(ts[m]))
  }

  lemma {:induction false} NothingYet(l: Limits, ts: seq<int>, i: nat, k: nat, m: nat)
    requires m <= i < k < |ts|
    ensures var es := AskTwice(ts, i, k)[..m]; Live(l, es) == map[] && Log(l, es) == []
  {
    if m > 0 {
      NothingYet(l, ts, i, k, m - 1);
      assert AskTwice(ts, i, k)[..m][..m - 1] == AskTwice(ts, i, k)[..m - 1];
      LiveStep(l, AskTwice(ts, i, k)[..m]);
    }
  }

  predicate ThrownOut(windowMs: int, ts: seq<int>, i: nat, m: nat)
    requires i < m <= |ts|
  {
    exists j :: i < j < m && ts[i] + windowMs <= ts[j]
  }

  predicate HoldsOne(l: Limits, es: seq<Event>, t: int, out: bool) {
    Live(l, es) == (if out then map[] else map["a" := [t]]) && Log(l, es) == [Accept("a", t)]
  }

  lemma FirstIsTaken(es: seq<Event>, t: int, windowMs: int)
    requires Live(Limits(windowMs, 1), es) == map[] && Log(Limits(windowMs, 1), es) == []
    ensures HoldsOne(Limits(windowMs, 1), es + [Check("a", t)], t, false)
  {
    var l, more := Limits(windowMs, 1), es + [Check("a", t)];
    assert more[..|es|] == es;
    LiveStep(l, more);
    NoneIsFresh(t - windowMs);
    hide Live, Fresh;
    assert [] + [t] == [t];
  }

  lemma SweepMayThrowOut(es: seq<Event>, t: int, now: int, windowMs: int, out: bool)
    requires HoldsOne(Limits(windowMs, 1), es, t, out)
    ensures HoldsOne(Limits(windowMs, 1), es + [Sweep(now)], t, out || t + windowMs <= now)
  {
    var l, more := Limits(windowMs, 1), es + [Sweep(now)];
    assert more[..|es|] == es;
    LiveStep(l, more);
    FreshOne(t, now - windowMs);
    hide Live, Fresh;
  }

  lemma {:induction false} OneUntilThrownOut(ts: seq<int>, i: nat, k: nat, m: nat, windowMs: int)
    requires i < m <= k < |ts|
    ensures HoldsOne(Limits(windowMs, 1), AskTwice(ts, i, k)[..m], ts[i], ThrownOut(windowMs, ts, i, m))
  {
    hide HoldsOne;
    var es := AskTwice(ts, i, k);
    if m == i + 1 {
      NothingYet(Limits(windowMs, 1), ts, i, k, i);
      hide Live, Log;
      FirstIsTaken(es[..i], ts[i], windowMs);
      assert es[..m] == es[..i] + [Check("a", ts[i])];
    } else {
      OneUntilThrownOut(ts, i, k, m - 1, windowMs);
      SweepMayThrowOut(es[..m - 1], ts[i], ts[m - 1], windowMs, ThrownOut(windowMs, ts, i, m - 1));
      assert es[..m] == es[..m - 1] + [Sweep(ts[m - 1])];
      assert ThrownOut(windowMs, ts, i, m) <==> ThrownOut(windowMs, ts, i, m - 1) || ts[i] + windowMs <= ts[m - 1];
    }
  }

  lemma NoneIsFresh(cutoff: int)
    ensures Fresh([], cutoff) == []
  {
  }

  lemma FallingBackDiffers(windowMs: int, ts: seq<int>, i: nat, j: nat, k: nat)
    requires i < j < k < |ts| && ts[i] + windowMs <= ts[j] && ts[k] < ts[i] + windowMs
    ensures var es, l := AskTwice(ts, i, k), Limits(windowMs, 1); !DecidesAt(l, es, k)
  {
    var es, l := AskTwice(ts, i, k), Limits(windowMs, 1);
    OneUntilThrownOut(ts, i, k, k, windowMs);
    assert ThrownOut(windowMs, ts, i, k);
    hide Live, Log;
    FreshOne(ts[i], ts[k] - windowMs);
    NoneIsFresh(ts[k] - windowMs);
    TimesAppend([], Accept("a", ts[i]), "a");
    assert [] + [Accept("a", ts[i])] == [Accept("a", ts[i])] && [] + [ts[i]] == [ts[i]];
    assert Times([], "a") == [];
  }

  /**
   * The buckets decide every request as the full history does, for all limits and all requests and
   * sweeps at these clock readings, exactly when no reading falls back into a window already left.
   */
  lemma NeverDiffersIff(windowMs: int, ts: seq<int>)
    ensures NeverDiffers(windowMs, ts) <==> NeverFallsBack(windowMs, ts)
  {
    hide AskTwice, DecidesAt, Readings;
    if NeverFallsBack(windowMs, ts) {
      forall maxRequests: nat, es | Readings(es) == ts ensures DecidesThroughout(Limits(windowMs, maxRequests), es) {
        forall k | 0 <= k < |es| ensures DecidesAt(Limits(windowMs, maxRequests), es, k) {
          DecidesOne(Limits(windowMs, maxRequests), es, k);
        }
      }
    } else {
      var i, j, k :| 0 <= i < j < k < |ts| && ts[i] + windowMs <= ts[j] && !(ts[i] + windowMs <= ts[k]);
      FallingBackDiffers(windowMs, ts, i, j, k);
      assert !DecidesThroughout(Limits(windowMs, 1), AskTwice(ts, i, k));
    }
  }

  /** So under a clock that does not run backwards every request is decided as by the full history. */
  lemma DecidesAsFullHistory(l: Limits, es: seq<Event>, ip: string, now: int)
    requires Monotone(es + [Check(ip, now)])
    ensures Allows(l, Live(l, es), ip, now) <==> Grants(l, Log(l, es), ip, now)
  {
    var all := es + [Check(ip, now)];
    hide Live, Log, Allows, Grants;
    NeverDiffersIff(l.windowMs, Readings(all));
    assert DecidesThroughout(Limits(l.windowMs, l.maxRequests), all);
    assert DecidesAt(l, all, |es|) && all[..|es|] == es;
  }

  /** The clock matters: once it runs backwards the two can decide differently. */
  lemma BackwardClockDiffers()
    ensures
      var l, es := Limits(10, 2), [Check("a", 0), Check("a", 20)];
      Allows(l, Live(l, es), "a", 5) && !Grants(l, Log(l, es), "a", 5)
  {
    var l := Limits(10, 2);
    var e0, e1 := [Check("a", 0)], [Check("a", 0), Check("a", 20)];
    assert e0[..0] == [] && e1[..1] == e0;
    FreshOne(0, 10);
    FreshOne(20, -5);
    assert Live(l, e0) == Checked(l, map[], "a", 0);
    assert [] + [0] == [0];
    assert Live(l, e0)["a"] == [0];
    assert Live(l, e1) == Checked(l, Live(l, e0), "a", 20);
    assert [] + [20] == [20];
    assert Live(l, e1)["a"] == [20];
    assert Log(l, e0) == [] + [Accept("a", 0)];
    TimesAppend([], Accept("a", 0), "a");
    assert Times(Log(l, e0), "a") == [0];
    TimesAppend(Log(l, e0), Accept("a", 20), "a");
    assert Times(Log(l, e1), "a") == [0] + [20];
    FreshAppend([0], 20, -5);
    FreshOne(0, -5);
  }

  lemma FreshOne(t: int, cutoff: int)
    ensures Fresh([t], cutoff) == if t > cutoff then [t] else []
  {
    FreshAppend([], t, cutoff);
    assert [] + [t] == [t];
  }

  // ---- The bound ---------------------------------------------------------------------------------------

  // The times in the half-open interval (from, to].
  function Within(times: seq<int>, from: int, to: int): seq<int> {
    if times == [] then []
    else
      var last := times[|times| - 1];
      Within(times[..|times| - 1], from, to) + if from < last <= to then [last] else []
  }

  lemma {:induction false} WithinIsFresh(times: seq<int>, from: int, to: int, cutoff: int)
    requires cutoff <= from
    ensures |Within(times, from, to)| <= |Fresh(times, cutoff)|
  {
    if times != [] { WithinIsFresh(times[..|times| - 1], from, to, cutoff); }
  }

  lemma WithinAppend(times: seq<int>, t: int, from: int, to: int)
    ensures Within(times + [t], from, to) == Within(times, from, to) + if from < t <= to then [t] else []
  {
    assert (times + [t])[..|times|] == times;
  }

  predicate BoundedAt(l: Limits, log: seq<Accept>, ip: string, t: int) {
    |Within(Times(log, ip), t - l.windowMs, t)| <= l.maxRequests
  }

  // No interval of one window's length holds more accepted requests of an address than the limit.
  ghost predicate Bounded(l: Limits, log: seq<Accept>) {
    forall ip, t :: BoundedAt(l, log, ip, t)
  }

  /** The full history never exceeds the limit, whatever the clock does. */
  lemma {:induction false} FullHistoryIsBounded(l: Limits, es: seq<Event>)
    ensures Bounded(l, Log(l, es))
  {
    if es == [] {
    } else {
      var before, last := es[..|es| - 1], es[|es| - 1];
      FullHistoryIsBounded(l, before);
      hide Grants, BoundedAt;
      if last.Check? && Grants(l, Log(l, before), last.ip, last.now) {
        forall ip, t ensures BoundedAt(l, Log(l, es), ip, t) {
          AcceptIsBounded(l, Log(l, before), last.ip, last.now, ip, t);
        }
      }
    }
  }

  lemma AcceptIsBounded(l: Limits, log: seq<Accept>, who: string, now: int, ip: string, t: int)
    requires Grants(l, log, who, now) && BoundedAt(l, log, ip, t)
    ensures BoundedAt(l, log + [Accept(who, now)], ip, t)
  {
    hide Fresh, Times, Within;
    TimesAppend(log, Accept(who, now), ip);
    WithinAppend(Times(log, ip), now, t - l.windowMs, t);
    if who == ip && t - l.windowMs < now <= t {
      WithinIsFresh(Times(log, ip), t - l.windowMs, t, now - l.windowMs);
    } else {
      assert Times(log, ip) + [] == Times(log, ip);
    }
  }

  // ---- What the limiter itself accepts -------------------------------------------------------------------

  // Every request that was let through by the buckets of its time.
  function LiveLog(l: Limits, es: seq<Event>): seq<Accept> {
    if es == [] then []
    else
      var before := es[..|es| - 1];
      match es[|es| - 1]
      case Check(ip, now) =>
        if Allows(l, Live(l, before), ip, now) then LiveLog(l, before) + [Accept(ip, now)] else LiveLog(l, before)
      case Sweep(_) => LiveLog(l, before)
  }

  lemma FirstReadings(windowMs: int, es: seq<Event>)
    requires es != [] && NeverFallsBack(windowMs, Readings(es))
    ensures NeverFallsBack(windowMs, Readings(es[..|es| - 1]))
  {
    var ts, before := Readings(es), Readings(es[..|es| - 1]);
    hide Readings;
    assert forall i :: 0 <= i < |before| ==> before[i] == ts[i];
  }

  /** As long as no reading falls back into a window already left, the limiter accepts what the full history does. */
  lemma {:induction false} LiveLogIsLog(l: Limits, es: seq<Event>)
    requires NeverFallsBack(l.windowMs, Readings(es))
    ensures LiveLog(l, es) == Log(l, es)
  {
    if es == [] {
    } else {
      hide Readings, NeverFallsBack, Live;
      FirstReadings(l.windowMs, es);
      LiveLogIsLog(l, es[..|es| - 1]);
      DecidesOne(l, es, |es| - 1);
    }
  }

  // No reading returns to within one window of an earlier one that has been left behind in between.
  predicate NeverReturns(windowMs: int, ts: seq<int>) {
    forall i, j, k :: 0 <= i < j < k < |ts| && ts[i] + windowMs <= ts[j] ==>
      ts[k] <= ts[i] - windowMs || ts[i] + windowMs <= ts[k]
  }

  // No reading throws out what lies in the interval (from, to].
  predicate Spares(windowMs: int, ts: seq<int>, from: int, to: int) {
    forall i, j :: 0 <= i < j < |ts| && from < ts[i] <= to ==> ts[j] < ts[i] + windowMs
  }

  lemma {:induction false} WithinFresh(times: seq<int>, from: int, to: int, cutoff: int)
    requires forall t :: t in times && from < t <= to ==> t > cutoff
    ensures Within(Fresh(times, cutoff), from, to) == Within(times, from, to)
  {
    if times != [] {
      var n := |times| - 1;
      assert times[n] in times && forall t :: t in times[..n] ==> t in times;
      WithinFresh(times[..n], from, to, cutoff);
      WithinAppend(Fresh(times[..n], cutoff), times[n], from, to);
      assert Fresh(times[..n], cutoff) + [] == Fresh(times[..n], cutoff);
      assert Within(times[..n], from, to) + [] == Within(times[..n], from, to);
    }
  }

  // What the bucket of the address shows of the interval.
  predicate Shows(hits: Hits, log: seq<Accept>, ip: string, from: int, to: int) {
    Within(Bucket(hits, ip), from, to) == Within(Times(log, ip), from, to)
  }

  lemma CheckShows(l: Limits, hits: Hits, log: seq<Accept>, who: string, now: int, ip: string, from: int, to: int)
    requires forall t :: t in Bucket(hits, ip) && from < t <= to ==> t > now - l.windowMs
    requires Shows(hits, log, ip, from, to)
    ensures
      var log' := if Allows(l, hits, who, now) then log + [Accept(who, now)] else log;
      Shows(Checked(l, hits, who, now), log', ip, from, to)
  {
    hide Fresh, Times, Within;
    TimesAppend(log, Accept(who, now), ip);
    WithinAppend(Times(log, ip), now, from, to);
    if ip == who {
      WithinFresh(Bucket(hits, ip), from, to, now - l.windowMs);
      WithinAppend(Fresh(Bucket(hits, ip), now - l.windowMs), now, from, to);
    } else {
      assert Times(log, ip) + [] == Times(log, ip);
    }
  }

  lemma SweepShows(l: Limits, hits: Hits, log: seq<Accept>, now: int, ip: string, from: int, to: int)
    requires forall t :: t in Bucket(hits, ip) && from < t <= to ==> t > now - l.windowMs
    requires Shows(hits, log, ip, from, to)
    ensures Shows(Swept(l, hits, now), log, ip, from, to)
  {
    WithinFresh(Bucket(hits, ip), from, to, now - l.windowMs);
    hide Fresh, Within, Times;
  }

  lemma FirstSpares(windowMs: int, es: seq<Event>, from: int, to: int)
    requires es != [] && Spares(windowMs, Readings(es), from, to)
    ensures
      var before := Readings(es[..|es| - 1]);
      && Spares(windowMs, before, from, to)
      && forall t :: t in before && from < t <= to ==> t > es[|es| - 1].now - windowMs
  {
    var ts, before := Readings(es), Readings(es[..|es| - 1]);
    var n := |es| - 1;
    hide Readings;
    assert forall i :: 0 <= i < n ==> before[i] == ts[i];
    forall t | t in before && from < t <= to ensures t > ts[n] - windowMs {
      var i :| 0 <= i < n && before[i] == t;
      assert ts[n] < ts[i] + windowMs;
    }
  }

  lemma {:induction false} BucketShows(l: Limits, es: seq<Event>, ip: string, from: int, to: int)
    requires Spares(l.windowMs, Readings(es), from, to)
    ensures Shows(Live(l, es), LiveLog(l, es), ip, from, to)
  {
    if es == [] {
    } else {
      hide Spares, Shows, Checked, Swept, Allows, Live, Readings, Bucket;
      var before, last := es[..|es| - 1], es[|es| - 1];
      FirstSpares(l.windowMs, es, from, to);
      BucketShows(l, before, ip, from, to);
      KeptIsRead(l, before, ip);
      LiveStep(l, es);
      match last
      case Check(who, now) => CheckShows(l, Live(l, before), LiveLog(l, before), who, now, ip, from, to);
      case Sweep(now) => SweepShows(l, Live(l, before), LiveLog(l, before), now, ip, from, to);
    }
  }

  lemma NewFits(l: Limits, hits: Hits, log: seq<Accept>, who: string, now: int, t: int)
    requires Allows(l, hits, who, now) && t - l.windowMs < now <= t
    requires Shows(hits, log, who, t - l.windowMs, t)
    ensures BoundedAt(l, log + [Accept(who, now)], who, t)
  {
    hide Fresh, Times, Within;
    TimesAppend(log, Accept(who, now), who);
    WithinAppend(Times(log, who), now, t - l.windowMs, t);
    WithinIsFresh(Bucket(hits, who), t - l.windowMs, t, now - l.windowMs);
  }

  lemma NewIsElsewhere(l: Limits, log: seq<Accept>, a: Accept, ip: string, t: int)
    requires BoundedAt(l, log, ip, t) && !(a.ip == ip && t - l.windowMs < a.at <= t)
    ensures BoundedAt(l, log + [a], ip, t)
  {
    hide Times, Within;
    TimesAppend(log, a, ip);
    WithinAppend(Times(log, ip), a.at, t - l.windowMs, t);
    assert Times(log, ip) + [] == Times(log, ip);
  }

  lemma LastReading(windowMs: int, es: seq<Event>, t: int)
    requires es != [] && NeverReturns(windowMs, Readings(es))
    ensures NeverReturns(windowMs, Readings(es[..|es| - 1]))
    ensures t - windowMs < es[|es| - 1].now <= t ==> Spares(windowMs, Readings(es[..|es| - 1]), t - windowMs, t)
  {
    var ts, before := Readings(es), Readings(es[..|es| - 1]);
    hide Readings;
    assert forall i :: 0 <= i < |before| ==> before[i] == ts[i];
  }

  lemma {:induction false} LiveLogIsBounded(l: Limits, es: seq<Event>, ip: string, t: int)
    requires NeverReturns(l.windowMs, Readings(es))
    ensures BoundedAt(l, LiveLog(l, es), ip, t)
  {
    if es == [] {
    } else {
      hide NeverReturns, BoundedAt, Allows, Live, Readings;
      var before, last := es[..|es| - 1], es[|es| - 1];
      LastReading(l.windowMs, es, t);
      LiveLogIsBounded(l, before, ip, t);
      if last.Check? && Allows(l, Live(l, before), last.ip, last.now) {
        if last.ip == ip && t - l.windowMs < last.now <= t {
          BucketShows(l, before, ip, t - l.windowMs, t);
          NewFits(l, Live(l, before), LiveLog(l, before), ip, last.now, t);
        } else {
          NewIsElsewhere(l, LiveLog(l, before), Accept(last.ip, last.now), ip, t);
        }
      }
    }
  }

  // Whatever the limit, and whoever asks or sweeps at these readings of the clock.
  ghost predicate NeverExceeds(windowMs: int, ts: seq<int>) {
    forall maxRequests: nat, es :: Readings(es) == ts ==>
      var l := Limits(windowMs, maxRequests); Bounded(l, LiveLog(l, es))
  }

  // The first of the two requests is taken, and so is the second once the first has been thrown out.
  lemma ReturningIsTakenTwice(windowMs: int, ts: seq<int>, i: nat, j: nat, k: nat)
    requires i < j < k < |ts| && ts[i] + windowMs <= ts[j]
    ensures LiveLog(Limits(windowMs, 1), AskTwice(ts, i, k)[..k + 1]) == [Accept("a", ts[i]), Accept("a", ts[k])]
  {
    var l, es := Limits(windowMs, 1), AskTwice(ts, i, k);
    NothingTaken(l, ts, i, k, i);
    NoneIsFresh(ts[i] - windowMs);
    NoneIsFresh(ts[k] - windowMs);
    NothingYet(l, ts, i, k, i);
    OneUntilThrownOut(ts, i, k, k, windowMs);
    assert ThrownOut(windowMs, ts, i, k);
    hide Fresh, Live;
    assert es[..i + 1] == es[..i] + [Check("a", ts[i])] && es[..i + 1][..i] == es[..i];
    assert LiveLog(l, es[..i + 1]) == [] + [Accept("a", ts[i])];
    SweepsTakeNothing(l, ts, i, k, k);
    assert es[..k + 1] == es[..k] + [Check("a", ts[k])] && es[..k + 1][..k] == es[..k];
  }

  lemma {:induction false} NothingTaken(l: Limits, ts: seq<int>, i: nat, k: nat, m: nat)
    requires m <= i < k < |ts|
    ensures LiveLog(l, AskTwice(ts, i, k)[..m]) == []
  {
    if m > 0 {
      NothingTaken(l, ts, i, k, m - 1);
      assert AskTwice(ts, i, k)[..m][..m - 1] == AskTwice(ts, i, k)[..m - 1];
    }
  }

  lemma {:induction false} SweepsTakeNothing(l: Limits, ts: seq<int>, i: nat, k: nat, m: nat)
    requires i < m <= k < |ts|
    ensures LiveLog(l, AskTwice(ts, i, k)[..m]) == LiveLog(l, AskTwice(ts, i, k)[..i + 1])
  {
    if m > i + 1 {
      SweepsTakeNothing(l, ts, i, k, m - 1);
      assert AskTwice(ts, i, k)[..m][..m - 1] == AskTwice(ts, i, k)[..m - 1];
    }
  }

  lemma {:induction false} SweepsTakeNothingMore(l: Limits, ts: seq<int>, i: nat, k: nat, m: nat)
    requires i < k < m <= |ts|
    ensures LiveLog(l, AskTwice(ts, i, k)[..m]) == LiveLog(l, AskTwice(ts, i, k)[..k + 1])
  {
    if m > k + 1 {
      SweepsTakeNothingMore(l, ts, i, k, m - 1);
      assert AskTwice(ts, i, k)[..m][..m - 1] == AskTwice(ts, i, k)[..m - 1];
    }
  }

  lemma TimesOfTwo(a: int, b: int)
    ensures Times([Accept("a", a), Accept("a", b)], "a") == [a] + [b]
  {
    var first, second := Accept("a", a), Accept("a", b);
    TimesAppend([], first, "a");
    assert Times([], "a") == [] && [] + [a] == [a] && [] + [first] == [first];
    hide Times;
    TimesAppend([first], second, "a");
    assert [first] + [second] == [first, second];
  }

  lemma BothWithin(a: int, b: int, from: int, to: int)
    requires from < a <= to && from < b <= to
    ensures |Within([a] + [b], from, to)| == 2
  {
    WithinAppend([], a, from, to);
    assert Within([], from, to) == [] && [] + [a] == [a];
    hide Within;
    WithinAppend([a], b, from, to);
  }

  lemma TwoAreTooMany(windowMs: int, a: int, b: int)
    requires a - windowMs < b < a + windowMs
    ensures !Bounded(Limits(windowMs, 1), [Accept("a", a), Accept("a", b)])
  {
    var t := if a < b then b else a;
    TimesOfTwo(a, b);
    BothWithin(a, b, t - windowMs, t);
    hide Times, Within;
    assert !BoundedAt(Limits(windowMs, 1), [Accept("a", a), Accept("a", b)], "a", t);
  }

  /**
   * The limiter keeps every window of every address within the limit, for all limits and all requests
   * and sweeps at these clock readings, exactly when no reading returns to within one window of an
   * earlier one that has been left behind in between.
   */
  lemma EveryWindowIsBoundedIff(windowMs: int, ts: seq<int>)
    ensures NeverExceeds(windowMs, ts) <==> NeverReturns(windowMs, ts)
  {
    hide AskTwice, Readings, BoundedAt, LiveLog;
    if NeverReturns(windowMs, ts) {
      forall maxRequests: nat, es, ip, t | Readings(es) == ts
        ensures BoundedAt(Limits(windowMs, maxRequests), LiveLog(Limits(windowMs, maxRequests), es), ip, t)
      {
        LiveLogIsBounded(Limits(windowMs, maxRequests), es, ip, t);
      }
    } else {
      var i, j, k :| 0 <= i < j < k < |ts| && ts[i] + windowMs <= ts[j]
        && !(ts[k] <= ts[i] - windowMs || ts[i] + windowMs <= ts[k]);
      var l, es := Limits(windowMs, 1), AskTwice(ts, i, k);
      ReturningIsTakenTwice(windowMs, ts, i, j, k);
      SweepsTakeNothingMore(l, ts, i, k, |ts|);
      assert |es| == |Readings(es)| && es[..|ts|] == es;
      TwoAreTooMany(windowMs, ts[i], ts[k]);
      assert !Bounded(l, LiveLog(l, es));
    }
  }

  /** So under a clock that does not run backwards the limiter keeps every window within the limit. */
  lemma EveryWindowIsBounded(l: Limits, es: seq<Event>)
    requires Monotone(es)
    ensures Bounded(l, LiveLog(l, es))
  {
    hide LiveLog, Bounded;
    EveryWindowIsBoundedIff(l.windowMs, Readings(es));
    assert Limits(l.windowMs, l.maxRequests) == l;
  }
}

/** The limiter's buckets, updated in place. */
module RateLimiter {
  import opened SlidingWindow

  class SlidingWindowRateLimiter {
    const limits: Limits
    var hits: Hits

    constructor (windowMs: int, maxRequests: nat)
      ensures limits == Limits(windowMs, maxRequests) && hits == Live(limits, [])
    {
      limits := Limits(windowMs, maxRequests);
      hits := map[];
    }

    method Filter(bucket: seq<int>, cutoff: int) returns (recent: seq<int>)
      ensures recent == Fresh(bucket, cutoff)
    {
      recent := [];
      for i := 0 to |bucket|
        invariant recent == Fresh(bucket[..i], cutoff)
      {
        FreshAppend(bucket[..i], bucket[i], cutoff);
        assert bucket[..i + 1] == bucket[..i] + [bucket[i]];
        if bucket[i] > cutoff { recent := recent + [bucket[i]]; }
      }
      assert bucket[..|bucket|] == bucket;
    }

    method Check(ip: string, now: int) returns (allowed: bool)
      modifies this
      ensures allowed == Allows(limits, old(hits), ip, now)
      ensures hits == Checked(limits, old(hits), ip, now)
    {
      var cutoff := now - limits.windowMs;
      var recent := [];
      if ip in hits { recent := Filter(hits[ip], cutoff); }
      if |recent| >= limits.maxRequests {
        hits := hits[ip := recent];
        return false;
      }
      hits := hits[ip := recent + [now]];
      return true;
    }

    method Sweep(now: int)
      modifies this
      ensures hits == Swept(limits, old(hits), now)
      ensures Trimmed(old(hits), hits, now - limits.windowMs)
    {
      SweptIs(limits, hits, now);
      hide Trimmed;
      var cutoff := now - limits.windowMs;
      var left := hits.Keys;
      ghost var before := hits;
      hide Fresh;
      while left != {}
        invariant left <= before.Keys && hits.Keys <= before.Keys
        invariant forall ip :: ip in before ==> SweptSoFar(before, left, hits, cutoff, ip)
        decreases left
      {
        var ip :| ip in left;
        assert SweptSoFar(before, left, hits, cutoff, ip);
        var recent := Filter(hits[ip], cutoff);
        if |recent| == 0 {
          hits := hits - {ip};
        } else if |recent| != |hits[ip]| {
          hits := hits[ip := recent];
        } else {
          NothingDropped(hits[ip], cutoff);
        }
        left := left - {ip};
      }
      forall ip | ip in before ensures ip in hits <==> ip in Swept(limits, before, now) {
        assert SweptSoFar(before, left, hits, cutoff, ip);
      }
      forall ip | ip in hits ensures hits[ip] == Swept(limits, before, now)[ip] {
        assert SweptSoFar(before, left, hits, cutoff, ip);
      }
      assert hits.Keys == Swept(limits, before, now).Keys;
    }
  }

  // A bucket is untouched while its turn is to come; then it is trimmed, or dropped if nothing is left.
  predicate SweptSoFar(before: Hits, left: set<string>, hits: Hits, cutoff: int, ip: string)
    requires ip in before
  {
    if ip in left then ip in hits && hits[ip] == before[ip]
    else
      && (ip in hits <==> Fresh(before[ip], cutoff) != [])
      && (ip in hits ==> hits[ip] == Fresh(before[ip], cutoff))
  }

  lemma {:induction false} NothingDropped(times: seq<int>, cutoff: int)
    ensures |Fresh(times, cutoff)| <= |times|
    ensures |Fresh(times, cutoff)| == |times| ==> Fresh(times, cutoff) == times
  {
    if times != [] {
      NothingDropped(times[..|times| - 1], cutoff);
      assert times == times[..|times| - 1] + [times[|times| - 1]];
    }
  }
}
