/** The throttle in front of text deltas: what goes in comes out, in order, and not too often. */
module DeltaThrottling {
  import opened Wrappers

  // A text that was emitted, when, and whether a caller asked for it.
  datatype Emission = Emission(text: string, at: int, forced: bool)

  // timer is when the scheduled flush is due.
  datatype Throttle = Throttle(buffer: string, lastEmit: int, timer: Option<int>, log: seq<Emission>)

  const FRESH: Throttle := Throttle("", 0, None, [])

  datatype Step = Push(delta: string, now: int) | Fire(now: int) | Flush(now: int)

  function Flushed(t: Throttle, now: int, forced: bool): Throttle {
    if t.buffer == "" then t.(timer := None)
    else Throttle("", now, None, t.log + [Emission(t.buffer, now, forced)])
  }

  // The timer fires when it is due, or later.
  function Next(t: Throttle, interval: int, step: Step): Throttle {
    match step
    case Push(delta, now) =>
      var filled := t.(buffer := t.buffer + delta);
      if now - t.lastEmit >= interval then Flushed(filled, now, false)
      else if t.timer.None? then filled.(timer := Some(now + interval))
      else filled
    case Fire(now) => if t.timer.Some? && now >= t.timer.value then Flushed(t, now, false) else t
    case Flush(now) => Flushed(t, now, true)
  }

  function Play(interval: int, steps: seq<Step>): Throttle {
    if steps == [] then FRESH else Next(Play(interval, steps[..|steps| - 1]), interval, steps[|steps| - 1])
  }

  predicate Monotone(steps: seq<Step>) {
    forall i, j :: 0 <= i < j < |steps| ==> steps[i].now <= steps[j].now
  }

  // ---- Conservation ---------------------------------------------------------------------------------------

  function Pushed(steps: seq<Step>): string {
    if steps == [] then ""
    else Pushed(steps[..|steps| - 1]) + if steps[|steps| - 1].Push? then steps[|steps| - 1].delta else ""
  }

  function Emitted(log: seq<Emission>): string {
    if log == [] then "" else Emitted(log[..|log| - 1]) + log[|log| - 1].text
  }

  lemma FlushConserves(t: Throttle, now: int, forced: bool)
    ensures var t' := Flushed(t, now, forced); Emitted(t'.log) + t'.buffer == Emitted(t.log) + t.buffer
    ensures Flushed(t, now, forced).buffer == ""
  {
  }

  /** What was pushed is what was emitted and then what is still held, in order. */
  lemma {:induction false} NothingIsLost(interval: int, steps: seq<Step>)
    ensures Emitted(Play(interval, steps).log) + Play(interval, steps).buffer == Pushed(steps)
  {
    if steps != [] {
      var before, last := steps[..|steps| - 1], steps[|steps| - 1];
      NothingIsLost(interval, before);
      StepConserves(Play(interval, before), interval, last);
      hide Emitted, Next;
    }
  }

  lemma StepConserves(t: Throttle, interval: int, step: Step)
    ensures
      var t' := Next(t, interval, step);
      Emitted(t'.log) + t'.buffer == Emitted(t.log) + t.buffer + if step.Push? then step.delta else ""
  {
    hide Emitted, Flushed;
    assert Emitted(t.log) + t.buffer + "" == Emitted(t.log) + t.buffer;
    match step
    case Push(delta, now) =>
      FlushConserves(t.(buffer := t.buffer + delta), now, false);
      assert Emitted(t.log) + t.buffer + delta == Emitted(t.log) + (t.buffer + delta);
    case Fire(now) => FlushConserves(t, now, false);
    case Flush(now) => FlushConserves(t, now, true);
  }

  // ---- Timing ------------------------------------------------------------------------------------------------

  // Emissions are an interval apart, unless a caller forced the later one.
  predicate Spaced(log: seq<Emission>, interval: int) {
    forall i :: 0 < i < |log| ==> log[i].forced || log[i].at - log[i - 1].at >= interval
  }

  predicate Good(t: Throttle, interval: int, clock: int) {
    && Spaced(t.log, interval)
    && (t.log != [] ==> t.lastEmit == t.log[|t.log| - 1].at && t.lastEmit <= clock)
    && (t.buffer != "" ==> t.timer.Some?)
    && (t.timer.Some? ==> t.timer.value <= clock + interval)
    && (t.timer.Some? && t.log != [] ==> t.timer.value >= t.lastEmit + interval)
  }

  lemma StepKeepsGood(t: Throttle, interval: int, step: Step, clock: int)
    requires Good(t, interval, clock) && clock <= step.now
    ensures Good(Next(t, interval, step), interval, step.now)
  {
  }

  /**
   * With a clock that does not run backwards, unforced emissions keep their distance, and whatever is
   * held has a flush scheduled within one interval.
   */
  lemma {:induction false} TimingIsGood(interval: int, steps: seq<Step>)
    requires Monotone(steps) && steps != []
    ensures Good(Play(interval, steps), interval, steps[|steps| - 1].now)
  {
    var n := |steps| - 1;
    assert steps[..n] == [] ==> Play(interval, steps[..n]) == FRESH;
    if n > 0 {
      TimingIsGood(interval, steps[..n]);
      assert steps[..n][n - 1] == steps[n - 1];
      StepKeepsGood(Play(interval, steps[..n]), interval, steps[n], steps[n - 1].now);
    } else {
      StepKeepsGood(FRESH, interval, steps[n], steps[n].now);
    }
  }
}

/** The throttle's fields, updated in place. */
module DeltaThrottle {
  import opened Wrappers
  import opened DeltaThrottling

  class DeltaThrottle {
    const intervalMs: int
    var buffer: string
    var lastEmit: int
    var timer: Option<int>
    ghost var log: seq<Emission>

    constructor (intervalMs: int)
      ensures this.intervalMs == intervalMs && Shown() == FRESH
    {
      this.intervalMs := intervalMs;
      buffer, lastEmit, timer, log := "", 0, None, [];
    }

    ghost function Shown(): Throttle
      reads this
    {
      Throttle(buffer, lastEmit, timer, log)
    }

    /** What is emitted, if anything, is the whole buffer. */
    method FlushAt(now: int, ghost forced: bool) returns (emitted: Option<string>)
      modifies this
      ensures Shown() == Flushed(old(Shown()), now, forced)
      ensures emitted == if old(buffer) == "" then None else Some(old(buffer))
      ensures buffer == "" && timer == None && lastEmit == if old(buffer) == "" then old(lastEmit) else now
    {
      timer := None;
      if buffer == "" { return None; }
      lastEmit := now;
      emitted := Some(buffer);
      log := log + [Emission(buffer, now, forced)];
      buffer := "";
    }

    method Push(delta: string, now: int) returns (emitted: Option<string>)
      modifies this
      ensures Shown() == Next(old(Shown()), intervalMs, DeltaThrottling.Push(delta, now))
      ensures now - old(lastEmit) >= intervalMs ==>
        && buffer == "" && timer == None
        && emitted == if old(buffer) + delta == "" then None else Some(old(buffer) + delta)
      ensures now - old(lastEmit) < intervalMs ==>
        && buffer == old(buffer) + delta && emitted == None && lastEmit == old(lastEmit)
        && timer == if old(timer).Some? then old(timer) else Some(now + intervalMs)
    {
      buffer := buffer + delta;
      if now - lastEmit >= intervalMs {
        emitted := FlushAt(now, false);
      } else {
        if timer.None? { timer := Some(now + intervalMs); }
        emitted := None;
      }
    }

    /** The scheduled callback. */
    method Fire(now: int) returns (emitted: Option<string>)
      requires timer.Some? && now >= timer.value
      modifies this
      ensures Shown() == Next(old(Shown()), intervalMs, DeltaThrottling.Fire(now))
    {
      timer := None;
      if buffer != "" { emitted := FlushAt(now, false); } else { emitted := None; }
    }

    method Flush(now: int) returns (emitted: Option<string>)
      modifies this
      ensures Shown() == Next(old(Shown()), intervalMs, DeltaThrottling.Flush(now))
    {
      emitted := FlushAt(now, true);
    }
  }
}
