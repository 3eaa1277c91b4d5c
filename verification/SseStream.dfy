/** Server-sent-event framing of a model's answer, cut into arbitrary chunks on its way in. */
module SseStream {
  import opened Wrappers
  import opened Utf16

  const MAX_BUFFER: nat := 2 * 1024 * 1024
  const DATA: Text := [0x64, 0x61, 0x74, 0x61, 0x3A]

  // ---- Lines and payloads ------------------------------------------------------------------

  // What String.prototype.trim removes.
  predicate IsSpace(u: Unit) {
    0x09 <= u <= 0x0D || u == 0x20 || u == 0xA0 || u == 0x1680 || 0x2000 <= u <= 0x200A
    || u == 0x2028 || u == 0x2029 || u == 0x202F || u == 0x205F || u == 0x3000 || u == 0xFEFF
  }

  function TrimLeft(t: Text): Text {
    if t != [] && IsSpace(t[0]) then TrimLeft(t[1..]) else t
  }

  function TrimRight(t: Text): Text {
    if t != [] && IsSpace(t[|t| - 1]) then TrimRight(t[..|t| - 1]) else t
  }

  function Trim(t: Text): Text {
    TrimLeft(TrimRight(t))
  }

  // The payload of one line: at most one, and never an empty one.
  function Payload(line: Text): seq<Text> {
    var l := Trim(line);
    if DATA <= l && Trim(l[|DATA|..]) != [] then [Trim(l[|DATA|..])] else []
  }

  // Position of the first LF, or the length.
  function FirstLf(t: Text): (i: nat)
    ensures i <= |t|
    ensures i < |t| ==> t[i] == LF
    ensures forall j :: 0 <= j < i ==> t[j] != LF
  {
    if t == [] || t[0] == LF then 0 else 1 + FirstLf(t[1..])
  }

  function DropCr(line: Text): Text {
    if line != [] && line[|line| - 1] == CR then line[..|line| - 1] else line
  }

  // split(/\r?\n/)
  function Lines(t: Text): seq<Text>
    decreases |t|
  {
    var i := FirstLf(t);
    if i == |t| then [t] else [DropCr(t[..i])] + Lines(t[i + 1..])
  }

  function Payloads(lines: seq<Text>): seq<Text> {
    if lines == [] then [] else Payload(lines[0]) + Payloads(lines[1..])
  }

  // The one-shot filter.
  function DataLines(t: Text): seq<Text> {
    Payloads(Lines(t))
  }

  // ---- Events ------------------------------------------------------------------------------

  function SkipCr(t: Text, i: nat): nat {
    if i < |t| && t[i] == CR then i + 1 else i
  }

  // The end of a match of \r?\n\r?\n at i.
  function BreakAt(t: Text, i: nat): (e: Option<nat>)
    ensures e.Some? ==> i + 2 <= e.value <= |t|
  {
    var j := SkipCr(t, i);
    if j < |t| && t[j] == LF then
      var k := SkipCr(t, j + 1);
      if k < |t| && t[k] == LF then Some(k + 1) else None
    else None
  }

  // The leftmost match at or behind i.
  function FirstBreak(t: Text, i: nat): (b: Option<nat>)
    ensures b.Some? ==> i <= b.value && BreakAt(t, b.value).Some?
    ensures b.Some? ==> forall j :: i <= j < b.value ==> BreakAt(t, j).None?
    ensures b.None? ==> forall j :: i <= j < |t| ==> BreakAt(t, j).None?
    decreases |t| - i
  {
    if i >= |t| then None else if BreakAt(t, i).Some? then Some(i) else FirstBreak(t, i + 1)
  }

  // split(/\r?\n\r?\n/)
  function SplitEvents(t: Text): (events: seq<Text>)
    ensures |events| > 0
    decreases |t|
  {
    var b := FirstBreak(t, 0);
    if b.None? then [t] else [t[..b.value]] + SplitEvents(t[BreakAt(t, b.value).value..])
  }

  function Last(events: seq<Text>): Text
    requires events != []
  {
    events[|events| - 1]
  }

  // The text behind the last event break.
  function Remainder(t: Text): Text {
    Last(SplitEvents(t))
  }

  // The events whose break has been seen.
  function Completed(t: Text): seq<Text> {
    var events := SplitEvents(t);
    events[..|events| - 1]
  }

  function DataOf(events: seq<Text>): seq<Text> {
    if events == [] then [] else DataLines(events[0]) + DataOf(events[1..])
  }

  function Concat(chunks: seq<Text>): Text {
    if chunks == [] then [] else Concat(chunks[..|chunks| - 1]) + chunks[|chunks| - 1]
  }

  // ---- What a payload is ---------------------------------------------------------------------

  predicate Spaces(t: Text) {
    forall i :: 0 <= i < |t| ==> IsSpace(t[i])
  }

  predicate Bare(t: Text) {
    t != [] && !IsSpace(t[0]) && !IsSpace(t[|t| - 1])
  }

  // A payload stands in its line behind the mark, with nothing but spaces around both.
  ghost predicate Carries(line: Text, p: Text, a: Text, b: Text, c: Text) {
    Spaces(a) && Spaces(b) && Spaces(c) && Bare(p) && line == a + (DATA + (b + (p + c)))
  }

  lemma {:induction false} TrimLeftCuts(t: Text) returns (a: Text)
    ensures Spaces(a) && t == a + TrimLeft(t) && (TrimLeft(t) != [] ==> !IsSpace(TrimLeft(t)[0]))
  {
    if t != [] && IsSpace(t[0]) {
      a := TrimLeftCuts(t[1..]);
      assert t == [t[0]] + t[1..];
      a := [t[0]] + a;
    } else {
      a := [];
    }
  }

  lemma {:induction false} TrimRightCuts(t: Text) returns (c: Text)
    ensures Spaces(c) && t == TrimRight(t) + c
    ensures TrimRight(t) != [] ==> !IsSpace(TrimRight(t)[|TrimRight(t)| - 1])
  {
    if t != [] && IsSpace(t[|t| - 1]) {
      var n := |t| - 1;
      c := TrimRightCuts(t[..n]);
      assert t == t[..n] + [t[n]];
      c := c + [t[n]];
    } else {
      c := [];
    }
  }

  lemma {:induction false} TrimLeftIs(a: Text, t: Text)
    requires Spaces(a) && (t != [] ==> !IsSpace(t[0]))
    ensures TrimLeft(a + t) == t
  {
    if a == [] {
      assert a + t == t;
    } else {
      TrimLeftIs(a[1..], t);
      assert (a + t)[1..] == a[1..] + t;
    }
  }

  lemma {:induction false} TrimRightIs(t: Text, c: Text)
    requires Spaces(c) && (t != [] ==> !IsSpace(t[|t| - 1]))
    ensures TrimRight(t + c) == t
  {
    if c == [] {
      assert t + c == t;
    } else {
      TrimRightIs(t, c[..|c| - 1]);
      assert (t + c)[..|t + c| - 1] == t + c[..|c| - 1];
    }
  }

  lemma TrimIs(a: Text, t: Text, c: Text)
    requires Spaces(a) && Spaces(c) && Bare(t)
    ensures Trim(a + (t + c)) == t
  {
    assert a + (t + c) == (a + t) + c;
    TrimRightIs(a + t, c);
    TrimLeftIs(a, t);
  }

  lemma TrimCuts(t: Text) returns (a: Text, c: Text)
    ensures Spaces(a) && Spaces(c) && t == a + (Trim(t) + c) && (Trim(t) != [] ==> Bare(Trim(t)))
  {
    c := TrimRightCuts(t);
    a := TrimLeftCuts(TrimRight(t));
    assert (a + Trim(t)) + c == a + (Trim(t) + c);
  }

  /** A line has a payload exactly when it is the mark and a text that is not blank, spaces around each left out. */
  lemma PayloadIff(line: Text, p: Text)
    ensures |Payload(line)| <= 1
    ensures Payload(line) == [p] <==> exists a, b, c :: Carries(line, p, a, b, c)
  {
    hide TrimLeft, TrimRight, Trim, IsSpace;
    if Payload(line) == [p] {
      var a, c := TrimCuts(line);
      var l := Trim(line);
      var b, d := TrimCuts(l[|DATA|..]);
      assert l == DATA + (b + (p + d));
      assert line == a + (DATA + (b + (p + (d + c))));
      assert Carries(line, p, a, b, d + c);
    }
    if a, b, c :| Carries(line, p, a, b, c) {
      CarriedIsPayload(line, p, a, b, c);
    }
  }

  lemma CarriedIsPayload(line: Text, p: Text, a: Text, b: Text, c: Text)
    requires Carries(line, p, a, b, c)
    ensures Payload(line) == [p]
  {
    var marked := DATA + (b + p);
    assert !IsSpace(0x64) && marked[0] == 0x64 && marked[|marked| - 1] == p[|p| - 1];
    hide Trim, IsSpace;
    assert line == a + (marked + c);
    TrimIs(a, marked, c);
    assert DATA <= marked && marked[|DATA|..] == b + (p + []);
    TrimIs(b, p, []);
  }

  // ---- Cutting at a line feed --------------------------------------------------------------

  lemma PayloadIgnoresCr(line: Text)
    ensures Payload(DropCr(line)) == Payload(line)
    ensures Payload([]) == [] && Payload([CR]) == []
  {
    assert TrimRight([CR]) == [] by { assert [CR][..0] == []; }
    if line != [] && line[|line| - 1] == CR {
      assert TrimRight(line) == TrimRight(line[..|line| - 1]);
    }
  }

  lemma FirstLfAt(x: Text, y: Text)
    requires forall j :: 0 <= j < |x| ==> x[j] != LF
    ensures FirstLf(x + [LF] + y) == |x|
  {
    var t := x + [LF] + y;
    assert t[|x|] == LF && forall j :: 0 <= j < |x| ==> t[j] == x[j];
  }

  lemma PayloadsOfCons(line: Text, lines: seq<Text>)
    ensures Payloads([line] + lines) == Payload(line) + Payloads(lines)
  {
    hide Payload;
    assert ([line] + lines)[1..] == lines;
  }

  predicate OneLine(x: Text) {
    forall j :: 0 <= j < |x| ==> x[j] != LF
  }

  lemma DataOfLastLine(x: Text)
    requires OneLine(x)
    ensures DataLines(x) == Payload(x)
  {
    hide Payload;
    assert FirstLf(x) == |x|;
    assert Lines(x) == [x] + [];
    PayloadsOfCons(x, []);
  }

  lemma DataOfFirstLine(x: Text, y: Text)
    requires OneLine(x)
    ensures DataLines(x + [LF] + y) == Payload(x) + DataLines(y)
  {
    hide Payload, DropCr;
    var t := x + [LF] + y;
    FirstLfAt(x, y);
    assert t[..|x|] == x && t[|x| + 1..] == y;
    PayloadsOfCons(DropCr(x), Lines(y));
    PayloadIgnoresCr(x);
  }

  lemma CutAt(x: Text, i: nat)
    requires i < |x|
    ensures x == x[..i] + [x[i]] + x[i + 1..]
  {
  }

  // A text is one line, or a line, a line feed and more text.
  lemma FirstLine(x: Text)
    ensures var i := FirstLf(x);
      && OneLine(x[..i])
      && (i == |x| ==> x[..i] == x)
      && (i < |x| ==> x == x[..i] + [LF] + x[i + 1..])
  {
    hide FirstLf;
    var i := FirstLf(x);
    if i < |x| { CutAt(x, i); }
  }

  lemma RegroupLf(line: Text, rest: Text, more: Text)
    ensures (line + [LF] + rest) + more == line + [LF] + (rest + more)
  {
  }

  /** A line feed separates what stands before it from what stands behind it. */
  lemma {:induction false} DataSplitsAtLf(x: Text, y: Text)
    ensures DataLines(x + [LF] + y) == DataLines(x) + DataLines(y)
    decreases |x|
  {
    hide Payload, DataLines, FirstLf;
    var i := FirstLf(x);
    FirstLine(x);
    if i == |x| {
      DataOfLastLine(x);
      DataOfFirstLine(x, y);
    } else {
      var line, rest := x[..i], x[i + 1..];
      RegroupLf(line, rest, [LF] + y);
      assert x + [LF] + y == x + ([LF] + y) && rest + [LF] + y == rest + ([LF] + y);
      DataOfFirstLine(line, rest + [LF] + y);
      DataOfFirstLine(line, rest);
      DataSplitsAtLf(rest, y);
    }
  }

  lemma {:induction false} DataIgnoresCr(x: Text)
    ensures DataLines(x + [CR]) == DataLines(x)
    decreases |x|
  {
    hide Payload, DataLines, FirstLf;
    var i := FirstLf(x);
    FirstLine(x);
    if i == |x| {
      PayloadIgnoresCr(x + [CR]);
      assert DropCr(x + [CR]) == x;
      DataOfLastLine(x);
      DataOfLastLine(x + [CR]);
    } else {
      RegroupLf(x[..i], x[i + 1..], [CR]);
      DataOfFirstLine(x[..i], x[i + 1..] + [CR]);
      DataOfFirstLine(x[..i], x[i + 1..]);
      DataIgnoresCr(x[i + 1..]);
    }
  }

  lemma NoDataInNothing()
    ensures DataLines([]) == [] && DataLines([CR]) == []
  {
    hide Payload, DataLines;
    PayloadIgnoresCr([]);
    DataOfLastLine([]);
    DataOfLastLine([CR]);
  }

  /** An event break separates what stands before it from what stands behind it. */
  lemma DataSplitsAtBreak(t: Text, i: nat)
    requires BreakAt(t, i).Some?
    ensures DataLines(t) == DataLines(t[..i]) + DataLines(t[BreakAt(t, i).value..])
  {
    hide DataLines;
    var j := SkipCr(t, i);
    var k := SkipCr(t, j + 1);
    var y := t[k + 1..];
    var middle := t[j + 1..k];
    assert t == t[..j] + [LF] + (middle + [LF] + y);
    DataSplitsAtLf(t[..j], middle + [LF] + y);
    DataSplitsAtLf(middle, y);
    NoDataInNothing();
    assert middle == [] || middle == [CR];
    assert t[..j] == t[..i] || t[..j] == t[..i] + [CR];
    DataIgnoresCr(t[..i]);
  }

  lemma {:induction false} DataOfEvents(t: Text)
    ensures DataOf(SplitEvents(t)) == DataLines(t)
    decreases |t|
  {
    hide DataLines, BreakAt;
    var b := FirstBreak(t, 0);
    if b.None? {
      assert DataOf([t]) == DataLines(t) + DataOf([]);
    } else {
      DataSplitsAtBreak(t, b.value);
      DataOfEvents(t[BreakAt(t, b.value).value..]);
      assert SplitEvents(t)[1..] == SplitEvents(t[BreakAt(t, b.value).value..]);
    }
  }

  // ---- Chunks ------------------------------------------------------------------------------

  lemma BreakSurvives(x: Text, y: Text, i: nat)
    requires BreakAt(x, i).Some?
    ensures BreakAt(x + y, i) == BreakAt(x, i)
  {
    var t := x + y;
    var j := SkipCr(x, i);
    assert SkipCr(t, i) == j;
    assert SkipCr(t, j + 1) == SkipCr(x, j + 1);
  }

  // A match that more text completes cannot overtake one that is already complete.
  lemma NoEarlierBreak(x: Text, y: Text, i: nat, j: nat)
    requires BreakAt(x, i).Some? && j < i && BreakAt(x, j).None?
    ensures BreakAt(x + y, j).None?
  {
    var t := x + y;
    assert forall p :: 0 <= p < |x| ==> t[p] == x[p];
  }

  lemma FirstBreakIs(t: Text, i: nat)
    requires BreakAt(t, i).Some? && forall j :: 0 <= j < i ==> BreakAt(t, j).None?
    ensures FirstBreak(t, 0) == Some(i)
  {
    hide BreakAt;
  }

  /** More text is split behind the completed events: none of those changes. */
  lemma {:induction false} SplitIsLocal(x: Text, y: Text)
    ensures SplitEvents(x + y) == Completed(x) + SplitEvents(Remainder(x) + y)
    decreases |x|
  {
    hide BreakAt;
    var b := FirstBreak(x, 0);
    if b.Some? {
      var i := b.value;
      BreakSurvives(x, y, i);
      forall j | 0 <= j < i ensures BreakAt(x + y, j).None? { NoEarlierBreak(x, y, i, j); }
      FirstBreakIs(x + y, i);
      var e := BreakAt(x, i).value;
      assert (x + y)[e..] == x[e..] + y && (x + y)[..i] == x[..i];
      SplitIsLocal(x[e..], y);
      assert Completed(x) == [x[..i]] + Completed(x[e..]);
    }
  }

  lemma RemainderIsLocal(x: Text, y: Text)
    ensures Remainder(x + y) == Remainder(Remainder(x) + y)
  {
    SplitIsLocal(x, y);
    hide SplitEvents;
  }

  // Some chunk finds the buffer too long.
  predicate Overflows(chunks: seq<Text>) {
    exists k :: 0 <= k < |chunks| && |Remainder(Concat(chunks[..k])) + chunks[k]| > MAX_BUFFER
  }

  lemma {:induction false} ConcatPrefix(chunks: seq<Text>, k: nat)
    requires k <= |chunks|
    ensures Concat(chunks[..k]) <= Concat(chunks)
    decreases |chunks|
  {
    if k < |chunks| {
      ConcatPrefix(chunks[..|chunks| - 1], k);
      assert chunks[..|chunks| - 1][..k] == chunks[..k];
    } else {
      assert chunks[..k] == chunks;
    }
  }

  lemma Regroup(done: seq<Text>, x: seq<Text>, y: seq<Text>)
    ensures done + x + y == done + (x + y)
  {
  }

  lemma {:induction false} DataOfConcat(a: seq<Text>, b: seq<Text>)
    ensures DataOf(a + b) == DataOf(a) + DataOf(b)
  {
    hide DataLines;
    if a == [] {
      assert a + b == b;
    } else {
      DataOfConcat(a[1..], b);
      assert (a + b)[1..] == a[1..] + b && (a + b)[0] == a[0];
      Regroup(DataLines(a[0]), DataOf(a[1..]), DataOf(b));
    }
  }

  lemma DataOfAppend(events: seq<Text>, e: Text)
    ensures DataOf(events + [e]) == DataOf(events) + DataLines(e)
  {
    hide DataLines;
    DataOfConcat(events, [e]);
    assert DataOf([e]) == DataLines(e) + DataOf([]);
  }

  lemma DoneWithMore(x: Text, y: Text)
    ensures DataOf(Completed(x)) + DataLines(Remainder(x) + y) == DataLines(x + y)
  {
    hide DataLines, SplitEvents, DataOf, Completed;
    SplitIsLocal(x, y);
    DataOfConcat(Completed(x), SplitEvents(Remainder(x) + y));
    DataOfEvents(x + y);
    DataOfEvents(Remainder(x) + y);
  }

  /** Text that follows takes back no completed event and no payload of one, and changes none. */
  lemma CompletedStays(x: Text, y: Text)
    ensures Completed(x) <= Completed(x + y)
    ensures DataOf(Completed(x)) <= DataOf(Completed(x + y)) <= DataLines(x + y)
  {
    hide DataLines, SplitEvents, DataOf;
    SplitIsLocal(x, y);
    var more := SplitEvents(Remainder(x) + y);
    assert Completed(x + y) == Completed(x) + more[..|more| - 1];
    DataOfConcat(Completed(x), more[..|more| - 1]);
    DoneWithMore(x + y, []);
    assert x + y + [] == x + y;
  }

  /** Yields the payloads of the completed events and keeps the text behind the last break. */
  method Drain(done: seq<Text>, grown: Text) returns (yielded: seq<Text>, buffer: Text)
    ensures buffer == Remainder(grown)
    ensures yielded == done + DataOf(Completed(grown))
  {
    hide DataLines, SplitEvents;
    var events := SplitEvents(grown);
    buffer := Last(events);
    yielded := done;
    for n := 0 to |events| - 1
      invariant yielded == done + DataOf(events[..n])
    {
      yielded := yielded + DataLines(events[n]);
      DataOfAppend(events[..n], events[n]);
      assert events[..n + 1] == events[..n] + [events[n]];
    }
  }

  /**
   * The incremental parser. However the text is cut, as long as no chunk overflows the buffer it
   * yields what the one-shot filter yields on the whole text; an overflow yields a prefix of that.
   * `tail` is what the decoder flushes at the end.
   */
  method ParseStream(chunks: seq<Text>, tail: Text) returns (yielded: seq<Text>, overflow: bool)
    ensures overflow <==> Overflows(chunks)
    ensures !overflow ==> yielded == DataLines(Concat(chunks) + tail)
    ensures overflow ==> yielded <= DataLines(Concat(chunks) + tail)
  {
    hide DataLines, SplitEvents, DataOf;
    var buffer: Text := [];
    yielded, overflow := [], false;
    Empty();
    for k := 0 to |chunks|
      invariant buffer == Remainder(Concat(chunks[..k]))
      invariant forall more :: yielded + DataLines(buffer + more) == DataLines(Concat(chunks[..k]) + more)
      invariant forall j :: 0 <= j < k ==> |Remainder(Concat(chunks[..j])) + chunks[j]| <= MAX_BUFFER
    {
      ghost var before, pending := Concat(chunks[..k]), buffer;
      assert chunks[..k + 1][..k] == chunks[..k];
      buffer := buffer + chunks[k];
      if |buffer| > MAX_BUFFER {
        ConcatPrefix(chunks, k);
        Prefix(yielded, pending, before, Concat(chunks) + tail);
        overflow := true;
        return;
      }
      RemainderIsLocal(before, chunks[k]);
      DrainIsSound(yielded, pending, chunks[k], before);
      yielded, buffer := Drain(yielded, buffer);
    }
    assert chunks[..|chunks|] == chunks;
    yielded := yielded + DataLines(buffer + tail);
  }

  lemma Empty()
    ensures Remainder([]) == [] && forall more :: [] + DataLines([] + more) == DataLines([] + more)
  {
  }

  lemma Prefix(yielded: seq<Text>, pending: Text, seen: Text, whole: Text)
    requires seen <= whole
    requires forall more :: yielded + DataLines(pending + more) == DataLines(seen + more)
    ensures yielded <= DataLines(whole)
  {
    hide DataLines;
    var more := whole[|seen|..];
    assert seen + more == whole;
    assert yielded + DataLines(pending + more) == DataLines(whole);
  }

  lemma DrainIsSound(done: seq<Text>, pending: Text, chunk: Text, seen: Text)
    requires forall more :: done + DataLines(pending + more) == DataLines(seen + more)
    ensures
      var b := pending + chunk;
      forall more :: done + DataOf(Completed(b)) + DataLines(Remainder(b) + more) == DataLines(seen + chunk + more)
  {
    hide DataLines, Completed, Remainder, DataOf;
    var b := pending + chunk;
    forall more
      ensures done + DataOf(Completed(b)) + DataLines(Remainder(b) + more) == DataLines(seen + chunk + more)
    {
      DoneWithMore(b, more);
      Regroup(done, DataOf(Completed(b)), DataLines(Remainder(b) + more));
      assert b + more == pending + (chunk + more) && seen + (chunk + more) == seen + chunk + more;
      assert done + DataLines(pending + (chunk + more)) == DataLines(seen + (chunk + more));
    }
  }
}
