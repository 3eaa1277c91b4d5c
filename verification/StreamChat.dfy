/** What the chat provider makes of the framed payloads: deltas, and how the stream ends. */
module StreamChat {
  import opened Wrappers
  import opened Utf16
  import opened SseStream

  const DONE: Text := [0x5B, 0x44, 0x4F, 0x4E, 0x45, 0x5D]

  datatype Choice = Choice(delta: Text, toolCalls: seq<Text>, finishReason: Option<Text>)

  // The outcome of JSON.parse on a payload.
  datatype Parsed = NotJson | ErrorPayload | Chunk(choices: seq<Choice>)

  datatype Ending = Complete | MalformedJson | ProviderError | NoTerminal | BufferExceeded

  datatype Answer = Answer(deltas: seq<Choice>, ending: Ending)

  predicate Finishes(c: Choice) {
    c.finishReason.Some? && c.finishReason.value != []
  }

  predicate Yields(c: Choice) {
    c.delta != [] || c.toolCalls != [] || Finishes(c)
  }

  function Yielded(choices: seq<Choice>): seq<Choice> {
    if choices == [] then [] else (if Yields(choices[0]) then [choices[0]] else []) + Yielded(choices[1..])
  }

  predicate Terminal(choices: seq<Choice>) {
    exists c :: c in choices && Finishes(c)
  }

  // Reading payloads one by one; `cut` tells that the buffer limit was hit behind the last one.
  function Consume(payloads: seq<Text>, parse: Text -> Parsed, seen: bool, cut: bool): Answer {
    if payloads == [] then Answer([], if cut then BufferExceeded else if seen then Complete else NoTerminal)
    else if payloads[0] == DONE then Answer([], Complete)
    else
      match parse(payloads[0])
      case NotJson => Answer([], MalformedJson)
      case ErrorPayload => Answer([], ProviderError)
      case Chunk(choices) =>
        var rest := Consume(payloads[1..], parse, seen || Terminal(choices), cut);
        Answer(Yielded(choices) + rest.deltas, rest.ending)
  }

  method CollectChoices(deltas0: seq<Choice>, seen0: bool, choices: seq<Choice>)
    returns (deltas: seq<Choice>, seen: bool)
    ensures deltas == deltas0 + Yielded(choices) && seen == (seen0 || Terminal(choices))
  {
    deltas, seen := deltas0, seen0;
    for i := 0 to |choices|
      invariant deltas == deltas0 + Yielded(choices[..i]) && seen == (seen0 || Terminal(choices[..i]))
    {
      if Finishes(choices[i]) { seen := true; }
      if Yields(choices[i]) { deltas := deltas + [choices[i]]; }
      YieldedAppend(choices[..i], choices[i]);
      assert choices[..i + 1] == choices[..i] + [choices[i]];
    }
    assert choices[..|choices|] == choices;
  }

  lemma {:induction false} YieldedAppend(choices: seq<Choice>, c: Choice)
    ensures Yielded(choices + [c]) == Yielded(choices) + if Yields(c) then [c] else []
  {
    hide Yields;
    if choices == [] {
      assert choices + [c] == [c] && [c][1..] == [];
    } else {
      YieldedAppend(choices[1..], c);
      assert (choices + [c])[1..] == choices[1..] + [c];
    }
  }

  // ---- What reaches the caller -------------------------------------------------------------------

  // A choice that carries neither text nor tool calls nor a finish reason.
  predicate IsEmpty(c: Choice) {
    c.delta == [] && c.toolCalls == [] && (c.finishReason.None? || c.finishReason.value == [])
  }

  // The choices of the first k payloads, in order.
  function ChoicesOf(payloads: seq<Text>, parse: Text -> Parsed, k: nat): seq<Choice>
    requires k <= |payloads| && Ordinary(payloads, parse, k)
  {
    if k == 0 then [] else ChoicesOf(payloads, parse, k - 1) + parse(payloads[k - 1]).choices
  }

  // The deltas stand at these places among all choices, and at no other place stands one that is not empty.
  ghost predicate PickedAt(all: seq<Choice>, deltas: seq<Choice>, places: seq<nat>) {
    && |places| == |deltas|
    && (forall k :: 0 <= k < |places| ==> places[k] < |all| && all[places[k]] == deltas[k])
    && (forall k, l :: 0 <= k < l < |places| ==> places[k] < places[l])
    && (forall i :: 0 <= i < |all| ==> (IsEmpty(all[i]) <==> i !in places))
  }

  ghost predicate Picked(all: seq<Choice>, deltas: seq<Choice>) {
    exists places :: PickedAt(all, deltas, places)
  }

  function Texts(cs: seq<Choice>): Text {
    if cs == [] then [] else Texts(cs[..|cs| - 1]) + cs[|cs| - 1].delta
  }

  function ToolCalls(cs: seq<Choice>): seq<Text> {
    if cs == [] then [] else ToolCalls(cs[..|cs| - 1]) + cs[|cs| - 1].toolCalls
  }

  function Reasons(cs: seq<Choice>): seq<Text> {
    if cs == [] then []
    else
      var r := cs[|cs| - 1].finishReason;
      Reasons(cs[..|cs| - 1]) + if r.Some? && r.value != [] then [r.value] else []
  }

  // Nothing that the choices carry is lost, doubled or moved.
  ghost predicate CarriesAll(all: seq<Choice>, deltas: seq<Choice>) {
    && Picked(all, deltas) && Texts(deltas) == Texts(all)
    && ToolCalls(deltas) == ToolCalls(all) && Reasons(deltas) == Reasons(all)
  }

  // How a stream ends behind k ordinary chunks: at a payload that is none, or where the payloads end.
  function EndingAt(payloads: seq<Text>, parse: Text -> Parsed, cut: bool, k: nat): Ending
    requires k <= |payloads| && Ordinary(payloads, parse, k)
  {
    if k == |payloads| then
      if cut then BufferExceeded else if Reasons(ChoicesOf(payloads, parse, k)) != [] then Complete else NoTerminal
    else if payloads[k] == DONE then Complete
    else match parse(payloads[k])
      case NotJson => MalformedJson
      case _ => ProviderError
  }

  // The answer to a stream that is read up to the k-th payload.
  ghost predicate AnswersAt(payloads: seq<Text>, parse: Text -> Parsed, cut: bool, answer: Answer, k: nat) {
    && k <= |payloads| && Ordinary(payloads, parse, k)
    && (k < |payloads| ==> payloads[k] == DONE || !parse(payloads[k]).Chunk?)
    && CarriesAll(ChoicesOf(payloads, parse, k), answer.deltas)
    && answer.ending == EndingAt(payloads, parse, cut, k)
  }

  ghost predicate Answers(payloads: seq<Text>, parse: Text -> Parsed, cut: bool, answer: Answer) {
    exists k :: AnswersAt(payloads, parse, cut, answer, k)
  }

  lemma PickOne(all: seq<Choice>, deltas: seq<Choice>, places: seq<nat>, c: Choice)
    requires PickedAt(all, deltas, places)
    ensures IsEmpty(c) ==> PickedAt(all + [c], deltas, places)
    ensures !IsEmpty(c) ==> PickedAt(all + [c], deltas + [c], places + [|all|])
  {
    hide IsEmpty;
  }

  lemma CarriedLast(cs: seq<Choice>, c: Choice)
    ensures Texts(cs + [c]) == Texts(cs) + c.delta && ToolCalls(cs + [c]) == ToolCalls(cs) + c.toolCalls
    ensures Reasons(cs + [c]) ==
      if c.finishReason.Some? && c.finishReason.value != [] then Reasons(cs) + [c.finishReason.value] else Reasons(cs)
    ensures IsEmpty(c) ==> Texts(cs) + c.delta == Texts(cs) && ToolCalls(cs) + c.toolCalls == ToolCalls(cs)
  {
    assert (cs + [c])[..|cs|] == cs;
    assert Reasons(cs) + [] == Reasons(cs);
  }

  lemma CarryOne(all: seq<Choice>, deltas: seq<Choice>, c: Choice)
    requires CarriesAll(all, deltas)
    ensures CarriesAll(all + [c], if IsEmpty(c) then deltas else deltas + [c])
  {
    var places :| PickedAt(all, deltas, places);
    PickOne(all, deltas, places, c);
    CarriedLast(all, c);
    CarriedLast(deltas, c);
    hide PickedAt, Texts, ToolCalls, Reasons;
  }

  lemma NothingCarried()
    ensures CarriesAll([], []) && Reasons([]) == []
  {
    assert PickedAt([], [], []);
  }

  lemma {:induction false} CarryMore(all: seq<Choice>, deltas: seq<Choice>, more: seq<Choice>)
    requires CarriesAll(all, deltas)
    ensures CarriesAll(all + more, deltas + Yielded(more))
    ensures Reasons(all + more) != [] <==> Reasons(all) != [] || Terminal(more)
  {
    hide CarriesAll, Yielded, Terminal, Reasons, IsEmpty, Yields;
    if more == [] {
      NothingMore(all, deltas);
    } else {
      var n := |more| - 1;
      CarryMore(all, deltas, more[..n]);
      CarryOne(all + more[..n], deltas + Yielded(more[..n]), more[n]);
      YieldedAppend(more[..n], more[n]);
      YieldsIff(more[n]);
      LastReason(all + more[..n], more, n);
      assert more == more[..n] + [more[n]] && all + more == all + more[..n] + [more[n]];
      assert IsEmpty(more[n]) ==> Yielded(more[..n]) + [] == Yielded(more[..n]);
      assert !IsEmpty(more[n]) ==> deltas + Yielded(more) == deltas + Yielded(more[..n]) + [more[n]];
    }
  }

  lemma YieldsIff(c: Choice)
    ensures Yields(c) <==> !IsEmpty(c)
  {
  }

  lemma NothingMore(all: seq<Choice>, deltas: seq<Choice>)
    ensures all + [] == all && deltas + Yielded([]) == deltas && !Terminal([])
  {
  }

  lemma LastReason(before: seq<Choice>, more: seq<Choice>, n: nat)
    requires |more| == n + 1
    ensures Reasons(before + [more[n]]) != [] <==> Reasons(before) != [] || Finishes(more[n])
    ensures Terminal(more) <==> Terminal(more[..n]) || Finishes(more[n])
  {
    assert (before + [more[n]])[..|before|] == before;
    assert more == more[..n] + [more[n]];
    hide Finishes;
  }

  // Reading on from the k-th payload, behind what has been read.
  lemma {:induction false} ReadsOn(payloads: seq<Text>, parse: Text -> Parsed, k: nat, deltas: seq<Choice>, cut: bool)
    requires k <= |payloads| && Ordinary(payloads, parse, k)
    requires CarriesAll(ChoicesOf(payloads, parse, k), deltas)
    ensures
      var seen := Reasons(ChoicesOf(payloads, parse, k)) != [];
      Answers(payloads, parse, cut, Prepend(deltas, Consume(payloads[k..], parse, seen, cut)))
    decreases |payloads| - k
  {
    hide CarriesAll, Yielded, Terminal, Reasons;
    var all := ChoicesOf(payloads, parse, k);
    var answer := Prepend(deltas, Consume(payloads[k..], parse, Reasons(all) != [], cut));
    if k < |payloads| && payloads[k] != DONE && parse(payloads[k]).Chunk? {
      var more := parse(payloads[k]).choices;
      CarryMore(all, deltas, more);
      assert ChoicesOf(payloads, parse, k + 1) == all + more;
      assert payloads[k..][1..] == payloads[k + 1..];
      ReadsOn(payloads, parse, k + 1, deltas + Yielded(more), cut);
      var rest := Consume(payloads[k + 1..], parse, Reasons(all + more) != [], cut);
      Regroup(deltas, Yielded(more), rest.deltas);
    } else {
      assert deltas + [] == deltas;
      assert AnswersAt(payloads, parse, cut, answer, k);
    }
  }

  lemma Regroup(a: seq<Choice>, b: seq<Choice>, c: seq<Choice>)
    ensures (a + b) + c == a + (b + c)
  {
  }

  /**
   * The answer is what the choices of the ordinary chunks before the end carry, all of it and in order,
   * and the ending tells why the reading stopped there.
   */
  lemma ConsumeAnswers(payloads: seq<Text>, parse: Text -> Parsed, cut: bool)
    ensures Answers(payloads, parse, cut, Consume(payloads, parse, false, cut))
  {
    NothingCarried();
    hide Answers, CarriesAll, Reasons, Consume;
    ReadsOn(payloads, parse, 0, [], cut);
    assert payloads[0..] == payloads;
    var whole := Consume(payloads, parse, false, cut);
    assert Prepend([], whole) == whole;
  }

  function Prepend(deltas: seq<Choice>, rest: Answer): Answer {
    Answer(deltas + rest.deltas, rest.ending)
  }

  /** The loop over the payloads; the end marker or a bad payload stops it early. */
  method Read(payloads: seq<Text>, parse: Text -> Parsed, cut: bool) returns (answer: Answer)
    ensures answer == Consume(payloads, parse, false, cut) && Answers(payloads, parse, cut, answer)
  {
    ConsumeAnswers(payloads, parse, cut);
    hide Yielded, Terminal, Answers;
    var deltas: seq<Choice>, seen := [], false;
    for k := 0 to |payloads|
      invariant Prepend(deltas, Consume(payloads[k..], parse, seen, cut)) == Consume(payloads, parse, false, cut)
    {
      var payload := payloads[k];
      assert payloads[k..][1..] == payloads[k + 1..];
      if payload == DONE { return Answer(deltas, Complete); }
      match parse(payload) {
        case NotJson => return Answer(deltas, MalformedJson);
        case ErrorPayload => return Answer(deltas, ProviderError);
        case Chunk(choices) =>
          deltas, seen := CollectChoices(deltas, seen, choices);
      }
    }
    answer := Answer(deltas, if cut then BufferExceeded else if seen then Complete else NoTerminal);
  }

  /** The provider. What it answers does not depend on how the network cut the text. */
  method Chat(chunks: seq<Text>, tail: Text, parse: Text -> Parsed) returns (answer: Answer)
    ensures !Overflows(chunks) ==> answer == Consume(DataLines(Concat(chunks) + tail), parse, false, false)
    ensures !Overflows(chunks) ==> Answers(DataLines(Concat(chunks) + tail), parse, false, answer)
    ensures Overflows(chunks) ==>
      exists some :: some <= DataLines(Concat(chunks) + tail) && Answers(some, parse, true, answer)
    ensures Overflows(chunks) ==>
      var whole := Consume(DataLines(Concat(chunks) + tail), parse, false, false);
      answer == whole || (answer.ending == BufferExceeded && answer.deltas <= whole.deltas)
  {
    hide DataLines, Consume, Answers;
    var payloads, cut := ParseStream(chunks, tail);
    if cut { CutConsumption(payloads, DataLines(Concat(chunks) + tail), parse, false); }
    answer := Read(payloads, parse, cut);
  }

  lemma {:induction false} CutConsumption(some: seq<Text>, all: seq<Text>, parse: Text -> Parsed, seen: bool)
    requires some <= all
    ensures
      var cut, whole := Consume(some, parse, seen, true), Consume(all, parse, seen, false);
      cut == whole || (cut.ending == BufferExceeded && cut.deltas <= whole.deltas)
  {
    if some != [] && some[0] != DONE && parse(some[0]).Chunk? {
      CutConsumption(some[1..], all[1..], parse, seen || Terminal(parse(some[0]).choices));
    }
  }

  // The first k payloads are ordinary chunks.
  ghost predicate Ordinary(payloads: seq<Text>, parse: Text -> Parsed, k: nat)
    requires k <= |payloads|
  {
    forall j :: 0 <= j < k ==> payloads[j] != DONE && parse(payloads[j]).Chunk?
  }

  // The stream ends well behind k ordinary chunks.
  ghost predicate EndsWell(payloads: seq<Text>, parse: Text -> Parsed, seen: bool, k: nat) {
    && k <= |payloads| && Ordinary(payloads, parse, k)
    && if k < |payloads| then payloads[k] == DONE
       else seen || exists j :: 0 <= j < k && Terminal(parse(payloads[j]).choices)
  }

  lemma EndsWellShift(payloads: seq<Text>, parse: Text -> Parsed, seen: bool, k: nat)
    requires payloads != [] && payloads[0] != DONE && parse(payloads[0]).Chunk?
    ensures EndsWell(payloads[1..], parse, seen || Terminal(parse(payloads[0]).choices), k)
       <==> EndsWell(payloads, parse, seen, k + 1)
  {
    hide Terminal;
    var rest := payloads[1..];
    assert forall j :: 0 <= j < |rest| ==> rest[j] == payloads[j + 1];
    if k <= |rest| {
      assert Ordinary(rest, parse, k) <==> Ordinary(payloads, parse, k + 1) by {
        if Ordinary(payloads, parse, k + 1) {
          forall j | 0 <= j < k ensures rest[j] != DONE && parse(rest[j]).Chunk? {
            assert payloads[j + 1] != DONE;
          }
        }
      }
      if EndsWell(payloads, parse, seen, k + 1) && k == |rest| && !seen {
        var j :| 0 <= j < k + 1 && Terminal(parse(payloads[j]).choices);
        if j > 0 { assert Terminal(parse(rest[j - 1]).choices); }
      }
    }
  }

  /**
   * A stream completes exactly when ordinary chunks lead up to the end marker, or reach the end of
   * the text with a finish reason among them.
   */
  lemma {:induction false} CompletesIff(payloads: seq<Text>, parse: Text -> Parsed, seen: bool)
    ensures Consume(payloads, parse, seen, false).ending == Complete <==>
      exists k: nat :: EndsWell(payloads, parse, seen, k)
  {
    hide Terminal, Yielded, EndsWell;
    if payloads != [] && payloads[0] != DONE && parse(payloads[0]).Chunk? {
      var rest, seen' := payloads[1..], seen || Terminal(parse(payloads[0]).choices);
      CompletesIff(rest, parse, seen');
      if k: nat :| EndsWell(rest, parse, seen', k) {
        EndsWellShift(payloads, parse, seen, k);
      }
      if k: nat :| EndsWell(payloads, parse, seen, k) {
        NotAtOnce(payloads, parse, seen);
        EndsWellShift(payloads, parse, seen, k - 1);
      }
    } else {
      StopsAtOnce(payloads, parse, seen);
    }
  }

  lemma NotAtOnce(payloads: seq<Text>, parse: Text -> Parsed, seen: bool)
    requires payloads != [] && payloads[0] != DONE
    ensures !EndsWell(payloads, parse, seen, 0)
  {
  }

  lemma StopsAtOnce(payloads: seq<Text>, parse: Text -> Parsed, seen: bool)
    requires payloads == [] || payloads[0] == DONE || !parse(payloads[0]).Chunk?
    ensures (exists k: nat :: EndsWell(payloads, parse, seen, k)) <==>
      if payloads == [] then seen else payloads[0] == DONE
  {
    if (payloads == [] && seen) || (payloads != [] && payloads[0] == DONE) {
      assert EndsWell(payloads, parse, seen, 0);
    }
  }
}
