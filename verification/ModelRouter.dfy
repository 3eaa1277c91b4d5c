/** Falling back from one model provider to the next without mixing their streams. */
module ModelRouter {
  type Delta = string

  // What a provider streams before it ends or fails.
  datatype Provider = Provider(deltas: seq<Delta>, fails: bool)

  // A delta that reached the caller, and from which provider.
  datatype Piece = Piece(provider: nat, delta: Delta)

  datatype Ending = Done | Raised | Exhausted

  datatype Outcome = Outcome(pieces: seq<Piece>, ending: Ending)

  // The caller may throw into the stream, by an explicit throw(), when it receives its k-th delta;
  // `aborted` is the signal after the k-th provider has failed.
  datatype Caller = Caller(throws: nat -> bool, aborted: nat -> bool)

  function Tagged(provider: nat, deltas: seq<Delta>): seq<Piece> {
    seq(|deltas|, i requires 0 <= i < |deltas| => Piece(provider, deltas[i]))
  }

  // How many deltas are yielded from the j-th on: all, or up to the one the caller throws at.
  function Yielded(p: Provider, c: Caller, received: nat, j: nat): (n: nat)
    requires j <= |p.deltas|
    ensures j <= n <= |p.deltas|
    decreases |p.deltas| - j
  {
    if j == |p.deltas| then j
    else if c.throws(received + j) then j + 1
    else Yielded(p, c, received, j + 1)
  }

  predicate CallerThrew(p: Provider, c: Caller, received: nat, n: nat) {
    0 < n <= |p.deltas| && c.throws(received + n - 1)
  }

  // The flag is set only after a yield returns, so the delta at which the caller throws does not count.
  function Stream(ps: seq<Provider>, c: Caller, i: nat, received: nat): Outcome
    requires i <= |ps|
    decreases |ps| - i
  {
    if i == |ps| then Outcome([], Exhausted)
    else
      var n := Yielded(ps[i], c, received, 0);
      var pieces := Tagged(i, ps[i].deltas[..n]);
      var threw := CallerThrew(ps[i], c, received, n);
      var emittedAny := if threw then n > 1 else n > 0;
      if !threw && !ps[i].fails then Outcome(pieces, Done)
      else if c.aborted(i) || emittedAny then Outcome(pieces, Raised)
      else
        var rest := Stream(ps, c, i + 1, received + n);
        Outcome(pieces + rest.pieces, rest.ending)
  }

  // All that was received comes from one provider, from its beginning.
  ghost predicate Unspliced(ps: seq<Provider>, pieces: seq<Piece>) {
    pieces == [] || exists i: nat, n: nat :: FromOne(ps, pieces, i, n)
  }

  // One provider's complete output.
  ghost predicate Whole(ps: seq<Provider>, pieces: seq<Piece>) {
    exists k: nat :: k < |ps| && pieces == Tagged(k, ps[k].deltas)
  }

  predicate FromOne(ps: seq<Provider>, pieces: seq<Piece>, i: nat, n: nat) {
    i < |ps| && n <= |ps[i].deltas| && pieces == Tagged(i, ps[i].deltas[..n])
  }

  lemma {:induction false} StreamIsUnspliced(ps: seq<Provider>, c: Caller, i: nat)
    requires i <= |ps| && !c.throws(0)
    ensures Unspliced(ps, Stream(ps, c, i, 0).pieces)
    ensures Stream(ps, c, i, 0).ending == Done ==>
      exists k :: i <= k < |ps| && Stream(ps, c, i, 0).pieces == Tagged(k, ps[k].deltas) && !ps[k].fails
    decreases |ps| - i
  {
    if i < |ps| {
      var n := Yielded(ps[i], c, 0, 0);
      if n == 0 {
        StreamIsUnspliced(ps, c, i + 1);
        assert Tagged(i, ps[i].deltas[..0]) + Stream(ps, c, i + 1, 0).pieces == Stream(ps, c, i + 1, 0).pieces;
      } else {
        YieldedIs(ps[i], c, 0, 0);
        assert FromOne(ps, Stream(ps, c, i, 0).pieces, i, n);
      }
      YieldedIs(ps[i], c, 0, 0);
      assert n == |ps[i].deltas| ==> ps[i].deltas[..n] == ps[i].deltas;
    }
  }

  lemma {:induction false} YieldedIs(p: Provider, c: Caller, received: nat, j: nat)
    requires j <= |p.deltas|
    ensures
      var n := Yielded(p, c, received, j);
      n == |p.deltas| || (n > j && c.throws(received + n - 1))
    decreases |p.deltas| - j
  {
    if j < |p.deltas| && !c.throws(received + j) { YieldedIs(p, c, received, j + 1); }
  }

  // Whatever the providers do, all that is received is from one of them, and it is complete if the
  // stream ends well.
  ghost predicate NeverSplices(c: Caller) {
    forall ps :: OneProviderOnly(ps, Stream(ps, c, 0, 0))
  }

  ghost predicate OneProviderOnly(ps: seq<Provider>, out: Outcome) {
    Unspliced(ps, out.pieces) && (out.ending == Done ==> Whole(ps, out.pieces))
  }

  lemma FirstOnly(ps: seq<Provider>, c: Caller)
    requires c.aborted(0)
    ensures OneProviderOnly(ps, Stream(ps, c, 0, 0))
  {
    if ps != [] {
      var p, out := ps[0], Stream(ps, c, 0, 0);
      var n := Yielded(p, c, 0, 0);
      assert FromOne(ps, out.pieces, 0, n);
      YieldedIs(p, c, 0, 0);
      if out.ending == Done { assert p.deltas[..n] == p.deltas; }
    }
  }

  lemma TwoAreSpliced(c: Caller)
    requires c.throws(0) && !c.aborted(0)
    ensures !NeverSplices(c)
  {
    var p := Provider(["a"], false);
    var ps := [p, p];
    var rest := Stream(ps, c, 1, 1);
    assert Yielded(p, c, 0, 0) == 1 && Yielded(p, c, 1, 0) == 1;
    assert p.deltas[..1] == ["a"];
    assert rest.pieces[0] == Piece(1, "a");
    var pieces := Stream(ps, c, 0, 0).pieces;
    assert pieces == Tagged(0, ["a"]) + rest.pieces;
    assert pieces[0] == Piece(0, "a") && pieces[1] == Piece(1, "a");
    assert !Unspliced(ps, pieces);
  }

  /**
   * Whatever the providers do, the caller never receives the output of two of them, and a stream that
   * ends well is one provider's complete output, exactly when the caller does not throw into the
   * stream at its very first delta, or the signal is aborted by the time the first provider has failed.
   * A `for await` loop that is left early returns the stream and never throws into it.
   */
  lemma NeverSplicesIff(c: Caller)
    ensures NeverSplices(c) <==> !c.throws(0) || c.aborted(0)
  {
    if c.throws(0) && !c.aborted(0) {
      TwoAreSpliced(c);
    } else {
      forall ps ensures OneProviderOnly(ps, Stream(ps, c, 0, 0)) {
        if c.aborted(0) { FirstOnly(ps, c); } else { StreamIsUnspliced(ps, c, 0); }
      }
    }
  }

  // ---- Falling back --------------------------------------------------------------------------------

  // The provider fails before its first delta, and nobody has asked to stop.
  predicate IsPassedOver(ps: seq<Provider>, c: Caller, j: nat)
    requires j < |ps|
  {
    ps[j].deltas == [] && ps[j].fails && !c.aborted(j)
  }

  // All providers before the k-th are passed over, and this is what that one leaves the caller with.
  ghost predicate AnsweredBy(ps: seq<Provider>, c: Caller, from: nat, out: Outcome, k: nat) {
    && from <= k <= |ps| && (forall j :: from <= j < k ==> IsPassedOver(ps, c, j))
    && if k == |ps| then out == Outcome([], Exhausted)
       else
         && !IsPassedOver(ps, c, k) && |out.pieces| == |ps[k].deltas|
         && (forall j :: 0 <= j < |out.pieces| ==> out.pieces[j] == Piece(k, ps[k].deltas[j]))
         && out.ending == if ps[k].fails then Raised else Done
  }

  lemma NobodyThrows(p: Provider, c: Caller, received: nat, j: nat)
    requires j <= |p.deltas| && forall n: nat :: !c.throws(n)
    ensures Yielded(p, c, received, j) == |p.deltas|
    decreases |p.deltas| - j
  {
    if j < |p.deltas| { NobodyThrows(p, c, received, j + 1); }
  }

  /**
   * A caller that does not throw gets all the deltas of the first provider that does not fail before its
   * first one, and the error of that provider if it fails later; those before it are tried in their order.
   */
  lemma {:induction false} FirstThatAnswers(ps: seq<Provider>, c: Caller, i: nat) returns (k: nat)
    requires i <= |ps| && forall n: nat :: !c.throws(n)
    ensures AnsweredBy(ps, c, i, Stream(ps, c, i, 0), k)
    decreases |ps| - i
  {
    k := i;
    if i < |ps| {
      NobodyThrows(ps[i], c, 0, 0);
      assert ps[i].deltas[..|ps[i].deltas|] == ps[i].deltas;
      if IsPassedOver(ps, c, i) {
        k := FirstThatAnswers(ps, c, i + 1);
        assert Tagged(i, ps[i].deltas) + Stream(ps, c, i + 1, 0).pieces == Stream(ps, c, i + 1, 0).pieces;
      }
    }
  }

  ghost predicate AnsweredInTurn(ps: seq<Provider>, c: Caller, out: Outcome) {
    (forall n: nat :: !c.throws(n)) ==> exists k: nat :: AnsweredBy(ps, c, 0, out, k)
  }

  lemma StreamsInTurn(ps: seq<Provider>, c: Caller)
    ensures AnsweredInTurn(ps, c, Stream(ps, c, 0, 0))
  {
    hide AnsweredBy, Stream;
    if forall n: nat :: !c.throws(n) { var _ := FirstThatAnswers(ps, c, 0); }
  }

  // Yields the deltas of one provider, until the caller throws.
  method Pump(p: Provider, i: nat, c: Caller, before: seq<Piece>)
    returns (pieces: seq<Piece>, emittedAny: bool, threw: bool)
    ensures
      var n := Yielded(p, c, |before|, 0);
      && pieces == before + Tagged(i, p.deltas[..n]) && threw == CallerThrew(p, c, |before|, n)
      && emittedAny == if threw then n > 1 else n > 0
  {
    pieces, emittedAny, threw := before, false, false;
    for k := 0 to |p.deltas|
      invariant pieces == before + Tagged(i, p.deltas[..k]) && !threw && emittedAny == (k > 0)
      invariant Yielded(p, c, |before|, 0) == Yielded(p, c, |before|, k)
      invariant k > 0 ==> !c.throws(|before| + k - 1)
    {
      assert Tagged(i, p.deltas[..k + 1]) == Tagged(i, p.deltas[..k]) + [Piece(i, p.deltas[k])];
      pieces := pieces + [Piece(i, p.deltas[k])];
      if c.throws(|before| + k) {
        threw := true;
        return;
      }
      emittedAny := true;
    }
  }

  // What one provider adds to the stream, and whether it goes on behind it.
  lemma StreamStep(ps: seq<Provider>, c: Caller, i: nat, received: nat)
    requires i < |ps|
    ensures
      var n := Yielded(ps[i], c, received, 0);
      var pieces, threw := Tagged(i, ps[i].deltas[..n]), CallerThrew(ps[i], c, received, n);
      var rest := Stream(ps, c, i + 1, received + n);
      Stream(ps, c, i, received) ==
      if !threw && !ps[i].fails then Outcome(pieces, Done)
      else if c.aborted(i) || (if threw then n > 1 else n > 0) then Outcome(pieces, Raised)
      else Outcome(pieces + rest.pieces, rest.ending)
  {
    hide Yielded, Tagged, CallerThrew;
  }

  /** `streamChat`: the loop over providers. */
  method StreamChat(ps: seq<Provider>, c: Caller) returns (pieces: seq<Piece>, ending: Ending)
    ensures Outcome(pieces, ending) == Stream(ps, c, 0, 0)
    ensures AnsweredInTurn(ps, c, Outcome(pieces, ending))
  {
    StreamsInTurn(ps, c);
    pieces := [];
    NothingAdded(ps, c);
    hide AnsweredInTurn, Tagged, Yielded, CallerThrew, Stream;
    for i := 0 to |ps|
      invariant Stream(ps, c, 0, 0) ==
        Outcome(pieces + Stream(ps, c, i, |pieces|).pieces, Stream(ps, c, i, |pieces|).ending)
    {
      ghost var before := pieces;
      var emittedAny, threw;
      pieces, emittedAny, threw := Pump(ps[i], i, c, pieces);
      StreamStep(ps, c, i, |before|);
      TaggedLength(i, ps[i].deltas[..Yielded(ps[i], c, |before|, 0)]);
      if !threw && !ps[i].fails { return pieces, Done; }
      if c.aborted(i) { return pieces, Raised; }
      if emittedAny { return pieces, Raised; }
      ghost var rest := Stream(ps, c, i + 1, |pieces|);
      Regroup(before, Tagged(i, ps[i].deltas[..Yielded(ps[i], c, |before|, 0)]), rest.pieces);
    }
    StreamEnds(ps, c, |pieces|);
    return pieces, Exhausted;
  }

  lemma NothingAdded(ps: seq<Provider>, c: Caller)
    ensures [] + Stream(ps, c, 0, 0).pieces == Stream(ps, c, 0, 0).pieces
  {
  }

  lemma StreamEnds(ps: seq<Provider>, c: Caller, received: nat)
    ensures Stream(ps, c, |ps|, received) == Outcome([], Exhausted)
  {
  }

  lemma Regroup(a: seq<Piece>, b: seq<Piece>, c: seq<Piece>)
    ensures a + (b + c) == (a + b) + c
  {
  }

  lemma TaggedLength(i: nat, deltas: seq<Delta>)
    ensures |Tagged(i, deltas)| == |deltas|
  {
  }
}
