/** How far a client that has closed a message falls behind a server that goes on writing to it. */
module MessageDrift {
  import opened Wrappers
  import opened MessageParts
  import opened MessageSync
  import opened MessageText

  // A closed client keeps a text as it was; the server's has grown by the deltas since.
  predicate LagsAt(p: Part, q: Part, events: seq<Event>) {
    p.body.Text? && p.status == Streaming ==>
      q.body.Text? && p.body.content == q.body.content + Spelled(events, p.id)
  }

  ghost predicate Lags(s: Stream, r: Replica, events: seq<Event>) {
    && Sync(s, r) && r.closed
    && (forall i :: 0 <= i < |s.parts| && i < |r.parts| ==> LagsAt(s.parts[i], r.parts[i], events))
    && (forall id :: id !in Ids(s.parts) ==> Spelled(events, id) == "")
  }

  lemma LagsMeans(s: Stream, r: Replica, events: seq<Event>)
    requires Lags(s, r, events)
    ensures Sync(s, r) && Unique(s.parts) && s.completed && r.closed && Fold(r, []) == r && events + [] == events
  {
  }

  lemma NothingSpelled(events: seq<Event>, more: seq<Event>)
    requires Wordless(more)
    ensures forall id :: Spelled(events + more, id) == Spelled(events, id)
  {
    forall id ensures Spelled(events + more, id) == Spelled(events, id) {
      WordlessAdds(events, more, id);
    }
  }

  // A new part is as empty on one side as on the other.
  lemma NewLagsNot(p: Part, events: seq<Event>)
    requires (p.body.Text? ==> p.body.content == "") && Spelled(events, p.id) == ""
    ensures LagsAt(p, Announced(p), events)
  {
    hide Spelled;
  }

  lemma PairsLag(ps: seq<Part>, qs: seq<Part>, p: Part, events: seq<Event>, all: seq<Event>)
    requires |ps| == |qs| && forall i :: 0 <= i < |ps| ==> LagsAt(ps[i], qs[i], events)
    requires (p.body.Text? ==> p.body.content == "") && Spelled(events, p.id) == ""
    requires forall id :: Spelled(all, id) == Spelled(events, id)
    ensures forall i :: 0 <= i < |ps| + 1 ==> LagsAt((ps + [p])[i], (qs + [Announced(p)])[i], all)
  {
    hide Spelled, Announced;
    NewLagsNot(p, all);
    forall i | 0 <= i < |ps| ensures LagsAt(ps[i], qs[i], all) {
      assert LagsAt(ps[i], qs[i], events);
    }
  }

  lemma BeginLags(s: Stream, r: Replica, events: seq<Event>, p: Part)
    requires Lags(s, r, events) && p.id !in Ids(s.parts) && (p.body.Text? ==> p.body.content == "")
    ensures Lags(Begin(s, p).0, Fold(r, Begin(s, p).1), events + Begin(s, p).1)
  {
    BeginSyncs(s, r, p);
    BeginIsAlike(s, r, p);
    IdsAppend(s.parts, p);
    NothingSpelled(events, Begin(s, p).1);
    SameLength(s, r);
    hide Sync, Alike, Spelled, Ids, Fold, LagsAt, Announced;
    PairsLag(s.parts, r.parts, p, events, events + Begin(s, p).1);
  }

  lemma SameLength(s: Stream, r: Replica)
    requires Sync(s, r)
    ensures |s.parts| == |r.parts|
  {
  }

  lemma ReviseLags(s: Stream, r: Replica, events: seq<Event>, i: nat, p: Part, patch: Patch)
    requires Lags(s, r, events) && i < |s.parts| && p.id == s.parts[i].id
    requires p.body.Text? && p.status == Streaming ==>
      s.parts[i].body.Text? && s.parts[i].status == Streaming && s.parts[i].body.content == p.body.content
      && patch.content == None
    requires Sync(Revise(s, i, p, patch).0, Fold(r, Revise(s, i, p, patch).1))
    ensures Lags(Revise(s, i, p, patch).0, Fold(r, Revise(s, i, p, patch).1), events + Revise(s, i, p, patch).1)
  {
    FoldOne(r, [], PartUpdated(p.id, patch));
    IdsOfSame(s.parts, r.parts, r.closed);
    IdsUpdate(s.parts, i, p);
    NothingSpelled(events, Revise(s, i, p, patch).1);
    var t := Apply(r, PartUpdated(p.id, patch));
    forall j | 0 <= j < |s.parts| ensures LagsAt(s.parts[i := p][j], t.parts[j], events) {
      assert LagsAt(s.parts[j], r.parts[j], events);
      if j != i { assert r.parts[j].id != p.id; }
    }
    hide Sync, Spelled, Ids, Fold;
  }

  // A closed client does not move when a text grows.
  lemma AppendEffect(s: Stream, r: Replica, i: nat, id: Id, delta: string)
    requires Sync(s, r) && r.closed && i == IndexOfText(s.parts, id) && StreamingAt(s.parts, i, id)
    ensures
      var e := PartDelta(id, delta, NextIndex(s, id));
      var after := Do(s, AppendText(id, delta));
      && after.1 == [e] && after.0.parts == s.parts[i := Extended(s.parts[i], id, delta)]
      && Fold(r, [e]).parts == r.parts && Fold(r, [e]).closed
      && Ids(after.0.parts) == Ids(s.parts) && id in Ids(s.parts)
  {
    var e := PartDelta(id, delta, NextIndex(s, id));
    FoldOne(r, [], e);
    AppendedParts(s, r, i, id, delta);
    DeltaApplied(r, id, delta, e.index);
    IdsUpdate(s.parts, i, Extended(s.parts[i], id, delta));
    assert s.parts[i] in s.parts;
    hide Sync, Fold, Apply, SameParts;
  }

  lemma AppendLags(s: Stream, r: Replica, events: seq<Event>, id: Id, delta: string)
    requires Lags(s, r, events)
    ensures
      var after := Do(s, AppendText(id, delta));
      Lags(after.0, Fold(r, after.1), events + after.1)
  {
    AppendSyncs(s, r, id, delta);
    LagsMeans(s, r, events);
    var i := IndexOfText(s.parts, id);
    if i < |s.parts| && s.parts[i].status == Streaming {
      hide Do, Sync, Spelled, Fold, Extended, LagsAt, Ids;
      var e := PartDelta(id, delta, NextIndex(s, id));
      AppendEffect(s, r, i, id, delta);
      DeltaSpells(events, e);
      TextGrows(s.parts, i, r.parts, events, e);
    }
  }

  lemma TextGrows(ps: seq<Part>, i: nat, qs: seq<Part>, events: seq<Event>, e: Event)
    requires e.PartDelta? && Unique(ps) && StreamingAt(ps, i, e.partId)
    requires forall j :: 0 <= j < |ps| && j < |qs| ==> LagsAt(ps[j], qs[j], events)
    ensures forall j :: 0 <= j < |ps| && j < |qs| ==>
      LagsAt(ps[i := Extended(ps[i], e.partId, e.delta)][j], qs[j], events + [e])
  {
    DeltaSpells(events, e);
    hide Spelled;
  }

  lemma DeltaSpells(events: seq<Event>, e: Event)
    requires e.PartDelta?
    ensures forall id ::
      Spelled(events + [e], id) == if id == e.partId then Spelled(events, id) + e.delta else Spelled(events, id)
  {
    assert (events + [e])[..|events|] == events;
  }

  lemma RevisingLags(s: Stream, r: Replica, events: seq<Event>, op: Op)
    requires Lags(s, r, events)
    requires op.CompleteText? || op.SetRole? || op.UpdateStatus? || op.UpdateToolUse?
    ensures Lags(Do(s, op).0, Fold(r, Do(s, op).1), events + Do(s, op).1)
  {
    OpSyncs(s, r, op);
    hide Lags, Sync, Fold;
    LagsMeans(s, r, events);
    match op
    case CompleteText(id, now) =>
      var i := IndexOfText(s.parts, id);
      if i < |s.parts| {
        ReviseLags(s, r, events, i, s.parts[i].(status := Completed, completedAt := Some(now)),
          NO_PATCH.(status := Some(Completed), content := Some(s.parts[i].body.content), completedAt := Some(now)));
      }
    case SetRole(id, newRole) =>
      var i := IndexOfText(s.parts, id);
      if i < |s.parts| {
        ReviseLags(s, r, events, i, s.parts[i].(body := s.parts[i].body.(role := Some(newRole))),
          NO_PATCH.(role := Some(newRole)));
      }
    case UpdateStatus(id, change, now) =>
      var i := IndexOfStatus(s.parts, id);
      if i < |s.parts| {
        var p := Restate(s.parts[i], change, now);
        ReviseLags(s, r, events, i, p, NO_PATCH.(status := Some(p.status), caption := Some(p.body.caption),
                                                completedAt := p.completedAt, metadata := p.body.metadata));
      }
    case UpdateToolUse(callId, status) =>
      var i := IndexOfToolUse(s.parts, callId);
      if i < |s.parts| {
        var p := s.parts[i].(status := Or(status, s.parts[i].status));
        ReviseLags(s, r, events, i, p, NO_PATCH.(status := Some(p.status)));
      }
  }

  lemma OpLags(s: Stream, r: Replica, events: seq<Event>, op: Op)
    requires Lags(s, r, events) && FreshId(s, op)
    ensures Lags(Do(s, op).0, Fold(r, Do(s, op).1), events + Do(s, op).1)
  {
    hide Lags, Begin, Sync, Fold;
    LagsMeans(s, r, events);
    match op
    case StartText(id, role, now) => BeginLags(s, r, events, Part(id, Text("", role), Streaming, now, None));
    case AppendText(id, delta) => AppendLags(s, r, events, id, delta);
    case StartStatus(id, caption, toolCallId, metadata, now) =>
      BeginLags(s, r, events, Part(id, Status(caption, toolCallId, metadata), Running, now, None));
    case AddToolUse(id, callId, skillId, name, preview, now) =>
      BeginLags(s, r, events, Part(id, ToolUse(callId, skillId, name, preview), Pending, now, None));
    case AddToolResult(id, callId, skillId, summary, artifactIds, trusted, now) =>
      BeginLags(s, r, events, Part(id, ToolResult(callId, skillId, summary, artifactIds, trusted), Inert, now, None));
    case AddError(id, message, details, now) =>
      BeginLags(s, r, events, Part(id, Error(message, details), Inert, now, None));
    case Complete(outcome, saved, now) =>
    case _ => RevisingLags(s, r, events, op);
  }

  lemma {:induction false} PlayLags(s: Stream, r: Replica, ops: seq<Op>)
    requires Lags(s, r, []) && FreshIds(s, ops)
    ensures Lags(Play(s, ops).0, Fold(r, Play(s, ops).1), Play(s, ops).1)
  {
    hide Lags, Do, FreshId, Apply;
    if ops == [] {
      assert Fold(r, []) == r;
    } else {
      var n := |ops| - 1;
      PlayLags(s, r, ops[..n]);
      var (mid, events) := Play(s, ops[..n]);
      OpLags(mid, Fold(r, events), events, ops[n]);
      FoldAppend(r, events, Do(mid, ops[n]).1);
    }
  }

  // No text that is being written has grown.
  predicate NothingMissed(s: Stream, events: seq<Event>) {
    forall i :: 0 <= i < |s.parts| && s.parts[i].body.Text? && s.parts[i].status == Streaming ==>
      Spelled(events, s.parts[i].id) == ""
  }

  lemma SameMeansNothingMissed(s: Stream, r: Replica, events: seq<Event>)
    requires Lags(s, r, events)
    ensures SameParts(s.parts, r.parts, false) <==> NothingMissed(s, events)
  {
    hide Spelled;
    if NothingMissed(s, events) {
      forall i | 0 <= i < |s.parts| ensures Veil(s.parts[i], false) == Veil(r.parts[i], false) {
        assert Veil(s.parts[i], true) == Veil(r.parts[i], true) && LagsAt(s.parts[i], r.parts[i], events);
      }
    }
    if SameParts(s.parts, r.parts, false) {
      forall i | 0 <= i < |s.parts| && s.parts[i].body.Text? && s.parts[i].status == Streaming
        ensures Spelled(events, s.parts[i].id) == ""
      {
        assert Veil(s.parts[i], false) == Veil(r.parts[i], false) && LagsAt(s.parts[i], r.parts[i], events);
      }
    }
  }

  lemma SameLagsNothing(s: Stream, r: Replica)
    requires Sync(s, r) && r.closed && SameParts(s.parts, r.parts, false)
    ensures Lags(s, r, [])
  {
    forall i | 0 <= i < |s.parts| ensures LagsAt(s.parts[i], r.parts[i], []) {
      assert Veil(s.parts[i], false) == Veil(r.parts[i], false);
      assert s.parts[i].body.Text? ==> s.parts[i].body.content + "" == s.parts[i].body.content;
    }
  }

  /**
   * From completion on, where the two lists are equal in content as well, they stay equal in content
   * through any use of the stream exactly when no text that is still being written has received
   * anything but empty deltas.
   */
  lemma ContentAgreesIff(s: Stream, r: Replica, ops: seq<Op>)
    requires Sync(s, r) && r.closed && SameParts(s.parts, r.parts, false) && FreshIds(s, ops)
    ensures
      var (t, events) := Play(s, ops);
      SameParts(t.parts, Fold(r, events).parts, false) <==> NothingMissed(t, events)
  {
    hide *;
    SameLagsNothing(s, r);
    PlayLags(s, r, ops);
    SameMeansNothingMissed(Play(s, ops).0, Fold(r, Play(s, ops).1), Play(s, ops).1);
  }

  /** The same, said of a stream that is completed and then used further. */
  lemma AfterCompletionAgreesIff(s: Stream, r: Replica, outcome: Outcome, now: nat, ops: seq<Op>)
    requires Sync(s, r) && !s.completed && FreshIds(Do(s, Complete(outcome, true, now)).0, ops)
    ensures
      var done := Do(s, Complete(outcome, true, now));
      var (t, events) := Play(done.0, ops);
      SameParts(t.parts, Fold(r, done.1 + events).parts, false) <==> NothingMissed(t, events)
  {
    var op := Complete(outcome, true, now);
    ExactAtCompletion(s, r, outcome, now);
    OpSyncs(s, r, op);
    hide Sync, Do, Fold, Play, NothingMissed, FreshIds, CloseAll, MergeContent;
    var done := Do(s, op);
    FoldAppend(r, done.1, Play(done.0, ops).1);
    ContentAgreesIff(done.0, Fold(r, done.1), ops);
  }
}
