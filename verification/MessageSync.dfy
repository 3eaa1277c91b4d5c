/** A client that folds the emitted events holds what the server holds. */
module MessageSync {
  import opened Wrappers
  import opened MessageParts

  predicate Unique(parts: seq<Part>) {
    forall i, j :: 0 <= i < j < |parts| ==> parts[i].id != parts[j].id
  }

  function Ids(parts: seq<Part>): set<Id> {
    set p | p in parts :: p.id
  }

  // What may differ: the artifacts of a tool result and, once the client has closed the message, the
  // content of a text that is still streaming.
  function Veil(p: Part, closed: bool): Part {
    match p.body
    case ToolResult(c, k, text, _, trusted) => p.(body := ToolResult(c, k, text, None, trusted))
    case Text(_, role) => if closed && p.status == Streaming then p.(body := Text("", role)) else p
    case _ => p
  }

  predicate SameParts(ps: seq<Part>, qs: seq<Part>, closed: bool) {
    |ps| == |qs| && forall i :: 0 <= i < |ps| ==> Veil(ps[i], closed) == Veil(qs[i], closed)
  }

  predicate StreamingAt(parts: seq<Part>, i: nat, id: Id) {
    i < |parts| && parts[i].id == id && parts[i].body.Text? && parts[i].status == Streaming
  }

  // A text with this id is being written, or may still be begun.
  ghost predicate MayGrow(parts: seq<Part>, id: Id) {
    id !in Ids(parts) || exists i: nat :: StreamingAt(parts, i, id)
  }

  // Where a text may still grow, the client has not seen the index of the server's next delta.
  ghost predicate NotAhead(s: Stream, last: map<Id, nat>) {
    forall id :: id in last && MayGrow(s.parts, id) ==> last[id] < NextIndex(s, id)
  }

  ghost predicate Alike(s: Stream, r: Replica) {
    Unique(s.parts) && SameParts(s.parts, r.parts, r.closed) && r.closed == s.completed
  }

  ghost predicate Sync(s: Stream, r: Replica) {
    Alike(s, r) && (r.closed || NotAhead(s, r.last))
  }

  // The id generator never repeats an id.
  predicate FreshId(s: Stream, op: Op) {
    match op
    case StartText(id, _, _) => id !in Ids(s.parts)
    case StartStatus(id, _, _, _, _) => id !in Ids(s.parts)
    case AddToolUse(id, _, _, _, _, _) => id !in Ids(s.parts)
    case AddToolResult(id, _, _, _, _, _, _) => id !in Ids(s.parts)
    case AddError(id, _, _, _) => id !in Ids(s.parts)
    case _ => true
  }

  // ---- Lists of parts ------------------------------------------------------------------------------

  lemma IdsAppend(parts: seq<Part>, p: Part)
    ensures Ids(parts + [p]) == Ids(parts) + {p.id}
  {
    forall id | id in Ids(parts) + {p.id} ensures id in Ids(parts + [p]) {
      if id == p.id {
        assert p in parts + [p];
      } else {
        var q :| q in parts && q.id == id;
        assert q in parts + [p];
      }
    }
  }

  lemma IdsUpdate(parts: seq<Part>, i: nat, p: Part)
    requires i < |parts| && p.id == parts[i].id
    ensures Ids(parts[i := p]) == Ids(parts)
    ensures Unique(parts) ==> Unique(parts[i := p])
  {
    var after := parts[i := p];
    forall id ensures id in Ids(after) <==> id in Ids(parts) {
      if id in Ids(parts) {
        var q :| q in parts && q.id == id;
        var j :| 0 <= j < |parts| && parts[j] == q;
        assert after[j] in after && after[j].id == id;
      }
      if id in Ids(after) {
        var q :| q in after && q.id == id;
        var j :| 0 <= j < |after| && after[j] == q;
        assert parts[j] in parts && parts[j].id == id;
      }
    }
  }

  lemma IdsOfSame(ps: seq<Part>, qs: seq<Part>, closed: bool)
    requires SameParts(ps, qs, closed)
    ensures forall i :: 0 <= i < |ps| ==> ps[i].id == qs[i].id && ps[i].status == qs[i].status
    ensures Ids(ps) == Ids(qs)
  {
    forall i | 0 <= i < |ps| ensures ps[i].id == qs[i].id && ps[i].status == qs[i].status {
      assert Veil(ps[i], closed).id == ps[i].id && Veil(qs[i], closed).id == qs[i].id;
      assert Veil(ps[i], closed).status == ps[i].status && Veil(qs[i], closed).status == qs[i].status;
    }
    hide Veil;
    forall id ensures id in Ids(ps) <==> id in Ids(qs) {
      if id in Ids(ps) {
        var p :| p in ps && p.id == id;
        var i :| 0 <= i < |ps| && ps[i] == p;
        assert qs[i] in qs;
      }
      if id in Ids(qs) {
        var q :| q in qs && q.id == id;
        var i :| 0 <= i < |qs| && qs[i] == q;
        assert ps[i] in ps;
      }
    }
  }

  lemma FoldOne(r: Replica, opening: seq<Event>, e: Event)
    requires opening == [] || opening == [MessageStarted]
    ensures Fold(r, opening) == r && Fold(r, opening + [e]) == Apply(r, e) && Fold(r, [e]) == Apply(r, e)
  {
    assert Apply(r, MessageStarted) == r;
    hide Apply;
    assert Fold(r, []) == r;
    FoldLast(r, [], MessageStarted);
    FoldLast(r, [], e);
    FoldLast(r, opening, e);
    assert [] + [e] == [e] && [] + [MessageStarted] == [MessageStarted];
  }

  lemma FoldLast(r: Replica, events: seq<Event>, e: Event)
    ensures Fold(r, events + [e]) == Apply(Fold(r, events), e)
  {
    hide Apply;
    assert (events + [e])[..|events|] == events;
  }

  // ---- One operation ---------------------------------------------------------------------------------

  lemma FoundIsThere(parts: seq<Part>, id: Id)
    ensures IndexOf(parts, id) < |parts| ==> id in Ids(parts)
  {
    var i := IndexOf(parts, id);
    assert i < |parts| ==> parts[i] in parts;
  }

  lemma BeginIsAlike(s: Stream, r: Replica, p: Part)
    requires Alike(s, r) && p.id !in Ids(s.parts)
    ensures Fold(r, Begin(s, p).1) == r.(parts := r.parts + [Announced(p)])
    ensures Alike(Begin(s, p).0, Fold(r, Begin(s, p).1))
  {
    var a := Announced(p);
    FoldOne(r, Opening(s), PartStarted(a));
    IdsOfSame(s.parts, r.parts, r.closed);
    FoundIsThere(r.parts, a.id);
    assert Veil(a, r.closed) == Veil(p, r.closed);
    forall i | 0 <= i < |s.parts| ensures s.parts[i].id != p.id { assert s.parts[i] in s.parts; }
    hide Veil;
  }

  lemma BeginSyncs(s: Stream, r: Replica, p: Part)
    requires Sync(s, r) && p.id !in Ids(s.parts)
    ensures Sync(Begin(s, p).0, Fold(r, Begin(s, p).1))
  {
    BeginIsAlike(s, r, p);
    IdsAppend(s.parts, p);
    forall id | MayGrow(s.parts + [p], id) ensures MayGrow(s.parts, id) {
      if id in Ids(s.parts) {
        var i: nat :| StreamingAt(s.parts + [p], i, id);
        assert StreamingAt(s.parts, i, id);
      }
    }
    hide Alike, MayGrow;
  }

  // Updating part i on both sides, where the client finds it by its id.
  lemma PatchSyncs(s: Stream, r: Replica, i: nat, p: Part, patch: Patch)
    requires Sync(s, r) && i < |s.parts| && p.id == s.parts[i].id
    requires |r.parts| == |s.parts| ==> Veil(p, r.closed) == Veil(ApplyPatch(r.parts[i], patch), r.closed)
    requires p.body.Text? && p.status == Streaming ==> s.parts[i].body.Text? && s.parts[i].status == Streaming
    ensures Sync(Revise(s, i, p, patch).0, Fold(r, Revise(s, i, p, patch).1))
  {
    FoldOne(r, [], PartUpdated(p.id, patch));
    IdsOfSame(s.parts, r.parts, r.closed);
    IdsUpdate(s.parts, i, p);
    var t := Apply(r, PartUpdated(p.id, patch));
    forall j | 0 <= j < |s.parts| ensures Veil(s.parts[i := p][j], r.closed) == Veil(t.parts[j], r.closed) {
      if j != i { assert r.parts[j].id != p.id; }
    }
    RevisedNotAhead(s, r, i, p);
    hide Veil, NotAhead;
  }

  lemma RevisedNotAhead(s: Stream, r: Replica, i: nat, p: Part)
    requires r.closed || NotAhead(s, r.last)
    requires i < |s.parts| && p.id == s.parts[i].id
    requires p.body.Text? && p.status == Streaming ==> s.parts[i].body.Text? && s.parts[i].status == Streaming
    ensures r.closed || NotAhead(s.(parts := s.parts[i := p]), r.last)
  {
    IdsUpdate(s.parts, i, p);
    forall id | MayGrow(s.parts[i := p], id) ensures MayGrow(s.parts, id) {
      if id in Ids(s.parts) {
        var j: nat :| StreamingAt(s.parts[i := p], j, id);
        assert StreamingAt(s.parts, j, id);
      }
    }
    hide MayGrow;
  }

  lemma CompleteTextSyncs(s: Stream, r: Replica, id: Id, now: nat)
    requires Sync(s, r)
    ensures Sync(Do(s, CompleteText(id, now)).0, Fold(r, Do(s, CompleteText(id, now)).1))
  {
    var i := IndexOfText(s.parts, id);
    if i < |s.parts| {
      var p := s.parts[i].(status := Completed, completedAt := Some(now));
      var patch := NO_PATCH.(status := Some(Completed), content := Some(s.parts[i].body.content),
        completedAt := Some(now));
      assert Veil(s.parts[i], r.closed) == Veil(r.parts[i], r.closed);
      PatchSyncs(s, r, i, p, patch);
    }
  }

  lemma SetRoleSyncs(s: Stream, r: Replica, id: Id, role: Role)
    requires Sync(s, r)
    ensures Sync(Do(s, SetRole(id, role)).0, Fold(r, Do(s, SetRole(id, role)).1))
  {
    var i := IndexOfText(s.parts, id);
    if i < |s.parts| {
      var p := s.parts[i].(body := s.parts[i].body.(role := Some(role)));
      assert Veil(s.parts[i], r.closed) == Veil(r.parts[i], r.closed);
      PatchSyncs(s, r, i, p, NO_PATCH.(role := Some(role)));
    }
  }

  // A status restated on one side and patched on the other.
  lemma RestateIsPatch(p: Part, q: Part, change: Patch, now: nat, closed: bool)
    requires p.body.Status? && Veil(p, closed) == Veil(q, closed)
    ensures
      var p' := Restate(p, change, now);
      Veil(p', closed) ==
      Veil(ApplyPatch(q, NO_PATCH.(status := Some(p'.status), caption := Some(p'.body.caption),
                                   completedAt := p'.completedAt, metadata := p'.body.metadata)), closed)
  {
  }

  lemma UpdateStatusSyncs(s: Stream, r: Replica, id: Id, change: Patch, now: nat)
    requires Sync(s, r)
    ensures Sync(Do(s, UpdateStatus(id, change, now)).0, Fold(r, Do(s, UpdateStatus(id, change, now)).1))
  {
    var i := IndexOfStatus(s.parts, id);
    if i < |s.parts| {
      var p := Restate(s.parts[i], change, now);
      if |r.parts| == |s.parts| {
        assert Veil(s.parts[i], r.closed) == Veil(r.parts[i], r.closed);
        RestateIsPatch(s.parts[i], r.parts[i], change, now, r.closed);
      }
      hide Veil, ApplyPatch, Fold, NotAhead;
      PatchSyncs(s, r, i, p, NO_PATCH.(status := Some(p.status), caption := Some(p.body.caption),
                                      completedAt := p.completedAt, metadata := p.body.metadata));
    }
  }

  lemma UpdateToolUseSyncs(s: Stream, r: Replica, callId: string, status: Option<Progress>)
    requires Sync(s, r)
    ensures Sync(Do(s, UpdateToolUse(callId, status)).0, Fold(r, Do(s, UpdateToolUse(callId, status)).1))
  {
    var i := IndexOfToolUse(s.parts, callId);
    if i < |s.parts| {
      var p := s.parts[i].(status := Or(status, s.parts[i].status));
      assert Veil(s.parts[i], r.closed) == Veil(r.parts[i], r.closed);
      PatchSyncs(s, r, i, p, NO_PATCH.(status := Some(p.status)));
    }
  }

  lemma AppendEffectOn(s: Stream, id: Id, delta: string)
    ensures
      var i := IndexOfText(s.parts, id);
      var (t, more) := Do(s, AppendText(id, delta));
      if i < |s.parts| && s.parts[i].status == Streaming then
        && s.parts[i].id == id && s.parts[i].body.Text?
        && t == s.(parts := s.parts[i := Extended(s.parts[i], id, delta)],
             deltaIndex := s.deltaIndex[id := NextIndex(s, id)])
        && more == [PartDelta(id, delta, NextIndex(s, id))]
      else t == s && more == []
  {
  }

  lemma AppendSyncs(s: Stream, r: Replica, id: Id, delta: string)
    requires Sync(s, r)
    ensures Sync(Do(s, AppendText(id, delta)).0, Fold(r, Do(s, AppendText(id, delta)).1))
  {
    var i := IndexOfText(s.parts, id);
    AppendEffectOn(s, id, delta);
    hide Do, IndexOfText;
    assert Fold(r, []) == r;
    if i < |s.parts| && s.parts[i].status == Streaming {
      var n := NextIndex(s, id);
      FoldOne(r, [], PartDelta(id, delta, n));
      AppendedParts(s, r, i, id, delta);
      IdsUpdate(s.parts, i, Extended(s.parts[i], id, delta));
      assert StreamingAt(s.parts, i, id);
      AppendedNotAhead(s, r, i, id, delta);
      DeltaApplied(r, id, delta, n);
      hide SameParts, NotAhead, Extended, Fold, Ids, Apply, Unique, MayGrow;
    }
  }

  // A closed client ignores the delta; an open one that is not ahead takes it.
  lemma DeltaApplied(r: Replica, id: Id, delta: string, n: nat)
    requires IndexOf(r.parts, id) < |r.parts|
    ensures
      var t := Apply(r, PartDelta(id, delta, n));
      && t.closed == r.closed && (r.closed ==> t.parts == r.parts)
      && (!r.closed && (id in r.last ==> r.last[id] < n) ==>
            t == r.(parts := ExtendAll(r.parts, id, delta), last := r.last[id := n]))
  {
  }

  lemma AppendedParts(s: Stream, r: Replica, i: nat, id: Id, delta: string)
    requires Sync(s, r) && i < |s.parts| && s.parts[i].id == id
    requires s.parts[i].body.Text? && s.parts[i].status == Streaming
    ensures IndexOf(r.parts, id) < |r.parts|
    ensures SameParts(s.parts[i := Extended(s.parts[i], id, delta)],
                      if r.closed then r.parts else ExtendAll(r.parts, id, delta), r.closed)
  {
    IdsOfSame(s.parts, r.parts, r.closed);
    assert r.parts[i].id == id;
    var p := Extended(s.parts[i], id, delta);
    forall j | 0 <= j < |s.parts|
      ensures Veil(s.parts[i := p][j], r.closed)
           == Veil(if r.closed then r.parts[j] else Extended(r.parts[j], id, delta), r.closed)
    {
      assert Veil(s.parts[j], r.closed) == Veil(r.parts[j], r.closed);
      if j != i { assert r.parts[j].id != id; }
    }
  }

  lemma AppendedNotAhead(s: Stream, r: Replica, i: nat, id: Id, delta: string)
    requires r.closed || NotAhead(s, r.last)
    requires StreamingAt(s.parts, i, id)
    ensures !r.closed && id in r.last ==> r.last[id] < NextIndex(s, id)
    ensures
      var n := NextIndex(s, id);
      var s' := s.(parts := s.parts[i := Extended(s.parts[i], id, delta)], deltaIndex := s.deltaIndex[id := n]);
      r.closed || NotAhead(s', r.last[id := n])
  {
    var p := Extended(s.parts[i], id, delta);
    IdsUpdate(s.parts, i, p);
    forall other | MayGrow(s.parts[i := p], other) ensures MayGrow(s.parts, other) {
      if other in Ids(s.parts) {
        var j: nat :| StreamingAt(s.parts[i := p], j, other);
        assert StreamingAt(s.parts, j, other);
      }
    }
    assert MayGrow(s.parts, id);
    hide MayGrow;
  }

  lemma CloseLeavesNothingOpen(p: Part, outcome: Outcome, now: nat)
    ensures !IsOpen(Close(p, outcome, now)) && Close(p, outcome, now).id == p.id
    ensures Normalize(Close(p, outcome, now)) == Close(p, outcome, now)
  {
  }

  /** At the completion event the client holds exactly the server's parts, artifacts included. */
  lemma ExactAtCompletion(s: Stream, r: Replica, outcome: Outcome, now: nat)
    requires !s.completed && !r.closed
    ensures
      var after := Do(s, Complete(outcome, true, now));
      var t := Fold(r, after.1);
      t.parts == after.0.parts && t.closed && t.content == MergeContent(after.0.parts)
      && forall p :: p in after.0.parts ==> !IsOpen(p)
  {
    var closed := CloseAll(s.parts, outcome, now);
    FoldOne(r, Opening(s), MessageCompleted(MergeContent(closed), closed));
    forall i | 0 <= i < |closed| ensures Normalize(closed[i]) == closed[i] && !IsOpen(closed[i]) {
      CloseLeavesNothingOpen(s.parts[i], outcome, now);
    }
    assert NormalizeAll(closed) == closed;
  }

  lemma SavedSyncs(s: Stream, r: Replica, closed: seq<Part>)
    requires Sync(s, r) && |closed| == |s.parts|
    requires forall i :: 0 <= i < |closed| ==> closed[i].id == s.parts[i].id && !IsOpen(closed[i])
    ensures Sync(s.(started := true, completed := true, parts := closed),
      Replica(closed, true, MergeContent(closed), map[]))
  {
    SameIds(s.parts, closed);
    hide MergeContent, Veil, Ids;
  }

  lemma FinishSyncs(s: Stream, r: Replica, outcome: Outcome, saved: bool, now: nat)
    requires Sync(s, r)
    ensures Sync(Finish(s, outcome, saved, now).0, Fold(r, Finish(s, outcome, saved, now).1))
  {
    if s.completed {
      assert Fold(r, []) == r;
    } else if !saved {
      FoldOne(r, Opening(s), MessageStarted);
      Started(s, r);
    } else {
      var closed := CloseAll(s.parts, outcome, now);
      forall i | 0 <= i < |closed|
        ensures closed[i].id == s.parts[i].id && !IsOpen(closed[i]) && Normalize(closed[i]) == closed[i]
      {
        CloseLeavesNothingOpen(s.parts[i], outcome, now);
      }
      SavedSyncs(s, r, closed);
      FoldOne(r, Opening(s), MessageCompleted(MergeContent(closed), closed));
      CompletionApplied(r, closed);
      hide Sync, MergeContent, IsOpen, Fold, Apply, CloseAll;
    }
  }

  lemma CompletionApplied(r: Replica, closed: seq<Part>)
    requires !r.closed && forall i :: 0 <= i < |closed| ==> Normalize(closed[i]) == closed[i]
    ensures Apply(r, MessageCompleted(MergeContent(closed), closed)) ==
      Replica(closed, true, MergeContent(closed), map[])
  {
    hide MergeContent, Normalize;
    assert NormalizeAll(closed) == closed;
  }

  lemma Started(s: Stream, r: Replica)
    requires Sync(s, r)
    ensures Sync(s.(started := true), r)
  {
    hide Veil, Ids;
  }

  lemma SameIds(ps: seq<Part>, qs: seq<Part>)
    requires |ps| == |qs| && forall i :: 0 <= i < |ps| ==> ps[i].id == qs[i].id
    ensures Ids(ps) == Ids(qs) && (Unique(ps) ==> Unique(qs))
  {
    forall id ensures id in Ids(ps) <==> id in Ids(qs) {
      if id in Ids(ps) {
        var p :| p in ps && p.id == id;
        var i :| 0 <= i < |ps| && ps[i] == p;
        assert qs[i] in qs;
      }
      if id in Ids(qs) {
        var q :| q in qs && q.id == id;
        var i :| 0 <= i < |qs| && qs[i] == q;
        assert ps[i] in ps;
      }
    }
  }

  /** Every operation keeps server and client in step. */
  lemma OpSyncs(s: Stream, r: Replica, op: Op)
    requires Sync(s, r) && FreshId(s, op)
    ensures Sync(Do(s, op).0, Fold(r, Do(s, op).1))
  {
    hide Sync, Fold, Begin, Finish;
    match op
    case StartText(id, role, now) => BeginSyncs(s, r, Part(id, Text("", role), Streaming, now, None));
    case AppendText(id, delta) => AppendSyncs(s, r, id, delta);
    case CompleteText(id, now) => CompleteTextSyncs(s, r, id, now);
    case SetRole(id, newRole) => SetRoleSyncs(s, r, id, newRole);
    case StartStatus(id, caption, toolCallId, metadata, now) =>
      BeginSyncs(s, r, Part(id, Status(caption, toolCallId, metadata), Running, now, None));
    case UpdateStatus(id, change, now) => UpdateStatusSyncs(s, r, id, change, now);
    case AddToolUse(id, callId, skillId, name, preview, now) =>
      BeginSyncs(s, r, Part(id, ToolUse(callId, skillId, name, preview), Pending, now, None));
    case UpdateToolUse(callId, status) => UpdateToolUseSyncs(s, r, callId, status);
    case AddToolResult(id, callId, skillId, summary, artifactIds, trusted, now) =>
      BeginSyncs(s, r, Part(id, ToolResult(callId, skillId, summary, artifactIds, trusted), Inert, now, None));
    case AddError(id, message, details, now) => BeginSyncs(s, r, Part(id, Error(message, details), Inert, now, None));
    case Complete(outcome, saved, now) => FinishSyncs(s, r, outcome, saved, now);
  }

  // ---- Every sequence of operations --------------------------------------------------------------------

  function Play(s: Stream, ops: seq<Op>): (Stream, seq<Event>) {
    if ops == [] then (s, [])
    else
      var n := |ops| - 1;
      var (mid, events) := Play(s, ops[..n]);
      var (after, more) := Do(mid, ops[n]);
      (after, events + more)
  }

  predicate FreshIds(s: Stream, ops: seq<Op>) {
    ops == [] || (FreshIds(s, ops[..|ops| - 1]) && FreshId(Play(s, ops[..|ops| - 1]).0, ops[|ops| - 1]))
  }

  lemma {:induction false} FoldAppend(r: Replica, first: seq<Event>, more: seq<Event>)
    ensures Fold(r, first + more) == Fold(Fold(r, first), more)
  {
    hide Apply;
    if more == [] {
      assert first + more == first;
    } else {
      var n := |more| - 1;
      FoldAppend(r, first, more[..n]);
      assert (first + more)[..|first + more| - 1] == first + more[..n];
    }
  }

  /**
   * However a stream is used, a client that folds its events over the same initial parts holds the
   * same list of parts up to the artifacts of tool results and, after completion, the content of a
   * text that is still being written.
   */
  lemma {:induction false} PlaySyncs(s: Stream, r: Replica, ops: seq<Op>)
    requires Sync(s, r) && FreshIds(s, ops)
    ensures Sync(Play(s, ops).0, Fold(r, Play(s, ops).1))
  {
    hide Sync, Do, FreshId, Apply;
    if ops == [] {
      assert Fold(r, []) == r;
    } else {
      var n := |ops| - 1;
      PlaySyncs(s, r, ops[..n]);
      var (mid, events) := Play(s, ops[..n]);
      OpSyncs(mid, Fold(r, events), ops[n]);
      FoldAppend(r, events, Do(mid, ops[n]).1);
    }
  }

  /** A client that starts from the hydrated parts and has seen no delta of them is in step. */
  lemma FreshClientIsInSync(parts: seq<Part>, quiet: bool)
    requires Unique(parts)
    ensures Sync(Stream(parts, false, false, map[], quiet), Replica(parts, false, "", map[]))
  {
  }

  /** Before completion the two lists differ in nothing but artifacts. */
  lemma SameUntilCompletion(s: Stream, r: Replica, i: nat)
    requires Sync(s, r) && !s.completed && i < |s.parts|
    ensures i < |r.parts|
    ensures !s.parts[i].body.ToolResult? ==> r.parts[i] == s.parts[i]
    ensures s.parts[i].body.ToolResult? ==> r.parts[i].body.ToolResult?
    ensures s.parts[i].body.ToolResult? ==> Announced(r.parts[i]) == Announced(s.parts[i])
  {
    assert Veil(s.parts[i], r.closed) == Veil(r.parts[i], r.closed);
  }

  /** After completion a client ignores deltas: the one difference the general statement allows for. */
  lemma DeltaAfterCompletionIsMissed(p: Part, r: Replica, delta: string)
    requires p.body.Text? && p.status == Streaming && delta != "" && r.closed && r.parts == [p] && r.last == map[]
    ensures
      var s := Stream([p], true, true, map[], true);
      var after := Do(s, AppendText(p.id, delta));
      Sync(s, r) && after.0.parts[0].body.content == p.body.content + delta && Fold(r, after.1).parts == [p]
      && Fold(r, after.1).parts != after.0.parts
  {
    var s := Stream([p], true, true, map[], true);
    assert IndexOfText([p], p.id) == 0;
    FoldOne(r, [], PartDelta(p.id, delta, 0));
    assert |p.body.content + delta| > |p.body.content|;
  }

  /**
   * A client that outlives a hydration remembers delta indices of the earlier stream and drops the
   * first deltas of the new one, which counts from zero again.
   */
  lemma HydratedDeltaIsDropped(p: Part, delta: string, seen: nat)
    requires p.body.Text? && p.status == Streaming && delta != ""
    ensures
      var s := Stream([p], true, false, map[], true);
      var r := Replica([p], false, "", map[p.id := seen]);
      var after := Do(s, AppendText(p.id, delta));
      after.0.parts[0].body.content == p.body.content + delta && Fold(r, after.1) == r
      && r.parts[0] != after.0.parts[0]
  {
    var s := Stream([p], true, false, map[], true);
    var r := Replica([p], false, "", map[p.id := seen]);
    assert IndexOfText([p], p.id) == 0;
    FoldOne(r, [], PartDelta(p.id, delta, 0));
    assert |p.body.content + delta| > |p.body.content|;
  }

  // ---- When the two always agree -------------------------------------------------------------------------

  // Whatever is done with the stream from here on, the client shows the server's parts.
  ghost predicate AlwaysAgree(s: Stream, r: Replica) {
    forall ops :: FreshIds(s, ops) ==> Agree(s, r, ops)
  }

  ghost predicate Agree(s: Stream, r: Replica, ops: seq<Op>) {
    var t := Fold(r, Play(s, ops).1);
    SameParts(Play(s, ops).0.parts, t.parts, t.closed)
  }

  lemma {:induction false} TextIsFound(parts: seq<Part>, i: nat, id: Id)
    requires Unique(parts) && StreamingAt(parts, i, id)
    ensures IndexOfText(parts, id) == i
  {
    if i > 0 { TextIsFound(parts[1..], i - 1, id); }
  }

  // A client that is ahead drops the next delta of a text being written.
  lemma AheadDropsDelta(s: Stream, r: Replica, i: nat, id: Id)
    requires Alike(s, r) && !r.closed && StreamingAt(s.parts, i, id)
    requires id in r.last && r.last[id] >= NextIndex(s, id)
    ensures
      var after := Do(s, AppendText(id, "x"));
      Fold(r, after.1) == r && !SameParts(after.0.parts, r.parts, false)
  {
    TextIsFound(s.parts, i, id);
    FoldOne(r, [], PartDelta(id, "x", NextIndex(s, id)));
    assert Veil(s.parts[i], false) == Veil(r.parts[i], false);
    var p := Extended(s.parts[i], id, "x");
    assert |p.body.content| != |s.parts[i].body.content|;
    assert Veil(s.parts[i := p][i], false) != Veil(r.parts[i], false);
  }

  lemma PlayTwo(s: Stream, r: Replica, first: Op, second: Op)
    ensures
      var mid := Do(s, first);
      var after := Do(mid.0, second);
      && Play(s, [first]) == mid && (FreshIds(s, [first]) <==> FreshId(s, first))
      && Play(s, [first] + [second]).0 == after.0
      && Fold(r, Play(s, [first] + [second]).1) == Fold(Fold(r, mid.1), after.1)
      && (FreshIds(s, [first] + [second]) <==> FreshId(s, first) && FreshId(mid.0, second))
  {
    hide Do, FreshId, Apply;
    assert Play(s, []) == (s, []) && FreshIds(s, []);
    assert [first][..0] == [] && [] + Do(s, first).1 == Do(s, first).1;
    assert ([first] + [second])[..1] == [first];
    FoldAppend(r, Do(s, first).1, Do(Do(s, first).0, second).1);
  }

  lemma AheadDisagrees(s: Stream, r: Replica, id: Id)
    requires Alike(s, r) && !r.closed && id in r.last && MayGrow(s.parts, id) && r.last[id] >= NextIndex(s, id)
    ensures exists ops :: FreshIds(s, ops) && !Agree(s, r, ops)
  {
    var grow := AppendText(id, "x");
    if id in Ids(s.parts) {
      var i: nat :| StreamingAt(s.parts, i, id);
      AheadDropsDelta(s, r, i, id);
      PlayTwo(s, r, grow, grow);
      hide Do, Fold, Play, SameParts, Alike, Ids;
      assert FreshIds(s, [grow]) && !Agree(s, r, [grow]);
    } else {
      NewTextDisagrees(s, r, id);
    }
  }

  lemma NewTextDisagrees(s: Stream, r: Replica, id: Id)
    requires Alike(s, r) && !r.closed && id in r.last && id !in Ids(s.parts) && r.last[id] >= NextIndex(s, id)
    ensures exists ops :: FreshIds(s, ops) && !Agree(s, r, ops)
  {
    hide *;
    var begin, grow := StartText(id, None, 0), AppendText(id, "x");
    NewTextStreams(s, r, id);
    var mid := Do(s, begin);
    AheadDropsDelta(mid.0, Fold(r, mid.1), |s.parts|, id);
    PlayTwo(s, r, begin, grow);
    Disagree(s, r, [begin] + [grow]);
  }

  lemma NewTextStreams(s: Stream, r: Replica, id: Id)
    requires Alike(s, r) && id !in Ids(s.parts)
    ensures
      var mid := Do(s, StartText(id, None, 0));
      var r1 := Fold(r, mid.1);
      && Alike(mid.0, r1) && r1.closed == r.closed && r1.last == r.last
      && StreamingAt(mid.0.parts, |s.parts|, id) && NextIndex(mid.0, id) == NextIndex(s, id)
    ensures FreshId(s, StartText(id, None, 0)) && forall t: Stream :: FreshId(t, AppendText(id, "x"))
  {
    BeginIsAlike(s, r, Part(id, Text("", None), Streaming, 0, None));
    hide Alike, Fold;
  }

  lemma Disagree(s: Stream, r: Replica, ops: seq<Op>)
    requires FreshIds(s, ops) && !Fold(r, Play(s, ops).1).closed
    requires !SameParts(Play(s, ops).0.parts, Fold(r, Play(s, ops).1).parts, false)
    ensures FreshIds(s, ops) && !Agree(s, r, ops)
  {
    hide SameParts, Fold, Play;
  }

  /**
   * A client that shows the server's parts goes on showing them, whatever is done with the stream,
   * exactly when it is closed or has not seen the index of a delta that is still to come.
   */
  lemma AlwaysAgreeIff(s: Stream, r: Replica)
    requires Unique(s.parts) && SameParts(s.parts, r.parts, r.closed) && r.closed == s.completed
    ensures AlwaysAgree(s, r) <==> r.closed || NotAhead(s, r.last)
  {
    hide Play, Fold, FreshIds, SameParts, MayGrow, Unique;
    if r.closed || NotAhead(s, r.last) {
      forall ops | FreshIds(s, ops) ensures Agree(s, r, ops) {
        PlaySyncs(s, r, ops);
      }
    } else {
      var id :| id in r.last && MayGrow(s.parts, id) && r.last[id] >= NextIndex(s, id);
      AheadDisagrees(s, r, id);
      var ops :| FreshIds(s, ops) && !Agree(s, r, ops);
    }
  }
}
