/** The text of a message is what its deltas spell, in the order of their indices. */
module MessageText {
  import opened Wrappers
  import opened MessageParts
  import opened MessageSync

  function Count(events: seq<Event>, id: Id): nat {
    if events == [] then 0
    else
      var e := events[|events| - 1];
      Count(events[..|events| - 1], id) + if e.PartDelta? && e.partId == id then 1 else 0
  }

  // The deltas of one part, joined in the order they were emitted.
  function Spelled(events: seq<Event>, id: Id): string {
    if events == [] then ""
    else
      var e := events[|events| - 1];
      Spelled(events[..|events| - 1], id) + if e.PartDelta? && e.partId == id then e.delta else ""
  }

  // Each part counts its own deltas 0, 1, 2, ...
  predicate Numbered(events: seq<Event>) {
    forall k :: 0 <= k < |events| && events[k].PartDelta? ==> events[k].index == Count(events[..k], events[k].partId)
  }

  // The content a text had when the stream was created.
  function Hydrated(parts: seq<Part>, id: Id): string {
    var i := IndexOf(parts, id);
    if i < |parts| && parts[i].body.Text? then parts[i].body.content else ""
  }

  ghost predicate Narrates(parts0: seq<Part>, s: Stream, events: seq<Event>) {
    && Unique(s.parts) && Ids(parts0) <= Ids(s.parts) && Numbered(events)
    && (forall id :: NextIndex(s, id) == Count(events, id))
    && (forall id :: id !in Ids(s.parts) ==> Spelled(events, id) == "" && id !in s.deltaIndex)
    && (forall p :: p in s.parts && p.body.Text? ==> p.body.content == Hydrated(parts0, p.id) + Spelled(events, p.id))
  }

  // Events other than deltas add nothing.
  predicate Wordless(events: seq<Event>) {
    forall e :: e in events ==> !e.PartDelta?
  }

  lemma {:induction false} WordlessAdds(events: seq<Event>, more: seq<Event>, id: Id)
    requires Wordless(more)
    ensures Count(events + more, id) == Count(events, id) && Spelled(events + more, id) == Spelled(events, id)
  {
    if more == [] {
      assert events + more == events;
    } else {
      var n := |more| - 1;
      assert more[n] in more;
      WordlessAdds(events, more[..n], id);
      assert (events + more)[..|events + more| - 1] == events + more[..n];
    }
  }

  lemma WordlessNumbers(events: seq<Event>, more: seq<Event>)
    requires Numbered(events) && Wordless(more)
    ensures Numbered(events + more)
  {
    forall k | |events| <= k < |events + more| ensures !(events + more)[k].PartDelta? {
      assert more[k - |events|] in more;
    }
    forall k | 0 <= k < |events + more| && (events + more)[k].PartDelta?
      ensures (events + more)[k].index == Count((events + more)[..k], (events + more)[k].partId)
    {
      assert (events + more)[..k] == events[..k];
    }
  }

  lemma DeltaNumbers(events: seq<Event>, id: Id, delta: string)
    requires Numbered(events)
    ensures Numbered(events + [PartDelta(id, delta, Count(events, id))])
    ensures forall other ::
      Count(events + [PartDelta(id, delta, Count(events, id))], other) ==
        Count(events, other) + if other == id then 1 else 0
    ensures forall other ::
      Spelled(events + [PartDelta(id, delta, Count(events, id))], other) ==
        Spelled(events, other) + if other == id then delta else ""
  {
    var all := events + [PartDelta(id, delta, Count(events, id))];
    assert all[..|events|] == events;
    forall k | 0 <= k < |all| && all[k].PartDelta? ensures all[k].index == Count(all[..k], all[k].partId) {
      assert all[..k] == events[..k];
      assert events[..|events|] == events;
    }
  }

  // An operation that emits no delta and leaves the texts alone.
  lemma QuietOp(parts0: seq<Part>, s: Stream, events: seq<Event>, parts: seq<Part>, t: Stream, more: seq<Event>)
    requires Narrates(parts0, s, events) && Wordless(more)
    requires t.parts == parts && t.deltaIndex == s.deltaIndex
    requires Unique(parts) && Ids(s.parts) <= Ids(parts)
    requires forall p :: p in parts && p.body.Text? ==>
      (exists q :: q in s.parts && q.body.Text? && q.id == p.id && q.body.content == p.body.content)
      || (p.id !in Ids(s.parts) && p.body.content == "")
    ensures Narrates(parts0, t, events + more)
  {
    hide Count, Spelled, Unique, Ids, Numbered;
    WordlessNumbers(events, more);
    forall id
      ensures Count(events + more, id) == Count(events, id) && Spelled(events + more, id) == Spelled(events, id)
    {
      WordlessAdds(events, more, id);
    }
    forall p | p in parts && p.body.Text?
      ensures p.body.content == Hydrated(parts0, p.id) + Spelled(events + more, p.id)
    {
      if p.id !in Ids(s.parts) { NotHydrated(parts0, p.id); }
    }
  }

  lemma NotHydrated(parts: seq<Part>, id: Id)
    requires id !in Ids(parts)
    ensures Hydrated(parts, id) == ""
  {
    FoundIsThere(parts, id);
  }

  lemma BeginNarrates(parts0: seq<Part>, s: Stream, events: seq<Event>, p: Part)
    requires Narrates(parts0, s, events) && p.id !in Ids(s.parts) && (p.body.Text? ==> p.body.content == "")
    ensures Narrates(parts0, Begin(s, p).0, events + Begin(s, p).1)
  {
    IdsAppend(s.parts, p);
    forall i | 0 <= i < |s.parts| ensures s.parts[i].id != p.id { assert s.parts[i] in s.parts; }
    QuietOp(parts0, s, events, s.parts + [p], Begin(s, p).0, Begin(s, p).1);
  }

  lemma ReviseNarrates(parts0: seq<Part>, s: Stream, events: seq<Event>, i: nat, p: Part, patch: Patch)
    requires Narrates(parts0, s, events) && i < |s.parts| && p.id == s.parts[i].id
    requires p.body.Text? ==> s.parts[i].body.Text? && s.parts[i].body.content == p.body.content
    ensures Narrates(parts0, Revise(s, i, p, patch).0, events + Revise(s, i, p, patch).1)
  {
    IdsUpdate(s.parts, i, p);
    assert s.parts[i] in s.parts;
    forall q | q in s.parts[i := p] ensures q in s.parts || q == p {}
    QuietOp(parts0, s, events, s.parts[i := p], Revise(s, i, p, patch).0, Revise(s, i, p, patch).1);
  }

  // One text after the delta has been appended to the i-th part.
  lemma AppendSpells(parts0: seq<Part>, s: Stream, events: seq<Event>, i: nat, delta: string, all: seq<Event>, j: nat)
    requires Narrates(parts0, s, events) && i < |s.parts| && s.parts[i].body.Text? && j < |s.parts|
    requires forall id :: Spelled(all, id) == Spelled(events, id) + if id == s.parts[i].id then delta else ""
    ensures
      var q := s.parts[i := Extended(s.parts[i], s.parts[i].id, delta)][j];
      q.body.Text? ==> q.body.content == Hydrated(parts0, q.id) + Spelled(all, q.id)
  {
    hide Count, Spelled, Numbered, Ids, Hydrated;
    var id := s.parts[i].id;
    assert s.parts[j] in s.parts;
    if j == i {
      assert s.parts[i].body.content + delta == Hydrated(parts0, id) + (Spelled(events, id) + delta);
    } else {
      assert s.parts[j].id != id;
      assert Spelled(events, s.parts[j].id) + "" == Spelled(events, s.parts[j].id);
    }
  }

  lemma AppendNarrates(parts0: seq<Part>, s: Stream, events: seq<Event>, id: Id, delta: string)
    requires Narrates(parts0, s, events)
    ensures Narrates(parts0, Do(s, AppendText(id, delta)).0, events + Do(s, AppendText(id, delta)).1)
  {
    var i := IndexOfText(s.parts, id);
    AppendEffectOn(s, id, delta);
    hide Do, IndexOfText, Count, Spelled, Numbered, Ids, Hydrated, Unique;
    if i < |s.parts| && s.parts[i].status == Streaming {
      IdsUpdate(s.parts, i, Extended(s.parts[i], id, delta));
      IdIsThere(s.parts, i);
      DeltaNumbers(events, id, delta);
      hide Extended;
      var parts := s.parts[i := Extended(s.parts[i], id, delta)];
      var all := events + [PartDelta(id, delta, Count(events, id))];
      forall q | q in parts && q.body.Text? ensures q.body.content == Hydrated(parts0, q.id) + Spelled(all, q.id) {
        var j :| 0 <= j < |parts| && parts[j] == q;
        AppendSpells(parts0, s, events, i, delta, all, j);
      }
    } else {
      assert events + [] == events;
    }
  }

  lemma IdIsThere(parts: seq<Part>, i: nat)
    requires i < |parts|
    ensures parts[i].id in Ids(parts)
  {
    assert parts[i] in parts;
  }

  lemma FinishNarrates(parts0: seq<Part>, s: Stream, events: seq<Event>, outcome: Outcome, saved: bool, now: nat)
    requires Narrates(parts0, s, events)
    ensures Narrates(parts0, Finish(s, outcome, saved, now).0, events + Finish(s, outcome, saved, now).1)
  {
    var t := Finish(s, outcome, saved, now);
    forall i | 0 <= i < |t.0.parts|
      ensures t.0.parts[i].id == s.parts[i].id && (t.0.parts[i].body.Text? ==> t.0.parts[i].body == s.parts[i].body)
    {
      CloseLeavesNothingOpen(s.parts[i], outcome, now);
    }
    SameIds(s.parts, t.0.parts);
    forall p | p in t.0.parts && p.body.Text?
      ensures exists q :: q in s.parts && q.body.Text? && q.id == p.id && q.body.content == p.body.content
    {
      var i :| 0 <= i < |t.0.parts| && t.0.parts[i] == p;
      assert s.parts[i] in s.parts;
    }
    QuietOp(parts0, s, events, t.0.parts, t.0, t.1);
  }

  lemma OpNarrates(parts0: seq<Part>, s: Stream, events: seq<Event>, op: Op)
    requires Narrates(parts0, s, events) && FreshId(s, op)
    ensures Narrates(parts0, Do(s, op).0, events + Do(s, op).1)
  {
    hide Narrates, Begin, Finish;
    assert events + [] == events;
    match op
    case StartText(id, role, now) => BeginNarrates(parts0, s, events, Part(id, Text("", role), Streaming, now, None));
    case AppendText(id, delta) => AppendNarrates(parts0, s, events, id, delta);
    case CompleteText(id, now) =>
      var i := IndexOfText(s.parts, id);
      if i < |s.parts| {
        ReviseNarrates(parts0, s, events, i, s.parts[i].(status := Completed, completedAt := Some(now)),
          NO_PATCH.(status := Some(Completed), content := Some(s.parts[i].body.content), completedAt := Some(now)));
      }
    case SetRole(id, newRole) =>
      var i := IndexOfText(s.parts, id);
      if i < |s.parts| {
        ReviseNarrates(parts0, s, events, i, s.parts[i].(body := s.parts[i].body.(role := Some(newRole))),
          NO_PATCH.(role := Some(newRole)));
      }
    case StartStatus(id, caption, toolCallId, metadata, now) =>
      BeginNarrates(parts0, s, events, Part(id, Status(caption, toolCallId, metadata), Running, now, None));
    case UpdateStatus(id, change, now) =>
      var i := IndexOfStatus(s.parts, id);
      if i < |s.parts| {
        var p := Restate(s.parts[i], change, now);
        ReviseNarrates(parts0, s, events, i, p, NO_PATCH.(status := Some(p.status), caption := Some(p.body.caption),
                                                         completedAt := p.completedAt, metadata := p.body.metadata));
      }
    case AddToolUse(id, callId, skillId, name, preview, now) =>
      BeginNarrates(parts0, s, events, Part(id, ToolUse(callId, skillId, name, preview), Pending, now, None));
    case UpdateToolUse(callId, status) =>
      var i := IndexOfToolUse(s.parts, callId);
      if i < |s.parts| {
        var p := s.parts[i].(status := Or(status, s.parts[i].status));
        ReviseNarrates(parts0, s, events, i, p, NO_PATCH.(status := Some(p.status)));
      }
    case AddToolResult(id, callId, skillId, summary, artifactIds, trusted, now) =>
      BeginNarrates(parts0, s, events,
        Part(id, ToolResult(callId, skillId, summary, artifactIds, trusted), Inert, now, None));
    case AddError(id, message, details, now) =>
      BeginNarrates(parts0, s, events, Part(id, Error(message, details), Inert, now, None));
    case Complete(outcome, saved, now) => FinishNarrates(parts0, s, events, outcome, saved, now);
  }

  /**
   * After any use of a stream every text is what it was hydrated with followed by its deltas, and
   * the deltas of each part are numbered 0, 1, 2, ... in the order they were emitted.
   */
  lemma {:induction false} PlayNarrates(s: Stream, ops: seq<Op>)
    requires Unique(s.parts) && s.deltaIndex == map[] && FreshIds(s, ops)
    ensures Narrates(s.parts, Play(s, ops).0, Play(s, ops).1)
  {
    hide Do, FreshId;
    if ops == [] {
      StartNarrates(s);
    } else {
      hide Narrates;
      var n := |ops| - 1;
      PlayNarrates(s, ops[..n]);
      OpNarrates(s.parts, Play(s, ops[..n]).0, Play(s, ops[..n]).1, ops[n]);
    }
  }

  lemma StartNarrates(s: Stream)
    requires Unique(s.parts) && s.deltaIndex == map[]
    ensures Narrates(s.parts, s, [])
  {
    forall p | p in s.parts && p.body.Text? ensures Hydrated(s.parts, p.id) == p.body.content {
      var i :| 0 <= i < |s.parts| && s.parts[i] == p;
      var j := IndexOf(s.parts, p.id);
      assert j <= i;
    }
  }
}
