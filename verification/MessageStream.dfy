/** The server's message stream object. Each method is one operation of `MessageParts.Do`. */
module MessageStream {
  import opened Wrappers
  import opened MessageParts

  // A status as a change leaves it: given fields are taken over, metadata is merged, the end is stamped.
  predicate Restated(p: Part, q: Part, change: Patch, now: nat) {
    && p.body.Status? && q.body.Status? && q.id == p.id && q.createdAt == p.createdAt
    && q.body.toolCallId == p.body.toolCallId
    && q.body.caption == (if change.caption.Some? then change.caption.value else p.body.caption)
    && q.status == (if change.status.Some? then change.status.value else p.status)
    && q.completedAt == (if change.status.Some? && change.status.value != Running
                         then Some(if change.completedAt.Some? then change.completedAt.value else now)
                         else p.completedAt)
    && q.body.metadata == (if change.metadata.None? then p.body.metadata
                           else if p.body.metadata.None? then change.metadata
                           else Some(p.body.metadata.value + change.metadata.value))
  }

  lemma RestateIs(p: Part, change: Patch, now: nat)
    requires p.body.Status?
    ensures Restated(p, Restate(p, change, now), change, now)
  {
    if change.metadata.Some? { assert map[] + change.metadata.value == change.metadata.value; }
  }

  class AssistantMessageStream {
    var parts: seq<Part>
    var started: bool
    var completed: bool
    var deltaIndexByPartId: map<Id, nat>
    const skipStartedEvents: bool
    // Everything the stream has put on the event bus, and every message it has had saved.
    var emitted: seq<Event>
    var stored: seq<(string, seq<Part>)>

    constructor (initialParts: seq<Part>, skipStartedEvents: bool)
      ensures State() == Stream(initialParts, false, false, map[], skipStartedEvents) && emitted == [] && stored == []
    {
      parts, started, completed, deltaIndexByPartId := initialParts, false, false, map[];
      this.skipStartedEvents := skipStartedEvents;
      emitted, stored := [], [];
    }

    function State(): Stream
      reads this
    {
      Stream(parts, started, completed, deltaIndexByPartId, skipStartedEvents)
    }

    // The object is where the operation takes it, and the bus has seen its events.
    twostate predicate Did(op: Op)
      reads this
    {
      State() == Do(old(State()), op).0 && emitted == old(emitted) + Do(old(State()), op).1
    }

    method Start()
      modifies this`started, this`emitted
      ensures State() == old(State()).(started := true) && emitted == old(emitted) + Opening(old(State()))
    {
      if started { return; }
      started := true;
      if !skipStartedEvents { emitted := emitted + [MessageStarted]; }
    }

    // A new part stands at the end and has been announced, after the message itself if need be; the
    // announcement of a tool result leaves its artifacts out.
    twostate predicate Began(p: Part)
      reads this
    {
      var shown := if p.body.ToolResult? then p.(body := p.body.(artifactIds := None)) else p;
      && parts == old(parts) + [p] && started && completed == old(completed)
      && deltaIndexByPartId == old(deltaIndexByPartId) && stored == old(stored)
      && emitted == old(emitted) +
           if old(started) || skipStartedEvents then [PartStarted(shown)] else [MessageStarted, PartStarted(shown)]
    }

    // The i-th part has been replaced and the update announced; past the end nothing has happened.
    twostate predicate Revised(i: nat, p: Part, patch: Patch)
      reads this
    {
      && started == old(started) && completed == old(completed)
      && deltaIndexByPartId == old(deltaIndexByPartId) && stored == old(stored)
      && parts == (if i < |old(parts)| then old(parts)[i := p] else old(parts))
      && emitted == if i < |old(parts)| then old(emitted) + [PartUpdated(p.id, patch)] else old(emitted)
    }

    // Pushes a new part and announces it.
    method Push(p: Part)
      modifies this`parts, this`started, this`emitted
      ensures State() == Begin(old(State()), p).0 && emitted == old(emitted) + Begin(old(State()), p).1
      ensures Began(p)
    {
      Start();
      parts := parts + [p];
      emitted := emitted + [PartStarted(Announced(p))];
    }

    method StartTextPart(id: Id, role: Option<Role>, now: nat)
      modifies this`parts, this`started, this`emitted
      ensures Did(StartText(id, role, now))
      ensures Began(Part(id, Text("", role), Streaming, now, None))
    {
      Push(Part(id, Text("", role), Streaming, now, None));
    }

    method Append(id: Id, delta: string)
      modifies this`parts, this`deltaIndexByPartId, this`emitted
      ensures Did(AppendText(id, delta))
      ensures
        var i := IndexOfText(old(parts), id);
        if i < |old(parts)| && old(parts)[i].status == Streaming then
          var p := old(parts)[i];
          var index := if id in old(deltaIndexByPartId) then old(deltaIndexByPartId)[id] + 1 else 0;
          && parts == old(parts)[i := p.(body := p.body.(content := p.body.content + delta))]
          && deltaIndexByPartId == old(deltaIndexByPartId)[id := index]
          && emitted == old(emitted) + [PartDelta(id, delta, index)]
        else parts == old(parts) && deltaIndexByPartId == old(deltaIndexByPartId) && emitted == old(emitted)
    {
      var i := IndexOfText(parts, id);
      if i == |parts| || parts[i].status != Streaming { return; }
      var body := parts[i].body;
      parts := parts[i := parts[i].(body := body.(content := body.content + delta))];
      var index := if id in deltaIndexByPartId then deltaIndexByPartId[id] + 1 else 0;
      deltaIndexByPartId := deltaIndexByPartId[id := index];
      emitted := emitted + [PartDelta(id, delta, index)];
    }

    method CompleteTextPart(id: Id, now: nat)
      modifies this`parts, this`emitted
      ensures Did(CompleteText(id, now))
      ensures
        var i := IndexOfText(old(parts), id);
        i < |old(parts)| ==>
          var p := old(parts)[i];
          Revised(i, p.(status := Completed, completedAt := Some(now)),
                  Patch(Some(Completed), Some(p.body.content), None, None, Some(now), None))
      ensures IndexOfText(old(parts), id) == |old(parts)| ==> parts == old(parts) && emitted == old(emitted)
    {
      var i := IndexOfText(parts, id);
      if i == |parts| { return; }
      parts := parts[i := parts[i].(status := Completed, completedAt := Some(now))];
      emitted := emitted + [PartUpdated(id, NO_PATCH.(status := Some(Completed), content := Some(parts[i].body.content),
                                                     completedAt := Some(now)))];
    }

    method UpdateTextPartRole(id: Id, newRole: Role)
      modifies this`parts, this`emitted
      ensures Did(SetRole(id, newRole))
      ensures
        var i := IndexOfText(old(parts), id);
        i < |old(parts)| ==>
          var p := old(parts)[i];
          Revised(i, p.(body := p.body.(role := Some(newRole))), Patch(None, None, Some(newRole), None, None, None))
      ensures IndexOfText(old(parts), id) == |old(parts)| ==> parts == old(parts) && emitted == old(emitted)
    {
      var i := IndexOfText(parts, id);
      if i == |parts| { return; }
      parts := parts[i := parts[i].(body := parts[i].body.(role := Some(newRole)))];
      emitted := emitted + [PartUpdated(id, NO_PATCH.(role := Some(newRole)))];
    }

    method StartStatusPart(id: Id, caption: string, toolCallId: Option<string>,
                           metadata: Option<map<string, string>>, now: nat)
      modifies this`parts, this`started, this`emitted
      ensures Did(StartStatus(id, caption, toolCallId, metadata, now))
      ensures Began(Part(id, Status(caption, toolCallId, metadata), Running, now, None))
    {
      Push(Part(id, Status(caption, toolCallId, metadata), Running, now, None));
    }

    // The fields of a status part, one after the other.
    method Change(part: Part, change: Patch, now: nat) returns (p: Part)
      requires part.body.Status?
      ensures p == Restate(part, change, now)
    {
      p := part;
      if change.caption.Some? { p := p.(body := p.body.(caption := change.caption.value)); }
      if change.status.Some? {
        p := p.(status := change.status.value);
        if change.status.value != Running { p := p.(completedAt := Some(Or(change.completedAt, now))); }
      }
      if change.metadata.Some? {
        var merged := (if p.body.metadata.Some? then p.body.metadata.value else map[]) + change.metadata.value;
        p := p.(body := p.body.(metadata := Some(merged)));
      }
    }

    method ChangeStatus(id: Id, change: Patch, now: nat)
      modifies this`parts, this`emitted
      ensures Did(UpdateStatus(id, change, now))
      ensures
        var i := IndexOfStatus(old(parts), id);
        i < |old(parts)| ==>
          && i < |parts| && Restated(old(parts)[i], parts[i], change, now)
          && Revised(i, parts[i], Patch(Some(parts[i].status), None, None, Some(parts[i].body.caption),
                                        parts[i].completedAt, parts[i].body.metadata))
      ensures IndexOfStatus(old(parts), id) == |old(parts)| ==> parts == old(parts) && emitted == old(emitted)
    {
      var i := IndexOfStatus(parts, id);
      if i == |parts| { return; }
      var p := Change(parts[i], change, now);
      RestateIs(parts[i], change, now);
      hide Restated, Restate;
      parts := parts[i := p];
      emitted := emitted + [PartUpdated(id, NO_PATCH.(status := Some(p.status), caption := Some(p.body.caption),
                                                     completedAt := p.completedAt, metadata := p.body.metadata))];
    }

    method AddToolUsePart(id: Id, callId: string, skillId: string, name: string, preview: string, now: nat)
      modifies this`parts, this`started, this`emitted
      ensures Did(AddToolUse(id, callId, skillId, name, preview, now))
      ensures Began(Part(id, ToolUse(callId, skillId, name, preview), Pending, now, None))
    {
      Push(Part(id, ToolUse(callId, skillId, name, preview), Pending, now, None));
    }

    method ChangeToolUse(callId: string, status: Option<Progress>)
      modifies this`parts, this`emitted
      ensures Did(UpdateToolUse(callId, status))
      ensures
        var i := IndexOfToolUse(old(parts), callId);
        i < |old(parts)| ==>
          var next := if status.Some? then status.value else old(parts)[i].status;
          Revised(i, old(parts)[i].(status := next), Patch(Some(next), None, None, None, None, None))
      ensures IndexOfToolUse(old(parts), callId) == |old(parts)| ==> parts == old(parts) && emitted == old(emitted)
    {
      var i := IndexOfToolUse(parts, callId);
      if i == |parts| { return; }
      var p := parts[i];
      if status.Some? { p := p.(status := status.value); }
      parts := parts[i := p];
      emitted := emitted + [PartUpdated(p.id, NO_PATCH.(status := Some(p.status)))];
    }

    method AddToolResultPart(id: Id, callId: string, skillId: string, summary: string, artifactIds: Option<seq<string>>,
                             trusted: bool, now: nat)
      modifies this`parts, this`started, this`emitted
      ensures Did(AddToolResult(id, callId, skillId, summary, artifactIds, trusted, now))
      ensures Began(Part(id, ToolResult(callId, skillId, summary, artifactIds, trusted), Inert, now, None))
    {
      Push(Part(id, ToolResult(callId, skillId, summary, artifactIds, trusted), Inert, now, None));
    }

    method AddErrorPart(id: Id, message: string, details: string, now: nat)
      modifies this`parts, this`started, this`emitted
      ensures Did(AddError(id, message, details, now))
      ensures Began(Part(id, Error(message, details), Inert, now, None))
    {
      Push(Part(id, Error(message, details), Inert, now, None));
    }

    // Closes whatever a timeout or a failed branch left open.
    method CompleteOpenParts(outcome: Outcome, now: nat)
      modifies this`parts
      ensures parts == CloseAll(old(parts), outcome, now) && AllClose(old(parts), parts, outcome, now)
    {
      ClosedAllClose(parts, outcome, now);
      var i := 0;
      while i < |parts|
        invariant i <= |parts| == |old(parts)|
        invariant forall j :: 0 <= j < i ==> parts[j] == Close(old(parts)[j], outcome, now)
        invariant forall j :: i <= j < |parts| ==> parts[j] == old(parts)[j]
      {
        var p := parts[i];
        if p.body.Status? && p.status == Running {
          var kept := (if p.body.metadata.Some? then p.body.metadata.value else map[]) - {"phase"};
          p := Part(p.id, p.body.(metadata := Some(if outcome == Done then kept["phase" := "completed"] else kept)),
                    if outcome == Done then Completed else Failed, p.createdAt, Some(Or(p.completedAt, now)));
        } else if p.body.ToolUse? && (p.status == Pending || p.status == Running) {
          p := p.(status := Interrupted);
        } else if p.body.Text? && p.status == Streaming {
          p := p.(status := Completed, completedAt := Some(Or(p.completedAt, now)));
        }
        parts := parts[i := p];
        i := i + 1;
      }
    }

    /** Saving may fail; then the parts are what they were before, and no completion is announced. */
    method CompleteMessage(outcome: Outcome, saveWorks: bool, now: nat) returns (ok: bool)
      modifies this
      ensures Did(Complete(outcome, saveWorks, now))
      ensures ok <==> old(completed) || saveWorks
      ensures old(completed) || !saveWorks ==>
        parts == old(parts) && completed == old(completed) && stored == old(stored)
      ensures !old(completed) && saveWorks ==>
        && completed && AllClose(old(parts), parts, outcome, now)
        && exists content ::
             && Merged(parts, content) && stored == old(stored) + [(content, parts)]
             && emitted == old(emitted) + Opening(old(State())) + [MessageCompleted(content, parts)]
    {
      hide MergeContent, Close, AllClose, Merged;
      if completed { return true; }
      Start();
      var before := parts;
      CompleteOpenParts(outcome, now);
      var content := MergeContent(parts);
      MergeIs(parts);
      if !saveWorks {
        parts := before;
        return false;
      }
      stored := stored + [(content, parts)];
      completed := true;
      emitted := emitted + [MessageCompleted(content, parts)];
      return true;
    }
  }
}
