/** The content blocks of an assistant message, the operations on them and the events they emit. */
module MessageParts {
  import opened Wrappers

  type Id(==, !new)

  // Tool results and errors have no status of their own.
  datatype Progress = Streaming | Running | Pending | Completed | Failed | Interrupted | Inert

  datatype Role = Progressing | Final | UserPrompt

  datatype Part = Part(id: Id, body: Body, status: Progress, createdAt: nat, completedAt: Option<nat>)

  datatype Body =
    | Text(content: string, role: Option<Role>)
    | Status(caption: string, toolCallId: Option<string>, metadata: Option<map<string, string>>)
    | ToolUse(callId: string, skillId: string, name: string, preview: string)
    | ToolResult(resultOf: string, resultSkill: string, summary: string, artifactIds: Option<seq<string>>,
      trusted: bool)
    | Error(message: string, details: string)

  // The fields an update carries; a field that is absent leaves the part as it is.
  datatype Patch = Patch(status: Option<Progress>, content: Option<string>, role: Option<Role>, caption: Option<string>,
                         completedAt: Option<nat>, metadata: Option<map<string, string>>)

  datatype Event =
    | MessageStarted
    | PartStarted(part: Part)
    | PartDelta(partId: Id, delta: string, index: nat)
    | PartUpdated(partId: Id, patch: Patch)
    | MessageCompleted(content: string, parts: seq<Part>)

  datatype Outcome = Done | Broken | Cancelled

  datatype Stream = Stream(parts: seq<Part>, started: bool, completed: bool, deltaIndex: map<Id, nat>, quiet: bool)

  // now and the ids are what the clock and the id generator return.
  datatype Op =
    | StartText(id: Id, role: Option<Role>, now: nat)
    | AppendText(id: Id, delta: string)
    | CompleteText(id: Id, now: nat)
    | SetRole(id: Id, newRole: Role)
    | StartStatus(id: Id, caption: string, toolCallId: Option<string>, metadata: Option<map<string, string>>, now: nat)
    | UpdateStatus(id: Id, change: Patch, now: nat)
    | AddToolUse(id: Id, callId: string, skillId: string, name: string, preview: string, now: nat)
    | UpdateToolUse(callId: string, status: Option<Progress>)
    | AddToolResult(id: Id, callId: string, skillId: string, summary: string, artifactIds: Option<seq<string>>,
                    trusted: bool, now: nat)
    | AddError(id: Id, message: string, details: string, now: nat)
    | Complete(outcome: Outcome, saved: bool, now: nat)

  function Or<T>(patch: Option<T>, current: T): T {
    if patch.Some? then patch.value else current
  }

  function Either<T>(patch: Option<T>, current: Option<T>): Option<T> {
    if patch.Some? then patch else current
  }

  const NO_PATCH: Patch := Patch(None, None, None, None, None, None)

  function PatchBody(b: Body, c: Patch): Body {
    match b
    case Text(content, role) => Text(Or(c.content, content), Either(c.role, role))
    case Status(caption, toolCallId, metadata) =>
      Status(Or(c.caption, caption), toolCallId, Either(c.metadata, metadata))
    case _ => b
  }

  function ApplyPatch(p: Part, c: Patch): Part {
    Part(p.id, PatchBody(p.body, c), Or(c.status, p.status), p.createdAt, Either(c.completedAt, p.completedAt))
  }

  // Index of the first part with that id, or the length.
  function IndexOf(parts: seq<Part>, id: Id): (i: nat)
    ensures i <= |parts|
    ensures i < |parts| ==> parts[i].id == id
    ensures forall j :: 0 <= j < i ==> parts[j].id != id
  {
    if parts == [] || parts[0].id == id then 0 else 1 + IndexOf(parts[1..], id)
  }

  function IndexOfText(parts: seq<Part>, id: Id): (i: nat)
    ensures i <= |parts| && (i < |parts| ==> parts[i].id == id && parts[i].body.Text?)
    ensures forall j :: 0 <= j < i ==> parts[j].id != id || !parts[j].body.Text?
  {
    if parts == [] || (parts[0].id == id && parts[0].body.Text?) then 0 else 1 + IndexOfText(parts[1..], id)
  }

  function IndexOfStatus(parts: seq<Part>, id: Id): (i: nat)
    ensures i <= |parts| && (i < |parts| ==> parts[i].id == id && parts[i].body.Status?)
    ensures forall j :: 0 <= j < i ==> parts[j].id != id || !parts[j].body.Status?
  {
    if parts == [] || (parts[0].id == id && parts[0].body.Status?) then 0 else 1 + IndexOfStatus(parts[1..], id)
  }

  function IndexOfToolUse(parts: seq<Part>, callId: string): (i: nat)
    ensures i <= |parts| && (i < |parts| ==> parts[i].body.ToolUse? && parts[i].body.callId == callId)
    ensures forall j :: 0 <= j < i ==> !parts[j].body.ToolUse? || parts[j].body.callId != callId
  {
    if parts == [] || (parts[0].body.ToolUse? && parts[0].body.callId == callId) then 0
    else 1 + IndexOfToolUse(parts[1..], callId)
  }

  // ---- Finishing -----------------------------------------------------------------------------

  predicate IsOpen(p: Part) {
    match p.body
    case Status(_, _, _) => p.status == Running
    case ToolUse(_, _, _, _) => p.status == Pending || p.status == Running
    case Text(_, _) => p.status == Streaming
    case _ => false
  }

  // Final completion closes whatever is still open; an open tool use was interrupted, not completed.
  function Close(p: Part, outcome: Outcome, now: nat): Part {
    if !IsOpen(p) then p
    else
      match p.body
      case Status(caption, toolCallId, metadata) =>
        var kept := (if metadata.Some? then metadata.value else map[]) - {"phase"};
        Part(p.id, Status(caption, toolCallId, Some(if outcome == Done then kept["phase" := "completed"] else kept)),
             if outcome == Done then Completed else Failed, p.createdAt, Some(Or(p.completedAt, now)))
      case ToolUse(_, _, _, _) => p.(status := Interrupted)
      case _ => p.(status := Completed, completedAt := Some(Or(p.completedAt, now)))
  }

  function CloseAll(parts: seq<Part>, outcome: Outcome, now: nat): (closed: seq<Part>)
    ensures |closed| == |parts|
    ensures forall i :: 0 <= i < |parts| ==> closed[i] == Close(parts[i], outcome, now)
  {
    seq(|parts|, i requires 0 <= i < |parts| => Close(parts[i], outcome, now))
  }

  // What becomes of a part when its message is finished, told about the part before and after.
  predicate Closes(p: Part, q: Part, outcome: Outcome, now: nat) {
    match p.body
    case Text(_, _) =>
      q == if p.status == Streaming then p.(status := Completed, completedAt := Some(Or(p.completedAt, now))) else p
    case ToolUse(_, _, _, _) =>
      q == if p.status == Pending || p.status == Running then p.(status := Interrupted) else p
    case Status(caption, toolCallId, metadata) =>
      if p.status != Running then q == p
      else
        && q.id == p.id && q.createdAt == p.createdAt && q.completedAt == Some(Or(p.completedAt, now))
        && q.status == (if outcome == Done then Completed else Failed)
        && q.body.Status? && q.body.caption == caption && q.body.toolCallId == toolCallId && q.body.metadata.Some?
        && PhaseSet(if metadata.Some? then metadata.value else map[], q.body.metadata.value, outcome)
    case _ => q == p
  }

  // The phase says "completed", or nothing after a failure; every other entry stays.
  predicate PhaseSet(before: map<string, string>, after: map<string, string>, outcome: Outcome) {
    && ("phase" in after <==> outcome == Done) && ("phase" in after ==> after["phase"] == "completed")
    && (forall key :: key in before && key != "phase" ==> key in after && after[key] == before[key])
    && (forall key :: key in after && key != "phase" ==> key in before)
  }

  lemma CloseCloses(p: Part, outcome: Outcome, now: nat)
    ensures Closes(p, Close(p, outcome, now), outcome, now)
  {
  }

  ghost predicate AllClose(parts: seq<Part>, closed: seq<Part>, outcome: Outcome, now: nat) {
    |closed| == |parts| && forall i :: 0 <= i < |parts| ==> Closes(parts[i], closed[i], outcome, now)
  }

  lemma ClosedAllClose(parts: seq<Part>, outcome: Outcome, now: nat)
    ensures AllClose(parts, CloseAll(parts, outcome, now), outcome, now)
  {
    hide Close, Closes;
    forall i | 0 <= i < |parts| ensures Closes(parts[i], CloseAll(parts, outcome, now)[i], outcome, now) {
      CloseCloses(parts[i], outcome, now);
    }
  }

  // ---- The content of a message ------------------------------------------------------------------

  // Some text says what it is for.
  predicate SomeRole(parts: seq<Part>) {
    exists j :: 0 <= j < |parts| && parts[j].body.Text? && parts[j].body.role.Some?
  }

  // A text counts if it is the final answer or a prompt, or if no text says what it is for.
  predicate Counts(parts: seq<Part>, p: Part) {
    p.body.Text? && (p.body.role == Some(Final) || p.body.role == Some(UserPrompt) || !SomeRole(parts))
  }

  function Joined(parts: seq<Part>, places: seq<nat>): string
    requires forall k :: 0 <= k < |places| ==> places[k] < |parts| && parts[places[k]].body.Text?
  {
    if places == [] then ""
    else
      var n := |places| - 1;
      var last := parts[places[n]].body.content;
      if n == 0 then last else Joined(parts, places[..n]) + "\n" + last
  }

  // The parts at these places, from the given one on and in order, are those that count.
  ghost predicate CountingAt(parts: seq<Part>, from: nat, places: seq<nat>) {
    && (forall k :: 0 <= k < |places| ==> from <= places[k] < |parts|)
    && (forall k, l :: 0 <= k < l < |places| ==> places[k] < places[l])
    && (forall i :: from <= i < |parts| ==> (i in places <==> Counts(parts, parts[i])))
  }

  // The texts that count, in their order, with one line break between each two.
  ghost predicate Merged(parts: seq<Part>, content: string) {
    exists places :: CountingAt(parts, 0, places) && AllTexts(parts, places) && content == Joined(parts, places)
  }

  predicate AllTexts(parts: seq<Part>, places: seq<nat>) {
    forall k :: 0 <= k < |places| ==> places[k] < |parts| && parts[places[k]].body.Text?
  }

  // With any semantic role present only final and prompt texts count; otherwise every text does.
  predicate Contributes(p: Part, roles: bool) {
    p.body.Text? && (roles ==> p.body.role == Some(Final) || p.body.role == Some(UserPrompt))
  }

  predicate HasRoles(parts: seq<Part>) {
    exists p :: p in parts && p.body.Text? && p.body.role.Some?
  }

  function Contents(parts: seq<Part>, roles: bool): seq<string> {
    if parts == [] then []
    else (if Contributes(parts[0], roles) then [parts[0].body.content] else []) + Contents(parts[1..], roles)
  }

  function Join(texts: seq<string>): string {
    if texts == [] then "" else if |texts| == 1 then texts[0] else texts[0] + "\n" + Join(texts[1..])
  }

  function MergeContent(parts: seq<Part>): string {
    Join(Contents(parts, HasRoles(parts)))
  }

  lemma ContributesIff(parts: seq<Part>, p: Part)
    requires p in parts
    ensures Contributes(p, HasRoles(parts)) <==> Counts(parts, p)
  {
    if q :| q in parts && q.body.Text? && q.body.role.Some? {
      var j :| 0 <= j < |parts| && parts[j] == q;
    }
  }

  lemma PlaceOne(parts: seq<Part>, from: nat, rest: seq<nat>)
    requires from < |parts| && CountingAt(parts, from + 1, rest)
    ensures CountingAt(parts, from, if Counts(parts, parts[from]) then [from] + rest else rest)
  {
    hide Counts;
  }

  // The texts that stand at these places.
  predicate StandAt(parts: seq<Part>, places: seq<nat>, texts: seq<string>) {
    |texts| == |places| && AllTexts(parts, places)
    && forall k :: 0 <= k < |places| ==> texts[k] == parts[places[k]].body.content
  }

  lemma ContentsNext(parts: seq<Part>, roles: bool, from: nat)
    requires from < |parts|
    ensures
      var more := Contents(parts[from + 1..], roles);
      Contents(parts[from..], roles) ==
      if Contributes(parts[from], roles) then [parts[from].body.content] + more else more
  {
    assert parts[from..][1..] == parts[from + 1..] && parts[from..][0] == parts[from];
    assert [] + Contents(parts[from + 1..], roles) == Contents(parts[from + 1..], roles);
  }

  lemma StandOne(parts: seq<Part>, from: nat, rest: seq<nat>, more: seq<string>)
    requires from < |parts| && parts[from].body.Text? && StandAt(parts, rest, more)
    ensures StandAt(parts, [from] + rest, [parts[from].body.content] + more)
  {
  }

  lemma NoPlaces(parts: seq<Part>, roles: bool)
    ensures CountingAt(parts, |parts|, []) && StandAt(parts, [], Contents(parts[|parts|..], roles))
  {
    assert parts[|parts|..] == [];
  }

  lemma {:induction false} CountingPlaces(parts: seq<Part>, from: nat) returns (places: seq<nat>)
    requires from <= |parts|
    ensures CountingAt(parts, from, places) && StandAt(parts, places, Contents(parts[from..], HasRoles(parts)))
    decreases |parts| - from
  {
    hide Contents, HasRoles, Counts, CountingAt, StandAt;
    if from == |parts| {
      places := [];
      NoPlaces(parts, HasRoles(parts));
    } else {
      var rest := CountingPlaces(parts, from + 1);
      ContentsNext(parts, HasRoles(parts), from);
      ContributesIff(parts, parts[from]);
      PlaceOne(parts, from, rest);
      places := rest;
      if Counts(parts, parts[from]) {
        StandOne(parts, from, rest, Contents(parts[from + 1..], HasRoles(parts)));
        places := [from] + rest;
      }
    }
  }

  lemma {:induction false} JoinLast(texts: seq<string>, last: string)
    ensures Join(texts + [last]) == if texts == [] then last else Join(texts) + "\n" + last
  {
    if |texts| > 1 {
      JoinLast(texts[1..], last);
      assert (texts + [last])[1..] == texts[1..] + [last];
      Regroup(texts[0] + "\n", Join(texts[1..]), "\n" + last);
      Regroup(Join(texts), "\n", last);
      Regroup(Join(texts[1..]), "\n", last);
    } else if |texts| == 1 {
      assert (texts + [last])[1..] == [last];
    } else {
      assert texts + [last] == [last];
    }
  }

  lemma Regroup(a: string, b: string, c: string)
    ensures a + b + c == a + (b + c)
  {
  }

  lemma StandFirst(parts: seq<Part>, places: seq<nat>, texts: seq<string>)
    requires StandAt(parts, places, texts) && texts != []
    ensures
      var n := |texts| - 1;
      && StandAt(parts, places[..n], texts[..n]) && texts == texts[..n] + [texts[n]]
      && Joined(parts, places) == if n == 0 then texts[n] else Joined(parts, places[..n]) + "\n" + texts[n]
  {
  }

  lemma {:induction false} JoinIsJoined(parts: seq<Part>, places: seq<nat>, texts: seq<string>)
    requires StandAt(parts, places, texts)
    ensures AllTexts(parts, places) && Join(texts) == Joined(parts, places)
  {
    if texts != [] {
      var n := |texts| - 1;
      StandFirst(parts, places, texts);
      JoinLast(texts[..n], texts[n]);
      hide Join, StandAt;
      JoinIsJoined(parts, places[..n], texts[..n]);
      assert |texts[..n]| == n;
    }
  }

  /** The content is the texts that count, joined in order by one line break each. */
  lemma MergeIs(parts: seq<Part>)
    ensures Merged(parts, MergeContent(parts))
  {
    var places := CountingPlaces(parts, 0);
    assert parts[0..] == parts;
    hide Contents, HasRoles, CountingAt, Join;
    JoinIsJoined(parts, places, Contents(parts, HasRoles(parts)));
  }

  // ---- What one operation does -------------------------------------------------------------------

  function NextIndex(s: Stream, id: Id): nat {
    if id in s.deltaIndex then s.deltaIndex[id] + 1 else 0
  }

  function Opening(s: Stream): seq<Event> {
    if s.started || s.quiet then [] else [MessageStarted]
  }

  // The announcement of a new part leaves the artifacts of a tool result out.
  function Announced(p: Part): Part {
    if p.body.ToolResult? then p.(body := p.body.(artifactIds := None)) else p
  }

  function Begin(s: Stream, p: Part): (Stream, seq<Event>) {
    (s.(started := true, parts := s.parts + [p]), Opening(s) + [PartStarted(Announced(p))])
  }

  function Revise(s: Stream, i: nat, p: Part, patch: Patch): (Stream, seq<Event>)
    requires i < |s.parts|
  {
    (s.(parts := s.parts[i := p]), [PartUpdated(p.id, patch)])
  }

  // A status that leaves running is stamped; metadata is merged, not replaced.
  function Restate(p: Part, c: Patch, now: nat): Part
    requires p.body.Status?
  {
    var Status(caption, toolCallId, metadata) := p.body;
    Part(p.id,
         Status(Or(c.caption, caption), toolCallId,
                if c.metadata.Some? then Some((if metadata.Some? then metadata.value else map[]) + c.metadata.value)
                else metadata),
         Or(c.status, p.status), p.createdAt,
         if c.status.Some? && c.status.value != Running then Some(Or(c.completedAt, now)) else p.completedAt)
  }

  function Finish(s: Stream, outcome: Outcome, saved: bool, now: nat): (Stream, seq<Event>) {
    if s.completed then (s, [])
    else if !saved then (s.(started := true), Opening(s))
    else
      var closed := CloseAll(s.parts, outcome, now);
      (s.(started := true, completed := true, parts := closed),
       Opening(s) + [MessageCompleted(MergeContent(closed), closed)])
  }

  function Do(s: Stream, op: Op): (Stream, seq<Event>) {
    match op
    case StartText(id, role, now) => Begin(s, Part(id, Text("", role), Streaming, now, None))
    case AppendText(id, delta) =>
      var i := IndexOfText(s.parts, id);
      if i == |s.parts| || s.parts[i].status != Streaming then (s, [])
      else
        (s.(parts := s.parts[i := Extended(s.parts[i], id, delta)], deltaIndex := s.deltaIndex[id := NextIndex(s, id)]),
         [PartDelta(id, delta, NextIndex(s, id))])
    case CompleteText(id, now) =>
      var i := IndexOfText(s.parts, id);
      if i == |s.parts| then (s, [])
      else
        Revise(s, i, s.parts[i].(status := Completed, completedAt := Some(now)),
               NO_PATCH.(status := Some(Completed), content := Some(s.parts[i].body.content), completedAt := Some(now)))
    case SetRole(id, newRole) =>
      var i := IndexOfText(s.parts, id);
      if i == |s.parts| then (s, [])
      else Revise(s, i, s.parts[i].(body := s.parts[i].body.(role := Some(newRole))), NO_PATCH.(role := Some(newRole)))
    case StartStatus(id, caption, toolCallId, metadata, now) =>
      Begin(s, Part(id, Status(caption, toolCallId, metadata), Running, now, None))
    case UpdateStatus(id, change, now) =>
      var i := IndexOfStatus(s.parts, id);
      if i == |s.parts| then (s, [])
      else
        var p := Restate(s.parts[i], change, now);
        Revise(s, i, p, NO_PATCH.(status := Some(p.status), caption := Some(p.body.caption),
                                 completedAt := p.completedAt, metadata := p.body.metadata))
    case AddToolUse(id, callId, skillId, name, preview, now) =>
      Begin(s, Part(id, ToolUse(callId, skillId, name, preview), Pending, now, None))
    case UpdateToolUse(callId, status) =>
      var i := IndexOfToolUse(s.parts, callId);
      if i == |s.parts| then (s, [])
      else
        var p := s.parts[i].(status := Or(status, s.parts[i].status));
        Revise(s, i, p, NO_PATCH.(status := Some(p.status)))
    case AddToolResult(id, callId, skillId, summary, artifactIds, trusted, now) =>
      Begin(s, Part(id, ToolResult(callId, skillId, summary, artifactIds, trusted), Inert, now, None))
    case AddError(id, message, details, now) => Begin(s, Part(id, Error(message, details), Inert, now, None))
    case Complete(outcome, saved, now) => Finish(s, outcome, saved, now)
  }

  // ---- The replica a client keeps -------------------------------------------------------------------

  // closed: the completion event has been seen. last: the highest delta index seen per part.
  datatype Replica = Replica(parts: seq<Part>, closed: bool, content: string, last: map<Id, nat>)

  // {...current, ...incoming}: a field the announcement lacks keeps its value.
  function MergePart(current: Part, incoming: Part): Part {
    var body :=
      match (current.body, incoming.body)
      case (Text(_, r), Text(content, r')) => Text(content, Either(r', r))
      case (Status(_, t, m), Status(caption, t', m')) => Status(caption, Either(t', t), Either(m', m))
      case (ToolResult(_, _, _, a, _), ToolResult(c, k, text, a', trusted)) =>
        ToolResult(c, k, text, Either(a', a), trusted)
      case _ => incoming.body;
    incoming.(body := body, completedAt := Either(incoming.completedAt, current.completedAt))
  }

  function Upsert(parts: seq<Part>, p: Part): seq<Part> {
    var i := IndexOf(parts, p.id);
    if i < |parts| then parts[i := MergePart(parts[i], p)] else parts + [p]
  }

  function PatchAll(parts: seq<Part>, id: Id, patch: Patch): (patched: seq<Part>)
    ensures |patched| == |parts|
    ensures forall i :: 0 <= i < |parts| ==>
      patched[i] == if parts[i].id == id then ApplyPatch(parts[i], patch) else parts[i]
  {
    seq(|parts|, i requires 0 <= i < |parts| => if parts[i].id == id then ApplyPatch(parts[i], patch) else parts[i])
  }

  function Extended(p: Part, id: Id, delta: string): Part {
    if p.body.Text? && p.id == id then p.(body := p.body.(content := p.body.content + delta)) else p
  }

  function ExtendAll(parts: seq<Part>, id: Id, delta: string): (extended: seq<Part>)
    ensures |extended| == |parts|
    ensures forall i :: 0 <= i < |parts| ==> extended[i] == Extended(parts[i], id, delta)
  {
    seq(|parts|, i requires 0 <= i < |parts| => Extended(parts[i], id, delta))
  }

  // A client closes on its own what the completion event left open.
  function Normalize(p: Part): Part {
    if !IsOpen(p) then p
    else
      match p.body
      case Status(caption, t, metadata) =>
        p.(status := Completed,
           body := Status(caption, t, Some((if metadata.Some? then metadata.value else map[])["phase" := "completed"])))
      case _ => p.(status := Completed)
  }

  function NormalizeAll(parts: seq<Part>): (normal: seq<Part>)
    ensures |normal| == |parts|
    ensures forall i :: 0 <= i < |parts| ==> normal[i] == Normalize(parts[i])
  {
    seq(|parts|, i requires 0 <= i < |parts| => Normalize(parts[i]))
  }

  predicate AnyOpen(parts: seq<Part>) {
    exists p :: p in parts && IsOpen(p)
  }

  function Apply(r: Replica, e: Event): Replica {
    match e
    case MessageStarted => r
    case PartStarted(p) => r.(parts := Upsert(r.parts, p))
    case PartDelta(id, delta, index) =>
      if id in r.last && index <= r.last[id] then r
      else
        var seen := r.(last := r.last[id := index]);
        if r.closed then seen
        else if IndexOf(r.parts, id) < |r.parts| then seen.(parts := ExtendAll(r.parts, id, delta))
        else seen.(parts := r.parts + [Part(id, Text(delta, None), Streaming, 0, None)])
    case PartUpdated(id, patch) => r.(parts := PatchAll(r.parts, id, patch))
    case MessageCompleted(content, parts) =>
      if r.closed && r.content == content && !AnyOpen(r.parts) then r
      else Replica(NormalizeAll(parts), true, content, map[])
  }

  function Fold(r: Replica, events: seq<Event>): Replica {
    if events == [] then r else Apply(Fold(r, events[..|events| - 1]), events[|events| - 1])
  }
}
