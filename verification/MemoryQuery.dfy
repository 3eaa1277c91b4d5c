/** The memory query builder: SQL clauses under three-valued logic, and the numbering of placeholders. */
module MemoryQuery {
  import opened Wrappers

  datatype Scope = Global | User | Project | Conversation | RunScope

  // A row of memory_metadata. None is the null of the column.
  datatype Row = Row(runId: Option<string>, stepId: Option<string>, key: string, kind: Option<string>,
                     scope: Option<Scope>, scopeId: Option<string>, deleted: bool, expiresAt: Option<int>,
                     superseded: bool)

  datatype Input = Input(includeDeleted: bool, runId: Option<string>, stepId: Option<string>, key: Option<string>,
                         types: Option<seq<string>>, scopes: Option<seq<Scope>>, userId: Option<string>,
                         projectId: Option<string>, conversationId: Option<string>)

  // An empty string counts as absent.
  predicate Present(s: Option<string>) {
    s.Some? && s.value != ""
  }

  // ---- SQL -----------------------------------------------------------------------------------------

  datatype Tri = True | False | Unknown

  datatype Value = Text(text: string) | Texts(texts: seq<string>) | Vector(vector: seq<real>) | Number(number: int)
    | Null

  datatype Column = RunId | StepId | Key | Kind | ScopeId

  // Placeholders count from 1.
  datatype Clause =
    | NotDeleted
    | NotExpired
    | NotSuperseded
    | Equals(column: Column, placeholder: nat)
    | EqualsAny(column: Column, placeholder: nat)
    | ScopeIs(scope: Scope)
    | Both(left: Clause, right: Clause)
    | Either(clauses: seq<Clause>)
    | Never
    | Like(placeholder: nat)

  function Cell(row: Row, column: Column): Option<string> {
    match column
    case RunId => row.runId
    case StepId => row.stepId
    case Key => Some(row.key)
    case Kind => row.kind
    case ScopeId => row.scopeId
  }

  function And(a: Tri, b: Tri): Tri {
    if a == False || b == False then False else if a == True && b == True then True else Unknown
  }

  function Or(a: Tri, b: Tri): Tri {
    if a == True || b == True then True else if a == False && b == False then False else Unknown
  }

  function Of(b: bool): Tri {
    if b then True else False
  }

  function Bound(params: seq<Value>, placeholder: nat): Value {
    if 1 <= placeholder <= |params| then params[placeholder - 1] else Null
  }

  // Comparing with null gives unknown.
  function Compare(cell: Option<string>, v: Value): Tri {
    if cell.None? then Unknown
    else
      match v
      case Text(t) => Of(cell.value == t)
      case Texts(ts) => Of(cell.value in ts)
      case _ => Unknown
  }

  // How text matches a row is not the builder's concern.
  function Eval(c: Clause, row: Row, params: seq<Value>, now: int, like: (Row, string) -> bool): Tri
    decreases c
  {
    match c
    case NotDeleted => Of(!row.deleted)
    case NotExpired =>
      Or(Of(row.expiresAt.None?), if row.expiresAt.None? then Unknown else Of(row.expiresAt.value > now))
    case NotSuperseded => Of(!row.superseded)
    case Equals(column, n) => Compare(Cell(row, column), Bound(params, n))
    case EqualsAny(column, n) => Compare(Cell(row, column), Bound(params, n))
    case ScopeIs(s) => if row.scope.None? then Unknown else Of(row.scope.value == s)
    case Both(l, r) => And(Eval(l, row, params, now, like), Eval(r, row, params, now, like))
    case Either(cs) => EvalAny(cs, row, params, now, like)
    case Never => False
    case Like(n) => var v := Bound(params, n); if v.Text? then Of(like(row, v.text)) else Unknown
  }

  function EvalAny(cs: seq<Clause>, row: Row, params: seq<Value>, now: int, like: (Row, string) -> bool): Tri
    decreases cs
  {
    if cs == [] then False
    else Or(EvalAny(cs[..|cs| - 1], row, params, now, like), Eval(cs[|cs| - 1], row, params, now, like))
  }

  // A WHERE of clauses joined by AND keeps the rows for which all of them are true.
  predicate Keeps(cs: seq<Clause>, row: Row, params: seq<Value>, now: int, like: (Row, string) -> bool) {
    forall i :: 0 <= i < |cs| ==> Eval(cs[i], row, params, now, like) == True
  }

  // ---- What is meant ---------------------------------------------------------------------------------

  predicate Live(input: Input, row: Row, now: int) {
    && (!row.deleted || input.includeDeleted)
    && (row.expiresAt.Some? ==> row.expiresAt.value > now)
    && !row.superseded
  }

  predicate Matches(wanted: Option<string>, cell: Option<string>) {
    Present(wanted) ==> cell == wanted
  }

  predicate Filtered(input: Input, row: Row) {
    && Matches(input.runId, row.runId) && Matches(input.stepId, row.stepId) && Matches(input.key, Some(row.key))
    && (input.types.Some? && input.types.value != [] ==> row.kind.Some? && row.kind.value in input.types.value)
  }

  function Subject(input: Input, scope: Scope): Option<string> {
    match scope
    case Global => None
    case User => input.userId
    case Project => input.projectId
    case Conversation => input.conversationId
    case RunScope => input.runId
  }

  predicate Wants(input: Input, scope: Scope) {
    input.scopes.None? || scope in input.scopes.value
  }

  // Global memories are for everyone, others for the subject that asks.
  predicate Visible(input: Input, row: Row) {
    && row.scope.Some? && Wants(input, row.scope.value)
    && (row.scope != Some(Global) ==>
          Present(Subject(input, row.scope.value)) && row.scopeId == Subject(input, row.scope.value))
  }

  // The one input that asks for nothing and is not filtered at all.
  predicate AsksForNoScope(input: Input) {
    input.scopes == Some([])
  }

  predicate Selected(input: Input, row: Row, now: int) {
    Live(input, row, now) && Filtered(input, row) && (AsksForNoScope(input) || Visible(input, row))
  }

  // ---- The builder -------------------------------------------------------------------------------------

  // Later parameters do not disturb earlier placeholders.
  predicate Fits(c: Clause, n: nat)
    decreases c
  {
    match c
    case Equals(_, p) => 1 <= p <= n
    case EqualsAny(_, p) => 1 <= p <= n
    case Like(p) => 1 <= p <= n
    case Both(l, r) => Fits(l, n) && Fits(r, n)
    case Either(cs) => forall i :: 0 <= i < |cs| ==> Fits(cs[i], n)
    case _ => true
  }

  predicate AllFit(cs: seq<Clause>, n: nat) {
    forall i :: 0 <= i < |cs| ==> Fits(cs[i], n)
  }

  lemma {:induction false} EvalStable(c: Clause, row: Row, params: seq<Value>, more: seq<Value>, now: int,
                                      like: (Row, string) -> bool)
    requires Fits(c, |params|)
    ensures Eval(c, row, params + more, now, like) == Eval(c, row, params, now, like)
    decreases c
  {
    match c
    case Both(l, r) =>
      EvalStable(l, row, params, more, now, like);
      EvalStable(r, row, params, more, now, like);
    case Either(cs) => EvalAnyStable(cs, row, params, more, now, like);
    case _ =>
  }

  lemma {:induction false} EvalAnyStable(cs: seq<Clause>, row: Row, params: seq<Value>, more: seq<Value>, now: int,
                                         like: (Row, string) -> bool)
    requires AllFit(cs, |params|)
    ensures EvalAny(cs, row, params + more, now, like) == EvalAny(cs, row, params, now, like)
    decreases cs
  {
    if cs != [] {
      EvalAnyStable(cs[..|cs| - 1], row, params, more, now, like);
      EvalStable(cs[|cs| - 1], row, params, more, now, like);
    }
  }

  lemma KeepsStable(cs: seq<Clause>, row: Row, params: seq<Value>, more: seq<Value>, now: int,
                    like: (Row, string) -> bool)
    requires AllFit(cs, |params|)
    ensures Keeps(cs, row, params + more, now, like) <==> Keeps(cs, row, params, now, like)
  {
    forall i | 0 <= i < |cs|
      ensures Eval(cs[i], row, params + more, now, like) == Eval(cs[i], row, params, now, like)
    {
      EvalStable(cs[i], row, params, more, now, like);
    }
  }

  // The clauses pushed so far and the values bound so far.
  datatype Built = Built(clauses: seq<Clause>, values: seq<Value>)

  predicate Sound(b: Built) {
    AllFit(b.clauses, |b.values|)
  }

  predicate Holds(b: Built, row: Row, now: int, like: (Row, string) -> bool) {
    Keeps(b.clauses, row, b.values, now, like)
  }

  function Push(b: Built, c: Clause): Built {
    b.(clauses := b.clauses + [c])
  }

  function Bind(b: Built, v: Value): Built {
    b.(values := b.values + [v])
  }

  function PushEquals(b: Built, column: Column, wanted: Option<string>): Built {
    if Present(wanted) then Push(Bind(b, Text(wanted.value)), Equals(column, |b.values| + 1)) else b
  }

  function PushTypes(b: Built, types: Option<seq<string>>): Built {
    if types.Some? && types.value != [] then Push(Bind(b, Texts(types.value)), EqualsAny(Kind, |b.values| + 1)) else b
  }

  function PushScope(b: Built, input: Input, scope: Scope): Built {
    if !Wants(input, scope) then b
    else if scope == Global then Push(b, ScopeIs(Global))
    else if Present(Subject(input, scope)) then
      Push(Bind(b, Text(Subject(input, scope).value)), Both(ScopeIs(scope), Equals(ScopeId, |b.values| + 1)))
    else Push(b, Never)
  }

  const ALL_SCOPES: seq<Scope> := [Global, User, Project, Conversation, RunScope]

  function PushScopes(b: Built, input: Input, scopes: seq<Scope>): Built {
    if scopes == [] then b
    else PushScope(PushScopes(b, input, scopes[..|scopes| - 1]), input, scopes[|scopes| - 1])
  }

  function PushVisible(b: Built, input: Input): Built {
    var visible := PushScopes(Built([], b.values), input, ALL_SCOPES);
    if visible.clauses != [] then Built(b.clauses + [Either(visible.clauses)], visible.values)
    else if input.scopes.Some? && input.scopes.value != [] then Built(b.clauses + [Never], visible.values)
    else Built(b.clauses, visible.values)
  }

  function Base(input: Input): Built {
    Built((if input.includeDeleted then [] else [NotDeleted]) + [NotExpired, NotSuperseded], [])
  }

  function WithFilters(input: Input): Built {
    PushTypes(
      PushEquals(PushEquals(PushEquals(Base(input), RunId, input.runId), StepId, input.stepId), Key, input.key),
      input.types)
  }

  function Where(input: Input): Built {
    PushVisible(WithFilters(input), input)
  }

  lemma PushMeans(b: Built, vs: seq<Value>, c: Clause, row: Row, now: int, like: (Row, string) -> bool)
    requires Sound(b) && Fits(c, |b.values + vs|)
    ensures
      var b' := Built(b.clauses + [c], b.values + vs);
      Sound(b') && (Holds(b', row, now, like) <==>
                      Holds(b, row, now, like) && Eval(c, row, b'.values, now, like) == True)
  {
    var b' := Built(b.clauses + [c], b.values + vs);
    hide Eval;
    KeepsStable(b.clauses, row, b.values, vs, now, like);
    FitsMore(b.clauses, |b.values|, |b'.values|);
    hide Fits;
    assert b'.clauses[|b.clauses|] == c;
    assert forall i :: 0 <= i < |b.clauses| ==> b'.clauses[i] == b.clauses[i];
  }

  lemma {:induction false} FitsGrows(c: Clause, n: nat, m: nat)
    requires Fits(c, n) && n <= m
    ensures Fits(c, m)
    decreases c
  {
    match c
    case Both(l, r) => FitsGrows(l, n, m); FitsGrows(r, n, m);
    case Either(cs) => forall i | 0 <= i < |cs| ensures Fits(cs[i], m) { FitsGrows(cs[i], n, m); }
    case _ =>
  }

  lemma FitsMore(cs: seq<Clause>, n: nat, m: nat)
    requires AllFit(cs, n) && n <= m
    ensures AllFit(cs, m)
  {
    forall i | 0 <= i < |cs| ensures Fits(cs[i], m) { FitsGrows(cs[i], n, m); }
  }

  lemma PushEqualsMeans(b: Built, column: Column, wanted: Option<string>, row: Row, now: int,
                        like: (Row, string) -> bool)
    requires Sound(b)
    ensures
      var b' := PushEquals(b, column, wanted);
      Sound(b') && (Holds(b', row, now, like) <==> Holds(b, row, now, like) && Matches(wanted, Cell(row, column)))
  {
    hide Holds;
    if Present(wanted) {
      PushMeans(b, [Text(wanted.value)], Equals(column, |b.values| + 1), row, now, like);
    }
  }

  lemma PushTypesMeans(b: Built, types: Option<seq<string>>, row: Row, now: int, like: (Row, string) -> bool)
    requires Sound(b)
    ensures
      var b' := PushTypes(b, types);
      Sound(b') && (Holds(b', row, now, like) <==>
        Holds(b, row, now, like)
          && (types.Some? && types.value != [] ==> row.kind.Some? && row.kind.value in types.value))
  {
    hide Holds;
    if types.Some? && types.value != [] {
      PushMeans(b, [Texts(types.value)], EqualsAny(Kind, |b.values| + 1), row, now, like);
    }
  }

  // The scope clauses so far let a row through just when its scope has had its turn and it is visible.
  predicate ScopesSay(input: Input, seen: seq<Scope>, b: Built, row: Row, now: int, like: (Row, string) -> bool) {
    && Sound(b)
    && (EvalAny(b.clauses, row, b.values, now, like) == True <==>
          Visible(input, row) && row.scope.value in seen)
  }

  lemma PushScopeMeans(b: Built, input: Input, seen: seq<Scope>, scope: Scope, row: Row, now: int,
                       like: (Row, string) -> bool)
    requires ScopesSay(input, seen, b, row, now, like)
    ensures ScopesSay(input, seen + [scope], PushScope(b, input, scope), row, now, like)
  {
    var b' := PushScope(b, input, scope);
    assert forall s :: s in seen + [scope] <==> s in seen || s == scope;
    if Wants(input, scope) {
      var vs := b'.values[|b.values|..];
      assert b'.values == b.values + vs;
      assert b'.clauses[..|b'.clauses| - 1] == b.clauses;
      EvalAnyStable(b.clauses, row, b.values, vs, now, like);
      FitsMore(b.clauses, |b.values|, |b'.values|);
      ScopeClauseMeans(b, input, scope, row, now, like);
      assert EvalAny(b'.clauses, row, b'.values, now, like) ==
        Or(EvalAny(b.clauses, row, b'.values, now, like), Eval(b'.clauses[|b.clauses|], row, b'.values, now, like));
      hide Eval, EvalAny, Fits;
      assert AllFit(b'.clauses, |b'.values|);
    }
  }

  // The clause of one wanted scope.
  lemma ScopeClauseMeans(b: Built, input: Input, scope: Scope, row: Row, now: int, like: (Row, string) -> bool)
    requires Wants(input, scope)
    ensures
      var b' := PushScope(b, input, scope);
      Fits(b'.clauses[|b'.clauses| - 1], |b'.values|)
    ensures
      var b' := PushScope(b, input, scope);
      Eval(b'.clauses[|b'.clauses| - 1], row, b'.values, now, like) == True <==>
        row.scope == Some(scope) && Visible(input, row)
  {
    var b' := PushScope(b, input, scope);
    if scope != Global && Present(Subject(input, scope)) {
      var subject := Equals(ScopeId, |b.values| + 1);
      assert Bound(b'.values, |b.values| + 1) == Text(Subject(input, scope).value);
      assert Eval(subject, row, b'.values, now, like) == Compare(row.scopeId, Text(Subject(input, scope).value));
    }
  }

  lemma {:induction false} PushScopesMean(values: seq<Value>, input: Input, scopes: seq<Scope>, row: Row, now: int,
                                          like: (Row, string) -> bool)
    ensures ScopesSay(input, scopes, PushScopes(Built([], values), input, scopes), row, now, like)
    ensures values <= PushScopes(Built([], values), input, scopes).values
    ensures PushScopes(Built([], values), input, scopes).clauses == [] <==> forall s :: s in scopes ==> !Wants(input, s)
  {
    hide ScopesSay;
    if scopes == [] {
      assert ScopesSay(input, [], Built([], values), row, now, like) by { NoScopes(values, input, row, now, like); }
    } else {
      var before, last := scopes[..|scopes| - 1], scopes[|scopes| - 1];
      PushScopesMean(values, input, before, row, now, like);
      PushScopeMeans(PushScopes(Built([], values), input, before), input, before, last, row, now, like);
      assert before + [last] == scopes;
    }
  }

  lemma NoScopes(values: seq<Value>, input: Input, row: Row, now: int, like: (Row, string) -> bool)
    ensures ScopesSay(input, [], Built([], values), row, now, like)
  {
  }

  lemma PushVisibleMeans(b: Built, input: Input, row: Row, now: int, like: (Row, string) -> bool)
    requires Sound(b)
    ensures
      var b' := PushVisible(b, input);
      Sound(b') && (Holds(b', row, now, like) <==>
        Holds(b, row, now, like) && (AsksForNoScope(input) || Visible(input, row)))
  {
    var visible := PushScopes(Built([], b.values), input, ALL_SCOPES);
    PushScopesMean(b.values, input, ALL_SCOPES, row, now, like);
    AllScopes();
    var vs := visible.values[|b.values|..];
    assert visible.values == b.values + vs;
    if visible.clauses != [] {
      PushMeans(b, vs, Either(visible.clauses), row, now, like);
    } else if input.scopes.Some? && input.scopes.value != [] {
      PushMeans(b, vs, Never, row, now, like);
      assert Wants(input, input.scopes.value[0]);
    } else {
      KeepsStable(b.clauses, row, b.values, vs, now, like);
      FitsMore(b.clauses, |b.values|, |visible.values|);
      assert input.scopes.None? ==> Wants(input, Global);
    }
  }

  lemma AllScopes()
    ensures forall s: Scope :: s in ALL_SCOPES
  {
    forall s: Scope ensures s in ALL_SCOPES {
      match s
      case Global => assert ALL_SCOPES[0] == s;
      case User => assert ALL_SCOPES[1] == s;
      case Project => assert ALL_SCOPES[2] == s;
      case Conversation => assert ALL_SCOPES[3] == s;
      case RunScope => assert ALL_SCOPES[4] == s;
    }
  }

  lemma BaseMeans(input: Input, row: Row, now: int, like: (Row, string) -> bool)
    ensures Sound(Base(input)) && (Holds(Base(input), row, now, like) <==> Live(input, row, now))
  {
    var cs := Base(input).clauses;
    if input.includeDeleted {
      assert cs == [NotExpired, NotSuperseded] && cs[0] == NotExpired && cs[1] == NotSuperseded;
    } else {
      assert cs == [NotDeleted, NotExpired, NotSuperseded];
      assert cs[0] == NotDeleted && cs[1] == NotExpired && cs[2] == NotSuperseded;
    }
  }

  /**
   * The clauses under their bound values keep exactly the live rows that match the filters and are
   * visible to the subjects asking. Null columns and absent subjects never let a row through.
   */
  lemma WhereSelects(input: Input, row: Row, now: int, like: (Row, string) -> bool)
    ensures Sound(Where(input)) && (Holds(Where(input), row, now, like) <==> Selected(input, row, now))
  {
    hide Holds, Sound, PushEquals, PushTypes, PushVisible, Visible, Live;
    var b0 := Base(input);
    BaseMeans(input, row, now, like);
    var b1 := PushEquals(b0, RunId, input.runId);
    PushEqualsMeans(b0, RunId, input.runId, row, now, like);
    var b2 := PushEquals(b1, StepId, input.stepId);
    PushEqualsMeans(b1, StepId, input.stepId, row, now, like);
    var b3 := PushEquals(b2, Key, input.key);
    PushEqualsMeans(b2, Key, input.key, row, now, like);
    PushTypesMeans(b3, input.types, row, now, like);
    PushVisibleMeans(PushTypes(b3, input.types), input, row, now, like);
  }

  // No row that is not visible to the asker is selected.
  ghost predicate NeverExposes(input: Input) {
    forall row, now, like :: Holds(Where(input), row, now, like) ==> Visible(input, row)
  }

  /** That holds for every input but the one that asks for an empty list of scopes. */
  lemma NeverExposesIff(input: Input)
    ensures NeverExposes(input) <==> !AsksForNoScope(input)
  {
    hide Holds, Where;
    if AsksForNoScope(input) {
      var kind := if input.types.Some? && input.types.value != [] then Some(input.types.value[0]) else None;
      var key := if Present(input.key) then input.key.value else "";
      var row := Row(input.runId, input.stepId, key, kind, None, None, false, None, false);
      WhereSelects(input, row, 0, (_, _) => false);
      assert Selected(input, row, 0);
      assert Holds(Where(input), row, 0, (_, _) => false) && !Visible(input, row);
    } else {
      forall row, now, like | Holds(Where(input), row, now, like) ensures Visible(input, row) {
        WhereSelects(input, row, now, like);
      }
    }
  }

  // What the stale scanner lists: summaries, and no subject named.
  const SCANNER: Input := Input(false, None, None, None, Some(["conversation_summary"]), None, None, None, None)

  /** The stale scanner therefore only ever sees global summaries, not those of a conversation. */
  lemma ScannerSeesOnlyGlobal(row: Row, now: int, like: (Row, string) -> bool)
    ensures Holds(Where(SCANNER), row, now, like) <==>
      row.scope == Some(Global) && row.kind == Some("conversation_summary") && Live(SCANNER, row, now)
  {
    hide Holds, Where;
    WhereSelects(SCANNER, row, now, like);
    assert ["conversation_summary"][0] == "conversation_summary";
  }

  // ---- Search --------------------------------------------------------------------------------------------

  datatype Boost = NoBoost | StepBoost(step: nat, run: nat) | RunBoost(run: nat) | ConversationBoost

  datatype Query = Query(clauses: seq<Clause>, params: seq<Value>, embedding: Option<nat>, text: Option<nat>,
                         boost: Boost, limit: nat)

  // The scope boost in hundredths, as the CASE expression computes it.
  function BoostOf(boost: Boost, row: Row, params: seq<Value>): nat {
    var conversation := if row.scope == Some(Conversation) then 5 else 0;
    match boost
    case NoBoost => 0
    case StepBoost(s, r) =>
      if Compare(row.stepId, Bound(params, s)) == True then 15
      else if Compare(row.runId, Bound(params, r)) == True then 10
      else conversation
    case RunBoost(r) => if Compare(row.runId, Bound(params, r)) == True then 10 else conversation
    case ConversationBoost => conversation
  }

  function MeantBoost(input: Input, row: Row): nat {
    if Present(input.stepId) && row.stepId == input.stepId then 15
    else if (Present(input.stepId) || Present(input.runId)) && input.runId.Some? && row.runId == input.runId then 10
    else if (Present(input.stepId) || Present(input.runId) || Present(input.conversationId))
            && row.scope == Some(Conversation) then 5
    else 0
  }

  function OrNull(s: Option<string>): Value {
    if s.Some? then Text(s.value) else Null
  }
}

/** The builder as it runs: clauses and values are pushed, placeholder numbers computed once. */
module MemoryRepository {
  import opened Wrappers
  import opened MemoryQuery

  method VisibleScopeClauses(input: Input, values: seq<Value>) returns (clauses: seq<Clause>, bound: seq<Value>)
    ensures Built(clauses, bound) == PushScopes(Built([], values), input, ALL_SCOPES)
  {
    clauses, bound := [], values;
    for i := 0 to |ALL_SCOPES|
      invariant Built(clauses, bound) == PushScopes(Built([], values), input, ALL_SCOPES[..i])
    {
      var scope := ALL_SCOPES[i];
      assert ALL_SCOPES[..i + 1][..i] == ALL_SCOPES[..i];
      if Wants(input, scope) {
        if scope == Global {
          clauses := clauses + [ScopeIs(Global)];
        } else if Present(Subject(input, scope)) {
          bound := bound + [Text(Subject(input, scope).value)];
          clauses := clauses + [Both(ScopeIs(scope), Equals(ScopeId, |bound|))];
        } else {
          clauses := clauses + [Never];
        }
      }
    }
    assert ALL_SCOPES[..|ALL_SCOPES|] == ALL_SCOPES;
  }

  method PushFilter(clauses: seq<Clause>, values: seq<Value>, column: Column, wanted: Option<string>)
    returns (clauses': seq<Clause>, values': seq<Value>)
    ensures Built(clauses', values') == PushEquals(Built(clauses, values), column, wanted)
  {
    clauses', values' := clauses, values;
    if Present(wanted) {
      values' := values' + [Text(wanted.value)];
      clauses' := clauses' + [Equals(column, |values'|)];
    }
  }

  method PushKinds(clauses: seq<Clause>, values: seq<Value>, types: Option<seq<string>>)
    returns (clauses': seq<Clause>, values': seq<Value>)
    ensures Built(clauses', values') == PushTypes(Built(clauses, values), types)
  {
    clauses', values' := clauses, values;
    if types.Some? && |types.value| > 0 {
      values' := values' + [Texts(types.value)];
      clauses' := clauses' + [EqualsAny(Kind, |values'|)];
    }
  }

  method BuildMemoryWhere(input: Input) returns (clauses: seq<Clause>, values: seq<Value>)
    ensures Built(clauses, values) == Where(input)
  {
    hide PushScopes, PushEquals, PushTypes;
    clauses, values := [], [];
    if !input.includeDeleted { clauses := clauses + [NotDeleted]; }
    clauses := clauses + [NotExpired] + [NotSuperseded];
    assert clauses == Base(input).clauses;
    clauses, values := PushFilter(clauses, values, RunId, input.runId);
    clauses, values := PushFilter(clauses, values, StepId, input.stepId);
    clauses, values := PushFilter(clauses, values, Key, input.key);
    clauses, values := PushKinds(clauses, values, input.types);
    var visible, bound := VisibleScopeClauses(input, values);
    values := bound;
    if |visible| > 0 {
      clauses := clauses + [Either(visible)];
    } else if input.scopes.Some? && |input.scopes.value| > 0 {
      clauses := clauses + [Never];
    }
  }

  /**
   * `search`. Every placeholder number refers to the value it is meant for, whichever of embedding,
   * text, step and run are given; the filter keeps what the builder keeps, and with a text but no
   * embedding only the rows that match the text.
   */
  method Search(input: Input, text: Option<string>, embedding: seq<real>, limit: int) returns (q: Query)
    ensures q.embedding.Some? <==> embedding != []
    ensures q.embedding.Some? ==> Bound(q.params, q.embedding.value) == Vector(embedding)
    ensures q.text.Some? <==> Present(text)
    ensures q.text.Some? ==> Bound(q.params, q.text.value) == Text(text.value)
    ensures q.limit == |q.params| && Bound(q.params, q.limit) == Number(limit)
    ensures forall row :: BoostOf(q.boost, row, q.params) == MeantBoost(input, row)
    ensures forall row, now, like :: Keeps(q.clauses, row, q.params, now, like) <==>
      Selected(input, row, now) && (Present(text) && embedding == [] ==> like(row, text.value))
  {
    var clauses, values := BuildMemoryWhere(input);
    var hasQuery, hasEmbedding := Present(text), |embedding| > 0;
    var vectors := if hasEmbedding then 1 else 0;
    var texts := if hasQuery then 1 else 0;
    var embeddingAt := if hasEmbedding then Some(|values| + 1) else None;
    var textAt := if hasQuery then Some(|values| + vectors + 1) else None;
    var boost := NoBoost;
    if Present(input.stepId) {
      boost := StepBoost(|values| + vectors + texts + 1, |values| + vectors + texts + 2);
    } else if Present(input.runId) {
      boost := RunBoost(|values| + vectors + texts + 1);
    } else if Present(input.conversationId) {
      boost := ConversationBoost;
    }
    var params := values;
    hide Where, Selected, Keeps, BoostOf, MeantBoost, Compare;
    if hasEmbedding { params := params + [Vector(embedding)]; }
    if hasQuery {
      params := params + [Text(text.value)];
      if !hasEmbedding { clauses := clauses + [Like(textAt.value)]; }
    }
    if boost.StepBoost? {
      params := params + [OrNull(input.stepId)] + [OrNull(input.runId)];
    } else if boost.RunBoost? {
      params := params + [OrNull(input.runId)];
    }
    params := params + [Number(limit)];
    q := Query(clauses, params, embeddingAt, textAt, boost, |params|);
    forall row ensures BoostOf(q.boost, row, q.params) == MeantBoost(input, row) {
      BoostIsMeant(input, boost, row, params);
    }
    forall row, now, like
      ensures Keeps(q.clauses, row, q.params, now, like) <==>
        Selected(input, row, now) && (Present(text) && embedding == [] ==> like(row, text.value))
    {
      SearchSelects(input, text, embedding, q, row, now, like);
    }
  }

  lemma BoostIsMeant(input: Input, boost: Boost, row: Row, params: seq<Value>)
    requires boost.NoBoost? <==> !Present(input.stepId) && !Present(input.runId) && !Present(input.conversationId)
    requires boost.StepBoost? <==> Present(input.stepId)
    requires boost.RunBoost? <==> !Present(input.stepId) && Present(input.runId)
    requires boost.StepBoost? ==>
      Bound(params, boost.step) == OrNull(input.stepId) && Bound(params, boost.run) == OrNull(input.runId)
    requires boost.RunBoost? ==> Bound(params, boost.run) == OrNull(input.runId)
    ensures BoostOf(boost, row, params) == MeantBoost(input, row)
  {
  }

  lemma SearchSelects(input: Input, text: Option<string>, embedding: seq<real>, q: Query, row: Row, now: int,
                      like: (Row, string) -> bool)
    requires Where(input).values <= q.params
    requires q.clauses == Where(input).clauses +
      (if Present(text) && embedding == [] then [Like(|Where(input).values| + 1)] else [])
    requires Present(text) && embedding == [] ==> Bound(q.params, |Where(input).values| + 1) == Text(text.value)
    ensures Keeps(q.clauses, row, q.params, now, like) <==>
      Selected(input, row, now) && (Present(text) && embedding == [] ==> like(row, text.value))
  {
    hide Where, Selected;
    var b := Where(input);
    WhereSelects(input, row, now, like);
    var rest := q.params[|b.values|..];
    assert q.params == b.values + rest;
    if Present(text) && embedding == [] {
      PushMeans(b, rest, Like(|b.values| + 1), row, now, like);
    } else {
      assert q.clauses == b.clauses;
      KeepsStable(b.clauses, row, b.values, rest, now, like);
    }
  }
}
