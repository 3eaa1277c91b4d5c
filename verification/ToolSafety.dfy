/** The approval and scoped-permission gate in front of every tool execution. */
module ToolSafety {
  import opened Wrappers
  import opened Utf16
  import opened StableValue
  import opened KeyOrder

  type Permission = string

  datatype Call = Call(id: Text, skillId: Text, permissions: seq<Permission>)

  datatype ApprovedScope = ApprovedScope(toolCallId: Text, skillId: Text, arguments: Json, grantedBy: string)

  datatype Grant = Grant(permission: Permission, runId: string, toolCallId: Option<Text>, skillId: Text,
    grantedBy: string)

  datatype Decision = Decision(granted: bool, needsReapproval: bool, grant: Option<Grant>)

  // The permission manager and the mode of the run, as far as this gate consults them.
  datatype Policy = Policy(freshApprovalRequired: bool, decide: (Permission, seq<Grant>) -> Decision)

  predicate ApprovalMatchesCall(approval: ApprovedScope, call: Call, args: Json, before: Before) {
    && approval.toolCallId == call.id
    && approval.skillId == call.skillId
    && Stable(approval.arguments, before) == Stable(args, before)
  }

  /** An approval covers a call exactly when id, skill and the meaning of the arguments agree. */
  lemma ApprovalMatchesIff(approval: ApprovedScope, call: Call, args: Json, before: Before)
    requires StrictTotal(before) && WellFormed(approval.arguments) && WellFormed(args)
    ensures ApprovalMatchesCall(approval, call, args, before) <==>
      approval.toolCallId == call.id && approval.skillId == call.skillId && Meaning(approval.arguments) == Meaning(args)
  {
    hide Stable, Meaning, StrictTotal;
    if Stable(approval.arguments, before) == Stable(args, before) {
      StableIsInjective(approval.arguments, args, before, [], []);
    }
    if Meaning(approval.arguments) == Meaning(args) {
      KeyOrderIsForgotten(approval.arguments, args, before);
    }
  }

  /** Whatever the key comparison does, a matching approval never covers different arguments. */
  lemma ApprovalNeverStretches(approval: ApprovedScope, call: Call, args: Json, before: Before)
    requires WellFormed(approval.arguments) && WellFormed(args)
    requires ApprovalMatchesCall(approval, call, args, before)
    ensures Meaning(approval.arguments) == Meaning(args)
  {
    hide Stable, Meaning;
    StableIsInjective(approval.arguments, args, before, [], []);
  }

  // ---- Grants ----------------------------------------------------------------------------

  predicate SameKey(g: Grant, h: Grant) {
    g.permission == h.permission && g.runId == h.runId && g.toolCallId == h.toolCallId && g.skillId == h.skillId
  }

  predicate OnePerKey(grants: seq<Grant>) {
    forall i, j :: 0 <= i < j < |grants| ==> !SameKey(grants[i], grants[j])
  }

  // findIndex: the first grant with the key of g, or the length when there is none.
  function IndexOf(grants: seq<Grant>, g: Grant): (i: nat)
    ensures i <= |grants|
    ensures i < |grants| ==> SameKey(grants[i], g)
    ensures forall j :: 0 <= j < i ==> !SameKey(grants[j], g)
  {
    if grants == [] then 0 else if SameKey(grants[0], g) then 0 else 1 + IndexOf(grants[1..], g)
  }

  function AddGrant(grants: seq<Grant>, g: Grant): seq<Grant> {
    var i := IndexOf(grants, g);
    if i < |grants| then grants[i := g] else grants + [g]
  }

  // The grant an approver gives to exactly one tool call.
  function CallGrant(p: Permission, runId: string, call: Call, approval: ApprovedScope): Grant {
    Grant(p, runId, Some(call.id), call.skillId, approval.grantedBy)
  }

  // What one requested permission does to the working copy; None is a denial.
  function Admit(p: Permission, runId: string, call: Call, approval: Option<ApprovedScope>,
                 policy: Policy, grants: seq<Grant>): Option<seq<Grant>>
  {
    if approval.Some? then
      Some(AddGrant(grants, CallGrant(p, runId, call, approval.value)))
    else if policy.freshApprovalRequired then None
    else
      var d := policy.decide(p, grants);
      if !d.granted || d.needsReapproval then None
      else if d.grant.Some? then Some(AddGrant(grants, d.grant.value))
      else Some(grants)
  }

  function AdmitAll(ps: seq<Permission>, runId: string, call: Call, approval: Option<ApprovedScope>,
                    policy: Policy, grants: seq<Grant>): Option<seq<Grant>>
  {
    if ps == [] then Some(grants)
    else
      var g := AdmitAll(ps[..|ps| - 1], runId, call, approval, policy, grants);
      if g.None? then None else Admit(ps[|ps| - 1], runId, call, approval, policy, g.value)
  }

  function GrantsOf(table: map<string, seq<Grant>>, runId: string): seq<Grant> {
    if runId in table then table[runId] else []
  }

  // The grant takes the place of the one with its key, or the last place if there is none.
  ghost predicate PutInPlace(before: seq<Grant>, g: Grant, after: seq<Grant>) {
    if exists i :: 0 <= i < |before| && SameKey(before[i], g) then
      exists i :: 0 <= i < |before| && SameKey(before[i], g) && after == before[i := g]
    else after == before + [g]
  }

  // One requested permission is covered, and this is what the run holds before and after. An approval
  // covers it for this one call. Without one the manager is asked, and nothing may require a fresh approval.
  ghost predicate Covers(p: Permission, runId: string, call: Call, approval: Option<ApprovedScope>, policy: Policy,
                         before: seq<Grant>, after: seq<Grant>)
  {
    if approval.Some? then
      PutInPlace(before, Grant(p, runId, Some(call.id), call.skillId, approval.value.grantedBy), after)
    else
      && !policy.freshApprovalRequired
      && policy.decide(p, before).granted && !policy.decide(p, before).needsReapproval
      && match policy.decide(p, before).grant
         case None => after == before
         case Some(g) => PutInPlace(before, g, after)
  }

  // What the run holds from one requested permission to the next.
  ghost predicate CoversAll(runId: string, call: Call, approval: Option<ApprovedScope>, policy: Policy,
                            ps: seq<Permission>, gs: seq<seq<Grant>>)
  {
    |gs| == |ps| + 1 && forall k :: 0 <= k < |ps| ==> Covers(ps[k], runId, call, approval, policy, gs[k], gs[k + 1])
  }

  // One list of grants leads to another through all the requested permissions.
  ghost predicate LeadsTo(runId: string, call: Call, approval: Option<ApprovedScope>, policy: Policy,
                          ps: seq<Permission>, before: seq<Grant>, after: seq<Grant>)
  {
    exists gs :: CoversAll(runId, call, approval, policy, ps, gs) && gs[0] == before && gs[|ps|] == after
  }

  ghost predicate CanLead(runId: string, call: Call, approval: Option<ApprovedScope>, policy: Policy,
                          ps: seq<Permission>, before: seq<Grant>)
  {
    exists after :: LeadsTo(runId, call, approval, policy, ps, before, after)
  }

  lemma AddGrantPuts(before: seq<Grant>, g: Grant, after: seq<Grant>)
    requires OnePerKey(before)
    ensures PutInPlace(before, g, after) <==> after == AddGrant(before, g)
  {
    var i := IndexOf(before, g);
    forall j | i < j < |before| ensures !SameKey(before[j], g) {
      OneOfKey(before, g, i, j);
    }
    hide SameKey, OnePerKey;
  }

  lemma OneOfKey(grants: seq<Grant>, g: Grant, i: nat, j: nat)
    requires OnePerKey(grants) && i < j < |grants| && SameKey(grants[i], g)
    ensures !SameKey(grants[j], g)
  {
    assert !SameKey(grants[i], grants[j]);
  }

  lemma AdmitCovers(p: Permission, runId: string, call: Call, approval: Option<ApprovedScope>, policy: Policy,
                    before: seq<Grant>, after: seq<Grant>)
    requires OnePerKey(before)
    ensures Covers(p, runId, call, approval, policy, before, after)
       <==> Admit(p, runId, call, approval, policy, before) == Some(after)
  {
    hide PutInPlace, OnePerKey, AddGrant;
    if approval.Some? {
      AddGrantPuts(before, CallGrant(p, runId, call, approval.value), after);
    } else if policy.decide(p, before).grant.Some? {
      AddGrantPuts(before, policy.decide(p, before).grant.value, after);
    }
  }

  lemma {:induction false} AdmitAllKeepsKeys(ps: seq<Permission>, runId: string, call: Call,
                                             approval: Option<ApprovedScope>, policy: Policy, grants: seq<Grant>)
    requires OnePerKey(grants) && AdmitAll(ps, runId, call, approval, policy, grants).Some?
    ensures OnePerKey(AdmitAll(ps, runId, call, approval, policy, grants).value)
  {
    if ps != [] {
      hide OnePerKey, Admit;
      AdmitAllKeepsKeys(ps[..|ps| - 1], runId, call, approval, policy, grants);
      AdmitKeepsKeys(ps[|ps| - 1], runId, call, approval, policy,
                     AdmitAll(ps[..|ps| - 1], runId, call, approval, policy, grants).value);
    }
  }

  lemma {:induction false} AdmissionLeads(ps: seq<Permission>, runId: string, call: Call,
                                          approval: Option<ApprovedScope>, policy: Policy, before: seq<Grant>)
    returns (gs: seq<seq<Grant>>)
    requires OnePerKey(before) && AdmitAll(ps, runId, call, approval, policy, before).Some?
    ensures CoversAll(runId, call, approval, policy, ps, gs) && gs[0] == before
    ensures gs[|ps|] == AdmitAll(ps, runId, call, approval, policy, before).value
  {
    hide Covers, Admit, OnePerKey;
    if ps == [] {
      gs := [before];
    } else {
      var n := |ps| - 1;
      var init := AdmissionLeads(ps[..n], runId, call, approval, policy, before);
      var after := AdmitAll(ps, runId, call, approval, policy, before).value;
      AdmitAllKeepsKeys(ps[..n], runId, call, approval, policy, before);
      AdmitCovers(ps[n], runId, call, approval, policy, init[n], after);
      gs := init + [after];
      forall k | 0 <= k < |ps| ensures Covers(ps[k], runId, call, approval, policy, gs[k], gs[k + 1]) {
        if k < n { assert Covers(ps[..n][k], runId, call, approval, policy, init[k], init[k + 1]); }
      }
    }
  }

  lemma {:induction false} LeadingAdmits(ps: seq<Permission>, runId: string, call: Call,
                                         approval: Option<ApprovedScope>, policy: Policy, gs: seq<seq<Grant>>)
    requires CoversAll(runId, call, approval, policy, ps, gs) && OnePerKey(gs[0])
    ensures AdmitAll(ps, runId, call, approval, policy, gs[0]) == Some(gs[|ps|])
  {
    hide Covers, Admit, OnePerKey;
    if ps != [] {
      var n := |ps| - 1;
      assert Covers(ps[n], runId, call, approval, policy, gs[n], gs[n + 1]);
      forall k | 0 <= k < n
        ensures Covers(ps[..n][k], runId, call, approval, policy, gs[..|ps|][k], gs[..|ps|][k + 1])
      {
        assert Covers(ps[k], runId, call, approval, policy, gs[k], gs[k + 1]);
      }
      LeadingAdmits(ps[..n], runId, call, approval, policy, gs[..|ps|]);
      AdmitAllKeepsKeys(ps[..n], runId, call, approval, policy, gs[0]);
      AdmitCovers(ps[n], runId, call, approval, policy, gs[n], gs[|ps|]);
    }
  }

  /** A call is admitted exactly when its permissions can be covered one after the other, and in one way only. */
  lemma AdmittedIff(ps: seq<Permission>, runId: string, call: Call, approval: Option<ApprovedScope>, policy: Policy,
                    before: seq<Grant>)
    requires OnePerKey(before)
    ensures AdmitAll(ps, runId, call, approval, policy, before).Some?
       <==> CanLead(runId, call, approval, policy, ps, before)
    ensures forall after :: LeadsTo(runId, call, approval, policy, ps, before, after) ==>
      AdmitAll(ps, runId, call, approval, policy, before) == Some(after)
    ensures AdmitAll(ps, runId, call, approval, policy, before).Some? ==>
      LeadsTo(runId, call, approval, policy, ps, before, AdmitAll(ps, runId, call, approval, policy, before).value)
  {
    hide Covers, AdmitAll, OnePerKey;
    if AdmitAll(ps, runId, call, approval, policy, before).Some? {
      var gs := AdmissionLeads(ps, runId, call, approval, policy, before);
      assert LeadsTo(runId, call, approval, policy, ps, before, gs[|ps|]);
    }
    forall after | LeadsTo(runId, call, approval, policy, ps, before, after)
      ensures AdmitAll(ps, runId, call, approval, policy, before) == Some(after)
    {
      var gs :| CoversAll(runId, call, approval, policy, ps, gs) && gs[0] == before && gs[|ps|] == after;
      LeadingAdmits(ps, runId, call, approval, policy, gs);
    }
  }

  class Boundary {
    var grantsByRun: map<string, seq<Grant>>

    constructor ()
      ensures grantsByRun == map[]
    {
      grantsByRun := map[];
    }

    ghost predicate Valid()
      reads this
    {
      forall runId :: runId in grantsByRun ==> OnePerKey(grantsByRun[runId])
    }

    /**
     * All or nothing: a denial leaves every grant as it was; an admission stores what all the requested
     * permissions together produce, for this run only.
     */
    method CheckScopedPermissions(runId: string, call: Call, args: Json, approval: Option<ApprovedScope>,
                                  policy: Policy, before: Before)
      returns (allowed: bool)
      requires Valid()
      modifies this
      ensures Valid()
      ensures allowed <==>
        && (approval.Some? ==> ApprovalMatchesCall(approval.value, call, args, before))
        && CanLead(runId, call, approval, policy, call.permissions, GrantsOf(old(grantsByRun), runId))
      ensures !allowed ==> grantsByRun == old(grantsByRun)
      ensures allowed ==>
        LeadsTo(runId, call, approval, policy, call.permissions, GrantsOf(old(grantsByRun), runId),
                GrantsOf(grantsByRun, runId))
      ensures forall other :: other != runId ==> GrantsOf(grantsByRun, other) == GrantsOf(old(grantsByRun), other)
    {
      StartHasOnePerKey(grantsByRun, runId);
      AdmittedIff(call.permissions, runId, call, approval, policy, GrantsOf(grantsByRun, runId));
      hide Admit, AdmitAll, OnePerKey, ApprovalMatchesCall, LeadsTo, CanLead;
      if approval.Some? && !ApprovalMatchesCall(approval.value, call, args, before) { return false; }
      var start := GrantsOf(grantsByRun, runId);
      var grants := start;
      AdmitNone(call.permissions, runId, call, approval, policy, start);
      for k := 0 to |call.permissions|
        invariant Some(grants) == AdmitAll(call.permissions[..k], runId, call, approval, policy, start)
        invariant OnePerKey(grants)
        invariant grantsByRun == old(grantsByRun)
      {
        AdmitNext(call.permissions, k, runId, call, approval, policy, start);
        var next := Admit(call.permissions[k], runId, call, approval, policy, grants);
        if next.None? {
          DenialIsFinal(call.permissions, k + 1, runId, call, approval, policy, start);
          return false;
        }
        AdmitKeepsKeys(call.permissions[k], runId, call, approval, policy, grants);
        grants := next.value;
      }
      assert call.permissions[..|call.permissions|] == call.permissions;
      if |grants| > 0 { grantsByRun := grantsByRun[runId := grants]; }
      else { AdmissionOnlyAdds(call.permissions, runId, call, approval, policy, start); }
      return true;
    }

    method ClearRun(runId: string)
      requires Valid()
      modifies this
      ensures Valid() && grantsByRun == old(grantsByRun) - {runId}
    {
      grantsByRun := grantsByRun - {runId};
    }
  }

  lemma AdmitNone(ps: seq<Permission>, runId: string, call: Call, approval: Option<ApprovedScope>, policy: Policy,
                  grants: seq<Grant>)
    ensures AdmitAll(ps[..0], runId, call, approval, policy, grants) == Some(grants)
  {
  }

  lemma AdmitNext(ps: seq<Permission>, k: nat, runId: string, call: Call, approval: Option<ApprovedScope>,
                  policy: Policy, grants: seq<Grant>)
    requires k < |ps|
    ensures
      var before := AdmitAll(ps[..k], runId, call, approval, policy, grants);
      AdmitAll(ps[..k + 1], runId, call, approval, policy, grants) ==
      if before.None? then None else Admit(ps[k], runId, call, approval, policy, before.value)
  {
    assert ps[..k + 1][..k] == ps[..k];
    hide Admit;
  }

  lemma StartHasOnePerKey(table: map<string, seq<Grant>>, runId: string)
    requires forall id :: id in table ==> OnePerKey(table[id])
    ensures OnePerKey(GrantsOf(table, runId))
  {
  }

  lemma {:induction false} DenialIsFinal(ps: seq<Permission>, k: nat, runId: string, call: Call,
                                         approval: Option<ApprovedScope>, policy: Policy, grants: seq<Grant>)
    requires k <= |ps| && AdmitAll(ps[..k], runId, call, approval, policy, grants).None?
    ensures AdmitAll(ps, runId, call, approval, policy, grants).None?
    decreases |ps|
  {
    if k == |ps| {
      assert ps[..k] == ps;
    } else {
      var init := ps[..|ps| - 1];
      assert init[..k] == ps[..k];
      DenialIsFinal(init, k, runId, call, approval, policy, grants);
    }
  }

  lemma AddGrantKeepsKeys(grants: seq<Grant>, g: Grant)
    requires OnePerKey(grants)
    ensures OnePerKey(AddGrant(grants, g))
  {
    var i := IndexOf(grants, g);
    var after := AddGrant(grants, g);
    forall a, b | 0 <= a < b < |after| ensures !SameKey(after[a], after[b]) {
      if i < |grants| && (a == i || b == i) {
        assert !SameKey(grants[a], grants[b]);
      }
    }
  }

  lemma AdmitKeepsKeys(p: Permission, runId: string, call: Call, approval: Option<ApprovedScope>,
                       policy: Policy, grants: seq<Grant>)
    requires OnePerKey(grants) && Admit(p, runId, call, approval, policy, grants).Some?
    ensures OnePerKey(Admit(p, runId, call, approval, policy, grants).value)
  {
    if approval.Some? {
      AddGrantKeepsKeys(grants, CallGrant(p, runId, call, approval.value));
    } else if policy.decide(p, grants).grant.Some? {
      AddGrantKeepsKeys(grants, policy.decide(p, grants).grant.value);
    }
  }

  // No key ever disappears, and the keys keep their places.
  ghost predicate Extends(before: seq<Grant>, after: seq<Grant>) {
    |before| <= |after| && forall i :: 0 <= i < |before| ==> SameKey(before[i], after[i])
  }

  lemma {:induction false} AdmissionOnlyAdds(ps: seq<Permission>, runId: string, call: Call,
                                             approval: Option<ApprovedScope>, policy: Policy, grants: seq<Grant>)
    requires AdmitAll(ps, runId, call, approval, policy, grants).Some?
    ensures Extends(grants, AdmitAll(ps, runId, call, approval, policy, grants).value)
  {
    if ps != [] {
      AdmissionOnlyAdds(ps[..|ps| - 1], runId, call, approval, policy, grants);
    }
  }

  /**
   * With a matching approval nothing is refused, and afterwards every requested permission is held
   * for exactly this call, on the approver's authority.
   */
  lemma {:induction false} ApprovalGrantsEverything(ps: seq<Permission>, runId: string, call: Call,
                                                    approval: ApprovedScope, policy: Policy, grants: seq<Grant>)
    requires OnePerKey(grants)
    ensures AdmitAll(ps, runId, call, Some(approval), policy, grants).Some?
    ensures
      var after := AdmitAll(ps, runId, call, Some(approval), policy, grants).value;
      && OnePerKey(after)
      && (forall p :: p in ps ==> Grant(p, runId, Some(call.id), call.skillId, approval.grantedBy) in after)
      && (forall g :: g in grants && g.toolCallId != Some(call.id) ==> g in after)
  {
    if ps != [] {
      hide OnePerKey, AddGrant, SameKey;
      var n := |ps| - 1;
      ApprovalGrantsEverything(ps[..n], runId, call, approval, policy, grants);
      AdmitNext(ps, n, runId, call, Some(approval), policy, grants);
      assert ps[..n + 1] == ps;
      hide AdmitAll;
      var mid := AdmitAll(ps[..n], runId, call, Some(approval), policy, grants).value;
      var last := CallGrant(ps[n], runId, call, approval);
      var after := AddGrant(mid, last);
      AddGrantKeepsKeys(mid, last);
      AddGrantAdds(mid, last);
      forall p | p in ps ensures Grant(p, runId, Some(call.id), call.skillId, approval.grantedBy) in after {
        if p != ps[n] {
          assert p in ps[..n];
          AddGrantKeepsOthers(mid, last, CallGrant(p, runId, call, approval));
        }
      }
      forall g | g in grants && g.toolCallId != Some(call.id) ensures g in after {
        assert !SameKey(g, last);
        AddGrantKeepsOthers(mid, last, g);
      }
    }
  }

  lemma AddGrantKeepsOthers(grants: seq<Grant>, added: Grant, g: Grant)
    requires g in grants && (!SameKey(g, added) || g == added)
    ensures g in AddGrant(grants, added)
  {
    var j :| 0 <= j < |grants| && grants[j] == g;
    var i := IndexOf(grants, added);
    if i < |grants| {
      if j == i { assert AddGrant(grants, added)[i] == added; } else { assert AddGrant(grants, added)[j] == g; }
    } else {
      assert AddGrant(grants, added)[j] == g;
    }
  }

  lemma AddGrantAdds(grants: seq<Grant>, added: Grant)
    ensures added in AddGrant(grants, added)
  {
    assert AddGrant(grants, added)[IndexOf(grants, added)] == added;
  }
}
