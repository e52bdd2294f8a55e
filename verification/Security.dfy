// The scope check of internal/plans/security.go. A workflow's x-security groups
// are alternatives; inside a group every non-blank scope is required.
module Security {
  import opened Outcomes
  import opened Strings

  datatype SchemeRef = SchemeRef(name: string, scopes: seq<string>)
  datatype Requirement = Requirement(schemes: seq<SchemeRef>)

  ghost predicate Holds(have: seq<string>, scope: string) {
    exists h :: h in have && Trim(h) == scope
  }

  ghost predicate SchemeHeld(have: seq<string>, ref: SchemeRef) {
    forall sc :: sc in ref.scopes && Trim(sc) != "" ==> Holds(have, Trim(sc))
  }

  ghost predicate GroupHeld(have: seq<string>, req: Requirement) {
    forall ref :: ref in req.schemes ==> SchemeHeld(have, ref)
  }

  ghost predicate Satisfied(have: seq<string>, reqs: seq<Requirement>) {
    exists req :: req in reqs && GroupHeld(have, req)
  }

  // scopesSatisfied, with its set, its nested loops and its ok flag.
  method ScopesSatisfied(have: seq<string>, reqs: seq<Requirement>) returns (r: bool)
    ensures r <==> Satisfied(have, reqs)
  {
    var held: set<string> := {};
    for i := 0 to |have|
      invariant forall x :: x in held <==> x != "" && Holds(have[..i], x)
    {
      var s := Trim(have[i]);
      HoldsSnoc(have, i);
      if s != "" {
        held := held + {s};
      }
    }
    assert have[..|have|] == have;
    for i := 0 to |reqs|
      invariant forall j :: 0 <= j < i ==> !GroupHeld(have, reqs[j])
    {
      var req := reqs[i];
      var ok := true;
      for j := 0 to |req.schemes|
        invariant ok
        invariant forall k :: 0 <= k < j ==> SchemeHeld(have, req.schemes[k])
      {
        var ref := req.schemes[j];
        for k := 0 to |ref.scopes|
          invariant ok
          invariant forall m :: 0 <= m < k && Trim(ref.scopes[m]) != "" ==> Holds(have, Trim(ref.scopes[m]))
        {
          var sc := Trim(ref.scopes[k]);
          if sc == "" {
            continue;
          }
          if sc !in held {
            ok := false;
            assert !SchemeHeld(have, ref);
            break;
          }
        }
        if !ok {
          break;
        }
      }
      if ok {
        assert GroupHeld(have, req);
        return true;
      }
    }
    return false;
  }

  lemma HoldsSnoc(have: seq<string>, i: nat)
    requires i < |have|
    ensures forall x :: Holds(have[..i + 1], x) <==> Holds(have[..i], x) || x == Trim(have[i])
  {
    assert have[..i + 1] == have[..i] + [have[i]];
  }

  // Holding more scopes never loses access.
  lemma SatisfiedMonotone(have: seq<string>, more: seq<string>, reqs: seq<Requirement>)
    requires Satisfied(have, reqs) && forall h :: h in have ==> h in more
    ensures Satisfied(more, reqs)
  {
    var req :| req in reqs && GroupHeld(have, req);
    forall ref, sc | ref in req.schemes && sc in ref.scopes && Trim(sc) != ""
      ensures Holds(more, Trim(sc))
    {
      assert SchemeHeld(have, ref);
      var h :| h in have && Trim(h) == Trim(sc);
    }
    assert GroupHeld(more, req);
  }

  datatype ScopeError = MalformedSecurity | MissingToken | InsufficientScope

  // The error of a check that does not pass.
  function ScopeErrorOf(security: Result<seq<Requirement>, ()>, client: Option<seq<string>>): ScopeError {
    if security.Err? then MalformedSecurity else if client.None? then MissingToken else InsufficientScope
  }

  // checkWorkflowScopes, given the parsed x-security of the workflow and the
  // client's scopes, if there is a client token.
  method CheckWorkflowScopes(security: Result<seq<Requirement>, ()>, client: Option<seq<string>>)
    returns (r: Option<ScopeError>)
    ensures r.None? <==> ScopesPass(security, client)
    ensures r.Some? ==> r == Some(ScopeErrorOf(security, client))
  {
    if security.Err? {
      return Some(MalformedSecurity);
    }
    if |security.value| == 0 {
      return None;
    }
    if client.None? {
      return Some(MissingToken);
    }
    var ok := ScopesSatisfied(client.value, security.value);
    return if ok then None else Some(InsufficientScope);
  }

  ghost predicate ScopesPass(security: Result<seq<Requirement>, ()>, client: Option<seq<string>>) {
    security.Ok? && (security.value == [] || (client.Some? && Satisfied(client.value, security.value)))
  }
}
