// The consumer-schema passes of internal/plans/schema.go: removing reserved
// inputs, closing object schemas, and removing x-source. All three walk the
// same tree but differ in which members they enter and what they do at a node,
// so they are one function of the pass; the in-place loops of each are the
// methods below, proved equal to it.
module Schema {
  import opened Outcomes
  import opened Json
  import opened Inputs

  datatype Pass = Reserved | Closing | Vendor

  const X_SOURCE := "x-source"
  const COMBINATORS := {"oneOf", "anyOf", "allOf"}
  const CHILDREN := {"not", "if", "then", "else"}
  const DEFINITIONS := {"$defs", "definitions"}

  // How a pass treats one member of a schema object.
  datatype Visit = Skip | Whole | EachField | EachItem | DropReserved | FilterReserved

  function VisitOf(p: Pass, key: string): Visit {
    if key in COMBINATORS then EachItem
    else if key in CHILDREN then Whole
    else if key in DEFINITIONS then EachField
    else
      match p
      case Closing => Skip
      case Reserved => if key == "properties" then DropReserved else if key == "required" then FilterReserved else Skip
      case Vendor =>
        if key == "properties" then EachField
        else if key == "prefixItems" then EachItem
        else if key == "items" || key == "additionalProperties" then Whole
        else Skip
  }

  // isConsumerObjectSchema
  predicate IsObjectSchema(m: Fields) {
    !("type" in m && m["type"].Leaf? && m["type"].scalar.Str? &&
      m["type"].scalar.s != "" && m["type"].scalar.s != "object")
  }

  // What a pass does to the schema object itself.
  function AtNode(p: Pass, m: Fields): Fields {
    match p
    case Reserved => m
    case Closing => if IsObjectSchema(m) then m["additionalProperties" := Leaf(Bool(false))] else m
    case Vendor => m - {X_SOURCE}
  }

  predicate IsReservedString(v: Value) {
    v.Leaf? && v.scalar.Str? && ReservedInputKey(v.scalar.s)
  }

  function DropStrings(items: seq<Value>, drop: set<string>): (out: seq<Value>) {
    if items == [] then []
    else
      var v := items[0];
      if v.Leaf? && v.scalar.Str? && v.scalar.s in drop then DropStrings(items[1..], drop)
      else [v] + DropStrings(items[1..], drop)
  }

  function FilterReservedItems(items: seq<Value>): (out: seq<Value>)
    ensures forall v :: v in out <==> v in items && !IsReservedString(v)
  {
    if items == [] then []
    else if IsReservedString(items[0]) then FilterReservedItems(items[1..])
    else [items[0]] + FilterReservedItems(items[1..])
  }

  // filterReservedRequired
  function FilterReservedRequired(v: Value): Value {
    match v
    case Arr(items) => Arr(FilterReservedItems(items))
    case Leaf(NilSlice) => Arr([])
    case _ => v
  }

  function WithoutReserved(m: Fields): Fields {
    map k | k in m && !ReservedInputKey(k) :: m[k]
  }

  function OnFields(p: Pass, v: Value): Value
    decreases v, 1, 0
  {
    if v.Obj? then Obj(map k | k in v.fields :: Run(p, v.fields[k])) else v
  }

  function OnItems(p: Pass, v: Value): Value
    decreases v, 1, 0
  {
    if v.Arr? then Arr(seq(|v.items|, i requires 0 <= i < |v.items| => Run(p, v.items[i]))) else v
  }

  function RunMember(p: Pass, key: string, v: Value): Value
    decreases v, 2
  {
    match VisitOf(p, key)
    case Skip => v
    case Whole => Run(p, v)
    case EachField => OnFields(p, v)
    case EachItem => OnItems(p, v)
    case DropReserved => if v.Obj? then Obj(WithoutReserved(v.fields)) else v
    case FilterReserved => FilterReservedRequired(v)
  }

  function RunMembers(p: Pass, m: Fields): (r: Fields)
    ensures r.Keys == m.Keys
    decreases Obj(m), 0
  {
    map k | k in m :: RunMember(p, k, m[k])
  }

  // One pass over a whole schema.
  function Run(p: Pass, v: Value): Value
    decreases v, 1, 1
  {
    match v
    case Leaf(_) => v
    case Arr(items) => if p.Vendor? then OnItems(p, v) else v
    case Obj(m) => Obj(AtNode(p, RunMembers(p, m)))
  }

  // ------------------------------------------------------------ the laws

  lemma {:induction false} FilterAgain(items: seq<Value>)
    ensures FilterReservedItems(FilterReservedItems(items)) == FilterReservedItems(items)
  {
    if items != [] {
      FilterAgain(items[1..]);
      var out := FilterReservedItems(items[1..]);
      if !IsReservedString(items[0]) {
        assert ([items[0]] + out)[1..] == out;
      }
    }
  }

  lemma NodeEditsCommute(p: Pass, q: Pass, m: Fields)
    ensures AtNode(p, AtNode(q, m)) == AtNode(q, AtNode(p, m))
    ensures AtNode(p, AtNode(p, m)) == AtNode(p, m)
  {
  }

  lemma MembersAfterEdit(p: Pass, q: Pass, m: Fields)
    ensures RunMembers(p, AtNode(q, m)) == AtNode(q, RunMembers(p, m))
  {
    assert VisitOf(p, "type").Skip?;
    if "type" in m {
      assert RunMembers(p, m)["type"] == m["type"];
    }
  }

  // Two members of the same kind agree when their parts do.
  ghost predicate Agree(p: Pass, q: Pass, v: Value) {
    Run(p, Run(q, v)) == Run(q, Run(p, v)) && Run(p, Run(p, v)) == Run(p, v)
  }

  ghost predicate PartsAgree(p: Pass, q: Pass, v: Value) {
    match v
    case Leaf(_) => true
    case Arr(items) => forall i :: 0 <= i < |items| ==> Agree(p, q, items[i])
    case Obj(m) => forall k :: k in m ==> Agree(p, q, m[k])
  }

  lemma FieldsCommute(p: Pass, q: Pass, v: Value)
    requires v.Obj? && forall k :: k in v.fields ==> Agree(p, q, v.fields[k])
    ensures OnFields(p, OnFields(q, v)) == OnFields(q, OnFields(p, v))
  {
    var pq, qp := OnFields(p, OnFields(q, v)).fields, OnFields(q, OnFields(p, v)).fields;
    forall k | k in v.fields
      ensures pq[k] == qp[k]
    {
      assert Agree(p, q, v.fields[k]);
    }
    assert pq == qp;
  }

  lemma FieldsIdempotent(p: Pass, q: Pass, v: Value)
    requires v.Obj? && forall k :: k in v.fields ==> Agree(p, q, v.fields[k])
    ensures OnFields(p, OnFields(p, v)) == OnFields(p, v)
  {
    var twice, once := OnFields(p, OnFields(p, v)).fields, OnFields(p, v).fields;
    forall k | k in v.fields
      ensures twice[k] == once[k]
    {
      assert Agree(p, q, v.fields[k]);
    }
    assert twice == once;
  }

  lemma FieldsAgree(p: Pass, q: Pass, v: Value)
    requires PartsAgree(p, q, v)
    ensures OnFields(p, OnFields(q, v)) == OnFields(q, OnFields(p, v))
    ensures OnFields(p, OnFields(p, v)) == OnFields(p, v)
  {
    if v.Obj? {
      FieldsCommute(p, q, v);
      FieldsIdempotent(p, q, v);
    }
  }

  lemma ItemsAgree(p: Pass, q: Pass, v: Value)
    requires PartsAgree(p, q, v)
    ensures OnItems(p, OnItems(q, v)) == OnItems(q, OnItems(p, v))
    ensures OnItems(p, OnItems(p, v)) == OnItems(p, v)
  {
    if v.Arr? {
      assert forall i :: 0 <= i < |v.items| ==> Agree(p, q, v.items[i]);
      assert OnItems(p, OnItems(q, v)).items == OnItems(q, OnItems(p, v)).items;
      assert OnItems(p, OnItems(p, v)).items == OnItems(p, v).items;
    }
  }

  lemma DropAndFieldsAgree(p: Pass, m: Fields)
    ensures OnFields(p, Obj(WithoutReserved(m))).fields == WithoutReserved(OnFields(p, Obj(m)).fields)
    ensures WithoutReserved(WithoutReserved(m)) == WithoutReserved(m)
  {
  }

  lemma RequiredAgrees(v: Value)
    ensures FilterReservedRequired(FilterReservedRequired(v)) == FilterReservedRequired(v)
  {
    if v.Arr? {
      FilterAgain(v.items);
    }
  }

  // Two passes treat a member alike, or one of them skips it, or it is the
  // "properties" that one prunes and the other enters.
  lemma Visits(p: Pass, q: Pass, key: string)
    ensures || VisitOf(p, key) == VisitOf(q, key) || VisitOf(p, key).Skip? || VisitOf(q, key).Skip?
            || (VisitOf(p, key).EachField? && VisitOf(q, key).DropReserved?)
            || (VisitOf(p, key).DropReserved? && VisitOf(q, key).EachField?)
  {
  }

  lemma MemberIdempotent(p: Pass, key: string, v: Value)
    requires Agree(p, p, v) && PartsAgree(p, p, v)
    ensures RunMember(p, key, RunMember(p, key, v)) == RunMember(p, key, v)
  {
    match VisitOf(p, key)
    case EachField => FieldsAgree(p, p, v);
    case EachItem => ItemsAgree(p, p, v);
    case DropReserved => if v.Obj? { DropAndFieldsAgree(p, v.fields); }
    case FilterReserved => RequiredAgrees(v);
    case _ =>
  }

  lemma MemberCommutes(p: Pass, q: Pass, key: string, v: Value)
    requires Agree(p, q, v) && PartsAgree(p, q, v)
    ensures RunMember(p, key, RunMember(q, key, v)) == RunMember(q, key, RunMember(p, key, v))
  {
    Visits(p, q, key);
    if VisitOf(p, key).Skip? || VisitOf(q, key).Skip? {
    } else if VisitOf(p, key) != VisitOf(q, key) {
      if v.Obj? {
        DropAndFieldsAgree(if VisitOf(p, key).EachField? then p else q, v.fields);
      }
    } else if VisitOf(p, key).EachField? {
      FieldsAgree(p, q, v);
    } else if VisitOf(p, key).EachItem? {
      ItemsAgree(p, q, v);
    }
  }

  ghost predicate MemberAgrees(p: Pass, q: Pass, k: string, v: Value) {
    && RunMember(p, k, RunMember(q, k, v)) == RunMember(q, k, RunMember(p, k, v))
    && RunMember(p, k, RunMember(p, k, v)) == RunMember(p, k, v)
  }

  lemma MembersAgree(p: Pass, q: Pass, m: Fields)
    requires forall k :: k in m ==> MemberAgrees(p, q, k, m[k])
    ensures RunMembers(p, RunMembers(q, m)) == RunMembers(q, RunMembers(p, m))
    ensures RunMembers(p, RunMembers(p, m)) == RunMembers(p, m)
  {
    assert RunMembers(p, RunMembers(q, m)) == RunMembers(q, RunMembers(p, m)) by {
      forall k | k in m
        ensures RunMembers(p, RunMembers(q, m))[k] == RunMembers(q, RunMembers(p, m))[k]
      {
        assert MemberAgrees(p, q, k, m[k]);
      }
    }
    forall k | k in m
      ensures RunMembers(p, RunMembers(p, m))[k] == RunMembers(p, m)[k]
    {
      assert MemberAgrees(p, q, k, m[k]);
    }
  }

  // A node agrees when its members do.
  lemma NodeAgrees(p: Pass, q: Pass, m: Fields)
    requires RunMembers(p, RunMembers(q, m)) == RunMembers(q, RunMembers(p, m))
    requires RunMembers(p, RunMembers(p, m)) == RunMembers(p, m)
    ensures Agree(p, q, Obj(m))
  {
    MembersAfterEdit(p, q, RunMembers(q, m));
    MembersAfterEdit(q, p, RunMembers(p, m));
    MembersAfterEdit(p, p, RunMembers(p, m));
    NodeEditsCommute(p, q, RunMembers(p, RunMembers(q, m)));
    NodeEditsCommute(p, q, RunMembers(p, m));
  }

  // Any two of the passes commute, and each is idempotent, on every tree.
  lemma {:induction false} PassesAgree(p: Pass, q: Pass, v: Value)
    ensures Agree(p, q, v)
    decreases v, 1
  {
    match v
    case Leaf(_) =>
    case Arr(items) =>
      forall i | 0 <= i < |items| ensures Agree(p, q, items[i]) {
        PassesAgree(p, q, items[i]);
      }
      ItemsAgree(p, q, v);
    case Obj(m) =>
      forall k | k in m
        ensures MemberAgrees(p, q, k, m[k])
      {
        PassesAgree(p, q, m[k]);
        PartsOf(p, q, m[k]);
        MemberCommutes(p, q, k, m[k]);
        PassesAgree(p, p, m[k]);
        PartsOf(p, p, m[k]);
        MemberIdempotent(p, k, m[k]);
      }
      MembersAgree(p, q, m);
      NodeAgrees(p, q, m);
  }

  lemma {:induction false} PartsOf(p: Pass, q: Pass, v: Value)
    ensures PartsAgree(p, q, v)
    decreases v, 0
  {
    match v
    case Leaf(_) =>
    case Arr(items) =>
      forall i | 0 <= i < |items| ensures Agree(p, q, items[i]) {
        PassesAgree(p, q, items[i]);
      }
    case Obj(m) =>
      forall k | k in m ensures Agree(p, q, m[k]) {
        PassesAgree(p, q, m[k]);
      }
  }

  // ------------------------------------------------------------ the loops

  const VISITED := ["properties", "required", "items", "additionalProperties", "oneOf", "anyOf", "allOf",
                    "prefixItems", "not", "if", "then", "else", "$defs", "definitions"]

  lemma OnlyVisited(p: Pass, key: string)
    requires key !in VISITED
    ensures VisitOf(p, key).Skip?
  {
    assert VISITED[4] == "oneOf" && VISITED[5] == "anyOf" && VISITED[6] == "allOf" && VISITED[8] == "not";
    assert VISITED[9] == "if" && VISITED[10] == "then" && VISITED[11] == "else" && VISITED[7] == "prefixItems";
    assert VISITED[12] == "$defs" && VISITED[13] == "definitions" && VISITED[0] == "properties";
    assert VISITED[1] == "required" && VISITED[2] == "items" && VISITED[3] == "additionalProperties";
  }

  // One pass as the source runs it: edit the node, then go through the members
  // it enters, rewriting each in place, map members in any order.
  method RunPass(p: Pass, v: Value) returns (r: Value)
    ensures r == Run(p, v)
    decreases v, 1
  {
    match v {
      case Leaf(_) =>
        r := v;
      case Arr(items) =>
        if p.Vendor? {
          r := PassItems(p, v);
        } else {
          r := v;
        }
      case Obj(m) =>
        var t := AtNode(p, m);
        ghost var base := t;
        for i := 0 to |VISITED|
          invariant t == PassedUpTo(p, base, i)
        {
          var key := VISITED[i];
          OneMorePassed(p, base, i);
          if key in t && !VisitOf(p, key).Skip? {
            assert key in m && t[key] == m[key] by {
              NotPassedYet(p, m, i);
            }
            var w := PassMember(p, key, t[key]);
            t := t[key := w];
          }
        }
        AllPassed(p, base);
        MembersAfterEdit(p, p, m);
        r := Obj(t);
    }
  }

  // The members once the first n visited keys have been passed over.
  ghost function PassedUpTo(p: Pass, base: Fields, n: nat): (t: Fields)
    requires n <= |VISITED|
    ensures t.Keys == base.Keys
  {
    map k | k in base :: if k in VISITED[..n] then RunMember(p, k, base[k]) else base[k]
  }

  lemma OneMorePassed(p: Pass, base: Fields, n: nat)
    requires n < |VISITED|
    ensures var key, before, after := VISITED[n], PassedUpTo(p, base, n), PassedUpTo(p, base, n + 1);
            if key in base && !VisitOf(p, key).Skip? then
              before[key] == base[key] && after == before[key := RunMember(p, key, base[key])]
            else after == before
  {
    assert VISITED[..n + 1] == VISITED[..n] + [VISITED[n]];
    assert VISITED[n] !in VISITED[..n];
  }

  // The edit of the node does not touch a member that is still to be entered.
  lemma NotPassedYet(p: Pass, m: Fields, n: nat)
    requires n < |VISITED| && VISITED[n] in AtNode(p, m) && !VisitOf(p, VISITED[n]).Skip?
    ensures VISITED[n] in m && PassedUpTo(p, AtNode(p, m), n)[VISITED[n]] == m[VISITED[n]]
  {
    assert VISITED[n] !in VISITED[..n];
  }

  lemma AllPassed(p: Pass, base: Fields)
    ensures PassedUpTo(p, base, |VISITED|) == RunMembers(p, base)
  {
    assert VISITED[..|VISITED|] == VISITED;
    forall k | k in base
      ensures PassedUpTo(p, base, |VISITED|)[k] == RunMember(p, k, base[k])
    {
      if k !in VISITED {
        OnlyVisited(p, k);
      }
    }
  }

  method PassMember(p: Pass, key: string, v: Value) returns (r: Value)
    ensures r == RunMember(p, key, v)
    decreases v, 2
  {
    match VisitOf(p, key) {
      case Skip => r := v;
      case Whole => r := RunPass(p, v);
      case EachField => r := PassFields(p, v);
      case EachItem => r := PassItems(p, v);
      case DropReserved => r := DropReservedProperties(v);
      case FilterReserved => r := FilterReservedRequired(v);
    }
  }

  method PassFields(p: Pass, v: Value) returns (r: Value)
    ensures r == OnFields(p, v)
    decreases v, 0
  {
    if !v.Obj? {
      return v;
    }
    var m := v.fields;
    var todo := m.Keys;
    while todo != {}
      invariant todo <= m.Keys == v.fields.Keys
      invariant forall k :: k in m ==> m[k] == if k in todo then v.fields[k] else Run(p, v.fields[k])
      decreases todo
    {
      var k :| k in todo;
      todo := todo - {k};
      var w := RunPass(p, m[k]);
      m := m[k := w];
    }
    return Obj(m);
  }

  method PassItems(p: Pass, v: Value) returns (r: Value)
    ensures r == OnItems(p, v)
    decreases v, 0
  {
    if !v.Arr? {
      return v;
    }
    var items := v.items;
    for i := 0 to |items|
      invariant |items| == |v.items|
      invariant forall j :: 0 <= j < |items| ==> items[j] == if j < i then Run(p, v.items[j]) else v.items[j]
    {
      var w := RunPass(p, items[i]);
      items := items[i := w];
    }
    return Arr(items);
  }

  method DropReservedProperties(v: Value) returns (r: Value)
    ensures r == RunMember(Reserved, "properties", v)
  {
    if !v.Obj? {
      return v;
    }
    var props := v.fields;
    var todo := props.Keys;
    while todo != {}
      invariant todo <= v.fields.Keys
      invariant props == map k | k in v.fields && (k in todo || !ReservedInputKey(k)) :: v.fields[k]
      decreases todo
    {
      var k :| k in todo;
      todo := todo - {k};
      if ReservedInputKey(k) {
        props := props - {k};
      }
    }
    assert props == WithoutReserved(v.fields);
    return Obj(props);
  }

  // ------------------------------------------------------------ consumer keys

  ghost predicate ListedIn(m: Fields, name: string) {
    "properties" in m && m["properties"].Obj? && name in m["properties"].fields
  }

  // consumerInputKeys, as a predicate: the property names of this schema and,
  // through the combinators, of its alternatives.
  ghost predicate IsConsumerKey(v: Value, name: string) {
    v.Obj? &&
    (ListedIn(v.fields, name) ||
     exists c, i :: c in COMBINATORS && c in v.fields && v.fields[c].Arr? && 0 <= i < |v.fields[c].items| &&
       IsConsumerKey(v.fields[c].items[i], name))
  }

  // The source's loops.
  method ConsumerInputKeys(v: Value) returns (keys: set<string>)
    ensures forall name :: name in keys <==> IsConsumerKey(v, name)
    decreases v
  {
    keys := {};
    if !v.Obj? {
      return;
    }
    if "properties" in v.fields && v.fields["properties"].Obj? {
      keys := v.fields["properties"].fields.Keys;
    }
    ghost var listed := keys;
    var combinators := ["oneOf", "anyOf", "allOf"];
    for c := 0 to |combinators|
      invariant forall name :: name in keys <==>
                  name in listed ||
                  exists d, i :: 0 <= d < c && InAlternative(v, combinators[d], i, name)
    {
      var key := combinators[c];
      if key in v.fields && v.fields[key].Arr? {
        var items := v.fields[key].items;
        ghost var before := keys;
        for i := 0 to |items|
          invariant forall name :: name in keys <==>
                      name in before || exists j :: 0 <= j < i && InAlternative(v, key, j, name)
        {
          var more := ConsumerInputKeys(items[i]);
          assert forall name :: name in more <==> InAlternative(v, key, i, name);
          keys := keys + more;
        }
      }
    }
    forall name
      ensures name in keys <==> IsConsumerKey(v, name)
    {
      AlternativesDecide(v, name);
      assert combinators[0] == "oneOf" && combinators[1] == "anyOf" && combinators[2] == "allOf";
      if c, i :| c in COMBINATORS && InAlternative(v, c, i, name) {
        var d :| 0 <= d < |combinators| && combinators[d] == c;
        assert InAlternative(v, combinators[d], i, name);
      }
    }
  }

  ghost predicate InAlternative(v: Value, c: string, i: int, name: string) {
    v.Obj? && c in v.fields && v.fields[c].Arr? && 0 <= i < |v.fields[c].items| &&
    IsConsumerKey(v.fields[c].items[i], name)
  }

  lemma PropertiesVisit()
    ensures VisitOf(Reserved, "properties").DropReserved? && VisitOf(Vendor, "properties").EachField?
    ensures VisitOf(Closing, "properties").Skip?
    ensures "properties" != X_SOURCE && "properties" != "additionalProperties"
    ensures forall c :: c in COMBINATORS ==> c != X_SOURCE && c != "additionalProperties" && c != "properties"
  {
  }

  // A member that no edit of the node touches is there afterwards, passed over.
  lemma MemberAfter(p: Pass, m: Fields, k: string)
    requires k != X_SOURCE && k != "additionalProperties"
    ensures k in Run(p, Obj(m)).fields <==> k in m
    ensures k in m ==> Run(p, Obj(m)).fields[k] == RunMember(p, k, m[k])
  {
    var members := RunMembers(p, m);
    assert k in members <==> k in m;
    assert k in AtNode(p, members) <==> k in members;
    if k in m {
      assert members[k] == RunMember(p, k, m[k]) && AtNode(p, members)[k] == members[k];
    }
  }

  // The passes leave the consumer keys alone, but for the reserved ones that
  // the first removes.
  lemma {:induction false} PassKeepsKeys(p: Pass, v: Value, name: string)
    ensures IsConsumerKey(Run(p, v), name) <==>
              IsConsumerKey(v, name) && (p.Reserved? ==> !ReservedInputKey(name))
  {
    if v.Obj? {
      var m, r := v.fields, Run(p, v).fields;
      PropertiesVisit();
      MemberAfter(p, m, "properties");
      if "properties" in m {
        var props := m["properties"];
        match p {
          case Reserved => assert props.Obj? ==> r["properties"] == Obj(WithoutReserved(props.fields));
          case Vendor => assert r["properties"] == OnFields(p, props);
          case Closing => assert r["properties"] == props;
        }
      }
      assert ListedIn(r, name) <==> ListedIn(m, name) && (p.Reserved? ==> !ReservedInputKey(name));
      forall c, i | c in COMBINATORS
        ensures InAlternative(Run(p, v), c, i, name) <==>
                  InAlternative(v, c, i, name) && (p.Reserved? ==> !ReservedInputKey(name))
      {
        MemberAfter(p, m, c);
        assert VisitOf(p, c).EachItem?;
        assert c in m ==> r[c] == OnItems(p, m[c]);
        if c in m && m[c].Arr? && 0 <= i < |m[c].items| {
          PassKeepsKeys(p, m[c].items[i], name);
        }
      }
      AlternativesDecide(v, name);
      AlternativesDecide(Run(p, v), name);
    }
  }

  lemma AlternativesDecide(v: Value, name: string)
    requires v.Obj?
    ensures IsConsumerKey(v, name) <==>
              ListedIn(v.fields, name) || exists c, i :: c in COMBINATORS && InAlternative(v, c, i, name)
  {
    if IsConsumerKey(v, name) && !ListedIn(v.fields, name) {
      var c, i :| c in COMBINATORS && c in v.fields && v.fields[c].Arr? && 0 <= i < |v.fields[c].items| &&
        IsConsumerKey(v.fields[c].items[i], name);
      assert InAlternative(v, c, i, name);
    }
  }

  // The schema a consumer sees, from the decoded one.
  function ConsumerSchema(decoded: Value): Value {
    Run(Closing, Run(Reserved, decoded))
  }

  // What callers may send is exactly what the author listed, minus the reserved
  // names, whatever order the passes run in.
  lemma ConsumerKeys(decoded: Value, name: string)
    ensures IsConsumerKey(Run(Vendor, ConsumerSchema(decoded)), name) <==>
              IsConsumerKey(decoded, name) && !ReservedInputKey(name)
  {
    PassKeepsKeys(Vendor, ConsumerSchema(decoded), name);
    PassKeepsKeys(Closing, Run(Reserved, decoded), name);
    PassKeepsKeys(Reserved, decoded, name);
  }

  // ------------------------------------------------------------ x-source

  datatype Loc = Root | TopProp | Nested_

  // walkXSource: true when it returns no error.
  predicate WalkXSource(v: Value, loc: Loc)
    decreases v
  {
    match v
    case Leaf(_) => true
    case Arr(items) => forall i :: 0 <= i < |items| ==> WalkXSource(items[i], loc)
    case Obj(m) =>
      && (X_SOURCE in m ==> loc == TopProp)
      && (forall k :: k in m ==>
            if k == "properties" then
              m[k].Obj? ==> forall j :: j in m[k].fields ==>
                WalkXSource(m[k].fields[j], if loc == Root then TopProp else Nested_)
            else if k == "items" || (k == "additionalProperties" && !(m[k].Leaf? && m[k].scalar.Bool?)) then
              WalkXSource(m[k], Nested_)
            else if k in COMBINATORS || k == "prefixItems" then
              m[k].Arr? ==> forall i :: 0 <= i < |m[k].items| ==> WalkXSource(m[k].items[i], loc)
            else if k in CHILDREN then WalkXSource(m[k], loc)
            else if k in DEFINITIONS then
              m[k].Obj? ==> forall j :: j in m[k].fields ==> WalkXSource(m[k].fields[j], Nested_)
            else true)
  }

  // No x-source at any position walkXSource visits, not even where it is
  // allowed.
  ghost predicate SourceFree(v: Value)
    decreases v, 0
  {
    match v
    case Leaf(_) => true
    case Arr(items) => forall i :: 0 <= i < |items| ==> SourceFree(items[i])
    case Obj(m) =>
      X_SOURCE !in m && forall k :: k in m ==> SourceFreeMember(k, m[k])
  }

  ghost predicate SourceFreeMember(k: string, v: Value)
    decreases v, 1
  {
    if k == "properties" || k in DEFINITIONS then
      v.Obj? ==> forall j :: j in v.fields ==> SourceFree(v.fields[j])
    else if k in COMBINATORS || k == "prefixItems" then
      v.Arr? ==> forall i :: 0 <= i < |v.items| ==> SourceFree(v.items[i])
    else if k == "items" || k == "additionalProperties" || k in CHILDREN then SourceFree(v)
    else true
  }

  lemma {:induction false} SourceFreeWalks(v: Value, loc: Loc)
    requires SourceFree(v)
    ensures WalkXSource(v, loc)
    decreases v
  {
    match v
    case Leaf(_) =>
    case Arr(items) =>
      forall i | 0 <= i < |items| ensures WalkXSource(items[i], loc) {
        SourceFreeWalks(items[i], loc);
      }
    case Obj(m) =>
      forall k, l | k in m && SourceFree(m[k]) ensures WalkXSource(m[k], l) {
        SourceFreeWalks(m[k], l);
      }
      forall k, j, l | k in m && m[k].Obj? && j in m[k].fields && SourceFree(m[k].fields[j])
        ensures WalkXSource(m[k].fields[j], l)
      {
        SourceFreeWalks(m[k].fields[j], l);
      }
      forall k, i, l | k in m && m[k].Arr? && 0 <= i < |m[k].items| && SourceFree(m[k].items[i])
        ensures WalkXSource(m[k].items[i], l)
      {
        SourceFreeWalks(m[k].items[i], l);
      }
      assert forall k :: k in m ==> SourceFreeMember(k, m[k]);
  }

  // After the vendor pass no x-source is left for walkXSource to find.
  lemma {:induction false} VendorRemovesSources(v: Value)
    ensures SourceFree(Run(Vendor, v))
    decreases v
  {
    match v
    case Leaf(_) =>
    case Arr(items) =>
      forall i | 0 <= i < |items| ensures SourceFree(Run(Vendor, items[i])) {
        VendorRemovesSources(items[i]);
      }
    case Obj(m) =>
      forall k | k in m && k != X_SOURCE
        ensures SourceFreeMember(k, RunMember(Vendor, k, m[k]))
      {
        VendorRemovesSources(m[k]);
        if m[k].Obj? {
          forall j | j in m[k].fields ensures SourceFree(Run(Vendor, m[k].fields[j])) {
            VendorRemovesSources(m[k].fields[j]);
          }
        }
        if m[k].Arr? {
          forall i | 0 <= i < |m[k].items| ensures SourceFree(Run(Vendor, m[k].items[i])) {
            VendorRemovesSources(m[k].items[i]);
          }
        }
      }
  }
}
