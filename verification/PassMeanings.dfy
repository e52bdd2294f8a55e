// What the three schema passes of internal/plans/schema.go do, told member by
// member of the schemas they reach, and what is left of it in the schemas a
// consumer is shown.
module PassMeanings {
  import opened Json
  import opened Inputs
  import opened Lift
  import opened Outcomes
  import opened Schema

  // A schema object that may describe an object: its "type" is absent, not text,
  // blank or "object".
  ghost predicate MayBeObject(m: Fields) {
    "type" in m && m["type"].Leaf? && m["type"].scalar.Str? ==> m["type"].scalar.s in {"", "object"}
  }

  // The required list without the reserved names.
  ghost predicate Unreserved(v: Value, r: Value) {
    if v.Arr? then
      && r.Arr?
      && forall x ::
           multiset(r.items)[x] ==
           (if x.Leaf? && x.scalar.Str? && ReservedInputKey(x.scalar.s) then 0 else multiset(v.items)[x])
    else if v == Leaf(NilSlice) then r == Arr([])
    else r == v
  }

  // The properties without the reserved ones, the others with their schemas
  // untouched.
  ghost predicate PrunedFields(v: Value, r: Value) {
    if v.Obj? then
      && r.Obj? && (forall j :: j in r.fields <==> j in v.fields && !ReservedInputKey(j))
      && forall j :: j in r.fields ==> r.fields[j] == v.fields[j]
    else r == v
  }

  ghost predicate EachFieldBecomes(p: Pass, v: Value, r: Value)
    decreases v, 1
  {
    if v.Obj? then
      r.Obj? && r.fields.Keys == v.fields.Keys && forall j :: j in v.fields ==> Becomes(p, v.fields[j], r.fields[j])
    else r == v
  }

  ghost predicate EachItemBecomes(p: Pass, v: Value, r: Value)
    decreases v, 1
  {
    if v.Arr? then
      r.Arr? && |r.items| == |v.items| && forall i :: 0 <= i < |v.items| ==> Becomes(p, v.items[i], r.items[i])
    else r == v
  }

  // What becomes of one member. All passes enter the alternatives, the four
  // conditions and the definitions; beyond these the vendor pass enters every
  // other subschema, the reserved pass prunes the properties and the required
  // list, and nothing else changes.
  ghost predicate MemberBecomes(p: Pass, k: string, v: Value, r: Value)
    decreases v, 3
  {
    if k in {"oneOf", "anyOf", "allOf"} || (p.Vendor? && k == "prefixItems") then EachItemBecomes(p, v, r)
    else if k in {"not", "if", "then", "else"} || (p.Vendor? && k in {"items", "additionalProperties"}) then
      Becomes(p, v, r)
    else if k in {"$defs", "definitions"} || (p.Vendor? && k == "properties") then EachFieldBecomes(p, v, r)
    else if p.Reserved? && k == "properties" then PrunedFields(v, r)
    else if p.Reserved? && k == "required" then Unreserved(v, r)
    else r == v
  }

  // What becomes of a schema: the closing pass closes it if it may describe an
  // object, the vendor pass drops its x-source, and its other members become
  // what they become.
  ghost predicate Becomes(p: Pass, v: Value, r: Value)
    decreases v, 2
  {
    match v
    case Leaf(_) => r == v
    case Arr(items) => if p.Vendor? then EachItemBecomes(p, v, r) else r == v
    case Obj(m) =>
      var closes := p.Closing? && MayBeObject(m);
      && r.Obj?
      && r.fields.Keys ==
           (if p.Vendor? then m.Keys - {"x-source"} else if closes then m.Keys + {"additionalProperties"} else m.Keys)
      && (closes ==> r.fields["additionalProperties"] == Leaf(Bool(false)))
      && forall k :: k in m && k in r.fields && !(closes && k == "additionalProperties") ==>
           MemberBecomes(p, k, m[k], r.fields[k])
  }

  lemma {:induction false} ItemsUnreserved(items: seq<Value>, x: Value)
    ensures multiset(FilterReservedItems(items))[x] == if IsReservedString(x) then 0 else multiset(items)[x]
  {
    if items != [] {
      ItemsUnreserved(items[1..], x);
      assert items == [items[0]] + items[1..];
    }
  }

  lemma {:induction false} FieldsBecome(p: Pass, v: Value)
    ensures EachFieldBecomes(p, v, OnFields(p, v))
    decreases v, 1
  {
    if v.Obj? {
      forall j | j in v.fields ensures Becomes(p, v.fields[j], Run(p, v.fields[j])) {
        PassMeans(p, v.fields[j]);
      }
    }
  }

  lemma {:induction false} ItemsBecome(p: Pass, v: Value)
    ensures EachItemBecomes(p, v, OnItems(p, v))
    decreases v, 1
  {
    if v.Arr? {
      forall i | 0 <= i < |v.items| ensures Becomes(p, v.items[i], Run(p, v.items[i])) {
        PassMeans(p, v.items[i]);
      }
    }
  }

  lemma {:induction false} MemberMeans(p: Pass, k: string, v: Value)
    ensures MemberBecomes(p, k, v, RunMember(p, k, v))
    decreases v, 3
  {
    match VisitOf(p, k)
    case Skip =>
    case Whole => PassMeans(p, v);
    case EachField => FieldsBecome(p, v);
    case EachItem => ItemsBecome(p, v);
    case DropReserved =>
    case FilterReserved =>
      if v.Arr? {
        forall x
          ensures multiset(FilterReservedItems(v.items))[x] ==
                    if x.Leaf? && x.scalar.Str? && ReservedInputKey(x.scalar.s) then 0 else multiset(v.items)[x]
        {
          ItemsUnreserved(v.items, x);
        }
      }
  }

  // Each pass does exactly that, on every schema.
  lemma {:induction false} PassMeans(p: Pass, v: Value)
    ensures Becomes(p, v, Run(p, v))
    decreases v, 2
  {
    match v
    case Leaf(_) =>
    case Arr(items) => ItemsBecome(p, v);
    case Obj(m) =>
      forall k | k in m
        ensures MemberBecomes(p, k, m[k], RunMembers(p, m)[k])
      {
        MemberMeans(p, k, m[k]);
      }
      NodeMeans(p, m);
  }

  lemma NodeMeans(p: Pass, m: Fields)
    ensures var r := AtNode(p, RunMembers(p, m));
            var closes := p.Closing? && MayBeObject(m);
            && r.Keys ==
                 (if p.Vendor? then m.Keys - {"x-source"}
                  else if closes then m.Keys + {"additionalProperties"} else m.Keys)
            && (closes ==> r["additionalProperties"] == Leaf(Bool(false)))
            && forall k :: k in m && k in r && !(closes && k == "additionalProperties") ==> r[k] == RunMembers(p, m)[k]
  {
    assert VisitOf(p, "type").Skip?;
    assert "type" in m ==> RunMembers(p, m)["type"] == m["type"];
  }

  // ------------------------------------------------------------ closed schemas

  // Every schema the closing pass reaches that may describe an object allows no
  // further properties.
  ghost predicate AllClosed(v: Value)
    decreases v, 0
  {
    v.Obj? ==>
      && (MayBeObject(v.fields) ==> Lookup(v.fields, "additionalProperties") == Some(Leaf(Bool(false))))
      && forall k :: k in v.fields ==> ClosedBelow(k, v.fields[k])
  }

  ghost predicate ClosedBelow(k: string, v: Value)
    decreases v, 1
  {
    && (k in {"oneOf", "anyOf", "allOf"} && v.Arr? ==> forall i :: 0 <= i < |v.items| ==> AllClosed(v.items[i]))
    && (k in {"not", "if", "then", "else"} ==> AllClosed(v))
    && (k in {"$defs", "definitions"} && v.Obj? ==> forall j :: j in v.fields ==> AllClosed(v.fields[j]))
  }

  lemma {:induction false} ClosedByPass(v: Value, r: Value)
    requires Becomes(Closing, v, r)
    ensures AllClosed(r)
    decreases v, 0
  {
    if v.Obj? {
      var m := v.fields;
      assert "type" in m ==> MemberBecomes(Closing, "type", m["type"], r.fields["type"]);
      forall k | k in r.fields
        ensures ClosedBelow(k, r.fields[k])
      {
        if k in m && !(MayBeObject(m) && k == "additionalProperties") {
          assert MemberBecomes(Closing, k, m[k], r.fields[k]);
          MemberClosed(k, m[k], r.fields[k]);
        }
      }
    }
  }

  lemma {:induction false} MemberClosed(k: string, v: Value, r: Value)
    requires MemberBecomes(Closing, k, v, r)
    ensures ClosedBelow(k, r)
    decreases v, 1
  {
    if k in {"oneOf", "anyOf", "allOf"} && v.Arr? {
      forall i | 0 <= i < |v.items| ensures AllClosed(r.items[i]) {
        ClosedByPass(v.items[i], r.items[i]);
      }
    } else if k in {"not", "if", "then", "else"} {
      ClosedByPass(v, r);
    } else if k in {"$defs", "definitions"} && v.Obj? {
      forall j | j in v.fields ensures AllClosed(r.fields[j]) {
        ClosedByPass(v.fields[j], r.fields[j]);
      }
    }
  }

  // The vendor pass leaves closed schemas closed.
  lemma {:induction false} VendorKeepsClosed(v: Value, r: Value)
    requires Becomes(Vendor, v, r) && AllClosed(v)
    ensures AllClosed(r)
    decreases v, 0
  {
    if v.Obj? {
      var m := v.fields;
      assert "type" in m ==> MemberBecomes(Vendor, "type", m["type"], r.fields["type"]);
      if MayBeObject(m) {
        var ap := "additionalProperties";
        assert MemberBecomes(Vendor, ap, m[ap], r.fields[ap]);
      }
      forall k | k in r.fields
        ensures ClosedBelow(k, r.fields[k])
      {
        assert MemberBecomes(Vendor, k, m[k], r.fields[k]);
        VendorKeepsMember(k, m[k], r.fields[k]);
      }
    }
  }

  lemma {:induction false} VendorKeepsMember(k: string, v: Value, r: Value)
    requires MemberBecomes(Vendor, k, v, r) && ClosedBelow(k, v)
    ensures ClosedBelow(k, r)
    decreases v, 1
  {
    if k in {"oneOf", "anyOf", "allOf"} && v.Arr? {
      forall i | 0 <= i < |v.items| ensures AllClosed(r.items[i]) {
        VendorKeepsClosed(v.items[i], r.items[i]);
      }
    } else if k in {"not", "if", "then", "else"} {
      VendorKeepsClosed(v, r);
    } else if k in {"$defs", "definitions"} && v.Obj? {
      forall j | j in v.fields ensures AllClosed(r.fields[j]) {
        VendorKeepsClosed(v.fields[j], r.fields[j]);
      }
    }
  }

  // Taking properties out of a schema leaves it closed.
  lemma BodyStaysClosed(m: Fields, rest: Fields, lifted: set<string>)
    requires AllClosed(Obj(m))
    ensures AllClosed(Obj(BodyMembers(m, rest, lifted)))
  {
    var n := BodyMembers(m, rest, lifted);
    assert forall k :: k != "properties" && k != "required" ==> Lookup(n, k) == Lookup(m, k);
    assert Lookup(n, "type") == Lookup(m, "type");
    assert Lookup(n, "additionalProperties") == Lookup(m, "additionalProperties");
    forall k | k in n
      ensures ClosedBelow(k, n[k])
    {
      if k != "properties" && k != "required" {
        assert Lookup(n, k) == Lookup(m, k) && ClosedBelow(k, m[k]);
      }
    }
  }

  // What consumers are shown is closed: the inputs schema of a tool, and the
  // body schema that is left when parameters are lifted out of it. And neither
  // says where an input comes from.
  lemma ConsumersSeeClosed(decoded: Value)
    ensures var consumer := ConsumerSchema(decoded);
            && AllClosed(Run(Vendor, consumer)) && SourceFree(Run(Vendor, consumer))
            && AllClosed(BodySchema(consumer)) && SourceFree(BodySchema(consumer))
  {
    var consumer := ConsumerSchema(decoded);
    PassMeans(Closing, Run(Reserved, decoded));
    ClosedByPass(Run(Reserved, decoded), consumer);
    PassMeans(Vendor, consumer);
    VendorKeepsClosed(consumer, Run(Vendor, consumer));
    VendorRemovesSources(consumer);
    var props := Properties(consumer);
    if props != map[] {
      var left := Obj(BodyMembers(consumer.fields, props - LiftedKeys(props), LiftedKeys(props)));
      BodyStaysClosed(consumer.fields, props - LiftedKeys(props), LiftedKeys(props));
      PassMeans(Vendor, left);
      VendorKeepsClosed(left, Run(Vendor, left));
      VendorRemovesSources(left);
    }
  }
}
