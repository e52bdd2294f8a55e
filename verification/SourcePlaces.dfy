// Where internal/plans/schema.go allows x-source: its recursive check told by
// the places of a schema.
module SourcePlaces {
  import opened Json
  import opened Outcomes
  import opened Schema

  // One turn on the way to a subschema: to a property, to the items, to the
  // further properties, to an alternative, to a condition, to a definition, or
  // to an element where a list stands for a schema.
  datatype Turn =
    | Prop(name: string)
    | Items
    | Further
    | Alternative(member: string, i: nat)
    | Condition(member: string)
    | Definition(member: string, name: string)
    | Element(i: nat)

  ghost function FieldOf(v: Value, k: string): Option<Value> {
    if v.Obj? && k in v.fields then Some(v.fields[k]) else None
  }

  ghost function ItemOf(v: Value, i: nat): Option<Value> {
    if v.Arr? && i < |v.items| then Some(v.items[i]) else None
  }

  // The subschema one turn leads to.
  ghost function Turned(v: Value, t: Turn): Option<Value> {
    match t
    case Prop(name) =>
      (match FieldOf(v, "properties") case None => None case Some(props) => FieldOf(props, name))
    case Items => FieldOf(v, "items")
    case Further =>
      (match FieldOf(v, "additionalProperties")
       case None => None
       case Some(further) => if further.Leaf? && further.scalar.Bool? then None else Some(further))
    case Alternative(c, i) =>
      if c !in {"oneOf", "anyOf", "allOf", "prefixItems"} then None
      else (match FieldOf(v, c) case None => None case Some(list) => ItemOf(list, i))
    case Condition(c) => if c in {"not", "if", "then", "else"} then FieldOf(v, c) else None
    case Definition(c, name) =>
      if c !in {"$defs", "definitions"} then None
      else (match FieldOf(v, c) case None => None case Some(defs) => FieldOf(defs, name))
    case Element(i) => ItemOf(v, i)
  }

  ghost function Reached(v: Value, path: seq<Turn>): Option<Value> {
    if path == [] then Some(v)
    else match Turned(v, path[0]) case None => None case Some(w) => Reached(w, path[1..])
  }

  // Alternatives, conditions and elements stand for the schema they are in.
  ghost predicate Level(t: Turn) {
    t.Alternative? || t.Condition? || t.Element?
  }

  // A property of the schema itself: one turn to a property, and otherwise only
  // turns that stay on the level.
  ghost predicate TopLevel(path: seq<Turn>) {
    exists i :: OnlyProperty(path, i)
  }

  ghost predicate OnlyProperty(path: seq<Turn>, i: int) {
    0 <= i < |path| && path[i].Prop? && forall j :: 0 <= j < |path| && j != i ==> Level(path[j])
  }

  ghost predicate CarriesSource(v: Value, path: seq<Turn>) {
    Reached(v, path).Some? && FieldOf(Reached(v, path).value, "x-source").Some?
  }

  // ------------------------------------------------------------ by level

  ghost function Then(loc: Loc, t: Turn): Loc {
    if Level(t) then loc else if t.Prop? && loc == Root then TopProp else Nested_
  }

  ghost function After(loc: Loc, path: seq<Turn>): Loc
    decreases path
  {
    if path == [] then loc else After(Then(loc, path[0]), path[1..])
  }

  lemma {:induction false} AfterNested(path: seq<Turn>)
    ensures After(Nested_, path) == Nested_
    ensures After(TopProp, path) == TopProp <==> forall j :: 0 <= j < |path| ==> Level(path[j])
  {
    if path != [] {
      AfterNested(path[1..]);
      assert forall j :: 0 < j < |path| ==> path[j] == path[1..][j - 1];
    }
  }

  lemma {:induction false} AfterRoot(path: seq<Turn>)
    ensures After(Root, path) == TopProp <==> TopLevel(path)
  {
    if path != [] {
      var rest := path[1..];
      AfterRoot(rest);
      AfterNested(rest);
      assert forall j :: 0 < j < |path| ==> path[j] == rest[j - 1];
      if Level(path[0]) {
        forall i
          ensures OnlyProperty(path, i) <==> OnlyProperty(rest, i - 1)
        {
          assert forall j :: 0 <= j < |rest| ==> rest[j] == path[j + 1];
        }
        if i :| OnlyProperty(rest, i) {
          assert OnlyProperty(path, i + 1);
        }
      } else if path[0].Prop? {
        assert forall j :: 0 <= j < |rest| ==> rest[j] == path[j + 1];
        assert (forall j :: 0 <= j < |rest| ==> Level(rest[j])) ==> OnlyProperty(path, 0);
      }
    }
  }

  // What the check asks of one member.
  ghost predicate WalksMember(k: string, v: Value, loc: Loc) {
    if k == "properties" then
      v.Obj? ==> forall j :: j in v.fields ==> WalkXSource(v.fields[j], if loc == Root then TopProp else Nested_)
    else if k == "items" || (k == "additionalProperties" && !(v.Leaf? && v.scalar.Bool?)) then WalkXSource(v, Nested_)
    else if k in COMBINATORS || k == "prefixItems" then
      v.Arr? ==> forall i :: 0 <= i < |v.items| ==> WalkXSource(v.items[i], loc)
    else if k in CHILDREN then WalkXSource(v, loc)
    else if k in DEFINITIONS then v.Obj? ==> forall j :: j in v.fields ==> WalkXSource(v.fields[j], Nested_)
    else true
  }

  lemma WalkMember(m: map<string, Value>, k: string, loc: Loc)
    requires k in m && WalkXSource(Obj(m), loc)
    ensures WalksMember(k, m[k], loc)
  {
  }

  lemma WalkTurns(v: Value, loc: Loc, t: Turn)
    requires WalkXSource(v, loc) && Turned(v, t).Some?
    ensures WalkXSource(Turned(v, t).value, Then(loc, t))
  {
    match t
    case Prop(_) => WalkMember(v.fields, "properties", loc);
    case Items => WalkMember(v.fields, "items", loc);
    case Further => WalkMember(v.fields, "additionalProperties", loc);
    case Alternative(c, _) => WalkMember(v.fields, c, loc);
    case Condition(c) => WalkMember(v.fields, c, loc);
    case Definition(c, _) => WalkMember(v.fields, c, loc);
    case Element(_) =>
  }

  lemma {:induction false} WalkReaches(v: Value, loc: Loc, path: seq<Turn>)
    requires WalkXSource(v, loc) && Reached(v, path).Some?
    ensures WalkXSource(Reached(v, path).value, After(loc, path))
  {
    if path != [] {
      WalkTurns(v, loc, path[0]);
      WalkReaches(Turned(v, path[0]).value, Then(loc, path[0]), path[1..]);
    }
  }

  // Every x-source below v, seen from loc, is where it may be.
  ghost predicate WellPlaced(v: Value, loc: Loc) {
    forall path :: CarriesSource(v, path) ==> After(loc, path) == TopProp
  }

  lemma PlacedBelow(v: Value, loc: Loc, t: Turn)
    requires WellPlaced(v, loc) && Turned(v, t).Some?
    ensures WellPlaced(Turned(v, t).value, Then(loc, t))
  {
    var w := Turned(v, t).value;
    forall path | CarriesSource(w, path)
      ensures After(Then(loc, t), path) == TopProp
    {
      var whole := [t] + path;
      assert whole[1..] == path;
      assert CarriesSource(v, whole);
    }
  }

  lemma PlacedHere(v: Value, loc: Loc)
    requires WellPlaced(v, loc) && FieldOf(v, "x-source").Some?
    ensures loc == TopProp
  {
    assert CarriesSource(v, []);
  }

  lemma {:induction false} PlacedWalks(v: Value, loc: Loc)
    requires WellPlaced(v, loc)
    ensures WalkXSource(v, loc)
    decreases v
  {
    match v
    case Leaf(_) =>
    case Arr(items) =>
      forall i | 0 <= i < |items| ensures WalkXSource(items[i], loc) {
        PlacedBelow(v, loc, Element(i));
        PlacedWalks(items[i], loc);
      }
    case Obj(m) =>
      if X_SOURCE in m {
        PlacedHere(v, loc);
      }
      forall k | k in m
        ensures WalksMember(k, m[k], loc)
      {
        PlacedMember(m, k, loc);
      }
  }

  lemma {:induction false} PlacedMember(m: map<string, Value>, k: string, loc: Loc)
    requires k in m && WellPlaced(Obj(m), loc)
    ensures WalksMember(k, m[k], loc)
    decreases Obj(m), 0
  {
    var v := Obj(m);
    if k == "properties" && m[k].Obj? {
      forall j | j in m[k].fields ensures WalkXSource(m[k].fields[j], Then(loc, Prop(j))) {
        PlacedBelow(v, loc, Prop(j));
        PlacedWalks(m[k].fields[j], Then(loc, Prop(j)));
      }
    } else if k == "items" {
      PlacedBelow(v, loc, Items);
      PlacedWalks(m[k], Nested_);
    } else if k == "additionalProperties" && !(m[k].Leaf? && m[k].scalar.Bool?) {
      PlacedBelow(v, loc, Further);
      PlacedWalks(m[k], Nested_);
    } else if (k in COMBINATORS || k == "prefixItems") && m[k].Arr? {
      forall i | 0 <= i < |m[k].items| ensures WalkXSource(m[k].items[i], loc) {
        PlacedBelow(v, loc, Alternative(k, i));
        PlacedWalks(m[k].items[i], loc);
      }
    } else if k in CHILDREN {
      PlacedBelow(v, loc, Condition(k));
      PlacedWalks(m[k], loc);
    } else if k in DEFINITIONS && m[k].Obj? {
      forall j | j in m[k].fields ensures WalkXSource(m[k].fields[j], Nested_) {
        PlacedBelow(v, loc, Definition(k, j));
        PlacedWalks(m[k].fields[j], Nested_);
      }
    }
  }

  // The check passes exactly when every x-source it can come to is on a property
  // of the schema itself.
  lemma PlacementExact(v: Value)
    ensures WalkXSource(v, Root) <==> forall path :: CarriesSource(v, path) ==> TopLevel(path)
  {
    forall path
      ensures After(Root, path) == TopProp <==> TopLevel(path)
    {
      AfterRoot(path);
    }
    if WalkXSource(v, Root) {
      forall path | CarriesSource(v, path)
        ensures After(Root, path) == TopProp
      {
        WalkReaches(v, Root, path);
      }
    }
    if forall path :: CarriesSource(v, path) ==> TopLevel(path) {
      assert WellPlaced(v, Root);
      PlacedWalks(v, Root);
    }
  }
}
