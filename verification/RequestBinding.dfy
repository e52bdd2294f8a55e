// From what an author writes on a property to what a request binds: the lift of
// internal/plans/schema.go and the binder of internal/plans/bind.go together.
module RequestBinding {
  import opened Bind
  import opened Inputs
  import opened Json
  import opened Lift
  import opened Outcomes
  import opened PassMeanings
  import opened Schema
  import opened Strings
  import Runners

  // The author lists the property, with this schema, under a name of its own.
  ghost predicate Authored(decoded: Value, key: string, prop: Value) {
    && decoded.Obj? && "properties" in decoded.fields && decoded.fields["properties"].Obj?
    && key in decoded.fields["properties"].fields && decoded.fields["properties"].fields[key] == prop
    && !ReservedInputKey(key)
  }

  ghost predicate AuthorRequires(decoded: Value, key: string) {
    decoded.Obj? && "required" in decoded.fields && decoded.fields["required"].Arr? &&
    Leaf(Str(key)) in decoded.fields["required"].items
  }

  // What a request holds in a header, a cookie or a query parameter of that
  // name; header names are compared by lower case.
  ghost function Held(r: Request, place: string, name: string): Option<string> {
    Lookup(r.values, Slot(place, if place == "header" then Lower(name) else name))
  }

  // The consumer schema has the author's own schema for it, and requires it if
  // the author does.
  lemma ConsumerKeepsProperty(decoded: Value, key: string, prop: Value)
    requires Authored(decoded, key, prop)
    ensures var v := ConsumerSchema(decoded);
            && key in Properties(v) && Properties(v)[key] == prop
            && (RequiredHas(Required(v), key) <==> AuthorRequires(decoded, key))
  {
    var m := decoded.fields;
    var pruned := Run(Reserved, decoded);
    PassMeans(Reserved, decoded);
    assert MemberBecomes(Reserved, "properties", m["properties"], pruned.fields["properties"]);
    if "required" in m {
      assert MemberBecomes(Reserved, "required", m["required"], pruned.fields["required"]);
      RequiredStays(m["required"], pruned.fields["required"], key);
    }
    PassMeans(Closing, pruned);
    var v := ConsumerSchema(decoded);
    assert MemberBecomes(Closing, "properties", pruned.fields["properties"], v.fields["properties"]);
    if "required" in m {
      assert MemberBecomes(Closing, "required", pruned.fields["required"], v.fields["required"]);
    }
  }

  lemma RequiredStays(v: Value, r: Value, key: string)
    requires Unreserved(v, r) && !ReservedInputKey(key)
    ensures RequiredHas(r, key) <==> RequiredHas(v, key)
  {
    if v.Arr? {
      var x := Leaf(Str(key));
      assert multiset(r.items)[x] == multiset(v.items)[x];
      assert x in multiset(r.items) <==> x in r.items;
      assert x in multiset(v.items) <==> x in v.items;
    }
  }

  // The parameter that an authored property is lifted to.
  lemma LiftedParam(decoded: Value, key: string, prop: Value, place: string, name: string, params: seq<Param>)
    returns (i: nat)
    requires Authored(decoded, key, prop) && ComesFrom(key, prop, place, name)
    requires var v := ConsumerSchema(decoded); LiftsAll(Properties(v), Required(v), Properties(v).Keys, params)
    ensures i < |params| && params[i].key == key && params[i].in_ == place && params[i].name == name
    ensures params[i].required <==> AuthorRequires(decoded, key)
    ensures params[i].schema == Run(Vendor, prop)
  {
    var v := ConsumerSchema(decoded);
    var required := RequiredHas(Required(v), key);
    ConsumerKeepsProperty(decoded, key, prop);
    LiftExact(key, prop, required, Param(key, name, place, required, Run(Vendor, prop)));
    LiftableIgnoresKey(key, prop, required);
    assert HasParam(params, key);
    i :| 0 <= i < |params| && params[i].key == key;
    assert IsLift(Properties(v), Required(v), params[i]);
  }

  lemma ReadFromHeld(r: Request, p: Param)
    requires p.in_ in {"header", "cookie", "query"}
    ensures var held := Held(r, p.in_, p.name);
            RestValue(Some(r), p) == if held.Some? && Trim(held.value) != "" then Some(Trim(held.value)) else None
  {
  }

  lemma BoundAt(call: Runners.Call, params: seq<Param>, bound: Fields, i: nat)
    requires call.workflow.inputs.Ok? && Runners.BindsWith(call, params, bound) && i < |params|
    ensures params[i].key !in call.inputs && (params[i].required ==> RestValue(call.ctx.rest, params[i]).Some?)
    ensures Lookup(bound, params[i].key) == TextOf(RestValue(call.ctx.rest, params[i]))
  {
    SuppliedOne(call.ctx.rest, params, i);
    assert Bindable(call.inputs, call.ctx.rest, params);
  }

  // A request binds what the author asked for: a property that comes by HTTP
  // from a header, cookie or query parameter is bound to the text the request
  // holds there, trimmed; where the request holds nothing or a blank, the
  // property is not bound, and nothing is if the author requires it.
  lemma RequestBinds(call: Runners.Call, r: Request, decoded: Value, key: string, prop: Value, place: string,
                     name: string, bound: Fields)
    requires call.ctx.rest == Some(r) && call.workflow.inputs == Ok(decoded)
    requires Authored(decoded, key, prop) && ComesFrom(key, prop, place, name)
    requires Runners.Binds(call, bound)
    ensures key !in call.inputs
    ensures var held := Held(r, place, name);
            if held.Some? && Trim(held.value) != "" then Lookup(bound, key) == Some(Leaf(Str(Trim(held.value))))
            else key !in bound && !AuthorRequires(decoded, key)
  {
    var params: seq<Param> :| Runners.BindsWith(call, params, bound);
    var i := LiftedParam(decoded, key, prop, place, name, params);
    BoundAt(call, params, bound, i);
    ReadFromHeld(r, params[i]);
  }

  lemma LiftedHeader(schema: Value, key: string, name: string, params: seq<Param>) returns (i: nat)
    requires key in Properties(schema) && ComesFrom(key, Properties(schema)[key], "header", name)
    requires LiftsHeaders(Properties(schema), Required(schema), Properties(schema).Keys, params)
    ensures i < |params| && params[i].key == key && params[i].name == name
  {
    var prop, required := Properties(schema)[key], RequiredHas(Required(schema), key);
    var p := Param(key, name, "header", required, Run(Vendor, prop));
    LiftOutputExact(key, prop, required, p);
    assert HasParam(params, key);
    i :| 0 <= i < |params| && params[i].key == key;
    assert IsOutputLift(Properties(schema), Required(schema), params[i]);
  }

  lemma TextPlaced(params: seq<Param>, i: nat, text: string, outputs: Fields,
                   render: Value -> Result<string, ()>, body: Fields, headers: map<string, string>)
    requires Splits(outputs, params, render, body, headers) && i < |params|
    requires params[i].key in outputs && outputs[params[i].key] == Leaf(Str(text)) && Trim(text) != ""
    ensures Lookup(headers, Lower(params[i].name)) == Some(Trim(text)) && params[i].key !in body
  {
    assert PlacedRight(Place(outputs, params[i], render), params[i], body, headers);
  }

  // An output goes where its author says: text of one that comes by HTTP in a
  // header leaves in the header of that name, trimmed, and not in the body.
  lemma OutputTravels(schema: Value, key: string, name: string, text: string, params: seq<Param>, outputs: Fields,
                      render: Value -> Result<string, ()>, body: Fields, headers: map<string, string>)
    requires key in Properties(schema) && ComesFrom(key, Properties(schema)[key], "header", name)
    requires LiftsHeaders(Properties(schema), Required(schema), Properties(schema).Keys, params)
    requires Splits(outputs, params, render, body, headers)
    requires key in outputs && outputs[key] == Leaf(Str(text)) && Trim(text) != ""
    ensures Lookup(headers, Lower(name)) == Some(Trim(text)) && key !in body
  {
    var i := LiftedHeader(schema, key, name, params);
    TextPlaced(params, i, text, outputs, render, body, headers);
  }
}
