// How internal/plans/schema.go splits one schema into HTTP parameters and a
// JSON body (inputs), or into response headers and a body (outputs).
module Lift {
  import opened Outcomes
  import opened Strings
  import opened Json
  import opened Inputs
  import opened Schema

  datatype Param = Param(key: string, name: string, in_: string, required: bool, schema: Value)

  // ------------------------------------------------------------ x-source

  datatype Source = Source(interface_: string, protocol: string, in_: string, name: string)

  // asString(m[key])
  function Text(m: Fields, key: string): string {
    if key in m && m[key].Leaf? && m[key].scalar.Str? then m[key].scalar.s else ""
  }

  // parseInputSource
  function ParseSource(v: Value): Option<Source> {
    if !v.Obj? then None
    else
      var m := v.fields;
      Some(Source(Lower(Trim(Text(m, "interface"))), Lower(Trim(Text(m, "protocol"))),
                  Lower(Trim(Text(m, "in"))), Trim(Text(m, "name"))))
  }

  // liftRESTParam: None when the property stays in the body.
  function LiftParam(key: string, prop: Value, required: bool): (p: Option<Param>)
    ensures p.Some? ==> p.value.key == key && p.value.required == required
    ensures p.Some? ==> p.value.in_ in {"header", "cookie", "query"}
  {
    if !prop.Obj? || X_SOURCE !in prop.fields then None
    else
      match ParseSource(prop.fields[X_SOURCE])
      case None => None
      case Some(src) =>
        if src.interface_ != "rest" then None
        else if src.protocol != "" && src.protocol != "http" then None
        else if src.in_ !in {"header", "cookie", "query"} then None
        else Some(Param(key, if src.name == "" then key else src.name, src.in_, required, Run(Vendor, prop)))
  }

  // The text member of an object, blank where there is none.
  ghost predicate Reads(src: Fields, member: string, text: string) {
    if member in src && src[member].Leaf? && src[member].scalar.Str? then src[member] == Leaf(Str(text)) else text == ""
  }

  // What the property's x-source says, as its author wrote it.
  ghost predicate SourceReads(prop: Value, interface_: string, protocol: string, in_: string, name: string) {
    && prop.Obj? && "x-source" in prop.fields && prop.fields["x-source"].Obj?
    && var src := prop.fields["x-source"].fields;
       Reads(src, "interface", interface_) && Reads(src, "protocol", protocol) && Reads(src, "in", in_) &&
       Reads(src, "name", name)
  }

  // The property comes by HTTP from that place, under that name.
  ghost predicate ComesFrom(key: string, prop: Value, place: string, name: string) {
    exists i, p, n, m :: SourceReads(prop, i, p, n, m) && FromHttp(key, i, p, n, m, place, name)
  }

  ghost predicate FromHttp(key: string, i: string, p: string, n: string, m: string, place: string, name: string) {
    && Lower(Trim(i)) == "rest" && Lower(Trim(p)) in {"", "http"}
    && Lower(Trim(n)) == place && place in {"header", "cookie", "query"}
    && name == if Trim(m) == "" then key else Trim(m)
  }

  lemma ParsedSource(prop: Value, i: string, p: string, n: string, m: string)
    requires SourceReads(prop, i, p, n, m)
    ensures prop.Obj? && X_SOURCE in prop.fields
    ensures ParseSource(prop.fields[X_SOURCE]) == Some(Source(Lower(Trim(i)), Lower(Trim(p)), Lower(Trim(n)), Trim(m)))
  {
  }

  // An x-source that is an object always says something.
  lemma SourceSays(prop: Value) returns (i: string, p: string, n: string, m: string)
    requires prop.Obj? && X_SOURCE in prop.fields && prop.fields[X_SOURCE].Obj?
    ensures SourceReads(prop, i, p, n, m)
  {
    var src := prop.fields[X_SOURCE].fields;
    i, p, n, m := Text(src, "interface"), Text(src, "protocol"), Text(src, "in"), Text(src, "name");
  }

  // A property is lifted exactly when its x-source, trimmed and in lower case,
  // says that it comes by HTTP from a header, a cookie or the query; its place
  // is then that text, and its name the trimmed "name", or the key if there is
  // none.
  lemma LiftExact(key: string, prop: Value, required: bool, p: Param)
    ensures LiftParam(key, prop, required) == Some(p) <==>
              ComesFrom(key, prop, p.in_, p.name) && p == Param(key, p.name, p.in_, required, Run(Vendor, prop))
  {
    if prop.Obj? && X_SOURCE in prop.fields && prop.fields[X_SOURCE].Obj? {
      var i, pr, n, m := SourceSays(prop);
      ParsedSource(prop, i, pr, n, m);
      assert ComesFrom(key, prop, p.in_, p.name) <==> FromHttp(key, i, pr, n, m, p.in_, p.name);
    }
  }

  predicate Liftable(prop: Value) {
    LiftParam("", prop, false).Some?
  }

  lemma LiftableIgnoresKey(key: string, prop: Value, required: bool)
    ensures LiftParam(key, prop, required).Some? <==> Liftable(prop)
  {
  }

  // requiredHas
  predicate RequiredHas(v: Value, key: string) {
    v.Arr? && Leaf(Str(key)) in v.items
  }

  // filterRequiredKeys
  function FilterRequired(v: Value, drop: set<string>): Value {
    if v.Arr? then Arr(DropStrings(v.items, drop)) else if v == Leaf(NilSlice) then Arr([]) else v
  }

  lemma {:induction false} DropStringsKeeps(items: seq<Value>, drop: set<string>, v: Value)
    ensures v in DropStrings(items, drop) <==> v in items && !(v.Leaf? && v.scalar.Str? && v.scalar.s in drop)
  {
    if items != [] {
      DropStringsKeeps(items[1..], drop, v);
    }
  }

  predicate RequiredEmpty(v: Value) {
    v == Arr([]) || v == Leaf(NilSlice)
  }

  // ------------------------------------------------------------ inputs

  function Properties(v: Value): Fields {
    if v.Obj? && "properties" in v.fields && v.fields["properties"].Obj? then v.fields["properties"].fields else map[]
  }

  function Required(v: Value): Value {
    if v.Obj? && "required" in v.fields then v.fields["required"] else Leaf(Null)
  }

  function LiftedKeys(props: Fields): set<string> {
    set k | k in props && Liftable(props[k])
  }

  // What is left of the schema's members: the lifted properties are gone, from
  // the properties and from the required list, and neither member is left empty.
  function BodyMembers(m: Fields, rest: Fields, lifted: set<string>): Fields {
    var m1 := if lifted != {} && "required" in m then m["required" := FilterRequired(m["required"], lifted)] else m;
    var m2 := if rest == map[] then m1 - {"properties"} else m1["properties" := Obj(rest)];
    if "required" in m2 && RequiredEmpty(m2["required"]) then m2 - {"required"} else m2
  }

  function BodySchema(v: Value): Value {
    var props := Properties(v);
    if props == map[] then Run(Vendor, v)
    else
      var lifted := LiftedKeys(props);
      Run(Vendor, Obj(BodyMembers(v.fields, props - lifted, lifted)))
  }

  ghost predicate HasParam(params: seq<Param>, k: string) {
    exists i :: 0 <= i < |params| && params[i].key == k
  }

  ghost predicate IsLift(props: Fields, required: Value, p: Param) {
    p.key in props && Some(p) == LiftParam(p.key, props[p.key], RequiredHas(required, p.key))
  }

  // The parameters: one for each lifted property among keys, in some order.
  ghost predicate LiftsAll(props: Fields, required: Value, keys: set<string>, params: seq<Param>) {
    && (forall i :: 0 <= i < |params| ==> params[i].key in keys && IsLift(props, required, params[i]))
    && (forall i, j :: 0 <= i < j < |params| ==> params[i].key != params[j].key)
    && (forall k :: k in keys && k in props && Liftable(props[k]) ==> HasParam(params, k))
  }

  lemma HasParamSnoc(params: seq<Param>, p: Param, k: string)
    ensures HasParam(params + [p], k) <==> HasParam(params, k) || p.key == k
  {
    var more := params + [p];
    assert more[|params|] == p;
    if i :| 0 <= i < |params| && params[i].key == k {
      assert more[i].key == k;
    }
  }

  lemma LiftsSkip(props: Fields, required: Value, keys: set<string>, params: seq<Param>, k: string)
    requires LiftsAll(props, required, keys, params) && (k in props ==> !Liftable(props[k]))
    ensures LiftsAll(props, required, keys + {k}, params)
  {
  }

  lemma LiftsAdd(props: Fields, required: Value, keys: set<string>, params: seq<Param>, p: Param)
    requires LiftsAll(props, required, keys, params) && p.key !in keys && IsLift(props, required, p)
    ensures LiftsAll(props, required, keys + {p.key}, params + [p])
  {
    var more := params + [p];
    forall i | 0 <= i < |more|
      ensures more[i].key in keys + {p.key} && IsLift(props, required, more[i])
    {
      assert i < |params| ==> more[i] == params[i];
    }
    forall j | j in keys + {p.key} && j in props && Liftable(props[j])
      ensures HasParam(more, j)
    {
      HasParamSnoc(params, p, j);
    }
  }

  // The body of both lifting loops, for one key that has not been handled.
  method LiftOne(ghost all: Fields, props: Fields, required: Value, ghost handled: set<string>, params: seq<Param>,
                 key: string)
    returns (props': Fields, params': seq<Param>)
    requires props == all - LiftedKeys(all) * handled && key !in handled
    requires LiftsAll(all, required, handled, params)
    ensures props' == all - LiftedKeys(all) * (handled + {key})
    ensures LiftsAll(all, required, handled + {key}, params')
  {
    props', params' := props, params;
    if key in props {
      var param := LiftParam(key, props[key], RequiredHas(required, key));
      LiftableIgnoresKey(key, props[key], RequiredHas(required, key));
      if param.Some? {
        LiftsAdd(all, required, handled, params, param.value);
        params' := params + [param.value];
        props' := props - {key};
        return;
      }
    }
    LiftsSkip(all, required, handled, params, key);
  }

  // The two loops: the keys in document order first, then any others in map
  // order. A key listed twice is handled once.
  method LiftLoops(all: Fields, required: Value, order: seq<string>) returns (props: Fields, params: seq<Param>)
    ensures props == all - LiftedKeys(all)
    ensures LiftsAll(all, required, all.Keys, params)
  {
    props, params := all, [];
    var seen: set<string> := {};
    for i := 0 to |order|
      invariant props == all - LiftedKeys(all) * seen
      invariant LiftsAll(all, required, seen, params)
    {
      if order[i] !in seen {
        props, params := LiftOne(all, props, required, seen, params, order[i]);
        seen := seen + {order[i]};
      }
    }
    var todo := props.Keys - seen;
    ghost var handled := seen;
    while todo != {}
      invariant todo == props.Keys - handled && todo !! handled
      invariant props == all - LiftedKeys(all) * handled
      invariant LiftsAll(all, required, handled, params)
      decreases todo
    {
      var key :| key in todo;
      props, params := LiftOne(all, props, required, handled, params, key);
      handled := handled + {key};
      todo := todo - {key};
    }
    assert forall k :: k in all && k !in handled ==> k !in props;
    assert LiftedKeys(all) <= handled;
    assert LiftedKeys(all) * handled == LiftedKeys(all);
  }

  // splitOpenAPIInputs, on the decoded consumer schema and the order in which
  // the source document lists its properties.
  method SplitInputs(v: Value, order: seq<string>) returns (body: Value, params: seq<Param>)
    ensures body == BodySchema(v)
    ensures LiftsAll(Properties(v), Required(v), Properties(v).Keys, params)
  {
    var all := Properties(v);
    if all == map[] {
      body := RunPass(Vendor, v);
      return body, [];
    }
    var props;
    props, params := LiftLoops(all, Required(v), order);
    var drop := all.Keys - props.Keys;
    assert drop == LiftedKeys(all);
    var m := v.fields;
    if drop != {} && "required" in m {
      m := m["required" := FilterRequired(m["required"], drop)];
    }
    if props == map[] {
      m := m - {"properties"};
    } else {
      m := m["properties" := Obj(props)];
    }
    if "required" in m && RequiredEmpty(m["required"]) {
      m := m - {"required"};
    }
    body := RunPass(Vendor, Obj(m));
  }

  function VendorAll(props: Fields): Fields {
    map k | k in props :: Run(Vendor, props[k])
  }

  // The vendor pass goes through the properties and keeps the required list.
  lemma VendorKeepsOutline(m: Fields)
    ensures Properties(Run(Vendor, Obj(m))) == VendorAll(Properties(Obj(m)))
    ensures Required(Run(Vendor, Obj(m))) == Required(Obj(m))
  {
    PropertiesVisit();
    var r := Run(Vendor, Obj(m)).fields;
    assert VisitOf(Vendor, "required").Skip? && "required" != X_SOURCE;
    assert "required" in r <==> "required" in m;
    if "required" in m {
      assert r["required"] == RunMembers(Vendor, m)["required"];
      assert RunMembers(Vendor, m)["required"] == RunMember(Vendor, "required", m["required"]);
    }
    assert "properties" in r <==> "properties" in m;
    if "properties" in m {
      assert r["properties"] == RunMembers(Vendor, m)["properties"];
      assert RunMembers(Vendor, m)["properties"] == RunMember(Vendor, "properties", m["properties"]);
      assert RunMember(Vendor, "properties", m["properties"]) == OnFields(Vendor, m["properties"]);
    }
    assert Properties(Run(Vendor, Obj(m))) == VendorAll(Properties(Obj(m)));
  }

  lemma BodyMembersHold(m: Fields, rest: Fields, lifted: set<string>, k: string)
    ensures Properties(Obj(BodyMembers(m, rest, lifted))) == rest
    ensures RequiredHas(Required(Obj(BodyMembers(m, rest, lifted))), k) <==>
              RequiredHas(Required(Obj(m)), k) && k !in lifted
  {
    var required := Required(Obj(m));
    if required.Arr? {
      DropStringsKeeps(required.items, lifted, Leaf(Str(k)));
    }
  }

  // The properties left in the body are the ones not lifted, each with its own
  // schema less the vendor members.
  lemma BodyProperties(v: Value)
    ensures Properties(BodySchema(v)) == VendorAll(Properties(v) - LiftedKeys(Properties(v)))
  {
    var props := Properties(v);
    var lifted := LiftedKeys(props);
    if props != map[] {
      var m := BodyMembers(v.fields, props - lifted, lifted);
      BodyMembersHold(v.fields, props - lifted, lifted, "");
      VendorKeepsOutline(m);
    } else if v.Obj? {
      VendorKeepsOutline(v.fields);
    } else {
      assert !Run(Vendor, v).Obj?;
    }
  }

  // The required names left in the body are the ones not lifted.
  lemma BodyRequired(v: Value, k: string)
    ensures RequiredHas(Required(BodySchema(v)), k) <==>
              RequiredHas(Required(v), k) && k !in LiftedKeys(Properties(v))
  {
    var props := Properties(v);
    var lifted := LiftedKeys(props);
    if props != map[] {
      var m := BodyMembers(v.fields, props - lifted, lifted);
      BodyMembersHold(v.fields, props - lifted, lifted, k);
      VendorKeepsOutline(m);
    } else if v.Obj? {
      VendorKeepsOutline(v.fields);
    } else {
      assert !Run(Vendor, v).Obj?;
    }
  }

  lemma NoEmptyProperties(m: Fields, rest: Fields, lifted: set<string>)
    ensures "properties" in BodyMembers(m, rest, lifted) ==>
              rest != map[] && BodyMembers(m, rest, lifted)["properties"] == Obj(rest)
  {
  }

  lemma NoEmptyRequired(m: Fields, rest: Fields, lifted: set<string>)
    ensures "required" in BodyMembers(m, rest, lifted) ==>
              BodyMembers(m, rest, lifted)["required"] != Arr([]) &&
              BodyMembers(m, rest, lifted)["required"] != Leaf(NilSlice)
  {
  }

  lemma VendorKeepsMembers(m: Fields)
    ensures var r := Run(Vendor, Obj(m)).fields;
            && ("properties" in r <==> "properties" in m)
            && ("properties" in m ==> r["properties"] == OnFields(Vendor, m["properties"]))
            && Lookup(r, "required") == Lookup(m, "required")
  {
    PropertiesVisit();
    MemberAfter(Vendor, m, "properties");
    MemberAfter(Vendor, m, "required");
    assert VisitOf(Vendor, "required").Skip?;
  }

  // Splitting leaves nothing empty behind: no properties without a property, and
  // no required list without an entry.
  lemma NothingLeftEmpty(v: Value)
    requires Properties(v) != map[]
    ensures BodySchema(v).Obj?
    ensures var r := BodySchema(v).fields;
            && ("properties" in r ==> r["properties"].Obj? && r["properties"].fields != map[])
            && ("required" in r ==> r["required"] != Arr([]) && r["required"] != Leaf(NilSlice))
  {
    var props := Properties(v);
    var lifted := LiftedKeys(props);
    var m := BodyMembers(v.fields, props - lifted, lifted);
    NoEmptyProperties(v.fields, props - lifted, lifted);
    NoEmptyRequired(v.fields, props - lifted, lifted);
    VendorKeepsMembers(m);
    if "properties" in m {
      var k :| k in props - lifted;
      assert OnFields(Vendor, Obj(props - lifted)).fields.Keys == (props - lifted).Keys;
    }
    assert Lookup(m, "required").Some? <==> "required" in m;
  }

  // Splitting conserves the properties and the required list: each property is
  // a parameter or a body property, never both, with its own schema less the
  // vendor members, and each required name stays required on the side it went to.
  lemma SplitConserves(v: Value, params: seq<Param>, k: string)
    requires LiftsAll(Properties(v), Required(v), Properties(v).Keys, params)
    ensures k in Properties(v) <==> HasParam(params, k) || k in Properties(BodySchema(v))
    ensures !(HasParam(params, k) && k in Properties(BodySchema(v)))
    ensures RequiredHas(Required(v), k) <==>
              || RequiredHas(Required(BodySchema(v)), k)
              || exists i :: 0 <= i < |params| && params[i].key == k && params[i].required
    ensures k in Properties(BodySchema(v)) ==> Properties(BodySchema(v))[k] == Run(Vendor, Properties(v)[k])
    ensures forall i :: 0 <= i < |params| && params[i].key == k ==> params[i].schema == Run(Vendor, Properties(v)[k])
  {
    BodyProperties(v);
    forall i | 0 <= i < |params| && params[i].key == k
      ensures k in Properties(v) && params[i].schema == Run(Vendor, Properties(v)[k])
    {
      assert IsLift(Properties(v), Required(v), params[i]);
    }
    BodyRequired(v, k);
    if i :| 0 <= i < |params| && params[i].key == k {
      assert IsLift(Properties(v), Required(v), params[i]);
      LiftableIgnoresKey(k, Properties(v)[k], RequiredHas(Required(v), k));
    }
    assert k in LiftedKeys(Properties(v)) <==> HasParam(params, k);
  }

  // ------------------------------------------------------------ outputs

  // liftOutputRESTParam: a property that carries x-source must say it is an
  // HTTP response header, or is for MCP.
  function LiftOutput(key: string, prop: Value, required: bool): (r: Result<Option<Param>, ()>)
    ensures r.Ok? && r.value.Some? ==> r.value.value.key == key && r.value.value.required == required
  {
    if !prop.Obj? || X_SOURCE !in prop.fields then Ok(None)
    else
      match ParseSource(prop.fields[X_SOURCE])
      case None => Err(())
      case Some(src) =>
        if src.interface_ == "mcp" then Ok(None)
        else if src.interface_ != "rest" then Err(())
        else if src.protocol != "" && src.protocol != "http" then Err(())
        else if src.in_ != "header" then Err(())
        else Ok(Some(Param(key, if src.name == "" then key else src.name, "header", required, Run(Vendor, prop))))
  }

  // An output is lifted exactly when its x-source says so of a response header.
  lemma LiftOutputExact(key: string, prop: Value, required: bool, p: Param)
    ensures LiftOutput(key, prop, required) == Ok(Some(p)) <==>
              ComesFrom(key, prop, "header", p.name) && p == Param(key, p.name, "header", required, Run(Vendor, prop))
  {
    if prop.Obj? && X_SOURCE in prop.fields && prop.fields[X_SOURCE].Obj? {
      var i, pr, n, m := SourceSays(prop);
      ParsedSource(prop, i, pr, n, m);
      assert ComesFrom(key, prop, "header", p.name) <==> FromHttp(key, i, pr, n, m, "header", p.name);
    }
  }

  ghost predicate ForMcp(prop: Value) {
    exists i, p, n, m :: SourceReads(prop, i, p, n, m) && Lower(Trim(i)) == "mcp"
  }

  // It stays in the body when it has no x-source or one for MCP; anything else
  // is an error.
  lemma OutputStays(key: string, prop: Value, required: bool)
    ensures LiftOutput(key, prop, required) == Ok(None) <==>
              !prop.Obj? || "x-source" !in prop.fields || ForMcp(prop)
  {
    if prop.Obj? && X_SOURCE in prop.fields && prop.fields[X_SOURCE].Obj? {
      var i, p, n, m := SourceSays(prop);
      ParsedSource(prop, i, p, n, m);
      assert ForMcp(prop) <==> Lower(Trim(i)) == "mcp";
    }
  }

  ghost predicate IsOutputLift(props: Fields, required: Value, p: Param) {
    p.key in props && LiftOutput(p.key, props[p.key], RequiredHas(required, p.key)) == Ok(Some(p))
  }

  // The header parameters of the handled outputs: one per lifted output, no
  // two with the same header name.
  ghost predicate LiftsHeaders(props: Fields, required: Value, keys: set<string>, params: seq<Param>) {
    && (forall i :: 0 <= i < |params| ==> params[i].key in keys && IsOutputLift(props, required, params[i]))
    && (forall i, j :: 0 <= i < j < |params| ==>
          params[i].key != params[j].key && Lower(params[i].name) != Lower(params[j].name))
    && (forall k :: k in keys && k in props ==>
          LiftOutput(k, props[k], RequiredHas(required, k)).Ok? &&
          (LiftOutput(k, props[k], RequiredHas(required, k)).value.Some? ==> HasParam(params, k)))
  }

  // Two outputs lifted to the same header.
  ghost predicate HeadersClash(props: Fields, required: Value) {
    exists p, q ::
      IsOutputLift(props, required, p) && IsOutputLift(props, required, q) &&
      p.key != q.key && Lower(p.name) == Lower(q.name)
  }

  ghost predicate OutputsLiftable(props: Fields, required: Value) {
    && (forall k :: k in props ==> LiftOutput(k, props[k], RequiredHas(required, k)).Ok?)
    && !HeadersClash(props, required)
  }

  // When the outputs can be split: the schema speaks only of declared outputs,
  // every x-source is one that can be lifted, and no header is used twice.
  ghost predicate Splittable(names: set<string>, schema: Value) {
    && schema.Obj? && Properties(schema).Keys <= names
    && (forall k :: RequiredHas(Required(schema), k) ==> k in names)
    && OutputsLiftable(Properties(schema), Required(schema))
  }

  // Once every property has been handled, no two lifted ones share a header.
  lemma AllHandled(props: Fields, required: Value, params: seq<Param>)
    requires LiftsHeaders(props, required, props.Keys, params)
    ensures OutputsLiftable(props, required)
  {
    forall p, q | IsOutputLift(props, required, p) && IsOutputLift(props, required, q) && p.key != q.key
      ensures Lower(p.name) != Lower(q.name)
    {
      var i :| 0 <= i < |params| && params[i].key == p.key;
      var j :| 0 <= j < |params| && params[j].key == q.key;
      assert IsOutputLift(props, required, params[i]) && IsOutputLift(props, required, params[j]);
      assert params[i] == p && params[j] == q;
    }
  }

  function ParamKeys(params: seq<Param>): (keys: set<string>)
    ensures forall k :: k in keys <==> HasParam(params, k)
  {
    set i | 0 <= i < |params| :: params[i].key
  }

  // An output's own schema, or none.
  function OutputSchema(props: Fields, k: string): Value {
    if k in props && props[k].Obj? then Run(Vendor, props[k]) else Obj(map[])
  }

  function BodyFields(props: Fields, required: Option<Value>): Fields {
    var typed := map["type" := Leaf(Str("object"))];
    var listed := if props != map[] then typed["properties" := Obj(props)] else typed;
    match required case None => listed case Some(r) => listed["required" := r]
  }

  // The required list without the lifted names, if anything is left of it.
  function RequiredLeft(schema: Value, lifted: set<string>): Option<Value> {
    if schema.Obj? && "required" in schema.fields && !RequiredEmpty(FilterRequired(schema.fields["required"], lifted))
    then Some(FilterRequired(schema.fields["required"], lifted)) else None
  }

  function BodyProps(names: set<string>, props: Fields, params: seq<Param>): Fields {
    map k | k in names - ParamKeys(params) :: OutputSchema(props, k)
  }

  // The response body's schema: the outputs that are not lifted, each with its
  // own schema, and what is left of the required list.
  function ResponseBody(names: set<string>, schema: Value, params: seq<Param>): Value {
    Obj(BodyFields(BodyProps(names, Properties(schema), params), RequiredLeft(schema, ParamKeys(params))))
  }

  lemma BodyFieldsHold(props: Fields, required: Option<Value>)
    ensures Properties(Obj(BodyFields(props, required))) == props
    ensures Required(Obj(BodyFields(props, required))) == if required.Some? then required.value else Leaf(Null)
  {
  }

  lemma RequiredLeftHolds(schema: Value, lifted: set<string>, k: string)
    ensures RequiredHas(Required(schema), k) && k !in lifted <==>
              RequiredLeft(schema, lifted).Some? && RequiredHas(RequiredLeft(schema, lifted).value, k)
  {
    if Required(schema).Arr? {
      DropStringsKeeps(Required(schema).items, lifted, Leaf(Str(k)));
    }
  }

  lemma HeaderOf(schema: Value, params: seq<Param>, k: string, i: nat)
    requires LiftsHeaders(Properties(schema), Required(schema), Properties(schema).Keys, params)
    requires i < |params| && params[i].key == k
    ensures k in Properties(schema) && params[i].schema == Run(Vendor, Properties(schema)[k])
    ensures params[i].required <==> RequiredHas(Required(schema), k)
  {
    assert IsOutputLift(Properties(schema), Required(schema), params[i]);
  }

  // Splitting the outputs conserves them: each is a header or a body property,
  // never both, with its own schema, and each required name stays required on
  // the side it went to.
  lemma OutputsConserve(names: set<string>, schema: Value, params: seq<Param>, k: string)
    requires Splittable(names, schema)
    requires LiftsHeaders(Properties(schema), Required(schema), Properties(schema).Keys, params)
    ensures var body := ResponseBody(names, schema, params);
            && (k in names <==> HasParam(params, k) || k in Properties(body))
            && !(HasParam(params, k) && k in Properties(body))
            && (k in Properties(body) ==>
                  Properties(body)[k] == if k in Properties(schema) && Properties(schema)[k].Obj?
                                         then Run(Vendor, Properties(schema)[k]) else Obj(map[]))
            && (forall i :: 0 <= i < |params| && params[i].key == k ==>
                  k in Properties(schema) && params[i].schema == Run(Vendor, Properties(schema)[k]))
            && (RequiredHas(Required(body), k) <==> RequiredHas(Required(schema), k) && !HasParam(params, k))
            && (forall i :: 0 <= i < |params| && params[i].key == k ==>
                  (params[i].required <==> RequiredHas(Required(schema), k)))
  {
    var left := RequiredLeft(schema, ParamKeys(params));
    BodyFieldsHold(BodyProps(names, Properties(schema), params), left);
    RequiredLeftHolds(schema, ParamKeys(params), k);
    forall i | 0 <= i < |params| && params[i].key == k
      ensures k in names && k in Properties(schema) && params[i].schema == Run(Vendor, Properties(schema)[k])
      ensures params[i].required <==> RequiredHas(Required(schema), k)
    {
      HeaderOf(schema, params, k, i);
    }
  }

  // The body properties once some of the schema's properties have been handled.
  ghost predicate BodyHolds(names: set<string>, props: Fields, handled: set<string>, params: seq<Param>, body: Fields) {
    && body.Keys == names - ParamKeys(params)
    && forall k :: k in body ==> body[k] == if k in handled then OutputSchema(props, k) else Obj(map[])
  }

  // splitOpenAPIOutputs, for the declared output names and the decoded
  // x-outputs schema: the body's schema, and the headers.
  method SplitOutputs(names: set<string>, schema: Value, order: seq<string>)
    returns (r: Result<(Value, seq<Param>), ()>)
    ensures r.Ok? <==> Splittable(names, schema)
    ensures r.Ok? ==> LiftsHeaders(Properties(schema), Required(schema), Properties(schema).Keys, r.value.1)
    ensures r.Ok? ==> r.value.0 == ResponseBody(names, schema, r.value.1)
  {
    if !schema.Obj? {
      return Err(());
    }
    var props, required := Properties(schema), Required(schema);
    if !(props.Keys <= names) {
      return Err(());
    }
    if required.Arr? && exists i :: 0 <= i < |required.items| && required.items[i].Leaf? &&
                          required.items[i].scalar.Str? && required.items[i].scalar.s !in names {
      return Err(());
    }
    var handled := HandleOutputs(names, props, required, order);
    if handled.Err? {
      return Err(());
    }
    var (bodyProps, params) := handled.value;
    var body := map["type" := Leaf(Str("object"))];
    if bodyProps != map[] {
      body := body["properties" := Obj(bodyProps)];
    }
    if "required" in schema.fields {
      var filtered := FilterRequired(schema.fields["required"], ParamKeys(params));
      if !RequiredEmpty(filtered) {
        body := body["required" := filtered];
      }
    }
    assert bodyProps == BodyProps(names, props, params);
    assert body == BodyFields(bodyProps, RequiredLeft(schema, ParamKeys(params)));
    return Ok((Obj(body), params));
  }

  // The two loops: the listed keys in document order, then the rest in any.
  method HandleOutputs(names: set<string>, props: Fields, required: Value, order: seq<string>)
    returns (r: Result<(Fields, seq<Param>), ()>)
    requires props.Keys <= names
    ensures r.Ok? <==> OutputsLiftable(props, required)
    ensures r.Ok? ==> LiftsHeaders(props, required, props.Keys, r.value.1)
    ensures r.Ok? ==> BodyHolds(names, props, props.Keys, r.value.1, r.value.0)
  {
    var listed := HandleListed(names, props, required, order);
    if listed.Err? {
      return Err(());
    }
    var (body, params, handled) := listed.value;
    var todo := props.Keys - handled;
    assert handled + todo == props.Keys;
    while todo != {}
      invariant handled + todo == props.Keys && handled !! todo
      invariant LiftsHeaders(props, required, handled, params) && BodyHolds(names, props, handled, params, body)
      decreases todo
    {
      var key :| key in todo;
      assert (handled + {key}) + (todo - {key}) == handled + todo;
      var step := HandleOutput(names, props, required, handled, body, params, key);
      if step.Err? {
        return Err(());
      }
      body, params := step.value.0, step.value.1;
      handled := handled + {key};
      todo := todo - {key};
    }
    assert handled + {} == handled;
    AllHandled(props, required, params);
    return Ok((body, params));
  }

  method HandleListed(names: set<string>, props: Fields, required: Value, order: seq<string>)
    returns (r: Result<(Fields, seq<Param>, set<string>), ()>)
    requires props.Keys <= names
    ensures r.Err? ==> !OutputsLiftable(props, required)
    ensures r.Ok? ==> r.value.2 <= props.Keys && LiftsHeaders(props, required, r.value.2, r.value.1)
    ensures r.Ok? ==> BodyHolds(names, props, r.value.2, r.value.1, r.value.0)
  {
    var body: Fields := map k | k in names :: Obj(map[]);
    var params: seq<Param> := [];
    var handled: set<string> := {};
    for i := 0 to |order|
      invariant handled <= props.Keys
      invariant LiftsHeaders(props, required, handled, params) && BodyHolds(names, props, handled, params, body)
    {
      if order[i] in props && order[i] !in handled {
        var step := HandleOutput(names, props, required, handled, body, params, order[i]);
        if step.Err? {
          return Err(());
        }
        body, params := step.value.0, step.value.1;
        handled := handled + {order[i]};
      }
    }
    return Ok((body, params, handled));
  }

  // The closure `handle`: one output property that has not been handled.
  method HandleOutput(ghost names: set<string>, props: Fields, required: Value, ghost handled: set<string>,
                      body: Fields, params: seq<Param>, key: string)
    returns (r: Result<(Fields, seq<Param>), ()>)
    requires key in props && key in names && key !in handled && LiftsHeaders(props, required, handled, params)
    requires BodyHolds(names, props, handled, params, body)
    ensures r.Err? ==> !OutputsLiftable(props, required)
    ensures r.Ok? ==> LiftsHeaders(props, required, handled + {key}, r.value.1)
    ensures r.Ok? ==> BodyHolds(names, props, handled + {key}, r.value.1, r.value.0)
  {
    var lifted := LiftOutput(key, props[key], RequiredHas(required, key));
    if lifted.Err? {
      return Err(());
    }
    if lifted.value.None? {
      HeadersSkip(props, required, handled, params, key);
      return Ok((body[key := OutputSchema(props, key)], params));
    }
    var p := lifted.value.value;
    if exists i :: 0 <= i < |params| && Lower(params[i].name) == Lower(p.name) {
      HeaderClashes(props, required, handled, params, p);
      return Err(());
    }
    HeadersAdd(props, required, handled, params, p);
    BodyDrops(names, props, handled, params, body, p);
    return Ok((body - {key}, params + [p]));
  }

  lemma HeadersSkip(props: Fields, required: Value, handled: set<string>, params: seq<Param>, key: string)
    requires key in props && key !in handled && LiftsHeaders(props, required, handled, params)
    requires LiftOutput(key, props[key], RequiredHas(required, key)) == Ok(None)
    ensures LiftsHeaders(props, required, handled + {key}, params) && !HasParam(params, key)
  {
  }

  lemma HeaderClashes(props: Fields, required: Value, handled: set<string>, params: seq<Param>, p: Param)
    requires LiftsHeaders(props, required, handled, params) && p.key !in handled && IsOutputLift(props, required, p)
    requires exists i :: 0 <= i < |params| && Lower(params[i].name) == Lower(p.name)
    ensures HeadersClash(props, required)
  {
    var i :| 0 <= i < |params| && Lower(params[i].name) == Lower(p.name);
    assert IsOutputLift(props, required, params[i]);
  }

  lemma BodyDrops(names: set<string>, props: Fields, handled: set<string>, params: seq<Param>, body: Fields, p: Param)
    requires BodyHolds(names, props, handled, params, body)
    ensures BodyHolds(names, props, handled + {p.key}, params + [p], body - {p.key})
  {
    forall k
      ensures k in ParamKeys(params + [p]) <==> k in ParamKeys(params) || k == p.key
    {
      HasParamSnoc(params, p, k);
    }
  }

  lemma HeadersAdd(props: Fields, required: Value, keys: set<string>, params: seq<Param>, p: Param)
    requires LiftsHeaders(props, required, keys, params) && p.key !in keys && IsOutputLift(props, required, p)
    requires forall i :: 0 <= i < |params| ==> Lower(params[i].name) != Lower(p.name)
    ensures LiftsHeaders(props, required, keys + {p.key}, params + [p])
  {
    var more := params + [p];
    forall i | 0 <= i < |more|
      ensures more[i].key in keys + {p.key} && IsOutputLift(props, required, more[i])
    {
      assert i < |params| ==> more[i] == params[i];
    }
    forall k | k in keys + {p.key}
      ensures HasParam(more, k) <==> HasParam(params, k) || p.key == k
    {
      HasParamSnoc(params, p, k);
    }
  }
}
