// internal/plans/bind.go: rebuilding workflow inputs from an HTTP request and
// splitting workflow outputs over response headers and body.
module Bind {
  import opened Outcomes
  import opened Strings
  import opened Json
  import opened Inputs
  import opened Schema
  import opened Lift

  // One named place in a request. Header names are case-insensitive.
  datatype Slot = Slot(in_: string, name: string)

  function SlotOf(in_: string, name: string): Slot {
    Slot(in_, if in_ == "header" then Lower(name) else name)
  }

  // A request as the binder reads it: the first value in each slot.
  datatype Request = Request(values: map<Slot, string>)

  datatype BindError = UnexpectedInputs | MissingInput

  // restValue
  function RestValue(r: Option<Request>, p: Param): Option<string> {
    if r.None? || p.in_ !in {"header", "cookie", "query"} then None
    else
      var slot := SlotOf(p.in_, p.name);
      if slot !in r.value.values then None
      else
        var raw := Trim(r.value.values[slot]);
        if raw == "" then None else Some(raw)
  }

  // ------------------------------------------------------------ inputs

  // The parameters a request supplies, as inputs.
  function Supplied(r: Option<Request>, params: seq<Param>): Fields {
    if params == [] then map[]
    else
      var p := params[|params| - 1];
      var init := Supplied(r, params[..|params| - 1]);
      match RestValue(r, p) case None => init case Some(v) => init[p.key := Leaf(Str(v))]
  }

  ghost predicate DistinctKeys(params: seq<Param>) {
    forall i, j :: 0 <= i < j < |params| ==> params[i].key != params[j].key
  }

  function TextOf(v: Option<string>): Option<Value> {
    match v case None => None case Some(s) => Some(Leaf(Str(s)))
  }

  lemma {:induction false} SuppliedOnly(r: Option<Request>, params: seq<Param>, k: string)
    requires k in Supplied(r, params)
    ensures HasParam(params, k)
  {
    var init, p := params[..|params| - 1], params[|params| - 1];
    if p.key != k {
      SuppliedOnly(r, init, k);
      var i :| 0 <= i < |init| && init[i].key == k;
      assert params[i].key == k;
    }
  }

  lemma {:induction false} SuppliedOne(r: Option<Request>, params: seq<Param>, i: nat)
    requires DistinctKeys(params) && i < |params|
    ensures Lookup(Supplied(r, params), params[i].key) == TextOf(RestValue(r, params[i]))
  {
    var init, p := params[..|params| - 1], params[|params| - 1];
    if i < |init| {
      SuppliedOne(r, init, i);
      assert init[i].key != p.key;
    } else if p.key in Supplied(r, init) {
      SuppliedOnly(r, init, p.key);
      assert false;
    }
  }

  // Distinct parameters supply each its own value, and nothing else is supplied.
  lemma SuppliedAt(r: Option<Request>, params: seq<Param>)
    requires DistinctKeys(params)
    ensures forall i :: 0 <= i < |params| ==>
              Lookup(Supplied(r, params), params[i].key) == TextOf(RestValue(r, params[i]))
    ensures forall k :: k in Supplied(r, params) ==> HasParam(params, k)
  {
    forall i | 0 <= i < |params|
      ensures Lookup(Supplied(r, params), params[i].key) == TextOf(RestValue(r, params[i]))
    {
      SuppliedOne(r, params, i);
    }
    forall k | k in Supplied(r, params)
      ensures HasParam(params, k)
    {
      SuppliedOnly(r, params, k);
    }
  }

  ghost predicate Bindable(body: Fields, r: Option<Request>, params: seq<Param>) {
    forall i :: 0 <= i < |params| ==>
      params[i].key !in body && (params[i].required ==> RestValue(r, params[i]).Some?)
  }

  // Why a parameter stops the binding.
  ghost predicate Unbindable(body: Fields, r: Option<Request>, p: Param, error: BindError) {
    if error.UnexpectedInputs? then p.key in body else p.key !in body && p.required && RestValue(r, p).None?
  }

  lemma OneMoreParam(body: Fields, r: Option<Request>, init: seq<Param>, p: Param)
    ensures Bindable(body, r, init + [p]) <==>
              Bindable(body, r, init) && p.key !in body && (p.required ==> RestValue(r, p).Some?)
    ensures Supplied(r, init + [p]) ==
              if RestValue(r, p).None? then Supplied(r, init)
              else Supplied(r, init)[p.key := Leaf(Str(RestValue(r, p).value))]
  {
    var all := init + [p];
    assert all[|init|] == p && all[..|init|] == init;
    assert forall i :: 0 <= i < |init| ==> all[i] == init[i];
  }

  lemma StopsBinding(body: Fields, r: Option<Request>, params: seq<Param>, i: nat)
    requires i < |params|
    requires params[i].key in body || (params[i].required && RestValue(r, params[i]).None?)
    ensures !Bindable(body, r, params)
    ensures Unbindable(body, r, params[i], if params[i].key in body then UnexpectedInputs else MissingInput)
  {
  }

  // What is not a parameter yet is not supplied yet.
  lemma NotSuppliedYet(r: Option<Request>, params: seq<Param>, i: nat)
    requires DistinctKeys(params) && i < |params|
    ensures params[i].key !in Supplied(r, params[..i])
  {
    SuppliedAt(r, params[..i]);
    assert !HasParam(params[..i], params[i].key);
  }

  // mergeRESTInputs: it binds exactly when no body key is a parameter and no
  // required parameter is missing, and then to the union of the two.
  method MergeInputs(body: Fields, r: Option<Request>, params: seq<Param>) returns (out: Result<Fields, BindError>)
    requires DistinctKeys(params)
    ensures out.Ok? <==> Bindable(body, r, params)
    ensures out.Ok? ==> out.value == body + Supplied(r, params)
    ensures out.Err? ==> exists i :: 0 <= i < |params| && Unbindable(body, r, params[i], out.error)
  {
    var m := body;
    assert params[..0] == [];
    for i := 0 to |params|
      invariant Bindable(body, r, params[..i])
      invariant m == body + Supplied(r, params[..i])
    {
      var p := params[i];
      assert params[..i + 1] == params[..i] + [p];
      OneMoreParam(body, r, params[..i], p);
      NotSuppliedYet(r, params, i);
      var v := RestValue(r, p);
      if p.key in m || (v.None? && p.required) {
        StopsBinding(body, r, params, i);
        return Err(if p.key in m then UnexpectedInputs else MissingInput);
      }
      if v.Some? {
        m := m[p.key := Leaf(Str(v.value))];
      }
    }
    assert params[..|params|] == params;
    return Ok(m);
  }

  // bindRESTInputs: without lifted parameters the body is used as it is.
  method BindInputs(consumer: Value, order: seq<string>, body: Fields, r: Option<Request>)
    returns (out: Result<Fields, BindError>, params: seq<Param>)
    ensures LiftsAll(Properties(consumer), Required(consumer), Properties(consumer).Keys, params)
    ensures out.Ok? <==> Bindable(body, r, params)
    ensures out.Ok? ==> out.value == body + Supplied(r, params)
    ensures out.Err? ==> exists i :: 0 <= i < |params| && Unbindable(body, r, params[i], out.error)
  {
    var _, lifted := SplitInputs(consumer, order);
    params := lifted;
    if |params| == 0 {
      assert body + map[] == body;
      return Ok(body), params;
    }
    out := MergeInputs(body, r, params);
  }

  // ------------------------------------------------------------ REST and MCP

  predicate TextInput(v: Value) {
    v.Leaf? && v.scalar.Str? && v.scalar.s != "" && Trim(v.scalar.s) == v.scalar.s
  }

  // The inputs maps that can travel by HTTP: every lifted value is trimmed,
  // non-empty text, no required one is absent, and parameters that share a slot
  // agree. Parameters in distinct slots are unrestricted by the last part.
  ghost predicate Sendable(inputs: Fields, params: seq<Param>) {
    && (forall i :: 0 <= i < |params| ==>
          (params[i].required ==> params[i].key in inputs) &&
          (params[i].key in inputs ==> TextInput(inputs[params[i].key])))
    && (forall i, j ::
          (0 <= i < |params| && 0 <= j < |params| &&
           SlotOf(params[i].in_, params[i].name) == SlotOf(params[j].in_, params[j].name)) ==>
            Lookup(inputs, params[i].key) == Lookup(inputs, params[j].key))
  }

  ghost predicate InTransport(params: seq<Param>) {
    forall i :: 0 <= i < |params| ==> params[i].in_ in {"header", "cookie", "query"}
  }

  // The REST form of an inputs map: lifted keys in their slots, the rest in
  // the body.
  function Send(inputs: Fields, params: seq<Param>): map<Slot, string> {
    if params == [] then map[]
    else
      var p := params[|params| - 1];
      var init := Send(inputs, params[..|params| - 1]);
      if p.key in inputs && TextInput(inputs[p.key])
      then init[SlotOf(p.in_, p.name) := inputs[p.key].scalar.s] else init
  }

  function BodyOf(inputs: Fields, params: seq<Param>): Fields {
    inputs - (set i | 0 <= i < |params| :: params[i].key)
  }

  ghost predicate SlotHolds(inputs: Fields, sent: map<Slot, string>, p: Param) {
    TextOf(Lookup(sent, SlotOf(p.in_, p.name))) == Lookup(inputs, p.key)
  }

  ghost predicate SlotOfSome(params: seq<Param>, slot: Slot) {
    exists i :: 0 <= i < |params| && SlotOf(params[i].in_, params[i].name) == slot
  }

  lemma SendableInit(inputs: Fields, init: seq<Param>, p: Param)
    requires Sendable(inputs, init + [p])
    ensures Sendable(inputs, init) && (p.key in inputs ==> TextInput(inputs[p.key]))
    ensures forall i :: 0 <= i < |init| && SlotOf(init[i].in_, init[i].name) == SlotOf(p.in_, p.name) ==>
              Lookup(inputs, init[i].key) == Lookup(inputs, p.key)
  {
    var all := init + [p];
    assert all[|init|] == p;
    assert forall i :: 0 <= i < |init| ==> all[i] == init[i];
  }

  lemma SendStep(inputs: Fields, init: seq<Param>, p: Param)
    requires Sendable(inputs, init + [p])
    requires forall i :: 0 <= i < |init| ==> SlotHolds(inputs, Send(inputs, init), init[i])
    requires forall slot :: slot in Send(inputs, init) ==> SlotOfSome(init, slot)
    ensures SlotHolds(inputs, Send(inputs, init + [p]), p)
    ensures forall i :: 0 <= i < |init| ==> SlotHolds(inputs, Send(inputs, init + [p]), init[i])
  {
    var all := init + [p];
    assert all[..|init|] == init && all[|init|] == p;
    SendableInit(inputs, init, p);
    if SlotOfSome(init, SlotOf(p.in_, p.name)) {
      var i :| 0 <= i < |init| && SlotOf(init[i].in_, init[i].name) == SlotOf(p.in_, p.name);
      assert SlotHolds(inputs, Send(inputs, init), init[i]);
    }
  }

  lemma SlotsGrow(inputs: Fields, init: seq<Param>, p: Param)
    requires forall slot :: slot in Send(inputs, init) ==> SlotOfSome(init, slot)
    ensures forall slot :: slot in Send(inputs, init + [p]) ==> SlotOfSome(init + [p], slot)
  {
    var all := init + [p];
    assert all[..|init|] == init && all[|init|] == p;
    forall slot | slot in Send(inputs, all)
      ensures SlotOfSome(all, slot)
    {
      if slot in Send(inputs, init) {
        var i :| 0 <= i < |init| && SlotOf(init[i].in_, init[i].name) == slot;
        assert all[i] == init[i];
      } else {
        assert SlotOf(all[|init|].in_, all[|init|].name) == slot;
      }
    }
  }

  // A slot carries what its parameters hold, and nothing if they hold nothing.
  lemma {:induction false} SendHolds(inputs: Fields, params: seq<Param>)
    requires Sendable(inputs, params)
    ensures forall i :: 0 <= i < |params| ==> SlotHolds(inputs, Send(inputs, params), params[i])
    ensures forall slot :: slot in Send(inputs, params) ==> SlotOfSome(params, slot)
  {
    if params != [] {
      var init, p := params[..|params| - 1], params[|params| - 1];
      assert params == init + [p];
      SendableInit(inputs, init, p);
      SendHolds(inputs, init);
      SendStep(inputs, init, p);
      SlotsGrow(inputs, init, p);
      forall i | 0 <= i < |params|
        ensures SlotHolds(inputs, Send(inputs, params), params[i])
      {
        assert i < |init| ==> params[i] == init[i];
      }
    }
  }

  // The binder reads each parameter back as it was in the inputs.
  lemma SentIsRead(inputs: Fields, params: seq<Param>)
    requires InTransport(params) && Sendable(inputs, params)
    ensures var r := Some(Request(Send(inputs, params)));
            forall i :: 0 <= i < |params| ==> TextOf(RestValue(r, params[i])) == Lookup(inputs, params[i].key)
  {
    SendHolds(inputs, params);
    var r := Some(Request(Send(inputs, params)));
    forall i | 0 <= i < |params|
      ensures TextOf(RestValue(r, params[i])) == Lookup(inputs, params[i].key)
    {
      assert SlotHolds(inputs, Send(inputs, params), params[i]);
      assert params[i].key in inputs ==> TextInput(inputs[params[i].key]);
    }
  }

  lemma BodyOfHas(inputs: Fields, params: seq<Param>, k: string)
    ensures k in BodyOf(inputs, params) <==> k in inputs && !HasParam(params, k)
  {
  }

  // REST and MCP agree: sending an inputs map that can travel as an HTTP
  // request binds back to exactly that map.
  lemma RestRebuildsInputs(inputs: Fields, params: seq<Param>)
    requires DistinctKeys(params) && InTransport(params) && Sendable(inputs, params)
    ensures var r := Some(Request(Send(inputs, params)));
            Bindable(BodyOf(inputs, params), r, params) &&
            BodyOf(inputs, params) + Supplied(r, params) == inputs
  {
    var r := Some(Request(Send(inputs, params)));
    var body := BodyOf(inputs, params);
    SentIsRead(inputs, params);
    SuppliedAt(r, params);
    forall i | 0 <= i < |params|
      ensures params[i].key !in body && (params[i].required ==> RestValue(r, params[i]).Some?)
    {
      BodyOfHas(inputs, params, params[i].key);
      assert TextOf(RestValue(r, params[i])) == Lookup(inputs, params[i].key);
    }
    forall k
      ensures Lookup(body + Supplied(r, params), k) == Lookup(inputs, k)
    {
      BodyOfHas(inputs, params, k);
      if i :| 0 <= i < |params| && params[i].key == k {
        assert Lookup(Supplied(r, params), k) == Lookup(inputs, k);
      } else {
        assert !HasParam(params, k);
      }
    }
    SameLookups(body + Supplied(r, params), inputs);
  }

  // ... and no other inputs map can be the result of any request.
  lemma RestReachesOnlySendable(body: Fields, r: Option<Request>, params: seq<Param>)
    requires DistinctKeys(params) && InTransport(params) && Bindable(body, r, params)
    ensures Sendable(body + Supplied(r, params), params)
  {
    var inputs := body + Supplied(r, params);
    SuppliedAt(r, params);
    forall i | 0 <= i < |params|
      ensures Lookup(inputs, params[i].key) == TextOf(RestValue(r, params[i]))
      ensures params[i].key in inputs ==> TextInput(inputs[params[i].key])
    {
      assert Lookup(Supplied(r, params), params[i].key) == TextOf(RestValue(r, params[i]));
      if RestValue(r, params[i]).Some? {
        TrimTwice(r.value.values[SlotOf(params[i].in_, params[i].name)]);
      }
    }
  }

  // The texts a transport can carry in a slot.
  type Carrier = (Slot, string) -> bool

  // The lifted values fit their slots.
  ghost predicate Fits(carries: Carrier, inputs: Fields, params: seq<Param>) {
    forall i :: 0 <= i < |params| && params[i].key in inputs && TextInput(inputs[params[i].key]) ==>
      carries(SlotOf(params[i].in_, params[i].name), inputs[params[i].key].scalar.s)
  }

  // The request is one the transport can bring.
  ghost predicate Carried(carries: Carrier, r: Option<Request>) {
    r.Some? ==> forall slot :: slot in r.value.values ==> carries(slot, r.value.values[slot])
  }

  lemma SentIsCarried(carries: Carrier, inputs: Fields, params: seq<Param>)
    requires Sendable(inputs, params) && Fits(carries, inputs, params)
    ensures Carried(carries, Some(Request(Send(inputs, params))))
  {
    SendHolds(inputs, params);
    forall slot | slot in Send(inputs, params)
      ensures carries(slot, Send(inputs, params)[slot])
    {
      assert SlotOfSome(params, slot);
      var i :| 0 <= i < |params| && SlotOf(params[i].in_, params[i].name) == slot;
      assert SlotHolds(inputs, Send(inputs, params), params[i]);
    }
  }

  lemma ReadFits(carries: Carrier, body: Fields, r: Option<Request>, params: seq<Param>)
    requires forall slot, text :: carries(slot, text) ==> carries(slot, Trim(text))
    requires DistinctKeys(params) && Bindable(body, r, params) && Carried(carries, r)
    ensures Fits(carries, body + Supplied(r, params), params)
  {
    SuppliedAt(r, params);
    forall i | 0 <= i < |params|
      ensures Lookup(body + Supplied(r, params), params[i].key) == TextOf(RestValue(r, params[i]))
    {
      assert Lookup(Supplied(r, params), params[i].key) == TextOf(RestValue(r, params[i]));
    }
  }

  // For the parameters a consumer schema lifts, and whatever texts the transport
  // can carry, REST reaches exactly the inputs maps that can travel. Carrying a
  // text must mean carrying it trimmed.
  lemma RestMatchesMcp(consumer: Value, params: seq<Param>, inputs: Fields, carries: Carrier)
    requires LiftsAll(Properties(consumer), Required(consumer), Properties(consumer).Keys, params)
    requires forall slot, text :: carries(slot, text) ==> carries(slot, Trim(text))
    ensures Sendable(inputs, params) && Fits(carries, inputs, params) <==>
              exists body, r ::
                Carried(carries, r) && Bindable(body, r, params) && body + Supplied(r, params) == inputs
  {
    LiftsTravel(consumer, params);
    if Sendable(inputs, params) && Fits(carries, inputs, params) {
      RestRebuildsInputs(inputs, params);
      SentIsCarried(carries, inputs, params);
      var r := Some(Request(Send(inputs, params)));
      assert Bindable(BodyOf(inputs, params), r, params) && BodyOf(inputs, params) + Supplied(r, params) == inputs;
    }
    if body, r :| Carried(carries, r) && Bindable(body, r, params) && body + Supplied(r, params) == inputs {
      RestReachesOnlySendable(body, r, params);
      ReadFits(carries, body, r, params);
    }
  }

  lemma LiftsTravel(consumer: Value, params: seq<Param>)
    requires LiftsAll(Properties(consumer), Required(consumer), Properties(consumer).Keys, params)
    ensures InTransport(params) && DistinctKeys(params)
  {
    forall i | 0 <= i < |params|
      ensures params[i].in_ in {"header", "cookie", "query"}
    {
      assert IsLift(Properties(consumer), Required(consumer), params[i]);
    }
  }

  // A lifted parameter is an input the author listed, and not a reserved one.
  lemma LiftedKeysAccepted(decoded: Value, params: seq<Param>, k: string)
    requires var v := ConsumerSchema(decoded);
             LiftsAll(Properties(v), Required(v), Properties(v).Keys, params) && HasParam(params, k)
    ensures IsConsumerKey(decoded, k) && !ReservedInputKey(k)
  {
    var v := ConsumerSchema(decoded);
    assert ListedIn(v.fields, k);
    PassKeepsKeys(Closing, Run(Reserved, decoded), k);
    PassKeepsKeys(Reserved, decoded, k);
  }

  // The closed-input check over REST: the rebuilt inputs pass exactly when the
  // body alone does.
  lemma ClosedByBody(decoded: Value, params: seq<Param>, inputs: Fields)
    requires var v := ConsumerSchema(decoded); LiftsAll(Properties(v), Required(v), Properties(v).Keys, params)
    ensures (forall k :: k in inputs ==> IsConsumerKey(decoded, k) && !ReservedInputKey(k)) <==>
            (forall k :: k in BodyOf(inputs, params) ==> IsConsumerKey(decoded, k) && !ReservedInputKey(k))
  {
    forall k | k in inputs
      ensures k in BodyOf(inputs, params) || (IsConsumerKey(decoded, k) && !ReservedInputKey(k))
    {
      BodyOfHas(inputs, params, k);
      if HasParam(params, k) {
        LiftedKeysAccepted(decoded, params, k);
      }
    }
  }

  // consumerInputKeys of the consumer schema.
  method AllowedKeys(decoded: Value) returns (allowed: set<string>)
    ensures forall k :: k in allowed <==> IsConsumerKey(decoded, k) && !ReservedInputKey(k)
  {
    var reserved := RunPass(Reserved, decoded);
    var closed := RunPass(Closing, reserved);
    var schema := RunPass(Vendor, closed);
    allowed := ConsumerInputKeys(schema);
    forall k ensures k in allowed <==> IsConsumerKey(decoded, k) && !ReservedInputKey(k) {
      ConsumerKeys(decoded, k);
    }
  }

  // rejectUnexpectedInputs: only keys of the consumer schema get through.
  method RejectUnexpected(decoded: Value, inputs: Fields) returns (ok: bool)
    ensures ok <==> forall k :: k in inputs ==> IsConsumerKey(decoded, k) && !ReservedInputKey(k)
  {
    var allowed := AllowedKeys(decoded);
    var todo := inputs.Keys;
    while todo != {}
      invariant todo <= inputs.Keys
      invariant forall k :: k in inputs && k !in todo ==> k in allowed
      decreases todo
    {
      var k :| k in todo;
      todo := todo - {k};
      if k !in allowed {
        return false;
      }
    }
    return true;
  }

  // ------------------------------------------------------------ outputs

  // formatHeaderValue: text is trimmed; anything else is rendered by the host
  // language, or cannot be.
  function FormatHeader(v: Value, render: Value -> Result<string, ()>): Result<string, ()> {
    if v.Leaf? && v.scalar.Str? then Ok(Trim(v.scalar.s)) else render(v)
  }

  datatype Placed = InBody(v: Value) | InHeader(text: string) | Dropped | Refused

  // Where one lifted output goes.
  function Place(outputs: Fields, p: Param, render: Value -> Result<string, ()>): Option<Placed> {
    if p.key !in outputs then if p.required then Some(Refused) else None
    else
      var v := outputs[p.key];
      if v == Leaf(Null) then Some(if p.required then Refused else InBody(v))
      else
        match FormatHeader(v, render)
        case Err(_) => Some(Refused)
        case Ok(s) => if s == "" then Some(if p.required then Refused else Dropped) else Some(InHeader(s))
  }

  ghost predicate DistinctHeaders(params: seq<Param>) {
    forall i, j :: 0 <= i < j < |params| ==>
      params[i].key != params[j].key && Lower(params[i].name) != Lower(params[j].name)
  }

  // What has become of the outputs after the first n parameters.
  ghost predicate Splits(outputs: Fields, params: seq<Param>, render: Value -> Result<string, ()>,
                         body: Fields, headers: map<string, string>) {
    && (forall k :: k in outputs && !HasParam(params, k) ==> k in body && body[k] == outputs[k])
    && (forall k :: k in body ==> k in outputs && body[k] == outputs[k])
    && (forall i :: 0 <= i < |params| ==> PlacedRight(Place(outputs, params[i], render), params[i], body, headers))
    && (forall h :: h in headers ==> exists i :: 0 <= i < |params| && Lower(params[i].name) == h)
  }

  ghost predicate PlacedRight(placed: Option<Placed>, p: Param, body: Fields, headers: map<string, string>) {
    var h := Lower(p.name);
    match placed
    case None => p.key !in body && h !in headers
    case Some(InBody(v)) => p.key in body && body[p.key] == v && h !in headers
    case Some(InHeader(s)) => p.key !in body && h in headers && headers[h] == s
    case Some(Dropped) => p.key !in body && h !in headers
    case Some(Refused) => false
  }

  lemma DistinctMore(init: seq<Param>, p: Param)
    requires DistinctHeaders(init + [p])
    ensures DistinctHeaders(init) && !HasParam(init, p.key)
    ensures forall i :: 0 <= i < |init| ==> init[i].key != p.key && Lower(init[i].name) != Lower(p.name)
  {
    var all := init + [p];
    assert all[|init|] == p;
    forall i | 0 <= i < |init|
      ensures init[i].key != p.key && Lower(init[i].name) != Lower(p.name)
    {
      assert all[i] == init[i];
    }
    forall i, j | 0 <= i < j < |init|
      ensures init[i].key != init[j].key && Lower(init[i].name) != Lower(init[j].name)
    {
      assert all[i] == init[i] && all[j] == init[j];
    }
  }

  lemma DistinctSoFar(params: seq<Param>, i: nat)
    requires DistinctHeaders(params) && i < |params|
    ensures params[..i + 1] == params[..i] + [params[i]] && DistinctHeaders(params[..i] + [params[i]])
    ensures !HasParam(params[..i], params[i].key)
  {
  }

  // What one more placement leaves of an earlier one.
  lemma PlacedStays(placed: Option<Placed>, q: Param, p: Param, body: Fields, headers: map<string, string>,
                    body': Fields, headers': map<string, string>)
    requires PlacedRight(placed, q, body, headers) && q.key != p.key && Lower(q.name) != Lower(p.name)
    requires body' == body || body' == body - {p.key}
    requires forall h :: h != Lower(p.name) ==> Lookup(headers', h) == Lookup(headers, h)
    ensures PlacedRight(placed, q, body', headers')
  {
    assert Lookup(headers', Lower(q.name)) == Lookup(headers, Lower(q.name));
  }

  lemma SplitsMore(outputs: Fields, init: seq<Param>, p: Param, render: Value -> Result<string, ()>,
                   body: Fields, headers: map<string, string>, body': Fields, headers': map<string, string>)
    requires DistinctHeaders(init + [p]) && Splits(outputs, init, render, body, headers)
    requires match Place(outputs, p, render)
             case Some(InHeader(s)) => body' == body - {p.key} && headers' == headers[Lower(p.name) := s]
             case Some(Dropped) => body' == body - {p.key} && headers' == headers
             case Some(Refused) => false
             case _ => body' == body && headers' == headers
    ensures Splits(outputs, init + [p], render, body', headers')
  {
    var all := init + [p];
    assert all[|init|] == p;
    DistinctMore(init, p);
    forall k ensures HasParam(all, k) <==> HasParam(init, k) || p.key == k {
      HasParamSnoc(init, p, k);
    }
    assert Lower(p.name) !in headers;
    forall i | 0 <= i < |all|
      ensures PlacedRight(Place(outputs, all[i], render), all[i], body', headers')
    {
      if i < |init| {
        assert all[i] == init[i];
        PlacedStays(Place(outputs, init[i], render), init[i], p, body, headers, body', headers');
      }
    }
    forall h | h in headers'
      ensures exists i :: 0 <= i < |all| && Lower(all[i].name) == h
    {
      if h in headers {
        var i :| 0 <= i < |init| && Lower(init[i].name) == h;
        assert Lower(all[i].name) == h;
      }
    }
  }

  // One round of the loop, for a parameter whose key is still as it was.
  method PlaceOne(outputs: Fields, p: Param, render: Value -> Result<string, ()>,
                  body: Fields, headers: map<string, string>)
    returns (r: Result<(Fields, map<string, string>), ()>)
    requires Lookup(body, p.key) == Lookup(outputs, p.key)
    ensures match Place(outputs, p, render)
            case Some(Refused) => r.Err?
            case Some(InHeader(s)) => r == Ok((body - {p.key}, headers[Lower(p.name) := s]))
            case Some(Dropped) => r == Ok((body - {p.key}, headers))
            case _ => r == Ok((body, headers))
  {
    assert p.key in body <==> p.key in outputs;
    if p.key !in body || body[p.key] == Leaf(Null) {
      return if p.required then Err(()) else Ok((body, headers));
    }
    var s := FormatHeader(body[p.key], render);
    if s.Err? {
      return Err(());
    }
    if s.value == "" {
      return if p.required then Err(()) else Ok((body - {p.key}, headers));
    }
    return Ok((body - {p.key}, headers[Lower(p.name) := s.value]));
  }

  lemma NothingPlaced(outputs: Fields, params: seq<Param>, render: Value -> Result<string, ()>)
    ensures Splits(outputs, params[..0], render, outputs, map[])
  {
  }

  // The same round, for the next of a list of parameters.
  method PlaceNext(outputs: Fields, params: seq<Param>, i: nat, render: Value -> Result<string, ()>,
                   body: Fields, headers: map<string, string>)
    returns (r: Result<(Fields, map<string, string>), ()>)
    requires DistinctHeaders(params) && i < |params| && Splits(outputs, params[..i], render, body, headers)
    ensures r.Err? <==> Place(outputs, params[i], render) == Some(Refused)
    ensures r.Ok? ==> Splits(outputs, params[..i + 1], render, r.value.0, r.value.1)
  {
    DistinctSoFar(params, i);
    r := PlaceOne(outputs, params[i], render, body, headers);
    if r.Ok? {
      SplitsMore(outputs, params[..i], params[i], render, body, headers, r.value.0, r.value.1);
    }
  }

  // SplitRESTOutputs. On success every output is in exactly one place: the body
  // with its own value, or its own header; only optional lifted outputs that
  // format to nothing are dropped, and optional lifted nulls stay in the body.
  method SplitRESTOutputs(outputs: Fields, params: seq<Param>, render: Value -> Result<string, ()>)
    returns (r: Result<(Fields, map<string, string>), ()>)
    requires DistinctHeaders(params)
    ensures r.Ok? <==> forall i :: 0 <= i < |params| ==> Place(outputs, params[i], render) != Some(Refused)
    ensures r.Ok? ==> Splits(outputs, params, render, r.value.0, r.value.1)
  {
    var body, headers := outputs, map[];
    NothingPlaced(outputs, params, render);
    for i := 0 to |params|
      invariant Splits(outputs, params[..i], render, body, headers)
      invariant forall j :: 0 <= j < i ==> Place(outputs, params[j], render) != Some(Refused)
    {
      var placed := PlaceNext(outputs, params, i, render, body, headers);
      if placed.Err? {
        return Err(());
      }
      body, headers := placed.value.0, placed.value.1;
    }
    assert params[..|params|] == params;
    return Ok((body, headers));
  }
}
