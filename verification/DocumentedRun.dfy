// The generated document against the binder: a request made from what
// internal/plans/openapi.go lists is bound by internal/plans/bind.go to the
// inputs it was made of.
module DocumentedRun {
  import opened Bind
  import opened Catalogs
  import opened Inputs
  import opened Json
  import opened Lift
  import opened OpenApi
  import opened Outcomes
  import opened PassMeanings
  import opened RequestBinding
  import opened Runners
  import Schema

  // The parameters a document lists and those the binder reads are the same, in
  // whatever order each was lifted.
  lemma SameParameters(w: Workflow, op: Operation, params: seq<Param>)
    requires Describes(w, op)
    requires var v := Schema.ConsumerSchema(w.inputs.value);
             LiftsAll(Properties(v), Required(v), Properties(v).Keys, params)
    ensures forall p :: p in params <==> p in op.params
  {
    var v := Schema.ConsumerSchema(w.inputs.value);
    LiftsAgree(Properties(v), Required(v), map[], None, params, op.params);
    LiftsAgree(Properties(v), Required(v), map[], None, op.params, params);
  }

  // A request made from the document: the listed parameters in their slots, the
  // other inputs in the body. It binds to those inputs, and the run it makes is
  // the run of the inputs made directly.
  lemma DocumentedRequestRuns(call: Call, op: Operation, r: Result<Fields, RunError>, es: seq<Event>)
    requires call.ctx.rest.None? && Describes(call.workflow, op) && Sendable(call.inputs, op.params)
    ensures Binds(OverRest(call, op.params), call.inputs)
    ensures Outcome(OverRest(call, op.params), r, es) <==> Outcome(call, r, es)
  {
    BindsOverRest(call, op.params, call.inputs);
    TransportsAgree(call, op.params, r, es);
  }

  // An input goes where the document says: its parameter's slot, or the body,
  // whose schema lists it.
  lemma DocumentedPlaces(w: Workflow, op: Operation, inputs: Fields, k: string)
    requires Describes(w, op) && k in inputs
    requires k in Properties(Schema.ConsumerSchema(w.inputs.value))
    ensures k in BodyOf(inputs, op.params) <==> !HasParam(op.params, k)
    ensures k in BodyOf(inputs, op.params) ==> op.body.Some? && k in Properties(op.body.value)
  {
    var v := Schema.ConsumerSchema(w.inputs.value);
    BodyOfHas(inputs, op.params, k);
    SplitConserves(v, op.params, k);
  }

  // The document lists a property that comes by HTTP under its own name and
  // place, required if the author requires it.
  lemma DocumentedParameter(w: Workflow, op: Operation, key: string, prop: Value, place: string, name: string)
    requires Describes(w, op) && Authored(w.inputs.value, key, prop) && ComesFrom(key, prop, place, name)
    ensures exists p :: p in op.params && p.key == key && p.in_ == place && p.name == name &&
                        (p.required <==> AuthorRequires(w.inputs.value, key))
  {
    var i := LiftedParam(w.inputs.value, key, prop, place, name, op.params);
    assert op.params[i] in op.params;
  }

  // There is no body exactly when the document lists parameters for all inputs,
  // and otherwise its schema is what the split left of the inputs schema.
  lemma DocumentedBody(w: Workflow, op: Operation)
    requires Describes(w, op)
    ensures var v := Schema.ConsumerSchema(w.inputs.value);
            && (op.body.None? <==> op.params != [] && forall k :: k in Properties(v) ==> HasParam(op.params, k))
            && (op.body.Some? ==> op.body.value == BodySchema(v))
  {
    var v := Schema.ConsumerSchema(w.inputs.value);
    forall k
      ensures k in Properties(v) <==> HasParam(op.params, k) || k in Properties(BodySchema(v))
      ensures !(HasParam(op.params, k) && k in Properties(BodySchema(v)))
    {
      SplitConserves(v, op.params, k);
    }
    if op.params != [] {
      assert IsLift(Properties(v), Required(v), op.params[0]);
      NothingLeftEmpty(v);
    }
    if Properties(BodySchema(v)) != map[] {
      var k :| k in Properties(BodySchema(v));
      assert k in Properties(v);
    }
  }

  // The body schema it shows is closed and does not say where inputs come from.
  lemma DocumentedBodyClosed(w: Workflow, op: Operation)
    requires Describes(w, op) && op.body.Some?
    ensures AllClosed(op.body.value) && Schema.SourceFree(op.body.value)
  {
    ConsumersSeeClosed(w.inputs.value);
  }
}
