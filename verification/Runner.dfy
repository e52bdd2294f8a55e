// The governed run of internal/plans/runner.go. Run is a pipeline of gates: each
// one may end the run with an error, and the workflow engine stands behind most
// of them. Policies, the secrets provider, the matcher and the engine are
// arbitrary functions; a ghost list of events records what happened.
module Runners {
  import opened Bind
  import opened Catalogs
  import opened Inputs
  import opened Json
  import opened Lift
  import opened Outcomes
  import opened Schema
  import opened Security
  import Policy
  import Strings

  datatype RunError =
    | NotFound
    | Scope(scope: ScopeError)
    | Internal
    | Binding(binding: BindError)
    | NotAccepted
    | PolicyLoad
    | PolicyRefused(failure: Policy.PolicyFailure)
    | NoExecutor
    | EngineFailed
    | NoMatcher
    | EmptyQuery
    | MatchFailed

  // compiledPolicy, as Run uses it.
  datatype Bundle = Bundle(sharedInbound: Option<Policy.Query>, sharedOutbound: Option<Policy.Query>,
                           inbound: Option<Policy.Query>, outbound: Option<Policy.Query>)

  datatype Ran = Failed | Succeeded(outputs: Option<Fields>)

  type Engine = (Entry, string, Fields) -> Ran
  type Provider = string -> Result<string, ()>
  type PolicySource = (string, string) -> Result<Bundle, ()>

  datatype Match = Match(planID: string, version: string, workflowID: string, inputs: Option<Fields>)
  type Matcher = (string, Fields) -> Result<Option<Match>, ()>

  // The client's token scopes and the HTTP request, where there are any.
  datatype Context = Context(client: Option<seq<string>>, rest: Option<Request>)

  datatype Event =
    | Resolved(e: Entry, workflowID: string)
    | ScopesHeld
    | InputsBound(bound: Fields)
    | InputsClosed
    | SecretsAdded(prepared: Fields)
    | PolicyReady
    | SharedInboundAllowed
    | InboundAllowed(inputs: Fields)
    | Invoked(e: Entry, workflowID: string, inputs: Fields)
    | Finished(outputs: Fields)
    | SharedOutboundAllowed
    | Delivered(outputs: Fields)

  const STAGES := 12

  // Everything one run depends on.
  datatype Call = Call(
    planID: string, version: string, found: Option<Entry>, workflowID: string, workflow: Workflow,
    ctx: Context, inputs: Fields, secrets: Option<Provider>, names: seq<string>,
    policy: Option<Result<Bundle, ()>>, engine: Option<Engine>)

  // ------------------------------------------------------------ the gates

  ghost predicate Found(call: Call) {
    call.found.Some? && call.workflowID in WorkflowIDs(call.found.value)
  }

  ghost predicate BindsWith(call: Call, params: seq<Param>, bound: Fields)
    requires call.workflow.inputs.Ok?
  {
    var consumer := ConsumerSchema(call.workflow.inputs.value);
    && LiftsAll(Properties(consumer), Required(consumer), Properties(consumer).Keys, params)
    && Bindable(call.inputs, call.ctx.rest, params)
    && bound == call.inputs + Supplied(call.ctx.rest, params)
  }

  // The inputs after binding: the caller's own, or over REST the body joined
  // with what the request supplies for the lifted parameters.
  ghost predicate Binds(call: Call, bound: Fields) {
    if call.ctx.rest.None? then bound == call.inputs
    else call.workflow.inputs.Ok? && exists params :: BindsWith(call, params, bound)
  }

  // Every key is one the author listed, and none is reserved.
  ghost predicate Closed(call: Call, bound: Fields) {
    call.workflow.inputs.Ok? &&
    forall k :: k in bound ==> IsConsumerKey(call.workflow.inputs.value, k) && !ReservedInputKey(k)
  }

  ghost predicate SecretsOf(call: Call, part: Fields) {
    if call.secrets.Some? && call.names != [] then
      var bag := Fetch(call.secrets.value, call.names);
      bag.Ok? && part == SecretsPart(bag.value)
    else part == map[]
  }

  ghost predicate Prepares(call: Call, bound: Fields, prepared: Fields) {
    exists part :: SecretsOf(call, part) && prepared == Strip(Strip(bound, POLICY_HINTS), SECRETS) + part
  }

  ghost function BundleOf(call: Call): Bundle {
    if call.policy.Some? && call.policy.value.Ok? then call.policy.value.value else Bundle(None, None, None, None)
  }

  ghost predicate AllowedBy(q: Option<Policy.Query>, phase: string, inputs: Fields, outputs: Option<Fields>) {
    q.Some? ==> Policy.EvalAllowOnly(q.value, phase, inputs, outputs).None?
  }

  ghost predicate Inbound(q: Option<Policy.Query>, prepared: Fields, inputs: Fields) {
    if q.None? then inputs == prepared else Policy.InboundOutcome(q.value, prepared, Ok(inputs))
  }

  ghost predicate Outbound(q: Option<Policy.Query>, inputs: Fields, outputs: Fields, delivered: Fields) {
    if q.None? then delivered == outputs else Policy.ApplyOutbound(q.value, inputs, outputs) == Ok(delivered)
  }

  // The outputs of an engine that succeeded; without any they are none.
  ghost predicate Yields(ran: Ran, outputs: Fields) {
    ran.Succeeded? && match ran.outputs case Some(given) => outputs == given case None => outputs == map[]
  }

  function OutputsOf(ran: Ran): Fields {
    if ran.Succeeded? && ran.outputs.Some? then ran.outputs.value else map[]
  }

  // The data of the earlier stages of a run.
  ghost function BoundIn(es: seq<Event>): Fields {
    if |es| > 2 && es[2].InputsBound? then es[2].bound else map[]
  }

  ghost function PreparedIn(es: seq<Event>): Fields {
    if |es| > 4 && es[4].SecretsAdded? then es[4].prepared else map[]
  }

  ghost function InputsIn(es: seq<Event>): Fields {
    if |es| > 7 && es[7].InboundAllowed? then es[7].inputs else map[]
  }

  ghost function OutputsIn(es: seq<Event>): Fields {
    if |es| > 9 && es[9].Finished? then es[9].outputs else map[]
  }

  // The event that may follow the stages es of the call.
  ghost predicate May(call: Call, es: seq<Event>, ev: Event) {
    match |es|
    case 0 => Found(call) && ev == Resolved(call.found.value, call.workflowID)
    case 1 => ev == ScopesHeld && ScopesPass(call.workflow.security, call.ctx.client)
    case 2 => ev.InputsBound? && Binds(call, ev.bound)
    case 3 => ev == InputsClosed && Closed(call, BoundIn(es))
    case 4 => ev.SecretsAdded? && Prepares(call, BoundIn(es), ev.prepared)
    case 5 => ev == PolicyReady && (call.policy.Some? ==> call.policy.value.Ok?)
    case 6 => ev == SharedInboundAllowed && AllowedBy(BundleOf(call).sharedInbound, "inbound", PreparedIn(es), None)
    case 7 => ev.InboundAllowed? && Inbound(BundleOf(call).inbound, PreparedIn(es), ev.inputs)
    case 8 => call.engine.Some? && call.found.Some? && ev == Invoked(call.found.value, call.workflowID, InputsIn(es))
    case 9 =>
      call.engine.Some? && call.found.Some? &&
      var ran := call.engine.value(call.found.value, call.workflowID, InputsIn(es));
      ran.Succeeded? && ev == Finished(OutputsOf(ran))
    case 10 =>
      ev == SharedOutboundAllowed &&
      AllowedBy(BundleOf(call).sharedOutbound, "outbound", InputsIn(es), Some(OutputsIn(es)))
    case 11 => ev.Delivered? && Outbound(BundleOf(call).outbound, InputsIn(es), OutputsIn(es), ev.outputs)
    case _ => false
  }

  ghost predicate Chain(call: Call, es: seq<Event>) {
    forall i :: 0 <= i < |es| ==> May(call, es[..i], es[i])
  }

  // No gate lets the run go on.
  ghost predicate Ends(call: Call, es: seq<Event>) {
    forall ev :: !May(call, es, ev)
  }

  lemma ChainAt(call: Call, es: seq<Event>, i: nat)
    requires Chain(call, es) && i < |es|
    ensures May(call, es[..i], es[i])
  {
  }

  lemma Extend(call: Call, es: seq<Event>, ev: Event)
    requires Chain(call, es) && May(call, es, ev)
    ensures Chain(call, es + [ev])
  {
    var more := es + [ev];
    forall i | 0 <= i < |more|
      ensures May(call, more[..i], more[i])
    {
      if i < |es| {
        assert more[..i] == es[..i];
      } else {
        assert more[..i] == es;
      }
    }
  }

  // ------------------------------------------------------------ determinism

  // Which order the parameters were lifted in does not matter.
  lemma LiftsAgree(props: Fields, required: Value, body: Fields, r: Option<Request>, ps: seq<Param>, qs: seq<Param>)
    requires LiftsAll(props, required, props.Keys, ps) && LiftsAll(props, required, props.Keys, qs)
    ensures forall p :: p in ps ==> p in qs
    ensures Bindable(body, r, qs) ==> Bindable(body, r, ps)
  {
    forall i | 0 <= i < |ps|
      ensures ps[i] in qs
    {
      var k := ps[i].key;
      assert IsLift(props, required, ps[i]);
      LiftableIgnoresKey(k, props[k], RequiredHas(required, k));
      assert HasParam(qs, k);
      var j :| 0 <= j < |qs| && qs[j].key == k;
      assert IsLift(props, required, qs[j]);
      assert qs[j] == ps[i];
    }
  }

  lemma SuppliedIncluded(props: Fields, required: Value, r: Option<Request>, ps: seq<Param>, qs: seq<Param>, k: string)
    requires LiftsAll(props, required, props.Keys, ps) && LiftsAll(props, required, props.Keys, qs)
    requires k in Supplied(r, ps)
    ensures Lookup(Supplied(r, ps), k) == Lookup(Supplied(r, qs), k)
  {
    SuppliedAt(r, ps);
    SuppliedAt(r, qs);
    LiftsAgree(props, required, map[], r, ps, qs);
    var i :| 0 <= i < |ps| && ps[i].key == k;
    assert ps[i] in ps;
    var j :| 0 <= j < |qs| && qs[j] == ps[i];
    assert Lookup(Supplied(r, ps), ps[i].key) == TextOf(RestValue(r, ps[i]));
    assert Lookup(Supplied(r, qs), qs[j].key) == TextOf(RestValue(r, qs[j]));
  }

  lemma SameSupplied(props: Fields, required: Value, r: Option<Request>, ps: seq<Param>, qs: seq<Param>)
    requires LiftsAll(props, required, props.Keys, ps) && LiftsAll(props, required, props.Keys, qs)
    ensures Supplied(r, ps) == Supplied(r, qs)
  {
    var a, b := Supplied(r, ps), Supplied(r, qs);
    forall k | k in a
      ensures k in b && a[k] == b[k]
    {
      SuppliedIncluded(props, required, r, ps, qs, k);
      assert Lookup(a, k) == Lookup(b, k);
    }
    forall k | k in b
      ensures k in a
    {
      SuppliedIncluded(props, required, r, qs, ps, k);
      assert Lookup(a, k) == Lookup(b, k);
    }
  }

  lemma BindsOnce(call: Call, a: Fields, b: Fields)
    requires Binds(call, a) && Binds(call, b)
    ensures a == b
  {
    if call.ctx.rest.Some? {
      var ps :| BindsWith(call, ps, a);
      var qs :| BindsWith(call, qs, b);
      var consumer := ConsumerSchema(call.workflow.inputs.value);
      SameSupplied(Properties(consumer), Required(consumer), call.ctx.rest, ps, qs);
    }
  }

  // The inbound decision on these prepared inputs carries hints that clash.
  ghost predicate Clashes(call: Call, prepared: Fields) {
    BundleOf(call).inbound.Some? && Policy.HintsClash(BundleOf(call).inbound.value, prepared)
  }

  lemma MayOnce(call: Call, es: seq<Event>, a: Event, b: Event)
    requires May(call, es, a) && May(call, es, b)
    requires |es| == 7 ==> !Clashes(call, PreparedIn(es))
    ensures a == b
  {
    if |es| == 2 {
      BindsOnce(call, a.bound, b.bound);
    } else if |es| == 7 && BundleOf(call).inbound.Some? {
      Policy.InboundDeterministic(BundleOf(call).inbound.value, PreparedIn(es), Ok(a.inputs), Ok(b.inputs));
    }
  }

  // The run gets as far as its inbound policy, whose hints then clash.
  ghost predicate ReachesClash(call: Call, es: seq<Event>) {
    |es| >= 7 && Clashes(call, PreparedIn(es))
  }

  lemma SameNext(call: Call, es: seq<Event>, fs: seq<Event>, m: nat)
    requires Chain(call, es) && Chain(call, fs) && m < |es| && m < |fs| && es[..m] == fs[..m]
    requires !ReachesClash(call, es)
    ensures es[m] == fs[m]
  {
    ChainAt(call, es, m);
    ChainAt(call, fs, m);
    if m == 7 {
      assert es[..m][4] == es[4];
    }
    MayOnce(call, es[..m], es[m], fs[m]);
  }

  lemma TakeMore<T>(es: seq<T>, fs: seq<T>, m: nat)
    requires m < |es| && m < |fs| && es[..m] == fs[..m] && es[m] == fs[m]
    ensures es[..m + 1] == fs[..m + 1]
  {
    assert es[..m + 1] == es[..m] + [es[m]] && fs[..m + 1] == fs[..m] + [fs[m]];
  }

  lemma {:induction false} SamePrefix(call: Call, es: seq<Event>, fs: seq<Event>, n: nat)
    requires Chain(call, es) && Chain(call, fs) && n <= |es| && n <= |fs|
    requires !ReachesClash(call, es)
    ensures es[..n] == fs[..n]
  {
    if n > 0 {
      SamePrefix(call, es, fs, n - 1);
      SameNext(call, es, fs, n - 1);
      TakeMore(es, fs, n - 1);
    }
  }

  lemma NotEnded(call: Call, fs: seq<Event>)
    requires Chain(call, fs)
    ensures forall n :: 0 <= n < |fs| ==> !Ends(call, fs[..n])
  {
    forall n | 0 <= n < |fs|
      ensures !Ends(call, fs[..n])
    {
      assert May(call, fs[..n], fs[n]);
    }
  }

  lemma NoLonger(call: Call, es: seq<Event>, fs: seq<Event>)
    requires Chain(call, fs) && Ends(call, es)
    ensures |es| <= |fs| && fs[..|es|] == es ==> es == fs
  {
    NotEnded(call, fs);
    assert |es| == |fs| ==> fs[..|es|] == fs;
  }

  // No iteration order shows: unless the run reaches a decision whose hints
  // clash, every finished run of the same call has the same events, so the same
  // error point or the same outputs.
  lemma RunDeterministic(call: Call, es: seq<Event>, fs: seq<Event>)
    requires Chain(call, es) && Chain(call, fs) && Ends(call, es) && Ends(call, fs)
    requires !ReachesClash(call, es)
    ensures es == fs
  {
    var n := if |es| <= |fs| then |es| else |fs|;
    SamePrefix(call, es, fs, n);
    assert es[..|es|] == es && fs[..|fs|] == fs;
    NoLonger(call, es, fs);
    NoLonger(call, fs, es);
  }

  // Every run can be finished.
  lemma {:induction false} Finishes(call: Call, es: seq<Event>) returns (fs: seq<Event>)
    requires Chain(call, es) && |es| <= STAGES
    ensures es <= fs && Chain(call, fs) && Ends(call, fs)
    decreases STAGES - |es|
  {
    if ev :| May(call, es, ev) {
      Extend(call, es, ev);
      fs := Finishes(call, es + [ev]);
    } else {
      fs := es;
    }
  }

  lemma ChainTake(call: Call, es: seq<Event>, n: nat)
    requires Chain(call, es) && n <= |es|
    ensures Chain(call, es[..n])
  {
    forall i | 0 <= i < n
      ensures May(call, es[..n][..i], es[..n][i])
    {
      ChainAt(call, es, i);
      assert es[..n][..i] == es[..i];
    }
  }

  // A run that reaches such a decision can go on in two ways.
  lemma ClashShows(call: Call, es: seq<Event>) returns (fs: seq<Event>, gs: seq<Event>)
    requires Chain(call, es) && ReachesClash(call, es)
    ensures Chain(call, fs) && Ends(call, fs) && Chain(call, gs) && Ends(call, gs) && fs != gs
  {
    var start := es[..7];
    ChainTake(call, es, 7);
    assert start[4] == es[4];
    var q, prepared := BundleOf(call).inbound.value, PreparedIn(start);
    Policy.InboundOrderShows(q, prepared);
    var r, s :| Policy.InboundOutcome(q, prepared, r) && Policy.InboundOutcome(q, prepared, s) && r != s;
    var a, b := InboundAllowed(r.value), InboundAllowed(s.value);
    Extend(call, start, a);
    Extend(call, start, b);
    fs := Finishes(call, start + [a]);
    gs := Finishes(call, start + [b]);
    assert fs[7] == (start + [a])[7] && gs[7] == (start + [b])[7];
  }

  // ------------------------------------------------------------ what the gates guard

  // What the inbound policy's decision adds, and nothing else determines it.
  ghost predicate HintsOf(q: Option<Policy.Query>, prepared: Fields, part: Fields) {
    if q.None? then part == map[]
    else
      var answer := q.value(Strip(prepared, POLICY_HINTS), None);
      Policy.SaysAllow(answer) && AddsHints(answer.value.value, part)
  }

  ghost predicate AddsHints(d: Fields, part: Fields) {
    if Policy.NoHints(d) then part == map[]
    else exists hints ::
           Policy.CarriesHints(d, hints) && Flattens(map[POLICY_HINTS := d["hints"]], part, POLICY_HINTS, hints)
  }

  lemma StripNothing(m: Fields, key: string)
    requires forall k :: k in m ==> !ReservedUnder(k, key)
    ensures Strip(m, key) == m
  {
  }

  // Flattening into a map without hint keys is flattening into nothing, beside it.
  lemma FlattensApart(base: Fields, v: Value, obj: Fields, after: Fields) returns (part: Fields)
    requires Flattens(base[POLICY_HINTS := v], after, POLICY_HINTS, obj)
    ensures after == base + part && (forall k :: k in part ==> ReservedUnder(k, POLICY_HINTS))
    ensures Flattens(map[POLICY_HINTS := v], part, POLICY_HINTS, obj)
  {
    var put := map[POLICY_HINTS := v];
    var t :| IsTour(t, obj, obj.Keys) && after == Follow(t, base[POLICY_HINTS := v], POLICY_HINTS, obj);
    assert base[POLICY_HINTS := v] == base + put;
    FollowApart(t, base, put, POLICY_HINTS, obj);
    part := Follow(t, put, POLICY_HINTS, obj);
    FlattensIsFlattened(put, part, POLICY_HINTS, obj);
    forall k | k in part
      ensures ReservedUnder(k, POLICY_HINTS)
    {
      assert FlattenedAt(put, part, POLICY_HINTS, obj, k);
      if Named(POLICY_HINTS, obj, k) {
        NamedIsReserved(POLICY_HINTS, obj, k);
      }
    }
  }

  lemma InboundAddsHints(q: Option<Policy.Query>, prepared: Fields, inputs: Fields) returns (part: Fields)
    requires Inbound(q, prepared, inputs) && forall k :: k in prepared ==> !ReservedUnder(k, POLICY_HINTS)
    ensures HintsOf(q, prepared, part) && inputs == prepared + part
    ensures forall k :: k in part ==> ReservedUnder(k, POLICY_HINTS)
  {
    part := map[];
    assert prepared + map[] == prepared;
    if q.Some? {
      StripNothing(prepared, POLICY_HINTS);
      var d := q.value(prepared, None).value.value;
      var hints := Policy.Hints(Some(d)).value;
      if hints.Some? {
        part := FlattensApart(prepared, hints.value.0, hints.value.1, inputs);
        assert Policy.CarriesHints(d, hints.value.1);
      }
    }
  }

  // The workflow's inputs are three parts that never share a key: the accepted
  // inputs exactly as bound, secrets from the provider, hints from the policy.
  ghost predicate ThreeParts(call: Call, bound: Fields, secrets: Fields, hints: Fields, inputs: Fields) {
    && inputs == bound + secrets + hints
    && Binds(call, bound) && Closed(call, bound) && (forall k :: k in bound ==> !ReservedInputKey(k))
    && SecretsOf(call, secrets)
    && (forall k :: k in secrets ==> ReservedUnder(k, SECRETS) && !ReservedUnder(k, POLICY_HINTS))
    && HintsOf(BundleOf(call).inbound, bound + secrets, hints)
    && (forall k :: k in hints ==> ReservedUnder(k, POLICY_HINTS) && !ReservedUnder(k, SECRETS))
  }

  lemma PreparedParts(call: Call, bound: Fields, prepared: Fields) returns (secrets: Fields)
    requires Closed(call, bound) && Prepares(call, bound, prepared)
    ensures SecretsOf(call, secrets) && prepared == bound + secrets
    ensures forall k :: k in secrets ==> ReservedUnder(k, SECRETS) && !ReservedUnder(k, POLICY_HINTS)
    ensures forall k :: k in prepared ==> !ReservedUnder(k, POLICY_HINTS)
  {
    secrets :| SecretsOf(call, secrets) && prepared == Strip(Strip(bound, POLICY_HINTS), SECRETS) + secrets;
    StripNothing(bound, POLICY_HINTS);
    StripNothing(bound, SECRETS);
    forall k | k in secrets
      ensures ReservedUnder(k, SECRETS) && !ReservedUnder(k, POLICY_HINTS)
    {
      Policy.ReservedApart(k);
    }
  }

  lemma WorkflowSees(call: Call, es: seq<Event>) returns (secrets: Fields, hints: Fields)
    requires Chain(call, es) && |es| > 8
    ensures call.found.Some? && es[8] == Invoked(call.found.value, call.workflowID, InputsIn(es))
    ensures ThreeParts(call, BoundIn(es), secrets, hints, InputsIn(es))
  {
    ChainAt(call, es, 2);
    ChainAt(call, es, 3);
    ChainAt(call, es, 4);
    ChainAt(call, es, 7);
    ChainAt(call, es, 8);
    secrets := PreparedParts(call, BoundIn(es), PreparedIn(es));
    hints := InboundAddsHints(BundleOf(call).inbound, PreparedIn(es), InputsIn(es));
    forall k | k in hints
      ensures !ReservedUnder(k, SECRETS)
    {
      Policy.ReservedApart(k);
    }
  }

  // The policy, if there is one, answers these inputs with a decision that
  // allows.
  ghost predicate Lets(q: Option<Policy.Query>, inputs: Fields, outputs: Option<Fields>) {
    q.Some? ==> Policy.SaysAllow(q.value(inputs, outputs))
  }

  // The decision's hints, if it has any, are an object.
  ghost predicate HintsFit(q: Option<Policy.Query>, prepared: Fields) {
    q.Some? && Policy.SaysAllow(q.value(prepared, None)) ==>
      var d := q.value(prepared, None).value.value;
      Policy.NoHints(d) || exists hints :: Policy.CarriesHints(d, hints)
  }

  // Everything that stands before the engine, each gate in its own terms.
  ghost predicate GatesPass(call: Call, bound: Fields, prepared: Fields) {
    && Found(call) && ScopesPass(call.workflow.security, call.ctx.client)
    && Binds(call, bound) && Closed(call, bound)
    && Prepares(call, bound, prepared) && (call.policy.Some? ==> call.policy.value.Ok?)
    && Lets(BundleOf(call).sharedInbound, prepared, None)
    && Lets(BundleOf(call).inbound, prepared, None) && HintsFit(BundleOf(call).inbound, prepared)
    && call.engine.Some?
  }

  // What the shared inbound gate and the plan's, over prepared inputs, let
  // through, by the policies' answers.
  lemma SharedInboundSays(call: Call, prepared: Fields)
    ensures AllowedBy(BundleOf(call).sharedInbound, "inbound", prepared, None) <==>
              Lets(BundleOf(call).sharedInbound, prepared, None)
  {
    if BundleOf(call).sharedInbound.Some? {
      Policy.SharedGate(BundleOf(call).sharedInbound.value, "inbound", prepared, None);
    }
  }

  lemma InboundSays(call: Call, bound: Fields, prepared: Fields)
    requires Closed(call, bound) && Prepares(call, bound, prepared)
    ensures (exists inputs :: Inbound(BundleOf(call).inbound, prepared, inputs)) <==>
              Lets(BundleOf(call).inbound, prepared, None) && HintsFit(BundleOf(call).inbound, prepared)
  {
    var q := BundleOf(call).inbound;
    if q.None? {
      assert Inbound(q, prepared, prepared);
    } else {
      var secrets := PreparedParts(call, bound, prepared);
      StripNothing(prepared, POLICY_HINTS);
      Policy.InboundDecides(q.value, prepared);
      if out :| Policy.InboundOutcome(q.value, prepared, Ok(out)) {
        assert Inbound(q, prepared, out);
      }
    }
  }

  lemma PreparesOnce(call: Call, bound: Fields, a: Fields, b: Fields)
    requires Prepares(call, bound, a) && Prepares(call, bound, b)
    ensures a == b
  {
  }

  // The event that each gate lets through.
  ghost function NextEvent(call: Call, es: seq<Event>, bound: Fields, prepared: Fields, inputs: Fields): Event
    requires call.found.Some?
  {
    match |es|
    case 0 => Resolved(call.found.value, call.workflowID)
    case 1 => ScopesHeld
    case 2 => InputsBound(bound)
    case 3 => InputsClosed
    case 4 => SecretsAdded(prepared)
    case 5 => PolicyReady
    case 6 => SharedInboundAllowed
    case 7 => InboundAllowed(inputs)
    case _ => Invoked(call.found.value, call.workflowID, InputsIn(es))
  }

  lemma NextMay(call: Call, es: seq<Event>, bound: Fields, prepared: Fields, inputs: Fields)
    requires |es| <= 8 && GatesPass(call, bound, prepared)
    requires AllowedBy(BundleOf(call).sharedInbound, "inbound", prepared, None)
    requires Inbound(BundleOf(call).inbound, prepared, inputs)
    requires |es| > 2 ==> BoundIn(es) == bound
    requires |es| > 4 ==> PreparedIn(es) == prepared
    ensures May(call, es, NextEvent(call, es, bound, prepared, inputs))
  {
  }

  // With every gate open, a run does not end before the engine.
  lemma GatesLeadOn(call: Call, es: seq<Event>, bound: Fields, prepared: Fields)
    requires Chain(call, es) && |es| <= 8 && GatesPass(call, bound, prepared)
    ensures !Ends(call, es)
  {
    if |es| > 2 {
      ChainAt(call, es, 2);
      BindsOnce(call, BoundIn(es), bound);
    }
    if |es| > 4 {
      ChainAt(call, es, 4);
      PreparesOnce(call, bound, PreparedIn(es), prepared);
    }
    SharedInboundSays(call, prepared);
    InboundSays(call, bound, prepared);
    var inputs :| Inbound(BundleOf(call).inbound, prepared, inputs);
    NextMay(call, es, bound, prepared, inputs);
  }

  // What a finished stage of a chain says about the call.
  lemma StagesHeld(call: Call, es: seq<Event>)
    requires Chain(call, es)
    ensures |es| > 0 ==> Found(call)
    ensures |es| > 1 ==> ScopesPass(call.workflow.security, call.ctx.client)
    ensures |es| > 2 ==> Binds(call, BoundIn(es))
    ensures |es| > 3 ==> Closed(call, BoundIn(es))
  {
    if |es| > 0 {
      ChainAt(call, es, 0);
    }
    if |es| > 1 {
      ChainAt(call, es, 1);
    }
    if |es| > 2 {
      ChainAt(call, es, 2);
    }
    if |es| > 3 {
      ChainAt(call, es, 3);
    }
  }

  lemma LaterStagesHeld(call: Call, es: seq<Event>)
    requires Chain(call, es)
    ensures |es| > 4 ==> Prepares(call, BoundIn(es), PreparedIn(es))
    ensures |es| > 5 && call.policy.Some? ==> call.policy.value.Ok?
    ensures |es| > 6 ==> AllowedBy(BundleOf(call).sharedInbound, "inbound", PreparedIn(es), None)
    ensures |es| > 7 ==> Inbound(BundleOf(call).inbound, PreparedIn(es), InputsIn(es))
    ensures |es| > 8 ==> call.engine.Some?
  {
    if |es| > 4 {
      ChainAt(call, es, 4);
    }
    if |es| > 5 {
      ChainAt(call, es, 5);
    }
    if |es| > 6 {
      ChainAt(call, es, 6);
    }
    if |es| > 7 {
      ChainAt(call, es, 7);
    }
    if |es| > 8 {
      ChainAt(call, es, 8);
    }
  }

  // Past its gate, each inbound policy has answered the prepared inputs with a
  // decision that allows.
  lemma InboundAllows(call: Call, es: seq<Event>)
    requires Chain(call, es)
    ensures |es| > 6 ==> Lets(BundleOf(call).sharedInbound, PreparedIn(es), None)
    ensures |es| > 7 ==>
              Lets(BundleOf(call).inbound, PreparedIn(es), None) && HintsFit(BundleOf(call).inbound, PreparedIn(es))
  {
    StagesHeld(call, es);
    LaterStagesHeld(call, es);
    SharedInboundSays(call, PreparedIn(es));
    if |es| > 7 {
      InboundSays(call, BoundIn(es), PreparedIn(es));
    }
  }

  // A run that gets to an inbound policy which does not allow it ends there.
  lemma InboundDenies(call: Call, es: seq<Event>)
    requires Chain(call, es) && Ends(call, es)
    ensures |es| >= 6 && !Lets(BundleOf(call).sharedInbound, PreparedIn(es), None) ==> |es| == 6
    ensures |es| >= 7 && !Lets(BundleOf(call).inbound, PreparedIn(es), None) ==> |es| == 7
  {
    InboundAllows(call, es);
  }

  lemma GatesHeld(call: Call, es: seq<Event>)
    requires Chain(call, es) && |es| > 8
    ensures GatesPass(call, BoundIn(es), PreparedIn(es))
  {
    StagesHeld(call, es);
    LaterStagesHeld(call, es);
    InboundAllows(call, es);
  }

  lemma InvokedIsNinth(call: Call, es: seq<Event>, i: nat)
    requires Chain(call, es) && i < |es| && es[i].Invoked?
    ensures i == 8
  {
    ChainAt(call, es, i);
  }

  // The engine is invoked in a run exactly when every gate before it is open.
  lemma EngineBehindGates(call: Call, es: seq<Event>)
    requires Chain(call, es) && Ends(call, es)
    ensures (exists i :: 0 <= i < |es| && es[i].Invoked?) <==>
            exists bound, prepared :: GatesPass(call, bound, prepared)
  {
    if i :| 0 <= i < |es| && es[i].Invoked? {
      InvokedIsNinth(call, es, i);
      GatesHeld(call, es);
    }
    if bound, prepared :| GatesPass(call, bound, prepared) {
      if |es| <= 8 {
        GatesLeadOn(call, es, bound, prepared);
      }
      ChainAt(call, es, 8);
      assert es[8].Invoked?;
    }
  }

  // Outputs leave a run only if every present outbound policy answered them with
  // a decision that allows; they are then what the plan policy's decision makes
  // of the engine's outputs.
  lemma OutputsAllowed(call: Call, es: seq<Event>)
    requires Chain(call, es) && |es| == STAGES
    ensures var b, inputs, outputs := BundleOf(call), InputsIn(es), OutputsIn(es);
            && call.engine.Some? && call.found.Some?
            && Yields(call.engine.value(call.found.value, call.workflowID, inputs), outputs)
            && Lets(b.sharedOutbound, inputs, Some(outputs)) && Lets(b.outbound, inputs, Some(outputs))
            && es[11].Delivered?
            && (if b.outbound.None? then es[11].outputs == outputs
                else Policy.MakesOf(b.outbound.value(inputs, Some(outputs)).value.value, outputs, es[11].outputs))
  {
    ChainAt(call, es, 9);
    ChainAt(call, es, 10);
    ChainAt(call, es, 11);
    var b := BundleOf(call);
    if b.sharedOutbound.Some? {
      Policy.SharedGate(b.sharedOutbound.value, "outbound", InputsIn(es), Some(OutputsIn(es)));
    }
    if b.outbound.Some? {
      Policy.OutboundDelivers(b.outbound.value, InputsIn(es), OutputsIn(es), es[11].outputs);
    }
  }

  // Every policy of the bundle allows, and what is delivered is what the plan's
  // outbound decision makes of the engine's outputs.
  ghost predicate PoliciesLet(b: Bundle, prepared: Fields, inputs: Fields, outputs: Fields, delivered: Fields) {
    && Lets(b.sharedInbound, prepared, None) && Lets(b.inbound, prepared, None)
    && Lets(b.sharedOutbound, inputs, Some(outputs)) && Lets(b.outbound, inputs, Some(outputs))
    && (if b.outbound.None? then delivered == outputs
        else Policy.MakesOf(b.outbound.value(inputs, Some(outputs)).value.value, outputs, delivered))
  }

  // A run that delivered outputs: for a client that holds the workflow's scopes,
  // on inputs its author listed, with every secret as the provider gave it, and
  // with every policy allowing it.
  ghost predicate Succeeds(call: Call, es: seq<Event>, delivered: Fields) {
    && call.found.Some? && call.engine.Some? && call.workflow.inputs.Ok?
    && ScopesPass(call.workflow.security, call.ctx.client) && Closed(call, BoundIn(es))
    && SecretsHeld(call, InputsIn(es))
    && Yields(call.engine.value(call.found.value, call.workflowID, InputsIn(es)), OutputsIn(es))
    && (call.policy.Some? ==>
          call.policy.value.Ok? &&
          PoliciesLet(call.policy.value.value, PreparedIn(es), InputsIn(es), OutputsIn(es), delivered))
    && (call.policy.None? ==> delivered == OutputsIn(es))
  }

  ghost predicate SecretsHeld(call: Call, inputs: Fields) {
    call.secrets.Some? ==> forall name :: name in call.names ==>
      call.secrets.value(name).Ok? &&
      Lookup(inputs, "secrets." + name) == Some(Leaf(Str(call.secrets.value(name).value)))
  }

  lemma SecretPartShows(bound: Fields, secrets: Fields, hints: Fields, name: string)
    requires "secrets." + name in secrets && forall k :: k in hints ==> !ReservedUnder(k, SECRETS)
    ensures Lookup(bound + secrets + hints, "secrets." + name) == Lookup(secrets, "secrets." + name)
  {
    assert ReservedUnder("secrets." + name, SECRETS);
  }

  // Every secret asked for is among the engine's inputs, with the provider's text.
  lemma SecretsReachEngine(call: Call, es: seq<Event>)
    requires Chain(call, es) && |es| > 8
    ensures SecretsHeld(call, InputsIn(es))
  {
    var added, hints := WorkflowSees(call, es);
    SecretsShow(call, BoundIn(es), added, hints);
  }

  lemma SecretsShow(call: Call, bound: Fields, added: Fields, hints: Fields)
    requires SecretsOf(call, added) && forall k :: k in hints ==> !ReservedUnder(k, SECRETS)
    ensures SecretsHeld(call, bound + added + hints)
  {
    if call.secrets.Some? && call.names != [] {
      forall name | name in call.names
        ensures call.secrets.value(name).Ok?
        ensures Lookup(bound + added + hints, "secrets." + name) == Some(Leaf(Str(call.secrets.value(name).value)))
      {
        SecretArrives(call.secrets.value, call.names, name);
        assert Lookup(added, "secrets." + name).Some?;
        SecretPartShows(bound, added, hints, name);
      }
    }
  }

  lemma DeliversIfAllowed(call: Call, es: seq<Event>)
    requires Chain(call, es) && |es| == STAGES
    ensures es[11].Delivered? && Succeeds(call, es, es[11].outputs)
  {
    StagesHeld(call, es);
    LaterStagesHeld(call, es);
    InboundAllows(call, es);
    OutputsAllowed(call, es);
    SecretsReachEngine(call, es);
  }

  // A run whose engine succeeded ends without outputs at an outbound policy that
  // does not allow them.
  lemma OutboundDenies(call: Call, es: seq<Event>)
    requires Chain(call, es) && Ends(call, es)
    ensures |es| >= 10 && !Lets(BundleOf(call).sharedOutbound, InputsIn(es), Some(OutputsIn(es))) ==> |es| == 10
    ensures |es| >= 11 && !Lets(BundleOf(call).outbound, InputsIn(es), Some(OutputsIn(es))) ==> |es| == 11
  {
    var b := BundleOf(call);
    if |es| > 10 && b.sharedOutbound.Some? {
      ChainAt(call, es, 10);
      Policy.SharedGate(b.sharedOutbound.value, "outbound", InputsIn(es), Some(OutputsIn(es)));
    }
    if |es| > 11 && b.outbound.Some? {
      ChainAt(call, es, 11);
      Policy.OutboundDelivers(b.outbound.value, InputsIn(es), OutputsIn(es), es[11].outputs);
    }
    if |es| > 12 {
      ChainAt(call, es, 12);
    }
  }

  // ------------------------------------------------------------ the two transports

  // The same call over REST: the inputs that are lifted travel in the request,
  // the rest in the body.
  ghost function OverRest(call: Call, params: seq<Param>): Call {
    call.(ctx := call.ctx.(rest := Some(Request(Send(call.inputs, params)))), inputs := BodyOf(call.inputs, params))
  }

  // A direct call whose inputs can travel by the parameters of its workflow.
  ghost predicate CanTravel(call: Call, params: seq<Param>) {
    && call.ctx.rest.None? && call.workflow.inputs.Ok?
    && (var v := ConsumerSchema(call.workflow.inputs.value);
        LiftsAll(Properties(v), Required(v), Properties(v).Keys, params))
    && Sendable(call.inputs, params)
  }

  lemma BindsOverRest(call: Call, params: seq<Param>, bound: Fields)
    requires CanTravel(call, params)
    ensures Binds(OverRest(call, params), bound) <==> Binds(call, bound)
  {
    var rest := OverRest(call, params);
    LiftsTravel(ConsumerSchema(call.workflow.inputs.value), params);
    RestRebuildsInputs(call.inputs, params);
    assert BindsWith(rest, params, call.inputs);
    if Binds(rest, bound) {
      BindsOnce(rest, bound, call.inputs);
    }
  }

  lemma BindGateOverRest(call: Call, params: seq<Param>, es: seq<Event>, ev: Event)
    requires CanTravel(call, params) && |es| == 2
    ensures May(OverRest(call, params), es, ev) <==> May(call, es, ev)
  {
    if ev.InputsBound? {
      BindsOverRest(call, params, ev.bound);
    }
  }

  // Every gate of the two calls lets the same events through.
  lemma MayOverRest(call: Call, params: seq<Param>, es: seq<Event>, ev: Event)
    requires CanTravel(call, params)
    ensures May(OverRest(call, params), es, ev) <==> May(call, es, ev)
  {
    if |es| == 2 {
      BindGateOverRest(call, params, es, ev);
    } else {
      OtherGatesAlike(call, OverRest(call, params), es, ev);
    }
  }

  // No other gate looks at the transport or at the inputs as they came.
  lemma OtherGatesAlike(call: Call, other: Call, es: seq<Event>, ev: Event)
    requires |es| != 2 && other == call.(ctx := other.ctx, inputs := other.inputs)
    requires other.ctx.client == call.ctx.client
    ensures May(other, es, ev) <==> May(call, es, ev)
  {
    assert BundleOf(other) == BundleOf(call);
    if |es| == 4 && ev.SecretsAdded? {
      PreparesAlike(call, other, BoundIn(es), ev.prepared);
    }
  }

  lemma PreparesAlike(call: Call, other: Call, bound: Fields, prepared: Fields)
    requires other.secrets == call.secrets && other.names == call.names
    ensures Prepares(other, bound, prepared) <==> Prepares(call, bound, prepared)
  {
    forall part
      ensures SecretsOf(other, part) <==> SecretsOf(call, part)
    {
    }
  }

  lemma ChainOverRest(call: Call, params: seq<Param>, es: seq<Event>)
    requires CanTravel(call, params)
    ensures Chain(OverRest(call, params), es) <==> Chain(call, es)
    ensures Ends(OverRest(call, params), es) <==> Ends(call, es)
  {
    var rest := OverRest(call, params);
    forall i | 0 <= i < |es|
      ensures May(rest, es[..i], es[i]) <==> May(call, es[..i], es[i])
    {
      MayOverRest(call, params, es[..i], es[i]);
    }
    forall ev
      ensures May(rest, es, ev) <==> May(call, es, ev)
    {
      MayOverRest(call, params, es, ev);
    }
  }

  lemma DirectBinds(call: Call, es: seq<Event>)
    requires call.ctx.rest.None? && |es| == 2
    ensures !Ends(call, es)
  {
    assert May(call, es, InputsBound(call.inputs));
  }

  // REST and MCP run alike: sending the inputs by REST gives exactly the runs,
  // the outputs and the errors of the call made with the inputs directly.
  lemma TransportsAgree(call: Call, params: seq<Param>, r: Result<Fields, RunError>, es: seq<Event>)
    requires CanTravel(call, params)
    ensures Outcome(OverRest(call, params), r, es) <==> Outcome(call, r, es)
  {
    ChainOverRest(call, params, es);
    if |es| == 2 {
      DirectBinds(call, es);
    }
  }

  // ------------------------------------------------------------ the pipeline

  // How far a run has come: still going after stage k, or ended.
  ghost predicate At(call: Call, es: seq<Event>, k: nat) {
    Chain(call, es) && |es| == k
  }

  // The error is that of the gate that refused.
  ghost predicate RefusedBy(call: Call, es: seq<Event>, err: RunError) {
    match |es|
    case 0 => err == NotFound
    case 1 => err == Scope(ScopeErrorOf(call.workflow.security, call.ctx.client))
    case 2 => if call.workflow.inputs.Err? then err == Internal else err.Binding? && CannotBindBy(call, err.binding)
    case 3 => err == if call.workflow.inputs.Err? then Internal else NotAccepted
    case 4 => err == Internal
    case 5 => err == PolicyLoad
    case 6 => DeniedBy(BundleOf(call).sharedInbound, "inbound", PreparedIn(es), None, err)
    case 7 =>
      err.PolicyRefused? && BundleOf(call).inbound.Some? &&
      Policy.InboundOutcome(BundleOf(call).inbound.value, PreparedIn(es), Err(err.failure))
    case 8 => err == NoExecutor
    case 9 => err == EngineFailed
    case 10 => DeniedBy(BundleOf(call).sharedOutbound, "outbound", InputsIn(es), Some(OutputsIn(es)), err)
    case _ =>
      err.PolicyRefused? && BundleOf(call).outbound.Some? &&
      Policy.ApplyOutbound(BundleOf(call).outbound.value, InputsIn(es), OutputsIn(es)) == Err(err.failure)
  }

  ghost predicate DeniedBy(q: Option<Policy.Query>, phase: string, inputs: Fields, outputs: Option<Fields>,
                           err: RunError)
  {
    q.Some? && err.PolicyRefused? && Policy.EvalAllowOnly(q.value, phase, inputs, outputs) == Some(err.failure)
  }

  ghost predicate CannotBindBy(call: Call, error: BindError)
    requires call.workflow.inputs.Ok?
  {
    var consumer := ConsumerSchema(call.workflow.inputs.value);
    exists p :: IsLift(Properties(consumer), Required(consumer), p) && Unbindable(call.inputs, call.ctx.rest, p, error)
  }

  ghost predicate Over(call: Call, es: seq<Event>, err: RunError) {
    Chain(call, es) && |es| < STAGES && Ends(call, es) && RefusedBy(call, es, err)
  }

  lemma Onward(call: Call, es: seq<Event>, k: nat, ev: Event)
    requires At(call, es, k) && May(call, es, ev)
    ensures At(call, es + [ev], k + 1)
    ensures k != 2 ==> BoundIn(es + [ev]) == BoundIn(es)
    ensures k != 4 ==> PreparedIn(es + [ev]) == PreparedIn(es)
    ensures k != 7 ==> InputsIn(es + [ev]) == InputsIn(es)
    ensures k != 9 ==> OutputsIn(es + [ev]) == OutputsIn(es)
    ensures k == 2 ==> ev.InputsBound? && BoundIn(es + [ev]) == ev.bound
    ensures k == 4 ==> ev.SecretsAdded? && PreparedIn(es + [ev]) == ev.prepared
    ensures k == 7 ==> ev.InboundAllowed? && InputsIn(es + [ev]) == ev.inputs
    ensures k == 9 ==> ev.Finished? && OutputsIn(es + [ev]) == ev.outputs
  {
    Extend(call, es, ev);
  }

  lemma CannotBind(call: Call, params: seq<Param>)
    requires call.ctx.rest.Some? && call.workflow.inputs.Ok?
    requires var consumer := ConsumerSchema(call.workflow.inputs.value);
             LiftsAll(Properties(consumer), Required(consumer), Properties(consumer).Keys, params)
    requires !Bindable(call.inputs, call.ctx.rest, params)
    ensures forall bound :: !Binds(call, bound)
  {
    forall bound, qs | BindsWith(call, qs, bound)
      ensures false
    {
      var consumer := ConsumerSchema(call.workflow.inputs.value);
      LiftsAgree(Properties(consumer), Required(consumer), call.inputs, call.ctx.rest, params, qs);
    }
  }

  // if r := restRequestFrom(ctx); r != nil { inputs = bindRESTInputs(...) }
  method BindCall(call: Call, inputs: GoMap) returns (r: Result<GoMap, RunError>)
    requires inputs.m == call.inputs
    ensures r.Ok? ==> Binds(call, r.value.m)
    ensures r.Err? ==> forall bound :: !Binds(call, bound)
    ensures r.Err? ==> if call.workflow.inputs.Err? then r.error == Internal
                       else r.error.Binding? && CannotBindBy(call, r.error.binding)
  {
    if call.ctx.rest.None? {
      return Ok(inputs);
    }
    if call.workflow.inputs.Err? {
      return Err(Internal);
    }
    var consumer := ConsumerSchema(call.workflow.inputs.value);
    var out, params := BindInputs(consumer, call.workflow.order, inputs.m, call.ctx.rest);
    if out.Err? {
      CannotBind(call, params);
      ghost var i :| 0 <= i < |params| && Unbindable(inputs.m, call.ctx.rest, params[i], out.error);
      assert IsLift(Properties(consumer), Required(consumer), params[i]);
      return Err(Binding(out.error));
    }
    assert BindsWith(call, params, out.value);
    var bound := new GoMap();
    bound.m := out.value;
    return Ok(bound);
  }

  // Find, scopes, bind, closed inputs.
  method Accept(call: Call, inputs: GoMap) returns (r: Result<GoMap, RunError>, ghost es: seq<Event>)
    requires inputs.m == call.inputs
    ensures r.Ok? ==> At(call, es, 4) && r.value.m == BoundIn(es)
    ensures r.Err? ==> Over(call, es, r.error)
  {
    es := [];
    if call.found.None? || call.workflowID !in WorkflowIDs(call.found.value) {
      return Err(NotFound), es;
    }
    Onward(call, es, 0, Resolved(call.found.value, call.workflowID));
    es := es + [Resolved(call.found.value, call.workflowID)];
    var scopes := CheckWorkflowScopes(call.workflow.security, call.ctx.client);
    if scopes.Some? {
      return Err(Scope(scopes.value)), es;
    }
    Onward(call, es, 1, ScopesHeld);
    es := es + [ScopesHeld];
    var bound := BindCall(call, inputs);
    if bound.Err? {
      return Err(bound.error), es;
    }
    Onward(call, es, 2, InputsBound(bound.value.m));
    es := es + [InputsBound(bound.value.m)];
    if call.workflow.inputs.Err? {
      return Err(Internal), es;
    }
    var ok := RejectUnexpected(call.workflow.inputs.value, bound.value.m);
    if !ok {
      return Err(NotAccepted), es;
    }
    Onward(call, es, 3, InputsClosed);
    es := es + [InputsClosed];
    return Ok(bound.value), es;
  }

  // runInputs := stripSecrets(stripPolicyHints(inputs)), and the secrets.
  method Prepare(call: Call, bound: GoMap) returns (r: Result<GoMap, RunError>)
    ensures r.Ok? ==> fresh(r.value) && Prepares(call, bound.m, r.value.m)
    ensures r.Err? ==> r.error == Internal && forall prepared :: !Prepares(call, bound.m, prepared)
  {
    var unhinted := StripPrefixed(bound, POLICY_HINTS);
    var stripped := StripPrefixed(unhinted, SECRETS);
    ghost var base := stripped.m;
    var injected := InjectSecrets(stripped, call.secrets, call.names);
    if injected.Err? {
      return Err(Internal);
    }
    assert base + map[] == base;
    assert SecretsOf(call, map[]) || SecretsOf(call, SecretsPart(Fetch(call.secrets.value, call.names).value));
    return Ok(injected.value);
  }

  // applyInbound, when the plan has an inbound policy.
  method DecideInbound(q: Option<Policy.Query>, prepared: GoMap) returns (r: Result<GoMap, RunError>)
    ensures r.Ok? ==> Inbound(q, prepared.m, r.value.m)
    ensures r.Err? ==> forall inputs :: !Inbound(q, prepared.m, inputs)
    ensures r.Err? ==>
              q.Some? && r.error.PolicyRefused? && Policy.InboundOutcome(q.value, prepared.m, Err(r.error.failure))
  {
    if q.None? {
      return Ok(prepared);
    }
    var out := Policy.ApplyInbound(q.value, prepared);
    if out.Err? {
      return Err(PolicyRefused(out.error));
    }
    return Ok(out.value);
  }

  method DecideShared(q: Option<Policy.Query>, phase: string, inputs: Fields, outputs: Option<Fields>)
    returns (err: Option<RunError>)
    ensures err.None? <==> AllowedBy(q, phase, inputs, outputs)
    ensures err.Some? ==> DeniedBy(q, phase, inputs, outputs, err.value)
  {
    if q.None? {
      return None;
    }
    var refused := Policy.EvalAllowOnly(q.value, phase, inputs, outputs);
    return if refused.Some? then Some(PolicyRefused(refused.value)) else None;
  }

  // Secrets, policy, shared inbound, plan inbound.
  method Govern(call: Call, bound: GoMap, ghost before: seq<Event>)
    returns (r: Result<GoMap, RunError>, bundle: Bundle, ghost es: seq<Event>)
    requires At(call, before, 4) && bound.m == BoundIn(before)
    ensures r.Ok? ==> At(call, es, 8) && r.value.m == InputsIn(es) && bundle == BundleOf(call)
    ensures r.Err? ==> Over(call, es, r.error)
  {
    es := before;
    bundle := Bundle(None, None, None, None);
    var prepared := Prepare(call, bound);
    if prepared.Err? {
      return Err(prepared.error), bundle, es;
    }
    var runInputs := prepared.value;
    Onward(call, es, 4, SecretsAdded(runInputs.m));
    es := es + [SecretsAdded(runInputs.m)];
    if call.policy.Some? {
      if call.policy.value.Err? {
        return Err(PolicyLoad), bundle, es;
      }
      bundle := call.policy.value.value;
    }
    Onward(call, es, 5, PolicyReady);
    es := es + [PolicyReady];
    var refused := DecideShared(bundle.sharedInbound, "inbound", runInputs.m, None);
    if refused.Some? {
      return Err(refused.value), bundle, es;
    }
    Onward(call, es, 6, SharedInboundAllowed);
    es := es + [SharedInboundAllowed];
    var decided := DecideInbound(bundle.inbound, runInputs);
    if decided.Err? {
      return Err(decided.error), bundle, es;
    }
    Onward(call, es, 7, InboundAllowed(decided.value.m));
    es := es + [InboundAllowed(decided.value.m)];
    return Ok(decided.value), bundle, es;
  }

  // Execute, shared outbound, plan outbound.
  method Execute(call: Call, inputs: GoMap, bundle: Bundle, ghost before: seq<Event>)
    returns (r: Result<Fields, RunError>, ghost es: seq<Event>)
    requires At(call, before, 8) && call.found.Some? && inputs.m == InputsIn(before) && bundle == BundleOf(call)
    ensures r.Ok? ==> At(call, es, STAGES) && es[11] == Delivered(r.value)
    ensures r.Err? ==> Over(call, es, r.error)
  {
    es := before;
    if call.engine.None? {
      return Err(NoExecutor), es;
    }
    var engine := call.engine.value;
    var e := call.found.value;
    Onward(call, es, 8, Invoked(e, call.workflowID, inputs.m));
    es := es + [Invoked(e, call.workflowID, inputs.m)];
    var ran := engine(e, call.workflowID, inputs.m);
    if ran.Failed? {
      return Err(EngineFailed), es;
    }
    var out := OutputsOf(ran);
    Onward(call, es, 9, Finished(out));
    es := es + [Finished(out)];
    var refused := DecideShared(bundle.sharedOutbound, "outbound", inputs.m, Some(out));
    if refused.Some? {
      return Err(refused.value), es;
    }
    Onward(call, es, 10, SharedOutboundAllowed);
    es := es + [SharedOutboundAllowed];
    if bundle.outbound.Some? {
      var applied := Policy.ApplyOutbound(bundle.outbound.value, inputs.m, out);
      if applied.Err? {
        return Err(PolicyRefused(applied.error)), es;
      }
      out := applied.value;
    }
    Onward(call, es, 11, Delivered(out));
    es := es + [Delivered(out)];
    return Ok(out), es;
  }

  // How a run of the call may come out.
  ghost predicate Outcome(call: Call, r: Result<Fields, RunError>, es: seq<Event>) {
    if r.Ok? then At(call, es, STAGES) && es[11] == Delivered(r.value) else Over(call, es, r.error)
  }

  lemma FoundByThen(call: Call, es: seq<Event>)
    requires Chain(call, es) && |es| > 0
    ensures Found(call)
  {
    ChainAt(call, es, 0);
  }

  lemma WorkflowParses(workflows: seq<Workflow>, ids: seq<string>, id: string)
    requires WorkflowsOk(workflows) && id in ids
    requires |ids| == |workflows| && forall i :: 0 <= i < |ids| ==> ids[i] == workflows[i].id
    ensures var w := WorkflowByID(workflows, id); w.Some? && w.value.security.Ok? && w.value.inputs.Ok?
  {
    var i :| 0 <= i < |ids| && ids[i] == id;
    assert workflows[i] in workflows;
    var w := WorkflowByID(workflows, id);
    assert WorkflowOk(w.value);
  }

  // The workflow a call runs; one that is not found has no description anybody
  // reads.
  function WorkflowOf(found: Option<Entry>, workflowID: string): Workflow {
    var none := Workflow("", Err(()), Err(()), [], {}, None, []);
    if found.None? then none
    else match WorkflowByID(found.value.workflows, workflowID) case None => none case Some(w) => w
  }

  ghost predicate HasWorkflow(e: Entry, id: string) {
    exists i :: 0 <= i < |e.workflows| && e.workflows[i].id == id
  }

  lemma WorkflowListed(e: Entry, id: string)
    ensures id in WorkflowIDs(e) <==> HasWorkflow(e, id)
  {
    var ids := WorkflowIDs(e);
    if HasWorkflow(e, id) {
      var i :| 0 <= i < |e.workflows| && e.workflows[i].id == id;
      assert ids[i] == id;
    }
    if id in ids {
      var i :| 0 <= i < |ids| && ids[i] == id;
      assert e.workflows[i].id == id;
    }
  }

  class Runner {
    const catalog: Catalog
    const executor: Option<Engine>
    const matcher: Option<Matcher>
    var policy: Option<PolicySource>
    var secrets: Option<Provider>
    var secretInputs: seq<string>
    ghost var events: seq<Event>

    constructor (catalog: Catalog, executor: Option<Engine>, matcher: Option<Matcher>)
      ensures this.catalog == catalog && this.executor == executor && this.matcher == matcher
      ensures policy == None && secrets == None && secretInputs == [] && events == []
    {
      this.catalog, this.executor, this.matcher := catalog, executor, matcher;
      policy, secrets, secretInputs, events := None, None, [], [];
    }

    method SetPolicy(p: Option<PolicySource>)
      modifies this`policy
      ensures policy == p
    {
      policy := p;
    }

    method SetSecrets(p: Option<Provider>, names: seq<string>)
      modifies this`secrets, this`secretInputs
      ensures secrets == p && secretInputs == names
    {
      secrets, secretInputs := p, names;
    }

    // What a run of this runner depends on.
    function CallOf(ctx: Context, planID: string, version: string, workflowID: string, inputs: Fields): Call
      reads this`policy, this`secrets, this`secretInputs, catalog
    {
      var found := catalog.Get(planID, version);
      Call(planID, version, found, workflowID, WorkflowOf(found, workflowID), ctx, inputs, secrets, secretInputs,
           if policy.Some? then Some(policy.value(planID, version)) else None,
           executor)
    }

    // A run passes its gates in order until one refuses, and delivers outputs
    // only past the last. It writes to none of the caller's maps.
    method Run(ctx: Context, planID: string, version: string, workflowID: string, inputs: GoMap)
      returns (r: Result<Fields, RunError>, ghost es: seq<Event>)
      modifies this`events
      ensures events == old(events) + es
      ensures Outcome(CallOf(ctx, planID, version, workflowID, inputs.m), r, es)
    {
      var call := CallOf(ctx, planID, version, workflowID, inputs.m);
      var accepted;
      accepted, es := Accept(call, inputs);
      if accepted.Err? {
        events := events + es;
        return Err(accepted.error), es;
      }
      var governed, bundle;
      governed, bundle, es := Govern(call, accepted.value, es);
      if governed.Err? {
        events := events + es;
        return Err(governed.error), es;
      }
      FoundByThen(call, es);
      r, es := Execute(call, governed.value, bundle, es);
      events := events + es;
    }

    // Over REST the runner's run of a call is the run it makes of the inputs
    // directly.
    lemma RunsAlike(client: Option<seq<string>>, planID: string, version: string, workflowID: string, inputs: Fields,
                    params: seq<Param>, r: Result<Fields, RunError>, es: seq<Event>)
      requires CanTravel(CallOf(Context(client, None), planID, version, workflowID, inputs), params)
      ensures var request := Some(Request(Send(inputs, params)));
              Outcome(CallOf(Context(client, request), planID, version, workflowID, BodyOf(inputs, params)), r, es) <==>
              Outcome(CallOf(Context(client, None), planID, version, workflowID, inputs), r, es)
    {
      TransportsAgree(CallOf(Context(client, None), planID, version, workflowID, inputs), params, r, es);
    }

    // A loaded workflow always parses: no run ends for that reason.
    lemma LoadedParses(ctx: Context, planID: string, version: string, workflowID: string, inputs: Fields)
      requires catalog.Ready()
      ensures var call := CallOf(ctx, planID, version, workflowID, inputs);
              Found(call) ==> call.workflow.security.Ok? && call.workflow.inputs.Ok?
    {
      var call := CallOf(ctx, planID, version, workflowID, inputs);
      if Found(call) {
        var e := call.found.value;
        assert e in catalog.entries;
        var i :| 0 <= i < |catalog.entries| && catalog.entries[i] == e;
        assert EntryOk(catalog.entries[i]);
        WorkflowParses(e.workflows, WorkflowIDs(e), workflowID);
      }
    }

    // What a call of this runner is made of: its own parts, and of the entry that
    // the catalog finds the first workflow with the id asked for.
    lemma CallIsOwn(ctx: Context, planID: string, version: string, workflowID: string, inputs: Fields)
      ensures var call := CallOf(ctx, planID, version, workflowID, inputs);
              && call.ctx == ctx && call.inputs == inputs && call.workflowID == workflowID
              && call.secrets == secrets && call.names == secretInputs && call.engine == executor
              && (policy.None? ==> call.policy.None?)
              && (policy.Some? ==> call.policy == Some(policy.value(planID, version)))
              && call.found == catalog.Get(planID, version)
              && (Found(call) ==> FirstWithID(call.found.value.workflows, workflowID, call.workflow))
    {
      if catalog.Get(planID, version).Some? {
        WorkflowListed(catalog.Get(planID, version).value, workflowID);
      }
    }

    // For versions without a NUL, that entry is the one asked for.
    lemma FoundIsAsked(ctx: Context, planID: string, version: string, workflowID: string, inputs: Fields)
      requires catalog.Indexed() && '\0' !in version
      ensures var found := CallOf(ctx, planID, version, workflowID, inputs).found;
              found.Some? ==>
                found.value in catalog.entries && found.value.planID == planID && found.value.version == version
    {
      if catalog.Get(planID, version).Some? {
        catalog.GetFindsWhatWasAsked(planID, version);
      }
    }

    // The entry a match means: a blank version is the latest one.
    function EntryOf(m: Match): Option<Entry>
      reads catalog
    {
      if Strings.Trim(m.version) == "" then catalog.Latest(m.planID) else catalog.Get(m.planID, m.version)
    }

    // The match a query leads to, if there is a usable one.
    function MatchOf(query: string, data: Fields): Result<Match, RunError>
      reads catalog
    {
      if matcher.None? then Err(NoMatcher)
      else if Strings.Trim(query) == "" then Err(EmptyQuery)
      else
        match matcher.value(query, data)
        case Err(_) => Err(MatchFailed)
        case Ok(None) => Err(NotFound)
        case Ok(Some(m)) =>
          if m.planID == "" || m.workflowID == "" || EntryOf(m).None? || m.workflowID !in WorkflowIDs(EntryOf(m).value)
          then Err(NotFound) else Ok(m)
    }

    // A match means the entry under its plan id and version or, where the version
    // is blank, the first loaded entry of the plan that no other version outranks.
    ghost predicate Means(m: Match, e: Entry)
      reads catalog
    {
      if Strings.Trim(m.version) == "" then
        exists i :: IsLatest(catalog.entries, m.planID, i) && catalog.entries[i] == e
      else e in catalog.entries && e.planID + "\0" + e.version == m.planID + "\0" + m.version
    }

    lemma LatestMeant(m: Match, e: Entry)
      requires catalog.Ready() && Strings.Trim(m.version) == ""
      ensures EntryOf(m) == Some(e) <==> Means(m, e)
    {
      catalog.LatestFindsNewest(m.planID);
      if i :| IsLatest(catalog.entries, m.planID, i) && catalog.Latest(m.planID) == Some(catalog.entries[i]) {
        if j :| IsLatest(catalog.entries, m.planID, j) && catalog.entries[j] == e {
          assert NotAbove(Rank(catalog.entries[i].version), Rank(catalog.entries[j].version), i < j);
          assert NotAbove(Rank(catalog.entries[j].version), Rank(catalog.entries[i].version), j < i);
          SemVer.PrecedenceIsTotalOrder(Rank(catalog.entries[i].version), Rank(catalog.entries[j].version),
                                        Rank(catalog.entries[i].version));
        }
      }
    }

    lemma VersionMeant(m: Match, e: Entry)
      requires catalog.Indexed() && Strings.Trim(m.version) != ""
      ensures EntryOf(m) == Some(e) <==> Means(m, e)
    {
      if e in catalog.entries {
        var i :| 0 <= i < |catalog.entries| && catalog.entries[i] == e;
        catalog.SegmentFindsEntry(i);
      }
    }

    lemma EntryMeant(m: Match, e: Entry)
      requires catalog.Ready()
      ensures EntryOf(m) == Some(e) <==> Means(m, e)
    {
      if Strings.Trim(m.version) == "" {
        LatestMeant(m, e);
      } else {
        VersionMeant(m, e);
      }
    }

    lemma MatchParts(query: string, data: Fields, m: Match)
      ensures MatchOf(query, data) == Ok(m) <==>
                && matcher.Some? && Strings.Trim(query) != "" && matcher.value(query, data) == Ok(Some(m))
                && m.planID != "" && m.workflowID != ""
                && EntryOf(m).Some? && HasWorkflow(EntryOf(m).value, m.workflowID)
    {
      if EntryOf(m).Some? {
        WorkflowListed(EntryOf(m).value, m.workflowID);
      }
    }

    // Query runs a match exactly when the matcher, asked a query that is not
    // blank, answers with one that means a loaded entry with that workflow.
    lemma QueryRuns(query: string, data: Fields, m: Match)
      requires catalog.Ready()
      ensures MatchOf(query, data) == Ok(m) <==>
                && matcher.Some? && Strings.Trim(query) != "" && matcher.value(query, data) == Ok(Some(m))
                && m.planID != "" && m.workflowID != ""
                && exists e :: Means(m, e) && HasWorkflow(e, m.workflowID)
    {
      MatchParts(query, data, m);
      MatchedWorkflow(m);
    }

    lemma MatchedWorkflow(m: Match)
      requires catalog.Ready()
      ensures EntryOf(m).Some? && HasWorkflow(EntryOf(m).value, m.workflowID) <==>
              exists e :: Means(m, e) && HasWorkflow(e, m.workflowID)
    {
      if EntryOf(m).Some? {
        EntryMeant(m, EntryOf(m).value);
      }
      if e :| Means(m, e) && HasWorkflow(e, m.workflowID) {
        EntryMeant(m, e);
      }
    }

    // The run that Query makes of a match.
    function QueryCall(ctx: Context, m: Match, data: Fields): Call
      requires EntryOf(m).Some?
      reads this`policy, this`secrets, this`secretInputs, catalog
    {
      CallOf(ctx, EntryOf(m).value.planID, EntryOf(m).value.version, m.workflowID,
             if m.inputs.Some? then m.inputs.value else data)
    }

    // The run is of the entry the match means, on its inputs or else the data.
    lemma QueryRunsMeant(ctx: Context, m: Match, data: Fields)
      requires catalog.Ready() && EntryOf(m).Some?
      ensures QueryCall(ctx, m, data).found == EntryOf(m) && Means(m, EntryOf(m).value)
      ensures Strings.Trim(m.version) != "" && '\0' !in m.version ==>
                EntryOf(m).value.planID == m.planID && EntryOf(m).value.version == m.version
      ensures var call := QueryCall(ctx, m, data);
              && call.workflowID == m.workflowID && call.ctx == ctx
              && call.inputs == match m.inputs case None => data case Some(given) => given
    {
      var e := EntryOf(m).value;
      assert Means(m, e) by {
        EntryMeant(m, e);
      }
      assert catalog.Get(e.planID, e.version) == EntryOf(m) by {
        ResolvedIsFound(m);
      }
      if Strings.Trim(m.version) != "" && '\0' !in m.version {
        catalog.GetFindsWhatWasAsked(m.planID, m.version);
      }
      CallIsOwn(ctx, e.planID, e.version, m.workflowID, if m.inputs.Some? then m.inputs.value else data);
    }

    // Query without a usable match touches nothing. With one it is a run of the
    // matched entry under its own id and version, and that run finds what
    // Query found: it never ends at the find gate.
    method Query(ctx: Context, query: string, data: GoMap) returns (r: Result<Fields, RunError>, ghost es: seq<Event>)
      requires catalog.Ready()
      modifies this`events
      ensures events == old(events) + es
      ensures match MatchOf(query, data.m)
              case Err(e) => r == Err(e) && es == []
              case Ok(m) =>
                EntryOf(m).Some? && QueryCall(ctx, m, data.m).found == EntryOf(m) &&
                Outcome(QueryCall(ctx, m, data.m), r, es) && es != []
    {
      es := [];
      var matched := MatchOf(query, data.m);
      if matched.Err? {
        return Err(matched.error), es;
      }
      var m := matched.value;
      MatchUsable(query, data.m, m);
      MatchedIsFound(ctx, m, data.m);
      r, es := RunMatch(ctx, m, data);
      OutcomeStarts(QueryCall(ctx, m, data.m), r, es);
    }

    lemma MatchUsable(query: string, data: Fields, m: Match)
      requires MatchOf(query, data) == Ok(m)
      ensures EntryOf(m).Some? && m.workflowID in WorkflowIDs(EntryOf(m).value)
    {
    }

    // The run of a match.
    method RunMatch(ctx: Context, m: Match, data: GoMap) returns (r: Result<Fields, RunError>, ghost es: seq<Event>)
      requires EntryOf(m).Some?
      modifies this`events
      ensures events == old(events) + es
      ensures Outcome(QueryCall(ctx, m, data.m), r, es)
    {
      var e := EntryOf(m).value;
      var inputs := data;
      if m.inputs.Some? {
        inputs := new GoMap();
        inputs.m := m.inputs.value;
      }
      r, es := Run(ctx, e.planID, e.version, m.workflowID, inputs);
    }

    lemma MatchedIsFound(ctx: Context, m: Match, data: Fields)
      requires catalog.Ready() && EntryOf(m).Some? && m.workflowID in WorkflowIDs(EntryOf(m).value)
      ensures QueryCall(ctx, m, data).found == EntryOf(m) && Found(QueryCall(ctx, m, data))
    {
      ResolvedIsFound(m);
    }

    // What Query resolves, Run looks up again under the entry's own id and
    // version, and finds.
    lemma ResolvedIsFound(m: Match)
      requires catalog.Ready() && EntryOf(m).Some?
      ensures catalog.Get(EntryOf(m).value.planID, EntryOf(m).value.version) == EntryOf(m)
    {
      var e := EntryOf(m).value;
      assert e in catalog.entries;
      var i :| 0 <= i < |catalog.entries| && catalog.entries[i] == e;
      catalog.SegmentFindsEntry(i);
    }
  }

  lemma OutcomeStarts(call: Call, r: Result<Fields, RunError>, es: seq<Event>)
    requires Found(call) && Outcome(call, r, es)
    ensures es != []
  {
    NotEndedAtFind(call, es);
  }

  // A run of something that is found does not end at the find gate.
  lemma NotEndedAtFind(call: Call, es: seq<Event>)
    requires Found(call) && Chain(call, es) && (|es| == STAGES || Ends(call, es))
    ensures es != []
  {
    if es == [] {
      assert May(call, es, Resolved(call.found.value, call.workflowID));
      assert false;
    }
  }
}
