// How internal/plans/policy.go applies the decisions of a compiled policy. The
// evaluator itself is an arbitrary function from what the policy is shown to a
// decision object, no decision, or an error.
module Policy {
  import opened Outcomes
  import opened Json
  import opened Inputs
  import opened HintOrders
  import opened Redact

  datatype PolicyFailure = EvalFailed | Denied(phase: string, reason: string)

  type Decision = Option<Fields>
  type Query = (Fields, Option<Fields>) -> Result<Decision, ()>

  // decisionAllow: nothing but the JSON value true allows.
  predicate Allows(d: Decision) {
    d.Some? && "allow" in d.value && d.value["allow"] == Leaf(Bool(true))
  }

  // decisionReason
  function Reason(d: Decision): string {
    if d.Some? && "reason" in d.value && d.value["reason"].Leaf? && d.value["reason"].scalar.Str?
    then d.value["reason"].scalar.s else ""
  }

  // A decision member, with Go's reading of a missing key as nil.
  function Member(d: Fields, key: string): Value {
    if key in d then d[key] else Leaf(Null)
  }

  // asObject on a decoded value.
  function AsObject(v: Value): Option<Fields> {
    match v
    case Obj(m) => Some(m)
    case Leaf(NilMap) => Some(map[])
    case _ => None
  }

  // evalAllowOnly: None lets the run go on.
  function EvalAllowOnly(q: Query, phase: string, inputs: Fields, outputs: Option<Fields>): Option<PolicyFailure> {
    match q(inputs, outputs)
    case Err(_) => Some(EvalFailed)
    case Ok(d) => if Allows(d) then None else Some(Denied(phase, Reason(d)))
  }

  // What the evaluator answered, by the members of the decision: it allows only
  // by a member "allow" that is true, and the reason is the text member "reason".
  ghost predicate SaysAllow(answer: Result<Decision, ()>) {
    answer.Ok? && answer.value.Some? && Lookup(answer.value.value, "allow") == Some(Leaf(Bool(true)))
  }

  ghost predicate GivesReason(d: Decision, reason: string) {
    if d.Some? && "reason" in d.value && d.value["reason"].Leaf? && d.value["reason"].scalar.Str?
    then d.value["reason"] == Leaf(Str(reason)) else reason == ""
  }

  // A shared policy lets a run go on exactly when it says so, in either phase.
  lemma SharedGate(q: Query, phase: string, inputs: Fields, outputs: Option<Fields>)
    ensures var answer, refused := q(inputs, outputs), EvalAllowOnly(q, phase, inputs, outputs);
            && (refused.None? <==> SaysAllow(answer))
            && (answer.Err? ==> refused == Some(EvalFailed))
            && (answer.Ok? && refused.Some? ==>
                  refused.value.Denied? && refused.value.phase == phase &&
                  GivesReason(answer.value, refused.value.reason))
  {
  }

  // ------------------------------------------------------------ inbound

  // The hints a decision carries: absent, or a value and its object form.
  function Hints(d: Decision): Result<Option<(Value, Fields)>, ()>
    requires d.Some?
  {
    var hints := Member(d.value, "hints");
    if hints == Leaf(Null) then Ok(None)
    else match AsObject(hints) case None => Err(()) case Some(h) => Ok(Some((hints, h)))
  }

  // What applyInbound may return for inputs in; the flattened part depends on
  // the order in which Go visits the hints only where they are ambiguous.
  ghost predicate InboundOutcome(q: Query, in_: Fields, r: Result<Fields, PolicyFailure>) {
    var stripped := Strip(in_, POLICY_HINTS);
    match q(stripped, None)
    case Err(_) => r == Err(EvalFailed)
    case Ok(d) =>
      if !Allows(d) then r == Err(Denied("inbound", Reason(d)))
      else
        match Hints(d)
        case Err(_) => r == Err(Denied("inbound", "hints is not an object"))
        case Ok(None) => r == Ok(stripped)
        case Ok(Some(pair)) =>
          r.Ok? && Flattens(stripped[POLICY_HINTS := pair.0], r.value, POLICY_HINTS, pair.1)
  }

  // The value that a decision's hints stand for, if they are acceptable.
  ghost predicate CarriesHints(d: Fields, hints: Fields) {
    "hints" in d && (d["hints"] == Obj(hints) || (d["hints"] == Leaf(NilMap) && hints == map[]))
  }

  ghost predicate NoHints(d: Fields) {
    "hints" !in d || d["hints"] == Leaf(Null)
  }

  // A plan policy, by the members of its decision: it lets a run go on exactly
  // when it allows and its hints, if any, are an object.
  lemma InboundDecides(q: Query, in_: Fields)
    ensures var answer := q(Strip(in_, POLICY_HINTS), None);
            && ((exists out :: InboundOutcome(q, in_, Ok(out))) <==>
                  SaysAllow(answer) &&
                  (NoHints(answer.value.value) || exists hints :: CarriesHints(answer.value.value, hints)))
            && (forall failure :: InboundOutcome(q, in_, Err(failure)) ==>
                  if answer.Err? then failure == EvalFailed
                  else if SaysAllow(answer) then failure == Denied("inbound", "hints is not an object")
                  else failure.Denied? && failure.phase == "inbound" && GivesReason(answer.value, failure.reason))
  {
    var stripped := Strip(in_, POLICY_HINTS);
    var answer := q(stripped, None);
    if SaysAllow(answer) {
      var d := answer.value.value;
      if NoHints(d) {
        assert InboundOutcome(q, in_, Ok(stripped));
      }
      if hints :| CarriesHints(d, hints) {
        var put := stripped[POLICY_HINTS := d["hints"]];
        var t := AnyTour(hints, hints.Keys);
        var out := Follow(t, put, POLICY_HINTS, hints);
        assert Flattens(put, out, POLICY_HINTS, hints);
        assert InboundOutcome(q, in_, Ok(out));
      }
    }
    if out :| InboundOutcome(q, in_, Ok(out)) {
      var d := answer.value.value;
      assert NoHints(d) || CarriesHints(d, Hints(Some(d)).value.value.1);
    }
  }

  lemma HintsFlattened(q: Query, in_: Fields, out: Fields, hints: Fields)
    requires InboundOutcome(q, in_, Ok(out))
    requires var answer := q(Strip(in_, POLICY_HINTS), None);
             SaysAllow(answer) && CarriesHints(answer.value.value, hints)
    ensures var stripped := Strip(in_, POLICY_HINTS);
            Flattened(stripped[POLICY_HINTS := q(stripped, None).value.value["hints"]], out, POLICY_HINTS, hints)
  {
    var stripped := Strip(in_, POLICY_HINTS);
    FlattensIsFlattened(stripped[POLICY_HINTS := q(stripped, None).value.value["hints"]], out, POLICY_HINTS, hints);
  }

  // Flattening below the hints key leaves what is under the key itself.
  lemma HintsStay(before: Fields, out: Fields, hints: Fields)
    requires POLICY_HINTS in before && Flattened(before, out, POLICY_HINTS, hints)
    ensures Lookup(out, POLICY_HINTS) == Some(before[POLICY_HINTS])
  {
    assert FlattenedAt(before, out, POLICY_HINTS, hints, POLICY_HINTS);
    if Named(POLICY_HINTS, hints, POLICY_HINTS) {
      NamedIsReserved(POLICY_HINTS, hints, POLICY_HINTS);
    }
  }

  lemma BehindDot(prefix: string, rest: string)
    ensures ReservedUnder(prefix + ("." + rest), prefix) && prefix + ("." + rest) != prefix
  {
    var x := prefix + ("." + rest);
    assert x[..|prefix| + 1] == prefix + ".";
  }

  lemma DottedReserved(prefix: string, path: seq<string>)
    requires path != []
    ensures ReservedUnder(Dotted(prefix, path), prefix) && Dotted(prefix, path) != prefix
  {
    var rest := path[0] + Tail(path[1..]);
    assert Tail(path) == "." + rest;
    DottedIsTail(prefix, path);
    BehindDot(prefix, rest);
  }

  lemma FlatHints(prefix: string, stripped: Fields, v: Value, out: Fields, hints: Fields, path: seq<string>)
    requires Flattened(stripped[prefix := v], out, prefix, hints)
    requires forall x :: x in stripped ==> !ReservedUnder(x, prefix)
    requires DotFree(Obj(hints)) && path != [] && DotFreeNames(path)
    ensures Lookup(out, Dotted(prefix, path)) == Nested(Obj(hints), path)
  {
    FlattenRefinesNested(stripped[prefix := v], out, prefix, hints, path);
    DottedReserved(prefix, path);
    assert Dotted(prefix, path) !in stripped[prefix := v];
  }

  // Hints arrive: under "policyHints" as they are, and, where their names hold no
  // dot, each path's value under its names joined by dots.
  lemma HintsArrive(q: Query, in_: Fields, out: Fields, hints: Fields, path: seq<string>)
    requires InboundOutcome(q, in_, Ok(out))
    requires var answer := q(Strip(in_, POLICY_HINTS), None);
             SaysAllow(answer) && CarriesHints(answer.value.value, hints)
    requires DotFree(Obj(hints)) && path != [] && DotFreeNames(path)
    ensures Lookup(out, "policyHints") == Some(q(Strip(in_, POLICY_HINTS), None).value.value["hints"])
    ensures Lookup(out, Dotted("policyHints", path)) == Nested(Obj(hints), path)
  {
    var stripped := Strip(in_, POLICY_HINTS);
    var v := q(stripped, None).value.value["hints"];
    HintsFlattened(q, in_, out, hints);
    HintsStay(stripped[POLICY_HINTS := v], out, hints);
    FlatHints(POLICY_HINTS, stripped, v, out, hints, path);
  }

  // applyInbound: the result is a new map; the caller's is only read.
  method ApplyInbound(q: Query, inputs: GoMap) returns (r: Result<GoMap, PolicyFailure>)
    ensures r.Ok? ==> fresh(r.value)
    ensures InboundOutcome(q, inputs.m, if r.Ok? then Ok(r.value.m) else Err(r.error))
  {
    var out := StripPrefixed(inputs, POLICY_HINTS);
    var evaluated := q(out.m, None);
    if evaluated.Err? {
      return Err(EvalFailed);
    }
    var d := evaluated.value;
    if !Allows(d) {
      return Err(Denied("inbound", Reason(d)));
    }
    var hints := Member(d.value, "hints");
    if hints != Leaf(Null) {
      var h := AsObject(hints);
      if h.None? {
        return Err(Denied("inbound", "hints is not an object"));
      }
      out.m := out.m[POLICY_HINTS := hints];
      Flatten(out, POLICY_HINTS, h.value);
    }
    return Ok(out);
  }

  // The three kinds of workflow inputs never share a key.
  lemma ReservedApart(x: string)
    ensures !(ReservedUnder(x, POLICY_HINTS) && ReservedUnder(x, SECRETS))
  {
    assert POLICY_HINTS[0] == 'p' && SECRETS[0] == 's';
    if ReservedUnder(x, POLICY_HINTS) {
      assert x[0] == 'p';
    }
    if ReservedUnder(x, SECRETS) {
      assert x[0] == 's';
    }
  }

  // Whatever the policy decides, it can add or change hint keys only.
  lemma InboundKeepsOthers(q: Query, in_: Fields, r: Result<Fields, PolicyFailure>, x: string)
    requires InboundOutcome(q, in_, r) && r.Ok? && !ReservedUnder(x, POLICY_HINTS)
    ensures Lookup(r.value, x) == Lookup(in_, x)
  {
    var stripped := Strip(in_, POLICY_HINTS);
    var d := q(stripped, None).value;
    var hints := Hints(d).value;
    if hints.Some? {
      FlattensIsFlattened(stripped[POLICY_HINTS := hints.value.0], r.value, POLICY_HINTS, hints.value.1);
      assert FlattenedAt(stripped[POLICY_HINTS := hints.value.0], r.value, POLICY_HINTS, hints.value.1, x);
      if Named(POLICY_HINTS, hints.value.1, x) {
        NamedIsReserved(POLICY_HINTS, hints.value.1, x);
      }
    }
  }

  // Forged hints are ignored: two inputs that differ only in hint keys have the
  // same outcomes.
  lemma ForgedHintsIgnored(q: Query, a: Fields, b: Fields, r: Result<Fields, PolicyFailure>)
    requires forall x :: !ReservedUnder(x, POLICY_HINTS) ==> Lookup(a, x) == Lookup(b, x)
    ensures InboundOutcome(q, a, r) <==> InboundOutcome(q, b, r)
  {
    forall x | !ReservedUnder(x, POLICY_HINTS)
      ensures x in a <==> x in b
      ensures x in a ==> a[x] == b[x]
    {
      assert Lookup(a, x) == Lookup(b, x);
    }
    assert Strip(a, POLICY_HINTS) == Strip(b, POLICY_HINTS);
  }

  // The decision on these inputs carries hints two of whose paths clash.
  ghost predicate HintsClash(q: Query, in_: Fields) {
    match q(Strip(in_, POLICY_HINTS), None)
    case Err(_) => false
    case Ok(d) =>
      Allows(d) &&
      match Hints(d)
      case Ok(Some(pair)) => Ambiguous(POLICY_HINTS, pair.1)
      case _ => false
  }

  lemma InboundDeterministic(q: Query, in_: Fields, r: Result<Fields, PolicyFailure>, s: Result<Fields, PolicyFailure>)
    requires InboundOutcome(q, in_, r) && InboundOutcome(q, in_, s) && !HintsClash(q, in_)
    ensures r == s
  {
    var stripped := Strip(in_, POLICY_HINTS);
    match q(stripped, None)
    case Err(_) =>
    case Ok(d) =>
      if Allows(d) && Hints(d).Ok? && Hints(d).value.Some? {
        var pair := Hints(d).value.value;
        var put := stripped[POLICY_HINTS := pair.0];
        FlattensIsFlattened(put, r.value, POLICY_HINTS, pair.1);
        FlattensIsFlattened(put, s.value, POLICY_HINTS, pair.1);
        SameWhenUnambiguous(put, r.value, s.value, POLICY_HINTS, pair.1);
      }
  }

  // Exactly where hints clash can one decision lead to two results.
  lemma InboundOrderShows(q: Query, in_: Fields)
    ensures (exists r, s :: InboundOutcome(q, in_, r) && InboundOutcome(q, in_, s) && r != s) <==> HintsClash(q, in_)
  {
    if HintsClash(q, in_) {
      var stripped := Strip(in_, POLICY_HINTS);
      var pair := Hints(q(stripped, None).value).value.value;
      var put := stripped[POLICY_HINTS := pair.0];
      OrderShowsIffAmbiguous(put, POLICY_HINTS, pair.1);
      var t, u :| Differ(t, u, put, POLICY_HINTS, pair.1);
      var r, s := Ok(Follow(t, put, POLICY_HINTS, pair.1)), Ok(Follow(u, put, POLICY_HINTS, pair.1));
      assert Flattens(put, r.value, POLICY_HINTS, pair.1) && Flattens(put, s.value, POLICY_HINTS, pair.1);
      assert InboundOutcome(q, in_, r) && InboundOutcome(q, in_, s) && r != s;
    }
    if r, s :| InboundOutcome(q, in_, r) && InboundOutcome(q, in_, s) && r != s {
      if !HintsClash(q, in_) {
        InboundDeterministic(q, in_, r, s);
      }
    }
  }

  // ------------------------------------------------------------ outbound

  // redactPointers
  function RedactPointers(v: Value): Result<seq<string>, string> {
    match v
    case Leaf(Null) => Ok([])
    case Leaf(NilSlice) => Ok([])
    case Arr(items) =>
      if forall i :: 0 <= i < |items| ==> items[i].Leaf? && items[i].scalar.Str?
      then Ok(seq(|items|, i requires 0 <= i < |items| && items[i].Leaf? && items[i].scalar.Str? => items[i].scalar.s))
      else Err("redact entries must be strings")
    case _ => Err("redact must be an array of strings")
  }

  // applyOutbound
  function ApplyOutbound(q: Query, inputs: Fields, outputs: Fields): Result<Fields, PolicyFailure> {
    match q(inputs, Some(outputs))
    case Err(_) => Err(EvalFailed)
    case Ok(d) =>
      if !Allows(d) then Err(Denied("outbound", Reason(d)))
      else
        var replacement := Member(d.value, "outputs");
        if replacement != Leaf(Null) then
          match AsObject(replacement)
          case None => Err(Denied("outbound", "outputs is not an object"))
          case Some(o) => Ok(o)
        else
          match RedactPointers(Member(d.value, "redact"))
          case Err(reason) => Err(Denied("outbound", reason))
          case Ok(pointers) =>
            if pointers == [] then Ok(outputs)
            else
              var mask := Member(d.value, "mask");
              if !IsMask(mask) then Err(Denied("outbound", "mask must be a string"))
              else
                match RedactAll(Obj(outputs), pointers, mask)
                case Err(_) => Err(Denied("outbound", "redact"))
                case Ok(v) => RedactKeepsObjects(Obj(outputs), pointers, mask); Ok(v.fields)
  }

  // The value lists these pointers: it is their array, or nothing.
  ghost predicate ListsPointers(v: Value, pointers: seq<string>) {
    if v == Leaf(Null) || v == Leaf(NilSlice) then pointers == []
    else
      && v.Arr? && |v.items| == |pointers|
      && forall i :: 0 <= i < |pointers| ==> v.items[i] == Leaf(Str(pointers[i]))
  }

  // What a decision, by its members, makes of the outputs: its own object in
  // their place, or the outputs with every listed target masked at once.
  ghost predicate MakesOf(d: Fields, outputs: Fields, out: Fields) {
    if "outputs" in d && d["outputs"] != Leaf(Null) then
      d["outputs"] == Obj(out) || (d["outputs"] == Leaf(NilMap) && out == map[])
    else
      var redact := if "redact" in d then d["redact"] else Leaf(Null);
      var mask := if "mask" in d then d["mask"] else Leaf(Null);
      exists pointers :: ListsPointers(redact, pointers) && MasksListed(pointers, mask, outputs, out)
  }

  ghost predicate MasksListed(pointers: seq<string>, mask: Value, outputs: Fields, out: Fields) {
    if pointers == [] then out == outputs
    else
      && mask.Leaf? && (mask.scalar.Null? || mask.scalar.Str?)
      && Acceptable(Obj(outputs), pointers)
      && Obj(out) == MaskAll(Obj(outputs), Targets(Obj(outputs), pointers), mask)
  }

  lemma PointersListed(v: Value, pointers: seq<string>)
    ensures ListsPointers(v, pointers) <==> RedactPointers(v) == Ok(pointers)
  {
    if RedactPointers(v).Ok? {
      assert ListsPointers(v, RedactPointers(v).value);
    }
    if ListsPointers(v, pointers) && v.Arr? {
      assert RedactPointers(v).value == pointers;
    }
  }

  // Outputs leave exactly when the policy says so and its decision can be
  // applied, and then they are what the decision makes of them.
  lemma OutboundDelivers(q: Query, inputs: Fields, outputs: Fields, out: Fields)
    ensures var answer := q(inputs, Some(outputs));
            ApplyOutbound(q, inputs, outputs) == Ok(out) <==>
              SaysAllow(answer) && MakesOf(answer.value.value, outputs, out)
  {
    var answer := q(inputs, Some(outputs));
    if SaysAllow(answer) {
      var d := answer.value.value;
      if Member(d, "outputs") == Leaf(Null) {
        MakesByPointers(d, outputs, out);
        if RedactPointers(Member(d, "redact")).Ok? {
          var pointers, mask := RedactPointers(Member(d, "redact")).value, Member(d, "mask");
          RedactDelivers(pointers, mask, outputs, out);
          if RedactAll(Obj(outputs), pointers, mask).Ok? {
            RedactKeepsObjects(Obj(outputs), pointers, mask);
          }
        }
      }
    }
  }

  lemma MakesByPointers(d: Fields, outputs: Fields, out: Fields)
    requires Member(d, "outputs") == Leaf(Null)
    ensures var listed := RedactPointers(Member(d, "redact"));
            MakesOf(d, outputs, out) <==> listed.Ok? && MasksListed(listed.value, Member(d, "mask"), outputs, out)
  {
    forall pointers
      ensures ListsPointers(Member(d, "redact"), pointers) <==> RedactPointers(Member(d, "redact")) == Ok(pointers)
    {
      PointersListed(Member(d, "redact"), pointers);
    }
  }

  lemma RedactDelivers(pointers: seq<string>, mask: Value, outputs: Fields, out: Fields)
    ensures MasksListed(pointers, mask, outputs, out) <==>
              if pointers == [] then out == outputs
              else IsMask(mask) && RedactAll(Obj(outputs), pointers, mask) == Ok(Obj(out))
  {
    if pointers != [] && IsMask(mask) {
      RedactAllMasks(Obj(outputs), pointers, mask);
    }
  }

  // Otherwise the refusal names the phase, and the reason if the policy refused.
  lemma OutboundRefuses(q: Query, inputs: Fields, outputs: Fields)
    requires ApplyOutbound(q, inputs, outputs).Err?
    ensures var answer, failure := q(inputs, Some(outputs)), ApplyOutbound(q, inputs, outputs).error;
            if answer.Err? then failure == EvalFailed
            else failure.Denied? && failure.phase == "outbound" &&
                 (!SaysAllow(answer) ==> GivesReason(answer.value, failure.reason))
  {
  }
}
