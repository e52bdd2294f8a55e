// internal/plans/redact.go on JSON values: pointers are applied one after
// another, and the result is proved equal to masking everything at once.
module Redact {
  import opened Outcomes
  import opened Json
  import opened Pointers

  // ------------------------------------------------------------ array indices

  datatype Index = Bad | Missing | Slot(i: nat)

  const MAX_INT := 0x7fff_ffff_ffff_ffff

  function Digits(s: string): (n: Option<nat>) {
    if s == "" then Some(0)
    else
      match Digits(s[..|s| - 1])
      case None => None
      case Some(n) =>
        var c := s[|s| - 1];
        if '0' <= c <= '9' then Some(10 * n + (c as int - '0' as int)) else None
  }

  // strconv.Atoi: an optional sign, then digits, within the 64-bit range.
  function Atoi(s: string): Option<int> {
    var signed := s != "" && (s[0] == '+' || s[0] == '-');
    var digits := if signed then s[1..] else s;
    if digits == "" then None
    else
      match Digits(digits)
      case None => None
      case Some(n) =>
        var i := if signed && s[0] == '-' then 0 - n else n;
        if -MAX_INT - 1 <= i <= MAX_INT then Some(i) else None
  }

  // parseArrayIndex against a slice of length n.
  function ParseIndex(s: string, n: nat): (r: Index)
    ensures r.Slot? ==> r.i < n
  {
    if s == "" || (|s| > 1 && s[0] == '0') || s[0] == '-' then Bad
    else
      match Atoi(s)
      case None => Bad
      case Some(i) => if i < 0 || i >= n then Missing else Slot(i)
  }

  // ------------------------------------------------------------ one pointer

  datatype Outcome<+T> = Done(value: T) | Absent | Malformed

  predicate IsMask(mask: Value) {
    mask.Leaf? && (mask.scalar.Null? || mask.scalar.Str?)
  }

  // setPointer: the document with the token list's target replaced.
  function SetPointer(v: Value, tokens: seq<string>, mask: Value): Outcome<Value>
    requires tokens != []
  {
    var key := tokens[0];
    match v
    case Obj(m) =>
      if key !in m then Absent
      else if |tokens| == 1 then Done(Obj(m[key := mask]))
      else
        (match SetPointer(m[key], tokens[1..], mask)
         case Done(child) => Done(Obj(m[key := child]))
         case Absent => Absent
         case Malformed => Malformed)
    case Arr(items) =>
      (match ParseIndex(key, |items|)
       case Bad => Malformed
       case Missing => Absent
       case Slot(i) =>
         if |tokens| == 1 then Done(Arr(items[i := mask]))
         else
           match SetPointer(items[i], tokens[1..], mask)
           case Done(child) => Done(Arr(items[i := child]))
           case Absent => Absent
           case Malformed => Malformed)
    case Leaf(NilSlice) => if ParseIndex(key, 0).Bad? then Malformed else Absent
    case Leaf(_) => Absent
  }

  datatype RedactError = MalformedPointer | TargetsRoot | MalformedIndex | NotAnObject

  // redactAt: a missing target is skipped.
  function RedactAt(doc: Value, pointer: string, mask: Value): Result<Value, RedactError> {
    match Parse(pointer)
    case None => Err(MalformedPointer)
    case Some(tokens) =>
      if tokens == [] then Err(TargetsRoot)
      else
        match SetPointer(doc, tokens, mask)
        case Done(v) => Ok(v)
        case Absent => Ok(doc)
        case Malformed => Err(MalformedIndex)
  }

  // applyRedact, one pointer after another.
  function RedactAll(doc: Value, pointers: seq<string>, mask: Value): Result<Value, RedactError> {
    if pointers == [] then Ok(doc)
    else
      match RedactAll(doc, pointers[..|pointers| - 1], mask)
      case Err(e) => Err(e)
      case Ok(v) => RedactAt(v, pointers[|pointers| - 1], mask)
  }

  // Once one pointer fails the whole redaction fails with its error.
  lemma {:induction false} RedactStops(doc: Value, pointers: seq<string>, i: nat, mask: Value)
    requires i < |pointers| && RedactAll(doc, pointers[..i + 1], mask).Err?
    ensures RedactAll(doc, pointers, mask) == RedactAll(doc, pointers[..i + 1], mask)
  {
    if i == |pointers| - 1 {
      assert pointers[..i + 1] == pointers;
    } else {
      var init := pointers[..|pointers| - 1];
      assert init[..i + 1] == pointers[..i + 1];
      RedactStops(doc, init, i, mask);
    }
  }

  // An object stays an object: the root is never replaced.
  lemma {:induction false} RedactKeepsObjects(doc: Value, pointers: seq<string>, mask: Value)
    requires doc.Obj? && RedactAll(doc, pointers, mask).Ok?
    ensures RedactAll(doc, pointers, mask).value.Obj?
  {
    if pointers != [] {
      RedactKeepsObjects(doc, pointers[..|pointers| - 1], mask);
    }
  }

  // ------------------------------------------------------------ locations

  // A place in a document, free of how a pointer spelled it: "/a/+1" and
  // "/a/1" name the same one.
  datatype Step = Key(k: string) | Idx(i: nat)
  type Location = seq<Step>

  // Where a token list leads in a document; a malformed index is reported
  // together with the array it was met at.
  datatype Walked = Found(at: Location) | Nowhere | Broken(at: Location)

  function Under(step: Step, w: Walked): Walked {
    match w
    case Found(at) => Found([step] + at)
    case Nowhere => Nowhere
    case Broken(at) => Broken([step] + at)
  }

  function Walk(v: Value, tokens: seq<string>): Walked {
    if tokens == [] then Found([])
    else
      match v
      case Obj(m) => if tokens[0] in m then Under(Key(tokens[0]), Walk(m[tokens[0]], tokens[1..])) else Nowhere
      case Arr(items) =>
        (match ParseIndex(tokens[0], |items|)
         case Bad => Broken([])
         case Missing => Nowhere
         case Slot(i) => Under(Idx(i), Walk(items[i], tokens[1..])))
      case Leaf(NilSlice) => if ParseIndex(tokens[0], 0).Bad? then Broken([]) else Nowhere
      case Leaf(_) => Nowhere
  }

  ghost function Below(locs: set<Location>, step: Step): set<Location> {
    set l | l in locs && l != [] && l[0] == step :: l[1..]
  }

  // The reference semantics: every location masked at once.
  ghost function MaskAll(v: Value, locs: set<Location>, mask: Value): Value {
    if [] in locs then mask
    else
      match v
      case Leaf(_) => v
      case Obj(m) => Obj(map k | k in m :: MaskAll(m[k], Below(locs, Key(k)), mask))
      case Arr(items) =>
        Arr(seq(|items|, i requires 0 <= i < |items| => MaskAll(items[i], Below(locs, Idx(i)), mask)))
  }

  ghost predicate Covered(locs: set<Location>, at: Location) {
    exists l :: l in locs && l <= at
  }

  lemma {:induction false} MaskNothing(v: Value, mask: Value)
    ensures MaskAll(v, {}, mask) == v
  {
    match v
    case Leaf(_) =>
    case Obj(m) =>
      forall k | k in m ensures MaskAll(m[k], Below({}, Key(k)), mask) == m[k] {
        MaskNothing(m[k], mask);
        assert Below({}, Key(k)) == {};
      }
    case Arr(items) =>
      forall i | 0 <= i < |items| ensures MaskAll(items[i], Below({}, Idx(i)), mask) == items[i] {
        MaskNothing(items[i], mask);
        assert Below({}, Idx(i)) == {};
      }
      assert MaskAll(v, {}, mask).items == items;
  }

  lemma BelowAdd(locs: set<Location>, step: Step, at: Location)
    ensures Below(locs + {[step] + at}, step) == Below(locs, step) + {at}
    ensures forall other :: other != step ==> Below(locs + {[step] + at}, other) == Below(locs, other)
  {
    var l := [step] + at;
    assert l[1..] == at && l[0] == step;
    forall x | x in Below(locs, step) + {at}
      ensures x in Below(locs + {l}, step)
    {
      if x == at {
        assert l in locs + {l};
      }
    }
    forall other | other != step
      ensures Below(locs + {l}, other) == Below(locs, other)
    {
    }
  }

  lemma CoveredBelow(locs: set<Location>, step: Step, at: Location)
    requires [] !in locs
    ensures Covered(locs, [step] + at) <==> Covered(Below(locs, step), at)
  {
    if Covered(locs, [step] + at) {
      var l :| l in locs && l <= [step] + at;
      assert l[0] == step && l[1..] <= at;
      assert l[1..] in Below(locs, step);
    }
    if Covered(Below(locs, step), at) {
      var r :| r in Below(locs, step) && r <= at;
      var l :| l in locs && l != [] && l[0] == step && l[1..] == r;
      assert l == [step] + r;
      assert l <= [step] + at;
    }
  }

  // What one more pointer does to a document already masked at locs: it adds
  // the location it leads to, or nothing if it leads nowhere; and it fails
  // exactly when it meets a malformed index that locs does not hide.
  ghost predicate PointerAdds(v: Value, locs: set<Location>, tokens: seq<string>, mask: Value)
    requires tokens != []
  {
    var before := MaskAll(v, locs, mask);
    var r := SetPointer(before, tokens, mask);
    match Walk(v, tokens)
    case Found(at) =>
      !r.Malformed? && MaskAll(v, locs + {at}, mask) == if r.Done? then r.value else before
    case Nowhere => r.Absent?
    case Broken(at) => if Covered(locs, at) then r.Absent? else r.Malformed?
  }

  lemma {:induction false} SetPointerAdds(v: Value, locs: set<Location>, tokens: seq<string>, mask: Value)
    requires tokens != [] && IsMask(mask)
    ensures PointerAdds(v, locs, tokens, mask)
  {
    var key := tokens[0];
    if [] in locs {
      assert Walk(v, tokens).Broken? ==> [] <= Walk(v, tokens).at;
    } else {
      assert !Covered(locs, []);
      match v
      case Leaf(_) =>
      case Obj(m) =>
        if key in m {
          if |tokens| > 1 {
            SetPointerAdds(m[key], Below(locs, Key(key)), tokens[1..], mask);
          }
          AddsInField(m, locs, tokens, mask);
        }
      case Arr(items) =>
        var i := ParseIndex(key, |items|);
        if i.Slot? {
          if |tokens| > 1 {
            SetPointerAdds(items[i.i], Below(locs, Idx(i.i)), tokens[1..], mask);
          }
          AddsInItem(items, locs, tokens, mask);
        }
    }
  }

  // Masking one more location below a field, or below an item, only changes
  // that field or item.
  lemma MaskField(m: map<string, Value>, locs: set<Location>, key: string, at: Location, mask: Value)
    requires [] !in locs && key in m
    ensures MaskAll(Obj(m), locs, mask).Obj? && MaskAll(Obj(m), locs, mask).fields.Keys == m.Keys
    ensures MaskAll(Obj(m), locs + {[Key(key)] + at}, mask) ==
              Obj(MaskAll(Obj(m), locs, mask).fields[key := MaskAll(m[key], Below(locs, Key(key)) + {at}, mask)])
  {
    BelowAdd(locs, Key(key), at);
    var after := MaskAll(Obj(m), locs + {[Key(key)] + at}, mask);
    var before := MaskAll(Obj(m), locs, mask);
    assert forall k :: k in m && k != key ==> after.fields[k] == before.fields[k];
    assert after.fields == before.fields[key := MaskAll(m[key], Below(locs, Key(key)) + {at}, mask)];
  }

  lemma MaskItem(items: seq<Value>, locs: set<Location>, i: nat, at: Location, mask: Value)
    requires [] !in locs && i < |items|
    ensures MaskAll(Arr(items), locs, mask).Arr? && |MaskAll(Arr(items), locs, mask).items| == |items|
    ensures MaskAll(Arr(items), locs + {[Idx(i)] + at}, mask) ==
              Arr(MaskAll(Arr(items), locs, mask).items[i := MaskAll(items[i], Below(locs, Idx(i)) + {at}, mask)])
  {
    BelowAdd(locs, Idx(i), at);
    var after := MaskAll(Arr(items), locs + {[Idx(i)] + at}, mask);
    var before := MaskAll(Arr(items), locs, mask);
    assert forall k :: 0 <= k < |items| && k != i ==> after.items[k] == before.items[k];
    assert after.items == before.items[i := MaskAll(items[i], Below(locs, Idx(i)) + {at}, mask)];
  }

  lemma AddsInField(m: map<string, Value>, locs: set<Location>, tokens: seq<string>, mask: Value)
    requires tokens != [] && [] !in locs && tokens[0] in m
    requires |tokens| > 1 ==> PointerAdds(m[tokens[0]], Below(locs, Key(tokens[0])), tokens[1..], mask)
    ensures PointerAdds(Obj(m), locs, tokens, mask)
  {
    var key := tokens[0];
    var w := Walk(m[key], tokens[1..]);
    var before := MaskAll(Obj(m), locs, mask).fields;
    if w.Found? {
      MaskField(m, locs, key, w.at, mask);
      assert before[key := before[key]] == before;
    } else if w.Broken? {
      CoveredBelow(locs, Key(key), w.at);
    }
  }

  lemma AddsInItem(items: seq<Value>, locs: set<Location>, tokens: seq<string>, mask: Value)
    requires tokens != [] && [] !in locs && ParseIndex(tokens[0], |items|).Slot?
    requires |tokens| > 1 ==>
               var i := ParseIndex(tokens[0], |items|).i;
               PointerAdds(items[i], Below(locs, Idx(i)), tokens[1..], mask)
    ensures PointerAdds(Arr(items), locs, tokens, mask)
  {
    var i := ParseIndex(tokens[0], |items|).i;
    var w := Walk(items[i], tokens[1..]);
    var before := MaskAll(Arr(items), locs, mask).items;
    if w.Found? {
      MaskItem(items, locs, i, w.at, mask);
      assert before[i := before[i]] == before;
    } else if w.Broken? {
      CoveredBelow(locs, Idx(i), w.at);
    }
  }

  // ------------------------------------------------------------ all pointers

  // The locations a list of pointers resolves to in the original document.
  ghost function Targets(doc: Value, pointers: seq<string>): set<Location> {
    set p | p in pointers && Parse(p).Some? && Walk(doc, Parse(p).value).Found? :: Walk(doc, Parse(p).value).at
  }

  // A pointer that fails on the original document whatever else is masked.
  ghost predicate Refused(p: string) {
    Parse(p).None? || Parse(p).value == []
  }

  // The pointer meets a malformed index that none of the locations hides.
  ghost predicate BreaksOutside(doc: Value, locs: set<Location>, p: string)
    requires !Refused(p)
  {
    Walk(doc, Parse(p).value).Broken? && !Covered(locs, Walk(doc, Parse(p).value).at)
  }

  // No pointer is malformed or names the root, and none meets a malformed
  // index that the pointers before it have not masked away.
  ghost predicate Acceptable(doc: Value, pointers: seq<string>) {
    forall i :: 0 <= i < |pointers| ==>
      !Refused(pointers[i]) && !BreaksOutside(doc, Targets(doc, pointers[..i]), pointers[i])
  }

  lemma AcceptableSnoc(doc: Value, init: seq<string>, p: string)
    ensures Acceptable(doc, init + [p]) <==>
              Acceptable(doc, init) && !Refused(p) && !BreaksOutside(doc, Targets(doc, init), p)
  {
    var all := init + [p];
    assert all[|init|] == p && all[..|init|] == init;
    assert forall i :: 0 <= i < |init| ==> all[i] == init[i] && all[..i] == init[..i];
  }

  // Redaction is order-independent: one pointer after another gives exactly
  // what masking all their original targets at once gives, and it succeeds
  // exactly on acceptable pointer lists.
  lemma {:induction false} RedactAllMasks(doc: Value, pointers: seq<string>, mask: Value)
    requires IsMask(mask)
    ensures RedactAll(doc, pointers, mask).Ok? <==> Acceptable(doc, pointers)
    ensures RedactAll(doc, pointers, mask).Ok? ==>
              RedactAll(doc, pointers, mask).value == MaskAll(doc, Targets(doc, pointers), mask)
  {
    if pointers == [] {
      assert Targets(doc, pointers) == {};
      MaskNothing(doc, mask);
    } else {
      var init, p := pointers[..|pointers| - 1], pointers[|pointers| - 1];
      assert pointers == init + [p];
      RedactAllMasks(doc, init, mask);
      AcceptableSnoc(doc, init, p);
      TargetsAdd(doc, init, p);
      if !Refused(p) {
        SetPointerAdds(doc, Targets(doc, init), Parse(p).value, mask);
      }
    }
  }

  lemma TargetsAdd(doc: Value, init: seq<string>, p: string)
    ensures Targets(doc, init + [p]) ==
              if Parse(p).Some? && Walk(doc, Parse(p).value).Found?
              then Targets(doc, init) + {Walk(doc, Parse(p).value).at} else Targets(doc, init)
  {
    assert forall q :: q in init + [p] <==> q in init || q == p;
  }

  // Any two orderings that both succeed give the same document. Repetitions
  // do not matter either.
  lemma RedactOrderIndependent(doc: Value, ps: seq<string>, qs: seq<string>, mask: Value)
    requires IsMask(mask) && forall p :: p in ps <==> p in qs
    requires RedactAll(doc, ps, mask).Ok? && RedactAll(doc, qs, mask).Ok?
    ensures RedactAll(doc, ps, mask) == RedactAll(doc, qs, mask)
  {
    RedactAllMasks(doc, ps, mask);
    RedactAllMasks(doc, qs, mask);
    assert Targets(doc, ps) == Targets(doc, qs);
  }

  lemma RedactTwo(doc: Value, p: string, q: string, mask: Value)
    ensures RedactAll(doc, [p, q], mask) ==
              match RedactAt(doc, p, mask) case Err(e) => Err(e) case Ok(v) => RedactAt(v, q, mask)
  {
    assert [p, q][..1] == [p] && [p][..0] == [];
    assert RedactAll(doc, [p], mask) == RedactAt(doc, p, mask);
  }

  // Success itself can depend on the order: a malformed index below a location
  // that is masked first is never met.
  lemma SuccessDependsOnOrder(mask: Value)
    requires IsMask(mask)
    ensures var doc := Obj(map["a" := Arr([])]);
            var p, q := Format(["a"]), Format(["a", "x"]);
            RedactAll(doc, [p, q], mask).Ok? && RedactAll(doc, [q, p], mask).Err?
  {
    var doc := Obj(map["a" := Arr([])]);
    var p, q := Format(["a"]), Format(["a", "x"]);
    ParseFormat(["a"]);
    ParseFormat(["a", "x"]);
    var masked := Obj(map["a" := Arr([])]["a" := mask]);
    assert SetPointer(doc, ["a"], mask) == Done(masked);
    assert ["a", "x"][1..] == ["x"];
    assert "x"[..0] == "" && Digits("x").None?;
    assert SetPointer(Arr([]), ["x"], mask).Malformed?;
    assert SetPointer(doc, ["a", "x"], mask).Malformed?;
    assert masked.fields["a"] == mask && SetPointer(masked, ["a", "x"], mask).Absent?;
    RedactTwo(doc, p, q, mask);
    RedactTwo(doc, q, p, mask);
  }

  // ------------------------------------------------------------ the result

  // What a document holds at a location.
  function At(v: Value, at: Location): Option<Value> {
    if at == [] then Some(v)
    else
      match (v, at[0])
      case (Obj(m), Key(k)) => if k in m then At(m[k], at[1..]) else None
      case (Arr(items), Idx(i)) => if i < |items| then At(items[i], at[1..]) else None
      case _ => None
  }

  // Nothing outside the masked locations changes: a place that is neither
  // inside a masked location nor on the way to one holds what it held.
  lemma {:induction false} OutsideUnchanged(v: Value, locs: set<Location>, mask: Value, at: Location)
    requires forall l :: l in locs ==> !(l <= at) && !(at <= l)
    ensures At(MaskAll(v, locs, mask), at) == At(v, at)
  {
    if at == [] {
      assert forall l :: l in locs ==> [] <= l;
      assert locs == {};
      MaskNothing(v, mask);
    } else {
      assert [] <= at;
      var below := Below(locs, at[0]);
      forall r | r in below
        ensures !(r <= at[1..]) && !(at[1..] <= r)
      {
        var l :| l in locs && l != [] && l[0] == at[0] && l[1..] == r;
        assert l == [at[0]] + r && at == [at[0]] + at[1..];
      }
      match (v, at[0]) {
        case (Obj(m), Key(k)) => if k in m { OutsideUnchanged(m[k], below, mask, at[1..]); }
        case (Arr(items), Idx(i)) => if i < |items| { OutsideUnchanged(items[i], below, mask, at[1..]); }
        case _ =>
      }
    }
  }

  // A token list whose target, or whose malformed index, lies in a masked
  // location finds nothing in the masked document, or finds the mask.
  lemma {:induction false} MaskedWalk(v: Value, locs: set<Location>, tokens: seq<string>, mask: Value)
    requires IsMask(mask)
    requires !Walk(v, tokens).Nowhere? ==> Covered(locs, Walk(v, tokens).at)
    ensures var out := MaskAll(v, locs, mask);
            var w := Walk(out, tokens);
            w.Nowhere? || (w.Found? && At(out, w.at) == Some(mask))
  {
    if [] !in locs && tokens != [] {
      assert !Covered(locs, []);
      match v
      case Leaf(_) =>
      case Obj(m) =>
        if tokens[0] in m {
          MaskedWalkChild(m[tokens[0]], locs, Key(tokens[0]), tokens, mask);
          MaskedWalk(m[tokens[0]], Below(locs, Key(tokens[0])), tokens[1..], mask);
        }
      case Arr(items) =>
        var i := ParseIndex(tokens[0], |items|);
        if i.Slot? {
          MaskedWalkChild(items[i.i], locs, Idx(i.i), tokens, mask);
          MaskedWalk(items[i.i], Below(locs, Idx(i.i)), tokens[1..], mask);
        }
    } else if tokens == [] {
      assert Covered(locs, []) ==> [] in locs;
    }
  }

  lemma MaskedWalkChild(child: Value, locs: set<Location>, step: Step, tokens: seq<string>, mask: Value)
    requires tokens != [] && [] !in locs
    requires var w := Under(step, Walk(child, tokens[1..])); !w.Nowhere? ==> Covered(locs, w.at)
    ensures var w := Walk(child, tokens[1..]); !w.Nowhere? ==> Covered(Below(locs, step), w.at)
  {
    var w := Walk(child, tokens[1..]);
    if !w.Nowhere? {
      CoveredBelow(locs, step, w.at);
    }
  }

  // After a successful redaction every listed pointer is missing or masked.
  lemma PointersMaskedOrMissing(doc: Value, pointers: seq<string>, mask: Value, i: nat)
    requires IsMask(mask) && i < |pointers| && RedactAll(doc, pointers, mask).Ok?
    ensures Parse(pointers[i]).Some?
    ensures var out := RedactAll(doc, pointers, mask).value;
            var w := Walk(out, Parse(pointers[i]).value);
            w.Nowhere? || (w.Found? && At(out, w.at) == Some(mask))
  {
    RedactAllMasks(doc, pointers, mask);
    var p, locs := pointers[i], Targets(doc, pointers);
    assert !Refused(p) && !BreaksOutside(doc, Targets(doc, pointers[..i]), p);
    var w := Walk(doc, Parse(p).value);
    if w.Found? {
      assert w.at in locs && w.at <= w.at;
    } else if w.Broken? {
      var l :| l in Targets(doc, pointers[..i]) && l <= w.at;
      assert l in locs;
    }
    MaskedWalk(doc, locs, Parse(p).value, mask);
  }
}
