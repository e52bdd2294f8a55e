// Which of its possible results flattenPolicyHints of internal/plans/policy.go
// gives depends on the order in which Go ranges over the hints, exactly when two
// nested paths with different values share a flat key.
module HintOrders {
  import opened Outcomes
  import opened Json
  import opened Inputs

  // Some two different values sit at paths with the same spelling.
  ghost predicate Ambiguous(prefix: string, obj: Fields) {
    exists x, v, w :: CanHold(prefix, obj, x, v) && CanHold(prefix, obj, x, w) && v != w
  }

  lemma SameWhenUnambiguous(before: Fields, a: Fields, b: Fields, prefix: string, obj: Fields)
    requires Flattened(before, a, prefix, obj) && Flattened(before, b, prefix, obj) && !Ambiguous(prefix, obj)
    ensures a == b
  {
    forall x
      ensures x in a <==> x in b
      ensures x in a ==> a[x] == b[x]
    {
      assert FlattenedAt(before, a, prefix, obj, x) && FlattenedAt(before, b, prefix, obj, x);
      if x in a && Named(prefix, obj, x) {
        assert CanHold(prefix, obj, x, a[x]) && CanHold(prefix, obj, x, b[x]);
      }
    }
  }

  // Dot-free hint keys are never ambiguous.
  lemma DotFreeUnambiguous(prefix: string, obj: Fields)
    requires DotFree(Obj(obj))
    ensures !Ambiguous(prefix, obj)
  {
    forall x, v, w | CanHold(prefix, obj, x, v) && CanHold(prefix, obj, x, w)
      ensures v == w
    {
      var p :| Names(prefix, obj, p, x, v);
      var q :| Names(prefix, obj, q, x, w);
      NestedNames(Obj(obj), p);
      NestedNames(Obj(obj), q);
      DottedInjective(prefix, p, q);
    }
  }

  // ------------------------------------------------------------ choosing an order

  // Some order of visiting the keys in todo.
  ghost function AnyTour(obj: Fields, todo: set<string>): (t: Tour)
    requires todo <= obj.Keys
    ensures IsTour(t, obj, todo)
    decreases Obj(obj), |todo|
  {
    if todo == {} then End
    else
      var k :| k in todo;
      assert obj[k] < Obj(obj);
      Visit(k, if obj[k].Obj? then AnyTour(obj[k].fields, obj[k].fields.Keys) else End, AnyTour(obj, todo - {k}))
  }

  // An order that comes to the given path last, of all paths not below it.
  ghost function EndingWith(obj: Fields, path: seq<string>): (t: Tour)
    requires path != [] && Nested(Obj(obj), path).Some?
    ensures IsTour(t, obj, obj.Keys)
    decreases path
  {
    var k := path[0];
    var v := obj[k];
    var below := if !v.Obj? then End
                 else if |path| > 1 then EndingWith(v.fields, path[1..])
                 else AnyTour(v.fields, v.fields.Keys);
    var others := AnyTour(obj, obj.Keys - {k});
    AppendIsTour(others, Visit(k, below, End), obj, obj.Keys - {k}, {k});
    assert obj.Keys - {k} + {k} == obj.Keys;
    Append(others, Visit(k, below, End))
  }

  // What lies below a path is written under longer keys.
  lemma BelowKeeps(t: Tour, put: Fields, key: string, m: Fields)
    requires IsTour(t, m, m.Keys) && key in put
    ensures key in Follow(t, put, key, m) && Follow(t, put, key, m)[key] == put[key]
  {
    FollowFlattens(t, put, key, m, m.Keys);
    assert Only(m, m.Keys) == m;
    assert FlattenedAt(put, Follow(t, put, key, m), key, m, key);
    if Named(key, m, key) {
      NamedIsReserved(key, m, key);
    }
  }

  // The last path visited among its namesakes leaves its value.
  lemma {:induction false} LastWins(before: Fields, prefix: string, obj: Fields, path: seq<string>)
    requires path != [] && Nested(Obj(obj), path).Some?
    ensures var after := Follow(EndingWith(obj, path), before, prefix, obj);
            Lookup(after, Dotted(prefix, path)) == Nested(Obj(obj), path)
    decreases path
  {
    var k := path[0];
    var v, key := obj[k], prefix + "." + k;
    var below := if !v.Obj? then End
                 else if |path| > 1 then EndingWith(v.fields, path[1..])
                 else AnyTour(v.fields, v.fields.Keys);
    var others, last := AnyTour(obj, obj.Keys - {k}), Visit(k, below, End);
    FollowAppend(others, last, before, prefix, obj, obj.Keys - {k});
    var put := Follow(others, before, prefix, obj)[key := v];
    assert Follow(EndingWith(obj, path), before, prefix, obj) ==
           if v.Obj? then Follow(below, put, key, v.fields) else put;
    if |path| > 1 {
      LastWins(put, key, v.fields, path[1..]);
    } else {
      assert path[1..] == [];
      if v.Obj? {
        BelowKeeps(below, put, key, v.fields);
      }
    }
  }

  ghost predicate Differ(t: Tour, u: Tour, before: Fields, prefix: string, obj: Fields) {
    && IsTour(t, obj, obj.Keys) && IsTour(u, obj, obj.Keys)
    && Follow(t, before, prefix, obj) != Follow(u, before, prefix, obj)
  }

  // Two visiting orders give different maps exactly when some two paths with
  // different values are spelled alike.
  lemma OrderShowsIffAmbiguous(before: Fields, prefix: string, obj: Fields)
    ensures (exists t, u :: Differ(t, u, before, prefix, obj)) <==> Ambiguous(prefix, obj)
  {
    if Ambiguous(prefix, obj) {
      var x, v, w :| CanHold(prefix, obj, x, v) && CanHold(prefix, obj, x, w) && v != w;
      var p :| Names(prefix, obj, p, x, v);
      var q :| Names(prefix, obj, q, x, w);
      LastWins(before, prefix, obj, p);
      LastWins(before, prefix, obj, q);
      assert Differ(EndingWith(obj, p), EndingWith(obj, q), before, prefix, obj);
    } else {
      forall t, u | IsTour(t, obj, obj.Keys) && IsTour(u, obj, obj.Keys)
        ensures Follow(t, before, prefix, obj) == Follow(u, before, prefix, obj)
      {
        FollowFlattens(t, before, prefix, obj, obj.Keys);
        FollowFlattens(u, before, prefix, obj, obj.Keys);
        assert Only(obj, obj.Keys) == obj;
        SameWhenUnambiguous(before, Follow(t, before, prefix, obj), Follow(u, before, prefix, obj), prefix, obj);
      }
    }
  }

  // With dot-free hint keys every order gives the same map.
  lemma FlattenDeterministic(before: Fields, a: Fields, b: Fields, prefix: string, obj: Fields)
    requires Flattens(before, a, prefix, obj) && Flattens(before, b, prefix, obj) && DotFree(Obj(obj))
    ensures a == b
  {
    FlattensIsFlattened(before, a, prefix, obj);
    FlattensIsFlattened(before, b, prefix, obj);
    DotFreeUnambiguous(prefix, obj);
    SameWhenUnambiguous(before, a, b, prefix, obj);
  }

  // Two orders of one object with a dotted key, and their two results.
  lemma DottedKeysCollide(before: Fields, prefix: string, v: Value, w: Value)
    requires !v.Obj? && !w.Obj?
    ensures var obj := map["a.b" := v, "a" := Obj(map["b" := w])];
            var t := Visit("a.b", End, Visit("a", Visit("b", End, End), End));
            var u := Visit("a", Visit("b", End, End), Visit("a.b", End, End));
            && IsTour(t, obj, obj.Keys) && IsTour(u, obj, obj.Keys)
            && Lookup(Follow(t, before, prefix, obj), prefix + ".a.b") == Some(w)
            && Lookup(Follow(u, before, prefix, obj), prefix + ".a.b") == Some(v)
  {
    var inner := map["b" := w];
    var obj := map["a.b" := v, "a" := Obj(inner)];
    var b := Visit("b", End, End);
    assert IsTour(b, inner, inner.Keys);
    assert obj.Keys - {"a.b"} == {"a"} && obj.Keys - {"a"} == {"a.b"};
    assert IsTour(Visit("a", b, End), obj, {"a"}) && IsTour(Visit("a.b", End, End), obj, {"a.b"});
    assert prefix + "." + "a.b" == prefix + ".a.b" && prefix + "." + "a" + "." + "b" == prefix + ".a.b";
    assert forall dst :: Follow(b, dst, prefix + "." + "a", inner) == dst[prefix + ".a.b" := w];
  }
}
