// The reserved workflow inputs: arazzo/inputs.go and the map helpers of
// internal/plans/policy.go. Go maps are objects here, because who writes to
// which map is part of what is proved.
module Inputs {
  import opened Outcomes
  import opened Json

  type Fields = map<string, Value>

  const POLICY_HINTS := "policyHints"
  const SECRETS := "secrets"

  // reservedInputPrefix
  predicate ReservedUnder(name: string, key: string) {
    name == key || key + "." <= name
  }

  predicate ReservedInputKey(name: string) {
    ReservedUnder(name, POLICY_HINTS) || ReservedUnder(name, SECRETS)
  }

  // The reserved names: the two prefixes themselves, and what follows them after
  // a dot. A longer name that only begins like one is the consumer's.
  lemma ReservedNames(name: string)
    ensures ReservedInputKey(name) <==>
              || name == "policyHints" || name == "secrets"
              || exists rest :: name == "policyHints." + rest || name == "secrets." + rest
  {
    if "policyHints." <= name {
      assert name == "policyHints." + name[|"policyHints."|..];
    }
    if "secrets." <= name {
      assert name == "secrets." + name[|"secrets."|..];
    }
    assert POLICY_HINTS + "." == "policyHints." && SECRETS + "." == "secrets.";
  }

  lemma SameLookups(a: Fields, b: Fields)
    requires forall k :: Lookup(a, k) == Lookup(b, k)
    ensures a == b
  {
    forall k
      ensures k in a <==> k in b
      ensures k in a ==> a[k] == b[k]
    {
      assert Lookup(a, k) == Lookup(b, k);
    }
  }

  class GoMap {
    var m: Fields

    constructor ()
      ensures m == map[]
    {
      m := map[];
    }
  }

  // ------------------------------------------------------------ stripping

  function Strip(m: Fields, key: string): Fields {
    map k | k in m && !ReservedUnder(k, key) :: m[k]
  }

  // stripPrefixed: always a new map; the range order does not matter.
  method StripPrefixed(inputs: GoMap, key: string) returns (out: GoMap)
    ensures fresh(out) && out.m == Strip(inputs.m, key)
  {
    out := new GoMap();
    var todo := inputs.m.Keys;
    while todo != {}
      invariant todo <= inputs.m.Keys
      invariant out.m == map k | k in inputs.m && k !in todo && !ReservedUnder(k, key) :: inputs.m[k]
      decreases todo
    {
      var k :| k in todo;
      todo := todo - {k};
      if !ReservedUnder(k, key) {
        out.m := out.m[k := inputs.m[k]];
      }
    }
  }

  // ------------------------------------------------------------ flattening

  // The flat key of a nested path: prefix.k1.k2...
  function Dotted(prefix: string, path: seq<string>): string
    decreases path
  {
    if path == [] then prefix else Dotted(prefix + "." + path[0], path[1..])
  }

  // The nested lookup a path stands for.
  function Nested(v: Value, path: seq<string>): Option<Value> {
    if path == [] then Some(v)
    else if v.Obj? && path[0] in v.fields then Nested(v.fields[path[0]], path[1..])
    else None
  }

  // Some path of obj leads to val and is spelled x when flattened.
  ghost predicate Names(prefix: string, obj: Fields, path: seq<string>, x: string, val: Value) {
    path != [] && Nested(Obj(obj), path) == Some(val) && Dotted(prefix, path) == x
  }

  ghost predicate CanHold(prefix: string, obj: Fields, x: string, val: Value) {
    exists path :: Names(prefix, obj, path, x, val)
  }

  ghost predicate Named(prefix: string, obj: Fields, x: string) {
    exists val :: CanHold(prefix, obj, x, val)
  }

  // What any order of visiting obj can make of a map: every path's flat key is
  // there and holds the value of a path with that spelling; every other key is
  // as it was.
  ghost predicate Flattened(before: Fields, after: Fields, prefix: string, obj: Fields) {
    forall x :: FlattenedAt(before, after, prefix, obj, x)
  }

  ghost predicate FlattenedAt(before: Fields, after: Fields, prefix: string, obj: Fields, x: string) {
    && (x in after <==> x in before || Named(prefix, obj, x))
    && (x in after ==> if Named(prefix, obj, x) then CanHold(prefix, obj, x, after[x]) else after[x] == before[x])
  }

  // An order of ranging over a map: key by key, with the order for the map below
  // each key that holds one.
  datatype Tour = End | Visit(key: string, below: Tour, rest: Tour)

  // The tour visits each of the keys in todo once, and everything below them.
  ghost predicate IsTour(t: Tour, obj: Fields, todo: set<string>)
    decreases t
  {
    match t
    case End => todo == {}
    case Visit(k, below, rest) =>
      && k in todo && k in obj
      && (if obj[k].Obj? then IsTour(below, obj[k].fields, obj[k].fields.Keys) else below.End?)
      && IsTour(rest, obj, todo - {k})
  }

  // What flattening in that order makes of a map, write by write.
  ghost function Follow(t: Tour, dst: Fields, prefix: string, obj: Fields): Fields
    decreases t
  {
    match t
    case End => dst
    case Visit(k, below, rest) =>
      if k !in obj then dst
      else
        var key := prefix + "." + k;
        var put := dst[key := obj[k]];
        Follow(rest, if obj[k].Obj? then Follow(below, put, key, obj[k].fields) else put, prefix, obj)
  }

  // Some order of visiting obj turns one map into the other.
  ghost predicate Flattens(before: Fields, after: Fields, prefix: string, obj: Fields) {
    exists t :: IsTour(t, obj, obj.Keys) && after == Follow(t, before, prefix, obj)
  }

  ghost function Append(t: Tour, u: Tour): Tour {
    match t case End => u case Visit(k, below, rest) => Visit(k, below, Append(rest, u))
  }

  lemma {:induction false} AppendIsTour(t: Tour, u: Tour, obj: Fields, a: set<string>, b: set<string>)
    requires IsTour(t, obj, a) && IsTour(u, obj, b) && a !! b
    ensures IsTour(Append(t, u), obj, a + b)
    decreases t
  {
    if t.End? {
      assert a + b == b;
    } else {
      AppendIsTour(t.rest, u, obj, a - {t.key}, b);
      assert a + b - {t.key} == (a - {t.key}) + b;
    }
  }

  lemma {:induction false} FollowAppend(t: Tour, u: Tour, dst: Fields, prefix: string, obj: Fields, a: set<string>)
    requires IsTour(t, obj, a)
    ensures Follow(Append(t, u), dst, prefix, obj) == Follow(u, Follow(t, dst, prefix, obj), prefix, obj)
    decreases t
  {
    if t.Visit? {
      var put := dst[prefix + "." + t.key := obj[t.key]];
      var mid := if obj[t.key].Obj? then Follow(t.below, put, prefix + "." + t.key, obj[t.key].fields) else put;
      FollowAppend(t.rest, u, mid, prefix, obj, a - {t.key});
    }
  }

  // Flattening only writes: what it starts from shows where it has not written.
  lemma {:induction false} FollowApart(t: Tour, base: Fields, dst: Fields, prefix: string, obj: Fields)
    ensures Follow(t, base + dst, prefix, obj) == base + Follow(t, dst, prefix, obj)
    decreases t
  {
    if t.Visit? && t.key in obj {
      var key := prefix + "." + t.key;
      var put := dst[key := obj[t.key]];
      assert (base + dst)[key := obj[t.key]] == base + put;
      if obj[t.key].Obj? {
        FollowApart(t.below, base, put, key, obj[t.key].fields);
        FollowApart(t.rest, base, Follow(t.below, put, key, obj[t.key].fields), prefix, obj);
      } else {
        FollowApart(t.rest, base, put, prefix, obj);
      }
    }
  }

  lemma DottedStep(prefix: string, k: string, path: seq<string>)
    ensures Dotted(prefix, [k] + path) == Dotted(prefix + "." + k, path)
  {
    assert ([k] + path)[0] == k && ([k] + path)[1..] == path;
  }

  lemma CanHoldSplit(prefix: string, obj: Fields, k: string, v: Value, x: string, val: Value)
    requires k !in obj && CanHold(prefix, obj[k := v], x, val)
    ensures || CanHold(prefix, obj, x, val)
            || (x == prefix + "." + k && val == v)
            || (v.Obj? && CanHold(prefix + "." + k, v.fields, x, val))
  {
    var path :| Names(prefix, obj[k := v], path, x, val);
    assert path == [path[0]] + path[1..];
    DottedStep(prefix, path[0], path[1..]);
    if path[0] != k {
      assert Names(prefix, obj, path, x, val);
    } else {
      assert Nested(v, path[1..]) == Some(val);
      if path[1..] != [] {
        assert v.Obj? && Names(prefix + "." + k, v.fields, path[1..], x, val);
      }
    }
  }

  lemma CanHoldJoin(prefix: string, obj: Fields, k: string, v: Value, x: string, val: Value)
    requires k !in obj
    requires || CanHold(prefix, obj, x, val)
             || (x == prefix + "." + k && val == v)
             || (v.Obj? && CanHold(prefix + "." + k, v.fields, x, val))
    ensures CanHold(prefix, obj[k := v], x, val)
  {
    var all := obj[k := v];
    if path :| Names(prefix, obj, path, x, val) {
      assert Names(prefix, all, path, x, val);
    } else if x == prefix + "." + k && val == v {
      DottedStep(prefix, k, []);
      assert [k] + [] == [k] && [k][1..] == [];
      assert Names(prefix, all, [k], x, val);
    } else {
      var path :| Names(prefix + "." + k, v.fields, path, x, val);
      DottedStep(prefix, k, path);
      assert ([k] + path)[1..] == path;
      assert Names(prefix, all, [k] + path, x, val);
    }
  }

  lemma NamedNothing(prefix: string, x: string)
    ensures !Named(prefix, map[], x)
  {
  }

  lemma NamedAdd(prefix: string, obj: Fields, k: string, v: Value, x: string)
    requires k !in obj
    ensures Named(prefix, obj[k := v], x) <==>
              Named(prefix, obj, x) || x == prefix + "." + k || (v.Obj? && Named(prefix + "." + k, v.fields, x))
  {
    var all := obj[k := v];
    if val :| CanHold(prefix, all, x, val) {
      CanHoldSplit(prefix, obj, k, v, x, val);
    }
    if val :| CanHold(prefix, obj, x, val) {
      CanHoldJoin(prefix, obj, k, v, x, val);
    }
    if x == prefix + "." + k {
      CanHoldJoin(prefix, obj, k, v, x, v);
    }
    if v.Obj? && Named(prefix + "." + k, v.fields, x) {
      var val :| CanHold(prefix + "." + k, v.fields, x, val);
      CanHoldJoin(prefix, obj, k, v, x, val);
    }
  }

  // One round of the range loop.
  lemma FlattenedAdd(before: Fields, mid: Fields, after: Fields, prefix: string, obj: Fields, k: string, v: Value)
    requires k !in obj && Flattened(before, mid, prefix, obj)
    requires var put := mid[prefix + "." + k := v];
             if v.Obj? then Flattened(put, after, prefix + "." + k, v.fields) else after == put
    ensures Flattened(before, after, prefix, obj[k := v])
  {
    var all := obj[k := v];
    forall x
      ensures FlattenedAt(before, after, prefix, all, x)
    {
      assert FlattenedAt(before, mid, prefix, obj, x);
      if v.Obj? {
        assert FlattenedAt(mid[prefix + "." + k := v], after, prefix + "." + k, v.fields, x);
      }
      NamedAdd(prefix, obj, k, v, x);
      if x in after && Named(prefix, all, x) {
        CanHoldJoin(prefix, obj, k, v, x, after[x]);
      }
    }
  }

  lemma CanHoldUnion(prefix: string, a: Fields, b: Fields, x: string, val: Value)
    requires a.Keys !! b.Keys
    ensures CanHold(prefix, a + b, x, val) <==> CanHold(prefix, a, x, val) || CanHold(prefix, b, x, val)
  {
    if path :| Names(prefix, a + b, path, x, val) {
      assert Names(prefix, a, path, x, val) || Names(prefix, b, path, x, val);
    }
    if path :| Names(prefix, a, path, x, val) {
      assert Names(prefix, a + b, path, x, val);
    }
    if path :| Names(prefix, b, path, x, val) {
      assert Names(prefix, a + b, path, x, val);
    }
  }

  lemma NamedUnion(prefix: string, a: Fields, b: Fields, x: string)
    requires a.Keys !! b.Keys
    ensures Named(prefix, a + b, x) <==> Named(prefix, a, x) || Named(prefix, b, x)
  {
    if val :| CanHold(prefix, a + b, x, val) {
      CanHoldUnion(prefix, a, b, x, val);
    }
    if val :| CanHold(prefix, a, x, val) {
      CanHoldUnion(prefix, a, b, x, val);
    }
    if val :| CanHold(prefix, b, x, val) {
      CanHoldUnion(prefix, a, b, x, val);
    }
  }

  lemma FlattenedThen(before: Fields, mid: Fields, after: Fields, prefix: string, a: Fields, b: Fields)
    requires a.Keys !! b.Keys && Flattened(before, mid, prefix, a) && Flattened(mid, after, prefix, b)
    ensures Flattened(before, after, prefix, a + b)
  {
    forall x
      ensures FlattenedAt(before, after, prefix, a + b, x)
    {
      assert FlattenedAt(before, mid, prefix, a, x) && FlattenedAt(mid, after, prefix, b, x);
      NamedUnion(prefix, a, b, x);
      if x in after {
        CanHoldUnion(prefix, a, b, x, after[x]);
      }
    }
  }

  lemma FlattenedNothing(before: Fields, prefix: string)
    ensures Flattened(before, before, prefix, map[])
  {
    forall x
      ensures FlattenedAt(before, before, prefix, map[], x)
    {
      NamedNothing(prefix, x);
    }
  }

  function Only(obj: Fields, keys: set<string>): Fields {
    map k | k in obj && k in keys :: obj[k]
  }

  // Whatever the order, every path's flat key ends up with the value of a path
  // so spelled, and every other key is as it was.
  lemma {:induction false} FollowFlattens(t: Tour, before: Fields, prefix: string, obj: Fields, todo: set<string>)
    requires IsTour(t, obj, todo)
    ensures Flattened(before, Follow(t, before, prefix, obj), prefix, Only(obj, todo))
    decreases t
  {
    FlattenedNothing(before, prefix);
    if t.End? {
      assert Only(obj, todo) == map[];
    } else {
      var k := t.key;
      var key := prefix + "." + k;
      var put := before[key := obj[k]];
      var mid := if obj[k].Obj? then Follow(t.below, put, key, obj[k].fields) else put;
      if obj[k].Obj? {
        FollowFlattens(t.below, put, key, obj[k].fields, obj[k].fields.Keys);
        assert Only(obj[k].fields, obj[k].fields.Keys) == obj[k].fields;
      }
      FlattenedAdd(before, before, mid, prefix, map[], k, obj[k]);
      FollowFlattens(t.rest, mid, prefix, obj, todo - {k});
      FlattenedThen(before, mid, Follow(t, before, prefix, obj), prefix, map[k := obj[k]], Only(obj, todo - {k}));
      assert map[k := obj[k]] + Only(obj, todo - {k}) == Only(obj, todo);
    }
  }

  lemma FlattensIsFlattened(before: Fields, after: Fields, prefix: string, obj: Fields)
    requires Flattens(before, after, prefix, obj)
    ensures Flattened(before, after, prefix, obj)
  {
    var t :| IsTour(t, obj, obj.Keys) && after == Follow(t, before, prefix, obj);
    FollowFlattens(t, before, prefix, obj, obj.Keys);
    assert Only(obj, obj.Keys) == obj;
  }

  // flattenPolicyHints, in place, in whatever order Go visits the maps.
  method Flatten(dst: GoMap, prefix: string, obj: Fields)
    modifies dst
    ensures Flattens(old(dst.m), dst.m, prefix, obj)
    decreases Obj(obj)
  {
    ghost var done := End;
    var todo := obj.Keys;
    while todo != {}
      invariant todo <= obj.Keys
      invariant IsTour(done, obj, obj.Keys - todo)
      invariant dst.m == Follow(done, old(dst.m), prefix, obj)
      decreases todo
    {
      var k :| k in todo;
      ghost var mid := dst.m;
      var key := prefix + "." + k;
      dst.m := dst.m[key := obj[k]];
      ghost var below := End;
      if obj[k].Obj? {
        assert obj[k] < Obj(obj);
        ghost var put := dst.m;
        Flatten(dst, key, obj[k].fields);
        below :| IsTour(below, obj[k].fields, obj[k].fields.Keys) && dst.m == Follow(below, put, key, obj[k].fields);
      }
      ghost var last := Visit(k, below, End);
      assert IsTour(last, obj, {k});
      assert dst.m == Follow(last, mid, prefix, obj);
      FollowAppend(done, last, old(dst.m), prefix, obj, obj.Keys - todo);
      AppendIsTour(done, last, obj, obj.Keys - todo, {k});
      assert obj.Keys - todo + {k} == obj.Keys - (todo - {k});
      done := Append(done, last);
      todo := todo - {k};
    }
    assert obj.Keys - todo == obj.Keys;
  }

  // No key anywhere in the object contains a dot.
  predicate DotFree(v: Value) {
    v.Obj? ==> forall k :: k in v.fields ==> '.' !in k && DotFree(v.fields[k])
  }

  function Tail(path: seq<string>): string {
    if path == [] then "" else "." + path[0] + Tail(path[1..])
  }

  lemma {:induction false} DottedIsTail(prefix: string, path: seq<string>)
    ensures Dotted(prefix, path) == prefix + Tail(path)
    decreases path
  {
    if path != [] {
      DottedIsTail(prefix + "." + path[0], path[1..]);
      assert prefix + "." + path[0] + Tail(path[1..]) == prefix + ("." + path[0] + Tail(path[1..]));
    } else {
      assert prefix + "" == prefix;
    }
  }

  function UpToDot(s: string): string {
    if s == "" || s[0] == '.' then "" else [s[0]] + UpToDot(s[1..])
  }

  lemma {:induction false} DotFreeHead(a: string, x: string)
    requires '.' !in a && (x == "" || x[0] == '.')
    ensures UpToDot(a + x) == a
  {
    if a == "" {
      assert a + x == x;
    } else {
      assert (a + x)[1..] == a[1..] + x;
      DotFreeHead(a[1..], x);
      assert a == [a[0]] + a[1..];
    }
  }

  // Two dot-free names followed by dots or nothing are equal when the whole is.
  lemma DotFreeSplit(a: string, x: string, b: string, y: string)
    requires '.' !in a && '.' !in b && (x == "" || x[0] == '.') && (y == "" || y[0] == '.')
    requires a + x == b + y
    ensures a == b && x == y
  {
    DotFreeHead(a, x);
    DotFreeHead(b, y);
    assert x == (a + x)[|a|..] && y == (b + y)[|b|..];
  }

  ghost predicate DotFreeNames(path: seq<string>) {
    forall i :: 0 <= i < |path| ==> '.' !in path[i]
  }

  lemma {:induction false} TailInjective(p: seq<string>, q: seq<string>)
    requires DotFreeNames(p) && DotFreeNames(q) && Tail(p) == Tail(q)
    ensures p == q
  {
    if p != [] && q != [] {
      assert Tail(p)[1..] == p[0] + Tail(p[1..]) && Tail(q)[1..] == q[0] + Tail(q[1..]);
      DotFreeSplit(p[0], Tail(p[1..]), q[0], Tail(q[1..]));
      TailInjective(p[1..], q[1..]);
      assert p == [p[0]] + p[1..] && q == [q[0]] + q[1..];
    }
  }

  lemma DottedInjective(prefix: string, p: seq<string>, q: seq<string>)
    requires DotFreeNames(p) && DotFreeNames(q) && Dotted(prefix, p) == Dotted(prefix, q)
    ensures p == q
  {
    DottedIsTail(prefix, p);
    DottedIsTail(prefix, q);
    assert Tail(p) == (prefix + Tail(p))[|prefix|..] && Tail(q) == (prefix + Tail(q))[|prefix|..];
    TailInjective(p, q);
  }

  lemma {:induction false} NestedNames(v: Value, path: seq<string>)
    requires DotFree(v) && Nested(v, path).Some?
    ensures DotFreeNames(path)
  {
    if path != [] {
      NestedNames(v.fields[path[0]], path[1..]);
      assert path == [path[0]] + path[1..];
    }
  }

  // The flat key of a list of names, after flattening, against the nested path.
  ghost predicate RefinesAt(before: Fields, after: Fields, prefix: string, obj: Fields, path: seq<string>) {
    var x, nested := Dotted(prefix, path), Nested(Obj(obj), path);
    && (nested.Some? ==> x in after && after[x] == nested.value)
    && (x in after && x !in before ==> nested.Some?)
    && (nested.None? ==> Lookup(after, x) == Lookup(before, x))
  }

  // Flattening refines nested lookup. When no hint key contains a dot, then for
  // every list of dot-free names the flat key holds the nested value when that
  // path exists and is as it was when it does not: a flat key that was not there
  // before is there afterwards exactly when the nested path exists.
  lemma FlattenRefinesNested(before: Fields, after: Fields, prefix: string, obj: Fields, path: seq<string>)
    requires Flattened(before, after, prefix, obj) && DotFree(Obj(obj)) && path != [] && DotFreeNames(path)
    ensures RefinesAt(before, after, prefix, obj, path)
  {
    var x := Dotted(prefix, path);
    assert FlattenedAt(before, after, prefix, obj, x);
    if Nested(Obj(obj), path).Some? {
      assert Names(prefix, obj, path, x, Nested(Obj(obj), path).value);
      assert CanHold(prefix, obj, x, Nested(Obj(obj), path).value);
    }
    if Named(prefix, obj, x) {
      var other :| Names(prefix, obj, other, x, after[x]);
      NestedNames(Obj(obj), other);
      DottedInjective(prefix, path, other);
    }
  }

  // A key that flattening writes lies strictly under the prefix.
  lemma NamedIsReserved(prefix: string, obj: Fields, x: string)
    requires Named(prefix, obj, x)
    ensures prefix + "." <= x && x != prefix && ReservedUnder(x, prefix)
  {
    var val :| CanHold(prefix, obj, x, val);
    var path :| Names(prefix, obj, path, x, val);
    DottedIsTail(prefix, path);
    assert prefix + ("." + path[0] + Tail(path[1..])) == prefix + "." + (path[0] + Tail(path[1..]));
  }

  // ------------------------------------------------------------ secrets

  function FlatKey(name: string): string {
    SECRETS + "." + name
  }

  lemma FlatKeyName(name: string)
    ensures FlatKey(name)[|SECRETS| + 1..] == name && FlatKey(name) != SECRETS && ReservedUnder(FlatKey(name), SECRETS)
  {
  }

  function FlatKeys(bag: map<string, string>): (keys: set<string>)
    ensures forall x :: x in keys ==> |x| > |SECRETS| && x[|SECRETS| + 1..] in bag && x == FlatKey(x[|SECRETS| + 1..])
    ensures forall k :: k in bag ==> FlatKey(k) in keys
  {
    set k | k in bag :: FlatKey(k)
  }

  function Bag(bag: map<string, string>): Fields {
    map k | k in bag :: Leaf(Str(bag[k]))
  }

  // What injectSecrets adds for a bag of named secrets.
  function SecretsPart(bag: map<string, string>): (part: Fields)
    ensures forall x :: x in part ==> ReservedUnder(x, SECRETS)
  {
    map[SECRETS := Obj(Bag(bag))] + (map x | x in FlatKeys(bag) :: Bag(bag)[x[|SECRETS| + 1..]])
  }

  // The bag the provider fills for the listed names, or its first error.
  function Fetch<E>(provider: string -> Result<string, E>, names: seq<string>): (r: Result<map<string, string>, E>)
    ensures r.Ok? ==> forall k :: k in r.value <==> k in names
    ensures r.Ok? ==> forall k :: k in names ==> provider(k) == Ok(r.value[k])
  {
    if names == [] then Ok(map[])
    else
      var last := names[|names| - 1];
      match Fetch(provider, names[..|names| - 1])
      case Err(e) => Err(e)
      case Ok(bag) =>
        match provider(last)
        case Err(e) => Err(e)
        case Ok(v) => Ok(bag[last := v])
  }

  lemma BagShows(bag: map<string, string>, name: string)
    requires name in bag
    ensures Lookup(SecretsPart(bag), "secrets." + name) == Some(Leaf(Str(bag[name])))
  {
    FlatKeyName(name);
    assert FlatKey(name) == "secrets." + name;
  }

  lemma BagNested(bag: map<string, string>)
    ensures Lookup(SecretsPart(bag), "secrets") == Some(Obj(Bag(bag)))
    ensures forall name :: Lookup(Bag(bag), name) == if name in bag then Some(Leaf(Str(bag[name]))) else None
  {
    assert SECRETS !in FlatKeys(bag);
  }

  lemma BagOnly(bag: map<string, string>, x: string)
    requires x in SecretsPart(bag) && x != "secrets"
    ensures exists name :: name in bag && x == "secrets." + name
  {
    assert x in FlatKeys(bag) && x == FlatKey(x[|SECRETS| + 1..]);
  }

  // Every fetched secret arrives with the provider's text, under its flat key
  // and in the nested bag, and nothing else does.
  lemma SecretArrives<E>(provider: string -> Result<string, E>, names: seq<string>, name: string)
    requires Fetch(provider, names).Ok? && name in names
    ensures provider(name).Ok?
    ensures Lookup(SecretsPart(Fetch(provider, names).value), "secrets." + name) ==
              Some(Leaf(Str(provider(name).value)))
  {
    BagShows(Fetch(provider, names).value, name);
  }

  lemma SecretsNested<E>(provider: string -> Result<string, E>, names: seq<string>) returns (nested: Fields)
    requires Fetch(provider, names).Ok?
    ensures Lookup(SecretsPart(Fetch(provider, names).value), "secrets") == Some(Obj(nested))
    ensures forall name :: name in nested <==> name in names
    ensures forall name :: name in names ==> provider(name).Ok? && nested[name] == Leaf(Str(provider(name).value))
  {
    var bag := Fetch(provider, names).value;
    nested := Bag(bag);
    BagNested(bag);
  }

  lemma OnlySecretsArrive<E>(provider: string -> Result<string, E>, names: seq<string>, x: string)
    requires Fetch(provider, names).Ok? && x in SecretsPart(Fetch(provider, names).value) && x != "secrets"
    ensures exists name :: name in names && x == "secrets." + name
  {
    BagOnly(Fetch(provider, names).value, x);
  }

  lemma {:induction false} FetchFails<E>(provider: string -> Result<string, E>, names: seq<string>, i: nat)
    requires i < |names| && Fetch(provider, names[..i + 1]).Err?
    ensures Fetch(provider, names) == Fetch(provider, names[..i + 1])
  {
    if i == |names| - 1 {
      assert names[..i + 1] == names;
    } else {
      var init := names[..|names| - 1];
      assert init[..i + 1] == names[..i + 1];
      FetchFails(provider, init, i);
    }
  }

  // A flat bag has one path per name, dots in the names or not.
  lemma FlatBagHolds(bag: map<string, string>, x: string, val: Value)
    ensures CanHold(SECRETS, Bag(bag), x, val) <==> x in FlatKeys(bag) && val == Bag(bag)[x[|SECRETS| + 1..]]
  {
    if path :| Names(SECRETS, Bag(bag), path, x, val) {
      assert path == [path[0]] + path[1..];
      DottedStep(SECRETS, path[0], path[1..]);
      assert Nested(Bag(bag)[path[0]], path[1..]).Some?;
      assert path[1..] == [];
      FlatKeyName(path[0]);
    }
    if x in FlatKeys(bag) {
      var k := x[|SECRETS| + 1..];
      DottedStep(SECRETS, k, []);
      assert [k] + [] == [k] && [k][1..] == [];
      assert Names(SECRETS, Bag(bag), [k], x, Bag(bag)[k]);
    }
  }

  lemma FlatBagNamed(bag: map<string, string>, x: string)
    ensures Named(SECRETS, Bag(bag), x) <==> x in FlatKeys(bag)
  {
    if x in FlatKeys(bag) {
      FlatBagHolds(bag, x, Bag(bag)[x[|SECRETS| + 1..]]);
    } else if val :| CanHold(SECRETS, Bag(bag), x, val) {
      FlatBagHolds(bag, x, val);
    }
  }

  lemma FlatBagAt(put: Fields, after: Fields, bag: map<string, string>, x: string)
    requires FlattenedAt(put, after, SECRETS, Bag(bag), x)
    ensures x in after <==> x in put || x in FlatKeys(bag)
    ensures x in after ==> after[x] == if x in FlatKeys(bag) then Bag(bag)[x[|SECRETS| + 1..]] else put[x]
  {
    FlatBagNamed(bag, x);
    if x in after && x in FlatKeys(bag) {
      FlatBagHolds(bag, x, after[x]);
    }
  }

  lemma SecretsPartAt(before: Fields, bag: map<string, string>, x: string)
    ensures var put := before[SECRETS := Obj(Bag(bag))];
            Lookup(before + SecretsPart(bag), x) ==
            if x in FlatKeys(bag) then Some(Bag(bag)[x[|SECRETS| + 1..]]) else Lookup(put, x)
  {
  }

  lemma FlatBagPart(before: Fields, after: Fields, bag: map<string, string>)
    requires Flattens(before[SECRETS := Obj(Bag(bag))], after, SECRETS, Bag(bag))
    ensures after == before + SecretsPart(bag)
  {
    var put := before[SECRETS := Obj(Bag(bag))];
    FlattensIsFlattened(put, after, SECRETS, Bag(bag));
    forall x
      ensures Lookup(after, x) == Lookup(before + SecretsPart(bag), x)
    {
      assert FlattenedAt(put, after, SECRETS, Bag(bag), x);
      FlatBagAt(put, after, bag, x);
      SecretsPartAt(before, bag, x);
    }
    SameLookups(after, before + SecretsPart(bag));
  }

  // injectSecrets: writes into the map it is given, and only once every name
  // has been fetched.
  method InjectSecrets<E>(inputs: GoMap, provider: Option<string -> Result<string, E>>, names: seq<string>)
    returns (r: Result<GoMap, E>)
    modifies inputs
    ensures r.Ok? ==> r.value == inputs
    ensures match provider
            case None => r.Ok? && inputs.m == old(inputs.m)
            case Some(p) =>
              if names == [] then r.Ok? && inputs.m == old(inputs.m)
              else match Fetch(p, names)
                case Ok(bag) => r.Ok? && inputs.m == old(inputs.m) + SecretsPart(bag)
                case Err(e) => r == Err(e) && inputs.m == old(inputs.m)
  {
    if provider.None? || |names| == 0 {
      return Ok(inputs);
    }
    var get := provider.value;
    var bag: map<string, string> := map[];
    assert names[..0] == [];
    for i := 0 to |names|
      invariant Fetch(get, names[..i]) == Ok(bag) && inputs.m == old(inputs.m)
    {
      assert names[..i + 1][..i] == names[..i];
      var v := get(names[i]);
      if v.Err? {
        FetchFails(get, names, i);
        return Err(v.error);
      }
      bag := bag[names[i] := v.value];
    }
    assert names[..|names|] == names;
    inputs.m := inputs.m[SECRETS := Obj(Bag(bag))];
    Flatten(inputs, SECRETS, Bag(bag));
    FlatBagPart(old(inputs.m), inputs.m, bag);
    return Ok(inputs);
  }
}
