// internal/plans/redact.go on the heap: documents are maps and slices that
// refer to each other and may share subtrees; redaction clones the document
// and overwrites the clone in place. It refines the value-level module Redact.
module RedactHeap {
  import opened Outcomes
  import opened Json
  import opened Redact
  import opened Pointers

  // A Go value of type any: a leaf, or a reference to a map or a slice.
  datatype GoValue = Plain(scalar: Scalar) | Ref(node: Node)

  datatype Content = MapOf(fields: map<string, GoValue>) | SliceOf(items: seq<GoValue>)

  class Node {
    var content: Content
    ghost var repr: set<Node>   // everything reachable from here
    ghost var value: Value      // the JSON value this node stands for

    constructor (content: Content, ghost repr: set<Node>, ghost value: Value)
      ensures this.content == content && this.repr == repr + {this} && this.value == value
    {
      this.content := content;
      this.repr := repr + {this};
      this.value := value;
    }

    // An acyclic document. Subtrees may be shared.
    ghost predicate Valid()
      reads this, repr
      decreases repr
    {
      && this in repr
      && match content
         case MapOf(fields) =>
           value.Obj? && value.fields.Keys == fields.Keys &&
           forall k :: k in fields ==> ValidChild(fields[k], value.fields[k])
         case SliceOf(items) =>
           value.Arr? && |value.items| == |items| &&
           forall i :: 0 <= i < |items| ==> ValidChild(items[i], value.items[i])
    }

    ghost predicate ValidChild(c: GoValue, v: Value)
      reads this, repr
      decreases repr, 0
    {
      match c
      case Plain(s) => v == Leaf(s)
      case Ref(n) => n in repr && n.repr < repr && this !in n.repr && n.Valid() && n.value == v
    }

    // A document without sharing.
    ghost predicate Tree()
      reads this, repr
      decreases repr
    {
      && this in repr
      && match content
         case MapOf(fields) =>
           value.Obj? && value.fields.Keys == fields.Keys &&
           (forall k :: k in fields ==> TreeChild(fields[k], value.fields[k])) &&
           forall j, k :: j in fields && k in fields && j != k ==> Apart(fields[j], fields[k])
         case SliceOf(items) =>
           value.Arr? && |value.items| == |items| &&
           (forall i :: 0 <= i < |items| ==> TreeChild(items[i], value.items[i])) &&
           forall i, j :: 0 <= i < |items| && 0 <= j < |items| && i != j ==> Apart(items[i], items[j])
    }

    ghost predicate TreeChild(c: GoValue, v: Value)
      reads this, repr
      decreases repr, 0
    {
      match c
      case Plain(s) => v == Leaf(s)
      case Ref(n) => n in repr && n.repr < repr && this !in n.repr && n.Tree() && n.value == v
    }

    ghost predicate Apart(c: GoValue, d: GoValue)
      reads if c.Ref? then {c.node} else {}, if d.Ref? then {d.node} else {}
    {
      c.Ref? && d.Ref? ==> c.node.repr !! d.node.repr
    }
  }

  ghost predicate ValidValue(c: GoValue)
    reads if c.Ref? then {c.node} + c.node.repr else {}
  {
    c.Ref? ==> c.node.Valid()
  }

  ghost predicate TreeValue(c: GoValue)
    reads if c.Ref? then {c.node} + c.node.repr else {}
  {
    c.Ref? ==> c.node.Tree()
  }

  ghost function Repr(c: GoValue): set<Node>
    reads if c.Ref? then {c.node} else {}
  {
    if c.Ref? then c.node.repr else {}
  }

  ghost function ToJson(c: GoValue): Value
    reads if c.Ref? then {c.node} else {}
  {
    match c case Plain(s) => Leaf(s) case Ref(n) => n.value
  }

  // cloneJSONValue: the copy shares nothing with anything.
  method CloneValue(c: GoValue) returns (d: GoValue)
    requires ValidValue(c)
    ensures TreeValue(d) && fresh(Repr(d)) && ToJson(d) == ToJson(c) && (d.Ref? <==> c.Ref?)
    decreases Repr(c), 1
  {
    match c {
      case Plain(s) =>
        d := c;
      case Ref(n) =>
        match n.content {
          case MapOf(fields) =>
            var copy := CloneFields(n, fields);
            d := Ref(copy);
          case SliceOf(items) =>
            var copy := CloneItems(n, items);
            d := Ref(copy);
        }
    }
  }

  // The copies made so far: separate trees standing for the given values, all
  // their nodes in reprs.
  ghost predicate Copied(out: map<string, GoValue>, vals: map<string, Value>, reprs: set<Node>)
    reads set k | k in out && out[k].Ref? :: out[k].node, reprs
  {
    && (forall k :: k in out ==>
          && k in vals && (out[k].Ref? ==> out[k].node in reprs && out[k].node.repr <= reprs)
          && TreeValue(out[k]) && ToJson(out[k]) == vals[k])
    && forall j, k :: j in out && k in out && j != k ==> Repr(out[j]) !! Repr(out[k])
  }

  lemma CopiedAdd(out: map<string, GoValue>, vals: map<string, Value>, reprs: set<Node>, k: string, v: GoValue)
    requires Copied(out, vals, reprs) && k !in out && k in vals
    requires TreeValue(v) && ToJson(v) == vals[k] && Repr(v) !! reprs
    ensures Copied(out[k := v], vals, reprs + Repr(v))
  {
    forall j | j in out ensures Repr(out[j]) <= reprs {
    }
  }

  ghost predicate CopiedItems(out: seq<GoValue>, vals: seq<Value>, reprs: set<Node>)
    reads set i | 0 <= i < |out| && out[i].Ref? :: out[i].node, reprs
  {
    && |out| <= |vals|
    && (forall i :: 0 <= i < |out| ==>
          && (out[i].Ref? ==> out[i].node in reprs && out[i].node.repr <= reprs)
          && TreeValue(out[i]) && ToJson(out[i]) == vals[i])
    && forall i, j :: 0 <= i < |out| && 0 <= j < |out| && i != j ==> Repr(out[i]) !! Repr(out[j])
  }

  lemma CopiedItemsAdd(out: seq<GoValue>, vals: seq<Value>, reprs: set<Node>, v: GoValue)
    requires CopiedItems(out, vals, reprs) && |out| < |vals|
    requires TreeValue(v) && ToJson(v) == vals[|out|] && Repr(v) !! reprs
    ensures CopiedItems(out + [v], vals, reprs + Repr(v))
  {
    forall i | 0 <= i < |out| ensures Repr(out[i]) <= reprs {
    }
  }

  // The range loop over a map, in whatever order Go visits it.
  method CloneFields(n: Node, fields: map<string, GoValue>) returns (copy: Node)
    requires n.Valid() && n.content == MapOf(fields)
    ensures copy.Tree() && fresh(copy.repr) && copy.value == n.value && copy.content.MapOf?
    decreases n.repr, 0
  {
    var out: map<string, GoValue> := map[];
    ghost var reprs: set<Node> := {};
    ghost var vals := n.value.fields;
    var todo := fields.Keys;
    while todo != {}
      invariant todo <= fields.Keys && out.Keys == fields.Keys - todo
      invariant fresh(reprs) && Copied(out, vals, reprs)
      decreases todo
    {
      var k :| k in todo;
      assert n.ValidChild(fields[k], vals[k]);
      var v := CloneValue(fields[k]);
      CopiedAdd(out, vals, reprs, k, v);
      reprs := reprs + Repr(v);
      out := out[k := v];
      todo := todo - {k};
    }
    copy := new Node(MapOf(out), reprs, n.value);
  }

  method CloneItems(n: Node, items: seq<GoValue>) returns (copy: Node)
    requires n.Valid() && n.content == SliceOf(items)
    ensures copy.Tree() && fresh(copy.repr) && copy.value == n.value
    decreases n.repr, 0
  {
    var out: seq<GoValue> := [];
    ghost var reprs: set<Node> := {};
    ghost var vals := n.value.items;
    for i := 0 to |items|
      invariant |out| == i && fresh(reprs) && CopiedItems(out, vals, reprs)
    {
      assert n.ValidChild(items[i], vals[i]);
      var v := CloneValue(items[i]);
      CopiedItemsAdd(out, vals, reprs, v);
      reprs := reprs + Repr(v);
      out := out + [v];
    }
    copy := new Node(SliceOf(out), reprs, n.value);
  }

  // What setPointer reports and does, told on JSON values.
  ghost predicate Performs(r: Outcome<()>, before: Value, after: Value, tokens: seq<string>, mask: Scalar)
    requires tokens != []
  {
    match SetPointer(before, tokens, Leaf(mask))
    case Done(v) => r.Done? && after == v
    case Absent => r.Absent? && after == before
    case Malformed => r.Malformed? && after == before
  }

  // setPointer, in place. Done says the mask was written.
  method SetInPlace(cur: GoValue, tokens: seq<string>, mask: Scalar) returns (r: Outcome<()>)
    requires tokens != [] && TreeValue(cur)
    modifies Repr(cur)
    ensures TreeValue(cur) && Repr(cur) == old(Repr(cur))
    ensures Performs(r, old(ToJson(cur)), ToJson(cur), tokens, mask)
    decreases |tokens|, 1
  {
    match cur {
      case Plain(NilSlice) =>
        r := if ParseIndex(tokens[0], 0).Bad? then Malformed else Absent;
      case Plain(_) =>
        r := Absent;
      case Ref(n) =>
        match n.content {
          case MapOf(fields) => r := SetInMap(n, fields, tokens, mask);
          case SliceOf(items) => r := SetInSlice(n, items, tokens, mask);
        }
    }
  }

  method SetInMap(n: Node, fields: map<string, GoValue>, tokens: seq<string>, mask: Scalar) returns (r: Outcome<()>)
    requires tokens != [] && n.Tree() && n.content == MapOf(fields)
    modifies n.repr
    ensures n.Tree() && n.repr == old(n.repr)
    ensures Performs(r, old(n.value), n.value, tokens, mask)
    decreases |tokens|, 0
  {
    var key := tokens[0];
    ghost var before := n.value.fields;
    if key !in fields {
      r := Absent;
    } else if |tokens| == 1 {
      PutField(n, fields, key, mask);
      r := Done(());
    } else {
      r := DescendField(n, fields, key, tokens[1..], mask);
      assert before[key := before[key]] == before;
    }
  }

  method PutField(n: Node, fields: map<string, GoValue>, key: string, mask: Scalar)
    requires n.Tree() && n.content == MapOf(fields) && key in fields
    modifies n
    ensures n.Tree() && n.repr == old(n.repr)
    ensures n.value == Obj(old(n.value).fields[key := Leaf(mask)])
  {
    ghost var vals := n.value.fields;
    assert FieldsBut(n, fields, vals, key);
    var put := fields[key := Plain(mask)];
    n.content := MapOf(put);
    forall k | k in fields && k != key
      ensures n.TreeChild(put[k], vals[k]) && Repr(put[k]) == old(Repr(fields[k]))
    {
      if fields[k].Ref? {
        var c := fields[k].node;
        assert old(c.Tree()) && n !in old(c.repr);
      }
    }
    forall j, k | j in put && k in put && j != k
      ensures n.Apart(put[j], put[k])
    {
      if j != key && k != key {
        assert old(n.Apart(fields[j], fields[k]));
      }
    }
    ReplaceField(n, put, vals, key);
  }

  // The recursive call of setPointer on a map value.
  method DescendField(n: Node, fields: map<string, GoValue>, key: string, rest: seq<string>, mask: Scalar)
    returns (r: Outcome<()>)
    requires rest != [] && n.Tree() && n.content == MapOf(fields) && key in fields
    modifies n.repr
    ensures n.Tree() && n.repr == old(n.repr)
    ensures n.value.Obj? && key in n.value.fields
    ensures n.value == Obj(old(n.value).fields[key := n.value.fields[key]])
    ensures Performs(r, old(n.value).fields[key], n.value.fields[key], rest, mask)
    decreases |rest|, 2
  {
    ghost var vals := n.value.fields;
    ghost var child := fields[key];
    assert n.TreeChild(child, vals[key]);
    assert FieldsBut(n, fields, vals, key);
    r := SetInPlace(fields[key], rest, mask);
    forall k | k in fields && k != key
      ensures n.TreeChild(fields[k], vals[k]) && Repr(fields[k]) == old(Repr(fields[k]))
    {
      if fields[k].Ref? {
        var c := fields[k].node;
        assert old(c.Tree());
        assert old(c.repr) !! old(Repr(child));
      }
    }
    ReplaceField(n, fields, vals, key);
  }

  // n is a tree but for the value it records for its field `key`.
  ghost predicate FieldsBut(n: Node, fields: map<string, GoValue>, vals: map<string, Value>, key: string)
    reads n, n.repr
  {
    && n in n.repr && n.content == MapOf(fields) && vals.Keys == fields.Keys
    && (forall k :: k in fields ==> (fields[k].Ref? ==> fields[k].node in n.repr))
    && (forall k :: k in fields && k != key ==> n.TreeChild(fields[k], vals[k]))
    && forall j, k :: j in fields && k in fields && j != k ==> n.Apart(fields[j], fields[k])
  }

  ghost method ReplaceField(n: Node, fields: map<string, GoValue>, vals: map<string, Value>, key: string)
    requires key in fields && FieldsBut(n, fields, vals, key) && n.TreeChild(fields[key], ToJson(fields[key]))
    modifies n`value
    ensures n.Tree() && n.value == Obj(vals[key := ToJson(fields[key])])
  {
    n.value := Obj(vals[key := ToJson(fields[key])]);
    assert forall k :: k in fields ==> n.TreeChild(fields[k], n.value.fields[k]);
  }

  method SetInSlice(n: Node, items: seq<GoValue>, tokens: seq<string>, mask: Scalar) returns (r: Outcome<()>)
    requires tokens != [] && n.Tree() && n.content == SliceOf(items)
    modifies n.repr
    ensures n.Tree() && n.repr == old(n.repr)
    ensures Performs(r, old(n.value), n.value, tokens, mask)
    decreases |tokens|, 0
  {
    var idx := ParseIndex(tokens[0], |items|);
    ghost var before := n.value.items;
    match idx {
      case Bad => r := Malformed;
      case Missing => r := Absent;
      case Slot(i) =>
        if |tokens| == 1 {
          PutItem(n, items, i, mask);
          r := Done(());
        } else {
          r := DescendItem(n, items, i, tokens[1..], mask);
          assert before[i := before[i]] == before;
        }
    }
  }

  method PutItem(n: Node, items: seq<GoValue>, i: nat, mask: Scalar)
    requires n.Tree() && n.content == SliceOf(items) && i < |items|
    modifies n
    ensures n.Tree() && n.repr == old(n.repr)
    ensures n.value == Arr(old(n.value).items[i := Leaf(mask)])
  {
    ghost var vals := n.value.items;
    assert ItemsBut(n, items, vals, i);
    var put := items[i := Plain(mask)];
    n.content := SliceOf(put);
    forall j | 0 <= j < |items| && j != i
      ensures n.TreeChild(items[j], vals[j]) && Repr(items[j]) == old(Repr(items[j]))
    {
      if items[j].Ref? {
        var c := items[j].node;
        assert old(c.Tree()) && n !in old(c.repr);
      }
    }
    assert forall j, k :: 0 <= j < |items| && 0 <= k < |items| && j != k ==> n.Apart(put[j], put[k]);
    ReplaceItem(n, put, vals, i);
  }

  // The recursive call of setPointer on a slice element.
  method DescendItem(n: Node, items: seq<GoValue>, i: nat, rest: seq<string>, mask: Scalar)
    returns (r: Outcome<()>)
    requires rest != [] && n.Tree() && n.content == SliceOf(items) && i < |items|
    modifies n.repr
    ensures n.Tree() && n.repr == old(n.repr)
    ensures n.value.Arr? && |n.value.items| == |items|
    ensures n.value == Arr(old(n.value).items[i := n.value.items[i]])
    ensures Performs(r, old(n.value).items[i], n.value.items[i], rest, mask)
    decreases |rest|, 2
  {
    ghost var vals := n.value.items;
    ghost var child := items[i];
    assert n.TreeChild(child, vals[i]);
    assert ItemsBut(n, items, vals, i);
    r := SetInPlace(items[i], rest, mask);
    forall j | 0 <= j < |items| && j != i
      ensures n.TreeChild(items[j], vals[j]) && Repr(items[j]) == old(Repr(items[j]))
    {
      if items[j].Ref? {
        var c := items[j].node;
        assert old(c.Tree());
        assert old(c.repr) !! old(Repr(child));
      }
    }
    ReplaceItem(n, items, vals, i);
  }

  // n is a tree but for the value it records for its element i.
  ghost predicate ItemsBut(n: Node, items: seq<GoValue>, vals: seq<Value>, i: nat)
    reads n, n.repr
  {
    && n in n.repr && n.content == SliceOf(items) && |vals| == |items|
    && (forall j :: 0 <= j < |items| ==> (items[j].Ref? ==> items[j].node in n.repr))
    && (forall j :: 0 <= j < |items| && j != i ==> n.TreeChild(items[j], vals[j]))
    && forall j, k :: 0 <= j < |items| && 0 <= k < |items| && j != k ==> n.Apart(items[j], items[k])
  }

  ghost method ReplaceItem(n: Node, items: seq<GoValue>, vals: seq<Value>, i: nat)
    requires i < |items| && ItemsBut(n, items, vals, i) && n.TreeChild(items[i], ToJson(items[i]))
    modifies n`value
    ensures n.Tree() && n.value == Arr(vals[i := ToJson(items[i])])
  {
    n.value := Arr(vals[i := ToJson(items[i])]);
    assert forall j :: 0 <= j < |items| ==> n.TreeChild(items[j], n.value.items[j]);
  }

  // redactAt, in place.
  method RedactInPlace(root: Node, pointer: string, mask: Scalar) returns (r: Result<(), RedactError>)
    requires root.Tree()
    modifies root.repr
    ensures root.Tree() && root.repr == old(root.repr)
    ensures match RedactAt(old(root.value), pointer, Leaf(mask))
            case Ok(v) => r.Ok? && root.value == v
            case Err(e) => r == Err(e)
  {
    var parsed := ParsePointer(pointer);
    if parsed.None? {
      return Err(MalformedPointer);
    }
    var tokens := parsed.value;
    if |tokens| == 0 {
      return Err(TargetsRoot);
    }
    var set_ := SetInPlace(Ref(root), tokens, mask);
    return if set_.Malformed? then Err(MalformedIndex) else Ok(());
  }

  // The value of a document argument: a nil map is treated as an empty one.
  ghost function DocJson(doc: Node?): Value
    reads doc
  {
    if doc == null then Obj(map[]) else doc.value
  }

  // applyRedact. It writes nothing that existed before the call, its result
  // shares no node with the document or with itself, and the result is the
  // value-level redaction of the document, or its error.
  method ApplyRedact(doc: Node?, pointers: seq<string>, mask: Scalar) returns (r: Result<Node, RedactError>)
    requires doc != null ==> doc.Valid() && doc.content.MapOf?
    ensures r.Ok? ==> r.value.Tree() && fresh(r.value.repr)
    ensures match RedactAll(DocJson(doc), pointers, Leaf(mask))
            case Ok(v) => r.Ok? && r.value.value == v
            case Err(e) => r == Err(e)
  {
    var out: Node;
    if doc == null {
      out := new Node(MapOf(map[]), {}, Obj(map[]));
    } else {
      match doc.content {
        case MapOf(fields) => out := CloneFields(doc, fields);
      }
    }
    ghost var orig := DocJson(doc);
    assert pointers[..0] == [];
    for i := 0 to |pointers|
      invariant out.Tree() && fresh(out.repr)
      invariant RedactAll(orig, pointers[..i], Leaf(mask)) == Ok(out.value)
    {
      assert pointers[..i + 1][..i] == pointers[..i];
      var step := RedactInPlace(out, pointers[i], mask);
      if step.Err? {
        RedactStops(orig, pointers, i, Leaf(mask));
        return Err(step.error);
      }
    }
    assert pointers[..|pointers|] == pointers;
    if !out.content.MapOf? {
      RedactKeepsObjects(orig, pointers, Leaf(mask));
      assert false;
    }
    return Ok(out);
  }
}
