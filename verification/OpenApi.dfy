// The path maps of internal/plans/openapi.go: the document of one plan, the
// catalog index, and the cross-document references between them.
module OpenApi {
  import opened Catalogs
  import opened Json
  import opened Lift
  import opened Outcomes
  import Pointers
  import Schema
  import SemVer
  import Strings

  function ExecutePath(planID: string, workflowID: string, segment: string, latest: bool): string {
    if latest then "/tools/" + planID + "/" + workflowID
    else "/tools/" + planID + "/" + segment + "/" + workflowID
  }

  // strings.TrimRight(p, "/")
  function TrimSlashes(p: string): string {
    if p != "" && p[|p| - 1] == '/' then TrimSlashes(p[..|p| - 1]) else p
  }

  function Prefix(apiPrefix: string): string {
    var p := if apiPrefix == "" then "/api" else apiPrefix;
    TrimSlashes(if HasPrefix(p, "/") then p else "/" + p)
  }

  lemma {:induction false} TrimSlashesKeeps(p: string)
    requires p != "" && p[0] == '/'
    ensures TrimSlashes(p) <= p && (forall i :: |TrimSlashes(p)| <= i < |p| ==> p[i] == '/')
    ensures TrimSlashes(p) == "" || (TrimSlashes(p)[0] == '/' && TrimSlashes(p)[|TrimSlashes(p)| - 1] != '/')
  {
    if p[|p| - 1] == '/' && |p| > 1 {
      TrimSlashesKeeps(p[..|p| - 1]);
    }
  }

  // References are prefix-absolute: the prefix is the configured one, behind a
  // slash, less the slashes at its end.
  lemma PrefixIsAbsolute(apiPrefix: string)
    ensures var p := Prefix(apiPrefix);
            && (p == "" || (p[0] == '/' && p[|p| - 1] != '/'))
            && (apiPrefix == "" ==> p == "/api")
            && (apiPrefix != "" ==>
                  var full := if apiPrefix[0] == '/' then apiPrefix else "/" + apiPrefix;
                  p <= full && forall i :: |p| <= i < |full| ==> full[i] == '/')
  {
    var full := if apiPrefix == "" then "/api" else if apiPrefix[0] == '/' then apiPrefix else "/" + apiPrefix;
    assert apiPrefix != "" ==> (HasPrefix(apiPrefix, "/") <==> apiPrefix[0] == '/');
    TrimSlashesKeeps(full);
    assert TrimSlashes("/api") == "/api";
  }

  // The segments of an execute path.
  function PathSegments(planID: string, workflowID: string, segment: string, latest: bool): (parts: seq<string>)
    ensures |parts| > 0
  {
    if latest then ["", "tools", planID, workflowID] else ["", "tools", planID, segment, workflowID]
  }

  lemma {:induction false} JoinTail(part: string, parts: seq<string>)
    requires parts != []
    ensures Strings.Join([part] + parts, '/') == part + "/" + Strings.Join(parts, '/')
  {
    assert ([part] + parts)[1..] == parts;
  }

  lemma JoinedPath(planID: string, workflowID: string, segment: string, latest: bool)
    ensures ExecutePath(planID, workflowID, segment, latest) ==
              Strings.Join(PathSegments(planID, workflowID, segment, latest), '/')
  {
    var last := [workflowID];
    var tail := if latest then last else [segment] + last;
    if !latest {
      JoinTail(segment, last);
    }
    JoinTail(planID, tail);
    JoinTail("tools", [planID] + tail);
    JoinTail("", ["tools"] + ([planID] + tail));
    assert [""] + (["tools"] + ([planID] + tail)) == PathSegments(planID, workflowID, segment, latest);
  }

  // An execute path is read back segment by segment, where no id holds a slash.
  lemma PathReadsBack(planID: string, workflowID: string, segment: string, latest: bool)
    requires '/' !in planID && '/' !in workflowID && '/' !in segment
    ensures Strings.Split(ExecutePath(planID, workflowID, segment, latest), '/') ==
              PathSegments(planID, workflowID, segment, latest)
  {
    JoinedPath(planID, workflowID, segment, latest);
    Strings.SplitJoin(PathSegments(planID, workflowID, segment, latest), '/');
  }

  lemma SegmentHasNoSlash(e: Entry)
    requires EntryOk(e)
    ensures '/' !in VersionSegment(e)
  {
    var v := VersionSegment(e);
    SemVer.ValidChars(v);
    assert forall i :: 0 < i < |v| ==> v[i] == v[1..][i - 1];
    assert !SemVer.IsVersionChar('/');
  }

  // The versioned path of a loaded workflow leads back to it: its segments name
  // the plan, the entry by its version segment, and the workflow.
  lemma VersionedPathLeads(c: Catalog, i: nat, k: nat)
    requires c.Indexed() && i < |c.entries| && k < |c.entries[i].workflows|
    requires '/' !in c.entries[i].planID && '/' !in c.entries[i].workflows[k].id
    ensures var e := c.entries[i];
            var parts := Strings.Split(PathOf(e, k, false), '/');
            && |parts| == 5 && parts[0] == "" && parts[1] == "tools" && parts[2] == e.planID
            && parts[4] == e.workflows[k].id && c.GetBySegment(parts[2], parts[3]) == Some(e)
  {
    var e := c.entries[i];
    assert EntryOk(e);
    SegmentHasNoSlash(e);
    PathReadsBack(e.planID, e.workflows[k].id, VersionSegment(e), false);
    c.SegmentFindsEntry(i);
  }

  // The latest path of a workflow names its plan and itself.
  lemma LatestPathLeads(e: Entry, k: nat)
    requires k < |e.workflows| && '/' !in e.planID && '/' !in e.workflows[k].id
    ensures Strings.Split(PathOf(e, k, true), '/') == ["", "tools", e.planID, e.workflows[k].id]
  {
    PathReadsBack(e.planID, e.workflows[k].id, "", true);
  }

  function PlanSpecRef(prefix: string, planID: string, path: string): string {
    prefix + "/openapi/" + planID + "#/paths/" + Pointers.Escape(path)
  }

  function PathOf(e: Entry, i: nat, latest: bool): string
    requires i < |e.workflows|
  {
    ExecutePath(e.planID, e.workflows[i].id, VersionSegment(e), latest)
  }

  // ------------------------------------------------------------ one plan

  // The last of the first n workflows whose path is k.
  ghost predicate LastAt(e: Entry, latest: bool, n: nat, i: int, k: string)
    requires n <= |e.workflows|
  {
    0 <= i < n && PathOf(e, i, latest) == k && forall j :: i < j < n ==> PathOf(e, j, latest) != k
  }

  ghost predicate HasPath(e: Entry, latest: bool, n: nat, k: string)
    requires n <= |e.workflows|
  {
    exists i :: LastAt(e, latest, n, i, k)
  }

  // What an operation says about the inputs and outputs of its workflow: the
  // request body's schema, if there is a body, and the parameters; the response
  // body's schema, and the response headers.
  datatype Operation = Operation(body: Option<Value>, params: seq<Param>, response: Value, headers: seq<Param>)

  // hasJSONRequestBody
  predicate HasRequestBody(body: Value, lifted: bool) {
    !lifted || !body.Obj? || Properties(body) != map[]
  }

  // Both schemas of the workflow can be split.
  ghost predicate Splits(w: Workflow) {
    w.inputs.Ok? && (w.outputs.Some? ==> w.outputs.value.Ok? && Splittable(w.names, w.outputs.value.value))
  }

  // The operation says of each input and output where it travels.
  ghost predicate Describes(w: Workflow, op: Operation) {
    && Splits(w)
    && (var v := Schema.ConsumerSchema(w.inputs.value);
        && LiftsAll(Properties(v), Required(v), Properties(v).Keys, op.params)
        && op.body == if HasRequestBody(BodySchema(v), op.params != []) then Some(BodySchema(v)) else None)
    && (if w.outputs.None? then op.headers == [] && op.response == ResponseBody(w.names, Obj(map[]), [])
        else
          var schema := w.outputs.value.value;
          && LiftsHeaders(Properties(schema), Required(schema), Properties(schema).Keys, op.headers)
          && op.response == ResponseBody(w.names, schema, op.headers))
  }

  // The document holds, for each path of the plan, the operation of the last
  // workflow with that path, and nothing else.
  ghost predicate PlanDoc(e: Entry, latest: bool, n: nat, paths: map<string, Operation>)
    requires n <= |e.workflows|
  {
    && (forall k :: k in paths ==> HasPath(e, latest, n, k))
    && (forall i, k :: LastAt(e, latest, n, i, k) ==> k in paths && Describes(e.workflows[i], paths[k]))
  }

  lemma LastOfMore(e: Entry, latest: bool, n: nat, i: int, k: string)
    requires n < |e.workflows|
    ensures LastAt(e, latest, n + 1, i, k) <==>
            if PathOf(e, n, latest) == k then i == n else LastAt(e, latest, n, i, k)
  {
  }

  // One turn of OpenAPIJSON's loop; a schema that cannot be split ends the
  // document.
  method Describe(w: Workflow) returns (r: Result<Operation, ()>)
    ensures r.Ok? <==> Splits(w)
    ensures r.Ok? ==> Describes(w, r.value)
  {
    if w.inputs.Err? {
      return Err(());
    }
    var v := Schema.Run(Schema.Closing, Schema.Run(Schema.Reserved, w.inputs.value));
    var body, params := SplitInputs(v, w.order);
    var request := if HasRequestBody(body, |params| > 0) then Some(body) else None;
    if w.outputs.None? {
      return Ok(Operation(request, params, ResponseBody(w.names, Obj(map[]), []), []));
    }
    if w.outputs.value.Err? {
      return Err(());
    }
    var split := SplitOutputs(w.names, w.outputs.value.value, w.outputOrder);
    if split.Err? {
      return Err(());
    }
    return Ok(Operation(request, params, split.value.0, split.value.1));
  }

  lemma HasPathGrows(e: Entry, latest: bool, n: nat, k: string)
    requires n < |e.workflows| && (HasPath(e, latest, n, k) || k == PathOf(e, n, latest))
    ensures HasPath(e, latest, n + 1, k)
  {
    if k == PathOf(e, n, latest) {
      LastOfMore(e, latest, n, n, k);
    } else {
      var j :| LastAt(e, latest, n, j, k);
      LastOfMore(e, latest, n, j, k);
    }
  }

  lemma DescribedMore(e: Entry, latest: bool, n: nat, paths: map<string, Operation>, op: Operation, j: int, k: string)
    requires n < |e.workflows| && PlanDoc(e, latest, n, paths) && Describes(e.workflows[n], op)
    requires LastAt(e, latest, n + 1, j, k)
    ensures var more := paths[PathOf(e, n, latest) := op]; k in more && Describes(e.workflows[j], more[k])
  {
    LastOfMore(e, latest, n, j, k);
  }

  lemma PlanDocMore(e: Entry, latest: bool, n: nat, paths: map<string, Operation>, op: Operation)
    requires n < |e.workflows| && PlanDoc(e, latest, n, paths) && Describes(e.workflows[n], op)
    ensures PlanDoc(e, latest, n + 1, paths[PathOf(e, n, latest) := op])
  {
    var m := n + 1;
    var more := paths[PathOf(e, n, latest) := op];
    forall j, k | LastAt(e, latest, m, j, k)
      ensures k in more && Describes(e.workflows[j], more[k])
    {
      DescribedMore(e, latest, n, paths, op, j, k);
    }
    forall k | k in more
      ensures HasPath(e, latest, m, k)
    {
      HasPathGrows(e, latest, n, k);
    }
  }

  // Every workflow of the plan can be described.
  ghost predicate Buildable(e: Entry) {
    forall w :: w in e.workflows ==> Splits(w)
  }

  ghost predicate SplitUpTo(e: Entry, n: nat)
    requires n <= |e.workflows|
  {
    forall j :: 0 <= j < n ==> Splits(e.workflows[j])
  }

  lemma SplitMore(e: Entry, n: nat)
    requires n <= |e.workflows| && SplitUpTo(e, n)
    ensures n < |e.workflows| && Splits(e.workflows[n]) ==> SplitUpTo(e, n + 1)
    ensures n < |e.workflows| && !Splits(e.workflows[n]) ==> !Buildable(e)
    ensures n == |e.workflows| ==> Buildable(e)
  {
  }

  // OpenAPIJSON's path map.
  method OpenAPIPaths(e: Entry, latest: bool) returns (r: Result<map<string, Operation>, ()>)
    ensures r.Ok? <==> Buildable(e)
    ensures r.Ok? ==> PlanDoc(e, latest, |e.workflows|, r.value)
  {
    var paths: map<string, Operation> := map[];
    for i := 0 to |e.workflows|
      invariant PlanDoc(e, latest, i, paths) && SplitUpTo(e, i)
    {
      SplitMore(e, i);
      var op := Describe(e.workflows[i]);
      if op.Err? {
        return Err(());
      }
      PlanDocMore(e, latest, i, paths, op.value);
      paths := paths[PathOf(e, i, latest) := op.value];
    }
    SplitMore(e, |e.workflows|);
    return Ok(paths);
  }

  // What addSource has checked is what the document needs: the document of a
  // loaded plan can always be built.
  lemma LoadedBuilds(e: Entry)
    requires EntryOk(e)
    ensures Buildable(e)
  {
    forall w | w in e.workflows
      ensures Splits(w)
    {
      assert WorkflowOk(w) && OutputsOk(w);
    }
  }

  // ------------------------------------------------------------ the catalog

  datatype PathItem = Own(operation: string) | Ref(uri: string)

  ghost predicate Offers(c: Catalog, planID: string, k: string)
    reads c
  {
    c.Latest(planID).Some? && HasPath(c.Latest(planID).value, true, |c.Latest(planID).value.workflows|, k)
  }

  // The last of the first n plan ids that offers the path k.
  ghost predicate LastOffer(c: Catalog, ids: seq<string>, n: nat, j: int, k: string)
    requires n <= |ids|
    reads c
  {
    0 <= j < n && Offers(c, ids[j], k) && forall m :: j < m < n ==> !Offers(c, ids[m], k)
  }

  ghost predicate Offered(c: Catalog, ids: seq<string>, n: nat, k: string)
    requires n <= |ids|
    reads c
  {
    exists j :: LastOffer(c, ids, n, j, k)
  }

  ghost predicate Ascending(ids: seq<string>) {
    forall i, j :: 0 <= i < j < |ids| ==> SemVer.CompareText(ids[i], ids[j]) < 0
  }

  // What stands at k after the first n plans.
  ghost predicate Written(c: Catalog, prefix: string, ids: seq<string>, n: nat, own: map<string, PathItem>,
                          paths: map<string, PathItem>, k: string)
    requires n <= |ids|
    reads c
  {
    && (forall j :: LastOffer(c, ids, n, j, k) ==> Lookup(paths, k) == Some(Ref(PlanSpecRef(prefix, ids[j], k))))
    && (!Offered(c, ids, n, k) ==> Lookup(paths, k) == Lookup(own, k))
  }

  ghost predicate AllWritten(c: Catalog, prefix: string, ids: seq<string>, n: nat, own: map<string, PathItem>,
                             paths: map<string, PathItem>)
    requires n <= |ids|
    reads c
  {
    forall k :: Written(c, prefix, ids, n, own, paths, k)
  }

  function OwnPaths(queryEnabled: bool): map<string, PathItem> {
    if queryEnabled then map["/tools" := Own("listTools"), "/plans/query" := Own("queryPlans")]
    else map["/tools" := Own("listTools")]
  }

  // The catalog document: its own operations, and for every path that a
  // loaded plan's latest version offers a reference into the document of the
  // last such plan in id order.
  ghost predicate CatalogDoc(c: Catalog, prefix: string, ids: seq<string>, queryEnabled: bool,
                             paths: map<string, PathItem>)
    reads c
  {
    && Ascending(ids) && (forall p :: p in ids <==> p in c.latest)
    && AllWritten(c, prefix, ids, |ids|, OwnPaths(queryEnabled), paths)
  }

  function Insert(ids: seq<string>, id: string): (r: seq<string>)
    ensures forall x :: x in r <==> x in ids || x == id
    ensures Ascending(ids) && id !in ids ==> Ascending(r)
  {
    if ids == [] then [id]
    else if SemVer.CompareText(id, ids[0]) < 0 then
      AscendingFrom(id, ids);
      [id] + ids
    else
      var rest := Insert(ids[1..], id);
      assert ids == [ids[0]] + ids[1..];
      InsertAfter(ids, id, rest);
      [ids[0]] + rest
  }

  lemma AscendingFrom(id: string, ids: seq<string>)
    requires ids != [] && SemVer.CompareText(id, ids[0]) < 0
    ensures Ascending(ids) ==> Ascending([id] + ids)
  {
    if Ascending(ids) {
      forall j | 0 <= j < |ids|
        ensures SemVer.CompareText(id, ids[j]) < 0
      {
        SemVer.TextOrder(id, ids[0], ids[j]);
        SemVer.TextOrder(ids[j], id, ids[0]);
        SemVer.TextOrder(ids[0], ids[j], id);
      }
    }
  }

  lemma InsertAfter(ids: seq<string>, id: string, rest: seq<string>)
    requires ids != [] && SemVer.CompareText(id, ids[0]) >= 0
    requires forall x :: x in rest <==> x in ids[1..] || x == id
    ensures Ascending(ids) && id !in ids && Ascending(rest) ==> Ascending([ids[0]] + rest)
  {
    if Ascending(ids) && id !in ids {
      SemVer.TextOrder(ids[0], id, id);
      forall j | 0 <= j < |rest|
        ensures SemVer.CompareText(ids[0], rest[j]) < 0
      {
        assert rest[j] in rest;
      }
    }
  }

  // The ids of the map, in any order, sorted.
  method SortedIds(latest: map<string, string>) returns (ids: seq<string>)
    ensures Ascending(ids) && forall p :: p in ids <==> p in latest
  {
    ids := [];
    var todo := latest.Keys;
    while todo != {}
      invariant todo <= latest.Keys
      invariant Ascending(ids) && forall p :: p in ids <==> p in latest && p !in todo
    {
      var id :| id in todo;
      ids := Insert(ids, id);
      todo := todo - {id};
    }
  }

  // The inner loop: one plan's references.
  method AddPlan(paths: map<string, PathItem>, e: Entry, prefix: string, planID: string)
    returns (r: map<string, PathItem>)
    ensures forall k :: Lookup(r, k) ==
              if HasPath(e, true, |e.workflows|, k) then Some(Ref(PlanSpecRef(prefix, planID, k))) else Lookup(paths, k)
  {
    r := paths;
    for i := 0 to |e.workflows|
      invariant forall k :: Lookup(r, k) ==
                  if HasPath(e, true, i, k) then Some(Ref(PlanSpecRef(prefix, planID, k))) else Lookup(paths, k)
    {
      var p := PathOf(e, i, true);
      r := r[p := Ref(PlanSpecRef(prefix, planID, p))];
      HasPathMore(e, i);
    }
  }

  lemma HasPathMore(e: Entry, n: nat)
    requires n < |e.workflows|
    ensures var m := n + 1;
            forall k :: HasPath(e, true, m, k) <==> HasPath(e, true, n, k) || k == PathOf(e, n, true)
  {
    var m := n + 1;
    forall k
      ensures HasPath(e, true, m, k) <==> HasPath(e, true, n, k) || k == PathOf(e, n, true)
    {
      if k == PathOf(e, n, true) {
        assert LastAt(e, true, m, n, k);
      } else {
        if HasPath(e, true, n, k) {
          var i :| LastAt(e, true, n, i, k);
          assert LastAt(e, true, m, i, k);
        }
        if HasPath(e, true, m, k) {
          var i :| LastAt(e, true, m, i, k);
          assert LastAt(e, true, n, i, k);
        }
      }
    }
  }

  lemma WrittenMore(c: Catalog, prefix: string, ids: seq<string>, n: nat, own: map<string, PathItem>,
                    before: map<string, PathItem>, after: map<string, PathItem>, k: string)
    requires n < |ids| && Written(c, prefix, ids, n, own, before, k)
    requires Lookup(after, k) ==
             if Offers(c, ids[n], k) then Some(Ref(PlanSpecRef(prefix, ids[n], k))) else Lookup(before, k)
    ensures Written(c, prefix, ids, n + 1, own, after, k)
  {
    if Offers(c, ids[n], k) {
      assert LastOffer(c, ids, n + 1, n, k);
    } else if Offered(c, ids, n, k) {
      var j :| LastOffer(c, ids, n, j, k);
      assert LastOffer(c, ids, n + 1, j, k);
    }
  }

  // One turn of the outer loop.
  method AddLatest(c: Catalog, prefix: string, ids: seq<string>, n: nat, ghost own: map<string, PathItem>,
                   paths: map<string, PathItem>) returns (r: map<string, PathItem>)
    requires n < |ids| && AllWritten(c, prefix, ids, n, own, paths)
    ensures AllWritten(c, prefix, ids, n + 1, own, r)
  {
    var e := c.Latest(ids[n]);
    r := paths;
    if e.Some? {
      r := AddPlan(paths, e.value, prefix, ids[n]);
    }
    ghost var m := n + 1;
    forall k
      ensures Written(c, prefix, ids, m, own, r, k)
    {
      assert Written(c, prefix, ids, n, own, paths, k);
      WrittenMore(c, prefix, ids, n, own, paths, r, k);
    }
  }

  // CatalogOpenAPIJSON; a nil catalog lists only the process's own operations.
  method CatalogPaths(c: Catalog?, queryEnabled: bool, prefix: string)
    returns (paths: map<string, PathItem>, ghost ids: seq<string>)
    ensures c == null ==> paths == OwnPaths(queryEnabled)
    ensures c != null ==> CatalogDoc(c, prefix, ids, queryEnabled, paths)
  {
    paths, ids := OwnPaths(queryEnabled), [];
    if c == null {
      return;
    }
    var sorted := SortedIds(c.latest);
    for n := 0 to |sorted|
      invariant AllWritten(c, prefix, sorted, n, OwnPaths(queryEnabled), paths)
    {
      paths := AddLatest(c, prefix, sorted, n, OwnPaths(queryEnabled), paths);
    }
    ids := sorted;
  }

  lemma OwnNotOffered(e: Entry, n: nat)
    requires n <= |e.workflows|
    ensures !HasPath(e, true, n, "/tools") && !HasPath(e, true, n, "/plans/query")
  {
    forall i | 0 <= i < n
      ensures PathOf(e, i, true) != "/tools" && PathOf(e, i, true) != "/plans/query"
    {
      var p := PathOf(e, i, true);
      assert p[1] == 't' && "/plans/query"[1] == 'p';
      assert |p| > |"/tools"|;
    }
  }

  // No plan takes the place of the process's own operations: the list of tools
  // is always there, and the query exactly when it is enabled.
  lemma OwnPathsStand(c: Catalog, prefix: string, ids: seq<string>, queryEnabled: bool, paths: map<string, PathItem>)
    requires CatalogDoc(c, prefix, ids, queryEnabled, paths)
    ensures Lookup(paths, "/tools") == Some(Own("listTools"))
    ensures Lookup(paths, "/plans/query") == if queryEnabled then Some(Own("queryPlans")) else None
  {
    forall j | 0 <= j < |ids|
      ensures !Offers(c, ids[j], "/tools") && !Offers(c, ids[j], "/plans/query")
    {
      if c.Latest(ids[j]).Some? {
        OwnNotOffered(c.Latest(ids[j]).value, |c.Latest(ids[j]).value.workflows|);
      }
    }
    assert Written(c, prefix, ids, |ids|, OwnPaths(queryEnabled), paths, "/tools");
    assert Written(c, prefix, ids, |ids|, OwnPaths(queryEnabled), paths, "/plans/query");
  }

  // ------------------------------------------------------------ references

  predicate IsHex(c: char) {
    '0' <= c <= '9' || 'a' <= c <= 'f' || 'A' <= c <= 'F'
  }

  function HexValue(c: char): nat
    requires IsHex(c)
  {
    if c <= '9' then c as int - '0' as int
    else if c <= 'F' then c as int - 'A' as int + 10
    else c as int - 'a' as int + 10
  }

  // Percent-decoding (RFC 3986, section 2.1); None for a '%' without two
  // hexadecimal digits.
  function PercentDecode(s: string): Option<string> {
    if s == "" then Some("")
    else if s[0] != '%' then Pointers.Prepend([s[0]], PercentDecode(s[1..]))
    else if |s| < 3 || !IsHex(s[1]) || !IsHex(s[2]) then None
    else Pointers.Prepend([(16 * HexValue(s[1]) + HexValue(s[2])) as char], PercentDecode(s[3..]))
  }

  // One segment of a path as the server's route for a plan takes it: not empty,
  // not a dot segment, percent-decoded.
  function Segment(s: string): Option<string> {
    if s == "" || s == "." || s == ".." || '/' in s then None else PercentDecode(s)
  }

  // What a reader of the reference does: strip the known prefix, end the path at
  // '#' and at '?', take what is left as one segment, and read the fragment,
  // percent-decoded (RFC 6901, section 6), as a JSON Pointer to a path item.
  function Resolve(prefix: string, uri: string): Option<(string, string)> {
    var base := prefix + "/openapi/";
    if !HasPrefix(uri, base) then None
    else match Strings.Cut(uri[|base|..], '#')
      case None => None
      case Some((front, fragment)) =>
        match (Segment(BeforeQuery(front)), PercentDecode(fragment))
        case (Some(planID), Some(pointer)) => ResolveIn(planID, pointer)
        case _ => None
  }

  function BeforeQuery(s: string): string {
    match Strings.Cut(s, '?') case None => s case Some((path, _)) => path
  }

  function ResolveIn(planID: string, pointer: string): Option<(string, string)> {
    match Pointers.Parse(pointer)
    case None => None
    case Some(tokens) => if |tokens| == 2 && tokens[0] == "paths" then Some((planID, tokens[1])) else None
  }

  lemma {:induction false} NoReplace(s: string, c: char, by_: string)
    requires c !in s
    ensures Pointers.ReplaceChar(s, c, by_) == s
  {
    if s != "" {
      NoReplace(s[1..], c, by_);
      assert s == [s[0]] + s[1..];
    }
  }

  lemma NoEscape(s: string)
    requires '~' !in s && '/' !in s
    ensures Pointers.Escape(s) == s
  {
    NoReplace(s, '~', "~0");
    NoReplace(s, '/', "~1");
  }

  lemma FormatTwo(first: string, second: string)
    requires '~' !in first && '/' !in first
    ensures Pointers.Format([first, second]) == "/" + first + "/" + Pointers.Escape(second)
  {
    NoEscape(first);
    var parts := Pointers.EscapeAll([first, second]);
    assert parts == [first, Pointers.Escape(second)];
    JoinTwo(first, Pointers.Escape(second));
    assert "/" + (first + "/" + Pointers.Escape(second)) == "/" + first + "/" + Pointers.Escape(second);
  }

  lemma JoinTwo(a: string, b: string)
    ensures Strings.Join([a, b], '/') == a + "/" + b
  {
    assert [a, b][1..] == [b];
  }

  lemma FragmentFormats(path: string)
    ensures Pointers.Format(["paths", path]) == "/paths/" + Pointers.Escape(path)
  {
    FormatTwo("paths", path);
    assert "/" + "paths" + "/" == "/paths/";
  }

  lemma FragmentParses(path: string)
    ensures Pointers.Parse("/paths/" + Pointers.Escape(path)) == Some(["paths", path])
  {
    FragmentFormats(path);
    Pointers.ParseFormat(["paths", path]);
  }

  lemma {:induction false} DecodePlain(s: string)
    ensures '%' !in s ==> PercentDecode(s) == Some(s)
    ensures PercentDecode(s).Some? ==> |PercentDecode(s).value| <= |s|
    ensures '%' in s && PercentDecode(s).Some? ==> |PercentDecode(s).value| < |s|
  {
    if s != "" {
      DecodePlain(s[1..]);
      assert s == [s[0]] + s[1..];
      if s[0] == '%' && |s| >= 3 {
        DecodePlain(s[3..]);
      }
    }
  }

  lemma {:induction false} DecodePrefix(a: string, s: string)
    requires '%' !in a
    ensures PercentDecode(a + s) == Pointers.Prepend(a, PercentDecode(s))
  {
    if a == "" {
      assert a + s == s;
      Pointers.PrependNothing([], PercentDecode(s));
    } else {
      assert (a + s)[1..] == a[1..] + s;
      DecodePrefix(a[1..], s);
      Pointers.PrependPrepend([a[0]], a[1..], PercentDecode(s));
      assert [a[0]] + a[1..] == a;
    }
  }

  // Ids that stand for themselves in a reference.
  ghost predicate PlainSegment(planID: string) {
    planID != "" && planID != "." && planID != ".." && forall c :: c in planID ==> c !in "/?#%"
  }

  lemma FrontReads(front: string)
    ensures Segment(BeforeQuery(front)) == Some(front) && '#' !in front <==> PlainSegment(front)
  {
    Strings.CutParts(front, '?');
    DecodePlain(BeforeQuery(front));
    if '?' in front {
      var (path, rest) := Strings.Cut(front, '?').value;
      assert |path| < |front|;
    }
  }

  // The pointer leads to the path exactly when no '%' was taken for an escape.
  lemma FragmentReads(planID: string, path: string)
    ensures var pointer := PercentDecode("/paths/" + Pointers.Escape(path));
            pointer.Some? && ResolveIn(planID, pointer.value) == Some((planID, path)) <==> '%' !in path
  {
    var token := Pointers.Escape(path);
    EscapeKeepsPercent(path);
    DecodePrefix("/paths/", token);
    DecodePlain(token);
    FragmentParses(path);
    if '%' in path && PercentDecode(token).Some? {
      var read := PercentDecode(token).value;
      if ResolveIn(planID, "/paths/" + read) == Some((planID, path)) {
        var tokens := Pointers.Parse("/paths/" + read).value;
        assert tokens == ["paths", path];
        TokenOnly(read, path);
        Pointers.EscapeUnescape(read);
      }
    }
  }

  lemma {:induction false} ReplaceKeeps(s: string, old_: char, new_: string, c: char)
    requires c != old_ && c !in new_
    ensures c in Pointers.ReplaceChar(s, old_, new_) <==> c in s
  {
    if s != "" {
      ReplaceKeeps(s[1..], old_, new_, c);
      assert s == [s[0]] + s[1..];
    }
  }

  lemma EscapeKeepsPercent(s: string)
    ensures '%' in Pointers.Escape(s) <==> '%' in s
  {
    ReplaceKeeps(s, '~', "~0", '%');
    ReplaceKeeps(Pointers.ReplaceChar(s, '~', "~0"), '/', "~1", '%');
  }

  lemma ParsePaths(read: string)
    ensures Pointers.Parse("/paths/" + read) == Pointers.UnescapeAll(["paths"] + Strings.Split(read, '/'))
  {
    var pointer := "/paths/" + read;
    assert pointer[1..] == "paths" + ['/'] + read;
    Strings.SplitPrefix("paths", '/', read);
  }

  // Two tokens in all leave one for the rest.
  lemma OneTokenLeft(first: string, parts: seq<string>, a: string, b: string)
    requires Pointers.UnescapeAll([first] + parts) == Some([a, b])
    ensures Pointers.UnescapeAll(parts) == Some([b])
  {
    assert ([first] + parts)[1..] == parts;
    var rest := Pointers.UnescapeAll(parts).value;
    assert [a, b] == [Pointers.Unescape(first).value] + rest;
    assert rest == [a, b][1..];
  }

  lemma OneToken(read: string, path: string)
    requires Pointers.UnescapeAll(Strings.Split(read, '/')) == Some([path])
    ensures '/' !in read && Pointers.Unescape(read) == Some(path)
  {
    var parts := Strings.Split(read, '/');
    UnescapeAllLength(parts);
    assert parts[1..] == [];
    Pointers.PrependNothing([Pointers.Unescape(parts[0]).value], None);
    Strings.JoinSplit(read, '/');
    Strings.PartsHaveNoSeparator(read, '/');
  }

  // A two-token pointer below "paths" has one slash-free token there.
  lemma TokenOnly(read: string, path: string)
    requires Pointers.Parse("/paths/" + read) == Some(["paths", path])
    ensures '/' !in read && Pointers.Unescape(read) == Some(path)
  {
    ParsePaths(read);
    OneTokenLeft("paths", Strings.Split(read, '/'), "paths", path);
    OneToken(read, path);
  }

  lemma {:induction false} UnescapeAllLength(parts: seq<string>)
    ensures Pointers.UnescapeAll(parts).Some? ==> |Pointers.UnescapeAll(parts).value| == |parts|
  {
    if parts != [] {
      UnescapeAllLength(parts[1..]);
    }
  }

  // A reference leads its reader to the plan and path it was made from, exactly
  // when the plan id is a plain path segment and the path holds no '%'.
  lemma RefResolves(prefix: string, planID: string, path: string)
    ensures Resolve(prefix, PlanSpecRef(prefix, planID, path)) == Some((planID, path)) <==>
            PlainSegment(planID) && '%' !in path
  {
    var uri, base := PlanSpecRef(prefix, planID, path), prefix + "/openapi/";
    var fragment := "/paths/" + Pointers.Escape(path);
    assert uri == base + (planID + ['#'] + fragment);
    assert uri[|base|..] == planID + ['#'] + fragment;
    Strings.CutParts(planID + ['#'] + fragment, '#');
    FrontReads(planID);
    FragmentReads(planID, path);
    if '#' !in planID {
      Strings.CutAtFirst(planID, '#', fragment);
    } else {
      CutShortFront(planID, fragment);
    }
  }

  // A '#' in the plan id ends it early.
  lemma CutShortFront(planID: string, fragment: string)
    requires '#' in planID
    ensures var cut := Strings.Cut(planID + ['#'] + fragment, '#');
            cut.Some? && |cut.value.0| < |planID| &&
            (Segment(BeforeQuery(cut.value.0)).Some? ==> |Segment(BeforeQuery(cut.value.0)).value| < |planID|)
  {
    var whole := planID + ['#'] + fragment;
    Strings.CutParts(whole, '#');
    var (front, rest) := Strings.Cut(whole, '#').value;
    var i :| 0 <= i < |planID| && planID[i] == '#';
    assert whole[i] == '#';
    assert |front| <= i;
    Strings.CutParts(front, '?');
    DecodePlain(BeforeQuery(front));
  }

  // The token after the last '/' tells the path, and what precedes it the plan:
  // no two references are alike.
  lemma RefsDiffer(prefix: string, p: string, k: string, q: string, l: string)
    requires PlanSpecRef(prefix, p, k) == PlanSpecRef(prefix, q, l)
    ensures p == q && k == l
  {
    var a, b := Pointers.Escape(k), Pointers.Escape(l);
    var head, tail := prefix + "/openapi/" + p + "#/paths", prefix + "/openapi/" + q + "#/paths";
    Pointers.EscapeHasNoSlash(k);
    Pointers.EscapeHasNoSlash(l);
    assert PlanSpecRef(prefix, p, k) == head + "/" + a;
    assert PlanSpecRef(prefix, q, l) == tail + "/" + b;
    LastSlash(head, a, tail, b);
    assert head[|prefix + "/openapi/"|..|head| - 7] == p && tail[|prefix + "/openapi/"|..|tail| - 7] == q;
    Pointers.UnescapeEscape(k);
    Pointers.UnescapeEscape(l);
  }

  lemma SlashAt(x: string, a: string, i: nat)
    requires '/' !in a && i < |x + "/" + a|
    ensures i == |x| ==> (x + "/" + a)[i] == '/'
    ensures i > |x| ==> (x + "/" + a)[i] != '/'
  {
    if i > |x| {
      assert (x + "/" + a)[i] == a[i - |x| - 1];
    }
  }

  lemma LastSlash(x: string, a: string, y: string, b: string)
    requires x + "/" + a == y + "/" + b && '/' !in a && '/' !in b
    ensures x == y && a == b
  {
    var s := x + "/" + a;
    SlashAt(x, a, |x|);
    SlashAt(x, a, |y|);
    SlashAt(y, b, |x|);
    SlashAt(y, b, |y|);
    assert x == s[..|x|] && y == s[..|y|];
    assert a == s[|x| + 1..] && b == s[|y| + 1..];
  }

  lemma LatestOffers(c: Catalog, planID: string, k: string)
    requires c.Ready() && Offers(c, planID, k)
    ensures planID in c.latest && c.Latest(planID).value.planID == planID
    ensures var ws := c.Latest(planID).value.workflows;
            exists i :: 0 <= i < |ws| && k == "/tools/" + planID + "/" + ws[i].id
  {
    c.LatestFindsNewest(planID);
    var e := c.Latest(planID).value;
    var i :| LastAt(e, true, |e.workflows|, i, k);
    assert k == "/tools/" + planID + "/" + e.workflows[i].id;
  }

  lemma {:induction false} SomeLastOffer(c: Catalog, ids: seq<string>, n: nat, m: nat, k: string)
    requires m < n <= |ids| && Offers(c, ids[m], k)
    ensures exists j :: m <= j && LastOffer(c, ids, n, j, k)
    decreases n
  {
    if Offers(c, ids[n - 1], k) {
      assert LastOffer(c, ids, n, n - 1, k);
    } else {
      SomeLastOffer(c, ids, n - 1, m, k);
      var j :| m <= j && LastOffer(c, ids, n - 1, j, k);
      assert LastOffer(c, ids, n, j, k);
    }
  }

  // Reference integrity: every reference in the catalog document is to a
  // loaded plan, the document of that plan's latest entry can be built, and it
  // has the path the reference names, which is the path it stands at.
  lemma RefsHaveTargets(c: Catalog, prefix: string, ids: seq<string>, queryEnabled: bool,
                        paths: map<string, PathItem>, k: string)
    requires c.Ready() && CatalogDoc(c, prefix, ids, queryEnabled, paths) && k in paths && paths[k].Ref?
    ensures exists planID ::
              planID in c.latest && paths[k].uri == PlanSpecRef(prefix, planID, k) && HasTarget(c, planID, k)
  {
    assert Written(c, prefix, ids, |ids|, OwnPaths(queryEnabled), paths, k);
    assert !(k in OwnPaths(queryEnabled) && OwnPaths(queryEnabled)[k].Ref?);
    assert Lookup(paths, k) != Lookup(OwnPaths(queryEnabled), k);
    var j :| LastOffer(c, ids, |ids|, j, k);
    LatestOffers(c, ids[j], k);
    OfferedIsBuilt(c, ids[j], k);
  }

  // The plan's latest document can be built, and however it is, it has k.
  ghost predicate HasTarget(c: Catalog, planID: string, k: string)
    reads c
  {
    c.Latest(planID).Some? &&
    var e := c.Latest(planID).value;
    && Buildable(e)
    && (forall doc :: PlanDoc(e, true, |e.workflows|, doc) ==> k in doc)
  }

  lemma OfferedIsBuilt(c: Catalog, planID: string, k: string)
    requires c.Ready() && Offers(c, planID, k)
    ensures HasTarget(c, planID, k)
  {
    c.LatestFindsNewest(planID);
    var e := c.Latest(planID).value;
    var i :| IsLatest(c.entries, planID, i) && c.Latest(planID) == Some(c.entries[i]);
    assert EntryOk(c.entries[i]);
    LoadedBuilds(e);
  }

  // A workflow of a latest version is listed, and the reference at its path is
  // to its own plan exactly when no later plan id offers the same path.
  lemma OwnReference(c: Catalog, prefix: string, ids: seq<string>, queryEnabled: bool, paths: map<string, PathItem>,
                     planID: string, k: string)
    requires c.Ready() && CatalogDoc(c, prefix, ids, queryEnabled, paths) && Offers(c, planID, k)
    ensures k in paths && paths[k].Ref?
    ensures paths[k] == Ref(PlanSpecRef(prefix, planID, k)) <==>
            forall q :: q in c.latest && SemVer.CompareText(planID, q) < 0 ==> !Offers(c, q, k)
  {
    LatestOffers(c, planID, k);
    var m :| 0 <= m < |ids| && ids[m] == planID;
    SomeLastOffer(c, ids, |ids|, m, k);
    var j :| m <= j && LastOffer(c, ids, |ids|, j, k);
    assert Written(c, prefix, ids, |ids|, OwnPaths(queryEnabled), paths, k);
    if paths[k] == Ref(PlanSpecRef(prefix, planID, k)) {
      RefsDiffer(prefix, planID, k, ids[j], k);
      forall q | q in c.latest && SemVer.CompareText(planID, q) < 0
        ensures !Offers(c, q, k)
      {
        var n :| 0 <= n < |ids| && ids[n] == q;
        LaterIndex(ids, j, n);
      }
    } else {
      assert j != m && SemVer.CompareText(planID, ids[j]) < 0 && Offers(c, ids[j], k);
    }
  }

  lemma LaterIndex(ids: seq<string>, j: nat, n: nat)
    requires Ascending(ids) && j < |ids| && n < |ids| && SemVer.CompareText(ids[j], ids[n]) < 0
    ensures j < n
  {
    SemVer.TextOrder(ids[j], ids[n], ids[n]);
    SemVer.TextOrder(ids[j], ids[j], ids[n]);
  }

  ghost predicate SlashFree(c: Catalog)
    reads c
  {
    forall i :: 0 <= i < |c.entries| ==>
      '/' !in c.entries[i].planID &&
      forall j :: 0 <= j < |c.entries[i].workflows| ==> '/' !in c.entries[i].workflows[j].id
  }

  // With slash-free ids, every latest workflow has exactly one reference, and
  // it is to its own plan.
  lemma OneReferenceEach(c: Catalog, prefix: string, ids: seq<string>, queryEnabled: bool, paths: map<string, PathItem>,
                         planID: string, i: nat)
    requires c.Ready() && CatalogDoc(c, prefix, ids, queryEnabled, paths) && SlashFree(c)
    requires c.Latest(planID).Some? && i < |c.Latest(planID).value.workflows|
    ensures var k := PathOf(c.Latest(planID).value, i, true);
            forall l :: Lookup(paths, l) == Some(Ref(PlanSpecRef(prefix, planID, k))) <==> l == k
  {
    var e := c.Latest(planID).value;
    var k := PathOf(e, i, true);
    SomeLastAt(e, |e.workflows|, i, k);
    assert Offers(c, planID, k);
    forall q | q in c.latest && Offers(c, q, k)
      ensures q == planID
    {
      SlashFreeDecides(c, planID, q, k);
    }
    SemVer.TextOrder(planID, planID, planID);
    OwnReference(c, prefix, ids, queryEnabled, paths, planID, k);
    forall l | Lookup(paths, l) == Some(Ref(PlanSpecRef(prefix, planID, k)))
      ensures l == k
    {
      RefsHaveTargets(c, prefix, ids, queryEnabled, paths, l);
      var p :| p in c.latest && paths[l].uri == PlanSpecRef(prefix, p, l) && HasTarget(c, p, l);
      RefsDiffer(prefix, p, l, planID, k);
    }
  }

  lemma {:induction false} SomeLastAt(e: Entry, n: nat, i: nat, k: string)
    requires i < n <= |e.workflows| && PathOf(e, i, true) == k
    ensures HasPath(e, true, n, k)
    decreases n
  {
    if PathOf(e, n - 1, true) == k {
      assert LastAt(e, true, n, n - 1, k);
    } else {
      SomeLastAt(e, n - 1, i, k);
      var j :| LastAt(e, true, n - 1, j, k);
      assert LastAt(e, true, n, j, k);
    }
  }

  lemma SlashFreeDecides(c: Catalog, p: string, q: string, k: string)
    requires c.Ready() && SlashFree(c) && Offers(c, p, k) && Offers(c, q, k)
    ensures p == q
  {
    LatestOffers(c, p, k);
    LatestOffers(c, q, k);
    c.LatestFindsNewest(p);
    c.LatestFindsNewest(q);
    var e, f := c.Latest(p).value, c.Latest(q).value;
    var i :| 0 <= i < |e.workflows| && k == "/tools/" + p + "/" + e.workflows[i].id;
    var j :| 0 <= j < |f.workflows| && k == "/tools/" + q + "/" + f.workflows[j].id;
    LastSlash("/tools/" + p, e.workflows[i].id, "/tools/" + q, f.workflows[j].id);
    assert ("/tools/" + p)[7..] == p && ("/tools/" + q)[7..] == q;
  }
}
