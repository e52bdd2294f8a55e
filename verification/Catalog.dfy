// The plan index of internal/plans/catalog.go: what addSource admits, how
// computeLatest picks a version, and the lookups.
module Catalogs {
  import opened Outcomes
  import opened Json
  import Lift
  import Schema
  import Security
  import SemVer

  // One workflow of a document: its x-security, its input schema and its
  // x-outputs schema, decoded, or that they do not decode; the key orders of the
  // schemas, and the names of its outputs. Without inputs the schema is that of
  // an object.
  datatype Workflow = Workflow(
    id: string,
    security: Result<seq<Security.Requirement>, ()>,
    inputs: Result<Value, ()>,
    order: seq<string>,
    names: set<string>,
    outputs: Option<Result<Value, ()>>,
    outputOrder: seq<string>)

  // One loaded plan version. Entries are never changed after they are added.
  // `workflows` are those that have an id.
  datatype Entry = Entry(planID: string, version: string, uri: string, workflows: seq<Workflow>)

  datatype LoadError = LoaderFailed | ParseFailed | BadVersion | Unresolved | Invalid | BadWorkflow | Duplicate

  // What a loader delivered, after parsing. `resolves` and `valid` say whether
  // the sources of the document resolve and the document passes validation.
  datatype Source =
    | Unparsable
    | NoInfo
    | Document(planID: string, version: string, uri: string, resolves: bool, valid: bool, workflows: seq<Workflow>)

  function Key(planID: string, version: string): string {
    planID + "\0" + version
  }

  function KeyOf(e: Entry): string {
    Key(e.planID, e.version)
  }

  // strings.HasPrefix
  predicate HasPrefix(s: string, prefix: string) {
    prefix <= s
  }

  predicate CheckPlanVersion(version: string) {
    !HasPrefix(version, "v") && SemVer.IsValid("v" + version)
  }

  function SemverCanon(v: string): Option<string> {
    if SemVer.IsValid(v) then Some(v)
    else if SemVer.IsValid("v" + v) then Some("v" + v)
    else None
  }

  function VersionSegment(e: Entry): string {
    "v" + e.version
  }

  // The workflows that have an id.
  function Identified(workflows: seq<Workflow>): (kept: seq<Workflow>)
    ensures forall w :: w in kept <==> w in workflows && w.id != ""
  {
    if workflows == [] then []
    else (if workflows[0].id == "" then [] else [workflows[0]]) + Identified(workflows[1..])
  }

  // In their order, too.
  lemma {:induction false} IdentifiedInOrder(a: seq<Workflow>, b: seq<Workflow>)
    ensures Identified(a + b) == Identified(a) + Identified(b)
  {
    if a == [] {
      assert a + b == b;
    } else {
      assert (a + b)[1..] == a[1..] + b;
      IdentifiedInOrder(a[1..], b);
    }
  }

  function WorkflowIDs(e: Entry): (ids: seq<string>)
    ensures |ids| == |e.workflows| && forall i :: 0 <= i < |ids| ==> ids[i] == e.workflows[i].id
  {
    seq(|e.workflows|, i requires 0 <= i < |e.workflows| => e.workflows[i].id)
  }

  ghost predicate FirstWithID(workflows: seq<Workflow>, id: string, w: Workflow) {
    exists i :: 0 <= i < |workflows| && workflows[i] == w && w.id == id &&
                forall j :: 0 <= j < i ==> workflows[j].id != id
  }

  lemma FirstBehind(v: Workflow, workflows: seq<Workflow>, id: string, w: Workflow)
    requires v.id != id && FirstWithID(workflows, id, w)
    ensures FirstWithID([v] + workflows, id, w)
  {
    var more := [v] + workflows;
    var i :| 0 <= i < |workflows| && workflows[i] == w && w.id == id &&
             forall j :: 0 <= j < i ==> workflows[j].id != id;
    assert more[i + 1] == w;
    assert forall j :: 0 <= j < i + 1 ==> more[j] == if j == 0 then v else workflows[j - 1];
  }

  // workflowByID: the first workflow with the id.
  function WorkflowByID(workflows: seq<Workflow>, id: string): (w: Option<Workflow>)
    ensures w.Some? ==> w.value in workflows && w.value.id == id && FirstWithID(workflows, id, w.value)
    ensures w.None? ==> forall v :: v in workflows ==> v.id != id
  {
    if workflows == [] then None
    else if workflows[0].id == id then Some(workflows[0])
    else
      var w := WorkflowByID(workflows[1..], id);
      assert workflows == [workflows[0]] + workflows[1..];
      if w.Some? then FirstBehind(workflows[0], workflows[1..], id, w.value); w else w
  }

  // validateOutputSources
  ghost predicate OutputsOk(w: Workflow) {
    w.outputs.Some? ==>
      w.outputs.value.Ok? && Schema.WalkXSource(w.outputs.value.value, Schema.Root) &&
      Lift.Splittable(w.names, w.outputs.value.value)
  }

  // validateWorkflowIOSources and validateWorkflowSecurityShape
  ghost predicate WorkflowOk(w: Workflow) {
    && w.inputs.Ok? && Schema.WalkXSource(w.inputs.value, Schema.Root)
    && OutputsOk(w)
    && w.security.Ok?
  }

  ghost predicate WorkflowsOk(workflows: seq<Workflow>) {
    forall w :: w in workflows ==> WorkflowOk(w)
  }

  method CheckOutputs(w: Workflow) returns (ok: bool)
    ensures ok <==> OutputsOk(w)
  {
    if w.outputs.None? {
      return true;
    }
    if w.outputs.value.Err? || !Schema.WalkXSource(w.outputs.value.value, Schema.Root) {
      return false;
    }
    var split := Lift.SplitOutputs(w.names, w.outputs.value.value, w.outputOrder);
    return split.Ok?;
  }

  // The loop of addSource over the document's workflows.
  method CheckWorkflows(workflows: seq<Workflow>) returns (ok: bool)
    ensures ok <==> WorkflowsOk(Identified(workflows))
  {
    for i := 0 to |workflows|
      invariant forall j :: 0 <= j < i && workflows[j].id != "" ==> WorkflowOk(workflows[j])
    {
      var w := workflows[i];
      if w.id == "" {
        continue;
      }
      var outputsOk := CheckOutputs(w);
      if w.inputs.Err? || !Schema.WalkXSource(w.inputs.value, Schema.Root) || !outputsOk || w.security.Err? {
        assert w in Identified(workflows) && !WorkflowOk(w);
        return false;
      }
    }
    return true;
  }

  // What a source is worth on its own: an error, nothing, or an entry.
  ghost function Admit(src: Source): Result<Option<Entry>, LoadError> {
    match src
    case Unparsable => Err(ParseFailed)
    case NoInfo => Ok(None)
    case Document(planID, version, uri, resolves, valid, workflows) =>
      if planID == "" || version == "" then Ok(None)
      else if !CheckPlanVersion(version) then Err(BadVersion)
      else if !resolves then Err(Unresolved)
      else if !valid then Err(Invalid)
      else if !WorkflowsOk(Identified(workflows)) then Err(BadWorkflow)
      else Ok(Some(Entry(planID, version, uri, Identified(workflows))))
  }

  method Examine(src: Source) returns (worth: Result<Option<Entry>, LoadError>)
    ensures worth == Admit(src)
  {
    match src {
      case Unparsable =>
        return Err(ParseFailed);
      case NoInfo =>
        return Ok(None);
      case Document(planID, version, uri, resolves, valid, workflows) =>
        if planID == "" || version == "" {
          return Ok(None);
        }
        if !CheckPlanVersion(version) {
          return Err(BadVersion);
        }
        if !resolves {
          return Err(Unresolved);
        }
        if !valid {
          return Err(Invalid);
        }
        var ok := CheckWorkflows(workflows);
        if !ok {
          return Err(BadWorkflow);
        }
        return Ok(Some(Entry(planID, version, uri, Identified(workflows))));
    }
  }

  // ------------------------------------------------------------ the invariant

  ghost predicate EntryOk(e: Entry) {
    && e.planID != "" && CheckPlanVersion(e.version)
    && WorkflowsOk(e.workflows) && (forall w :: w in e.workflows ==> w.id != "")
  }

  ghost predicate Loaded(entries: seq<Entry>, planID: string, version: string) {
    exists i :: 0 <= i < |entries| && entries[i].planID == planID && entries[i].version == version
  }

  // byKey is in bijection with entries.
  ghost predicate IndexOk(entries: seq<Entry>, byKey: map<string, Entry>) {
    && (forall i :: 0 <= i < |entries| ==> EntryOk(entries[i]) && Lookup(byKey, KeyOf(entries[i])) == Some(entries[i]))
    && (forall i, j :: 0 <= i < j < |entries| ==> KeyOf(entries[i]) != KeyOf(entries[j]))
    && (forall k :: k in byKey ==> byKey[k] in entries && KeyOf(byKey[k]) == k)
  }

  lemma KeyAt(p: string, v: string, i: nat)
    requires i < |Key(p, v)|
    ensures i == |p| ==> Key(p, v)[i] == '\0'
    ensures i > |p| && '\0' !in v ==> Key(p, v)[i] != '\0'
  {
    if i > |p| {
      assert Key(p, v)[i] == v[i - |p| - 1];
    }
  }

  // Only the last NUL of a key can be the separator: no valid version has one.
  lemma KeySplits(p: string, v: string, q: string, w: string)
    requires Key(p, v) == Key(q, w) && '\0' !in v && '\0' !in w
    ensures p == q && v == w
  {
    var k := Key(p, v);
    KeyAt(p, v, |p|);
    KeyAt(p, v, |q|);
    KeyAt(q, w, |p|);
    KeyAt(q, w, |q|);
    assert p == k[..|p|] && q == k[..|q|];
    assert v == k[|p| + 1..] && w == k[|q| + 1..];
  }

  lemma ValidNeedsV(v: string)
    requires SemVer.IsValid(v)
    ensures HasPrefix(v, "v")
  {
    assert v[..1] == "v";
  }

  lemma EntryVersion(e: Entry)
    requires EntryOk(e)
    ensures '\0' !in e.version && SemverCanon(e.version) == Some("v" + e.version)
  {
    if SemVer.IsValid(e.version) {
      ValidNeedsV(e.version);
      assert false;
    }
    SemVer.ValidChars("v" + e.version);
    forall i | 0 <= i < |e.version|
      ensures e.version[i] != '\0'
    {
      assert ("v" + e.version)[i + 1] == e.version[i];
    }
  }

  // A plan version is accepted exactly when, behind a "v", it is a text of a
  // semantic version.
  lemma PlanVersions(version: string)
    ensures CheckPlanVersion(version) <==> exists v :: SemVer.IsText("v" + version, v)
  {
    var text := "v" + version;
    if SemVer.IsValid(text) {
      SemVer.ParsesExactlyTexts(text, SemVer.Parse(text).value);
      assert text[1..] == version;
      assert HasPrefix(version, "v") ==> SemVer.DigitRun(version) == 0;
    }
    if v :| SemVer.IsText(text, v) {
      SemVer.ParsesExactlyTexts(text, v);
    }
  }

  // The rank of a loaded version is what its text means.
  lemma RankReads(e: Entry, v: SemVer.Version)
    requires EntryOk(e)
    ensures SemVer.IsText("v" + e.version, v) <==> v == Rank(e.version)
  {
    EntryVersion(e);
    SemVer.ParsesExactlyTexts("v" + e.version, v);
  }

  // A lookup finds an entry exactly when that plan version is loaded - for
  // every version text without a NUL, and for plan ids with or without.
  lemma FoundIffLoaded(entries: seq<Entry>, byKey: map<string, Entry>, planID: string, version: string)
    requires IndexOk(entries, byKey) && '\0' !in version
    ensures Key(planID, version) in byKey <==> Loaded(entries, planID, version)
  {
    if Key(planID, version) in byKey {
      var e := byKey[Key(planID, version)];
      EntryVersion(e);
      KeySplits(planID, version, e.planID, e.version);
    }
    if Loaded(entries, planID, version) {
      var i :| 0 <= i < |entries| && entries[i].planID == planID && entries[i].version == version;
      assert Lookup(byKey, KeyOf(entries[i])).Some?;
    }
  }

  lemma AdmittedOk(src: Source)
    requires Admit(src).Ok? && Admit(src).value.Some?
    ensures EntryOk(Admit(src).value.value)
  {
  }

  // An index that held an entry still finds it once another key is added.
  lemma StillIndexed(byKey: map<string, Entry>, old_: Entry, e: Entry)
    requires Lookup(byKey, KeyOf(old_)) == Some(old_) && KeyOf(e) !in byKey
    ensures KeyOf(old_) != KeyOf(e) && Lookup(byKey[KeyOf(e) := e], KeyOf(old_)) == Some(old_)
  {
  }

  lemma IndexGrows(entries: seq<Entry>, byKey: map<string, Entry>, e: Entry)
    requires IndexOk(entries, byKey) && EntryOk(e) && KeyOf(e) !in byKey
    ensures IndexOk(entries + [e], byKey[KeyOf(e) := e])
  {
    var all, more := entries + [e], byKey[KeyOf(e) := e];
    forall i | 0 <= i < |entries|
      ensures all[i] == entries[i] && KeyOf(all[i]) != KeyOf(e) && Lookup(more, KeyOf(all[i])) == Some(all[i])
    {
      StillIndexed(byKey, entries[i], e);
    }
    assert all[|entries|] == e && Lookup(more, KeyOf(e)) == Some(e);
    forall k | k in more
      ensures more[k] in all && KeyOf(more[k]) == k
    {
      assert k in byKey ==> byKey[k] in entries && KeyOf(byKey[k]) == k;
    }
  }

  // ------------------------------------------------------------ latest

  ghost predicate HasCanon(v: string) {
    SemverCanon(v).Some?
  }

  ghost predicate Canonical(versions: seq<string>) {
    forall i :: 0 <= i < |versions| ==> HasCanon(versions[i])
  }

  // The precedence of a version text that has a canonical form.
  function Rank(v: string): SemVer.Version {
    match SemverCanon(v)
    case None => SemVer.Version(0, 0, 0, [])
    case Some(c) => SemVer.Parse(c).value
  }

  ghost function Ranks(versions: seq<string>): seq<SemVer.Version> {
    seq(|versions|, i requires 0 <= i < |versions| => Rank(versions[i]))
  }

  ghost predicate NotAbove(x: SemVer.Version, y: SemVer.Version, strictly: bool) {
    SemVer.Compare(x, y) <= 0 && (strictly ==> SemVer.Compare(x, y) < 0)
  }

  // Of the first n, nothing outranks ranks[i], and nothing before it ties with it.
  ghost predicate NewestOf(ranks: seq<SemVer.Version>, n: int, i: int) {
    && 0 <= i < n <= |ranks|
    && forall j :: 0 <= j < n ==> NotAbove(ranks[j], ranks[i], j < i)
  }

  ghost predicate Newest(ranks: seq<SemVer.Version>, i: int) {
    NewestOf(ranks, |ranks|, i)
  }

  // The last of the strings once sorted.
  function LastSorted(versions: seq<string>): (r: string)
    requires versions != []
    ensures r in versions && forall w :: w in versions ==> SemVer.CompareText(w, r) <= 0
  {
    if |versions| == 1 then
      SemVer.TextOrder(versions[0], versions[0], versions[0]);
      versions[0]
    else
      var rest := LastSorted(versions[1..]);
      assert forall w :: w in versions ==> w == versions[0] || w in versions[1..];
      SemVer.TextOrder(versions[0], rest, rest);
      SemVer.TextOrder(versions[0], versions[0], versions[0]);
      assert forall w :: w in versions[1..] && SemVer.CompareText(rest, versions[0]) <= 0 ==>
          SemVer.CompareText(w, versions[0]) <= 0 by {
        forall w | w in versions[1..] && SemVer.CompareText(rest, versions[0]) <= 0
          ensures SemVer.CompareText(w, versions[0]) <= 0
        {
          SemVer.TextOrder(w, rest, versions[0]);
        }
      }
      if SemVer.CompareText(versions[0], rest) <= 0 then rest else versions[0]
  }

  ghost predicate IsCanon(c: string, v: string) {
    SemVer.Parse(c) == Some(Rank(v))
  }

  lemma CanonIsValid(v: string)
    requires SemverCanon(v).Some?
    ensures IsCanon(SemverCanon(v).value, v)
  {
  }

  lemma CanonCompares(c: string, d: string, v: string, w: string)
    requires IsCanon(c, v) && IsCanon(d, w)
    ensures SemVer.CompareStrings(c, d) == SemVer.Compare(Rank(v), Rank(w))
  {
  }

  ghost predicate CanonFor(v: string, c: string) {
    HasCanon(v) && IsCanon(c, v)
  }

  method CanonOne(v: string) returns (c: Option<string>)
    ensures c.None? ==> !HasCanon(v)
    ensures c.Some? ==> CanonFor(v, c.value)
  {
    c := SemverCanon(v);
    if c.Some? {
      CanonIsValid(v);
    }
  }

  // The canonical form of every version, or None from the first that has none.
  method CanonAll(versions: seq<string>) returns (canon: Option<seq<string>>)
    ensures canon.Some? <==> Canonical(versions)
    ensures canon.Some? ==>
              && |canon.value| == |versions|
              && forall i :: 0 <= i < |versions| ==> CanonFor(versions[i], canon.value[i])
  {
    var out: seq<string> := [];
    for i := 0 to |versions|
      invariant |out| == i && forall j :: 0 <= j < i ==> CanonFor(versions[j], out[j])
    {
      var c := CanonOne(versions[i]);
      if c.None? {
        return None;
      }
      out := out + [c.value];
    }
    return Some(out);
  }

  // The index of the first version of highest precedence.
  method PickBest(canon: seq<string>, ghost versions: seq<string>) returns (best: nat)
    requires |canon| == |versions| > 0
    requires forall i :: 0 <= i < |versions| ==> CanonFor(versions[i], canon[i])
    ensures Newest(Ranks(versions), best)
  {
    best := 0;
    ghost var ranks := Ranks(versions);
    SemVer.PrecedenceIsTotalOrder(ranks[0], ranks[0], ranks[0]);
    for i := 1 to |canon|
      invariant 0 <= best < i <= |ranks| && NewestOf(ranks, i, best)
    {
      BetterOrNot(ranks, best, i);
      assert CanonFor(versions[i], canon[i]) && CanonFor(versions[best], canon[best]);
      CanonCompares(canon[i], canon[best], versions[i], versions[best]);
      if SemVer.CompareStrings(canon[i], canon[best]) > 0 {
        best := i;
      }
    }
  }

  method PickLatest(versions: seq<string>) returns (r: string)
    ensures versions == [] ==> r == ""
    ensures versions != [] && Canonical(versions) ==> exists i :: Newest(Ranks(versions), i) && r == versions[i]
    ensures versions != [] && !Canonical(versions) ==>
              r in versions && forall w :: w in versions ==> SemVer.CompareText(w, r) <= 0
  {
    if |versions| == 0 {
      return "";
    }
    var canon := CanonAll(versions);
    if canon.None? {
      return LastSorted(versions);
    }
    var best := PickBest(canon.value, versions);
    return versions[best];
  }

  // One comparison of the loop decides between the best so far and the next.
  lemma BetterOrNot(ranks: seq<SemVer.Version>, best: nat, i: nat)
    requires best < i < |ranks| && NewestOf(ranks, i, best)
    ensures NewestOf(ranks, i + 1, if SemVer.Compare(ranks[i], ranks[best]) > 0 then i else best)
  {
    var next := if SemVer.Compare(ranks[i], ranks[best]) > 0 then i else best;
    forall j | 0 <= j < i + 1
      ensures NotAbove(ranks[j], ranks[next], j < next)
    {
      if j < i {
        assert NotAbove(ranks[j], ranks[best], j < best);
        SemVer.PrecedenceIsTotalOrder(ranks[j], ranks[best], ranks[i]);
        SemVer.PrecedenceIsTotalOrder(ranks[i], ranks[j], ranks[best]);
      }
      SemVer.PrecedenceIsTotalOrder(ranks[i], ranks[best], ranks[i]);
    }
  }

  // byPlan: the versions of one plan, in load order.
  function Versions(entries: seq<Entry>, planID: string): seq<string> {
    if entries == [] then []
    else
      var last := entries[|entries| - 1];
      Versions(entries[..|entries| - 1], planID) + if last.planID == planID then [last.version] else []
  }

  // Where they were loaded.
  ghost function Positions(entries: seq<Entry>, planID: string): seq<nat> {
    if entries == [] then []
    else
      var n := |entries| - 1;
      Positions(entries[..n], planID) + if entries[n].planID == planID then [n] else []
  }

  ghost predicate IsLatest(entries: seq<Entry>, planID: string, i: int) {
    && 0 <= i < |entries| && entries[i].planID == planID
    && forall j :: 0 <= j < |entries| && entries[j].planID == planID ==>
         NotAbove(Rank(entries[j].version), Rank(entries[i].version), j < i)
  }

  // `latest` names, for exactly the loaded plans, the first loaded version of
  // highest precedence.
  ghost predicate LatestOk(entries: seq<Entry>, latest: map<string, string>) {
    && (forall k :: 0 <= k < |entries| ==> entries[k].planID in latest)
    && (forall p :: p in latest ==> NamesLatest(entries, p, latest[p]))
  }

  ghost predicate NamesLatest(entries: seq<Entry>, planID: string, version: string) {
    exists i :: IsLatest(entries, planID, i) && entries[i].version == version
  }

  lemma {:induction false} PositionsHold(entries: seq<Entry>, planID: string)
    ensures var at := Positions(entries, planID);
            && |at| == |Versions(entries, planID)|
            && forall a :: 0 <= a < |at| ==> at[a] < |entries| && entries[at[a]].planID == planID &&
                                             entries[at[a]].version == Versions(entries, planID)[a]
  {
    if entries != [] {
      PositionsHold(entries[..|entries| - 1], planID);
    }
  }

  lemma {:induction false} PositionsAscend(entries: seq<Entry>, planID: string)
    ensures var at := Positions(entries, planID);
            forall a, b :: 0 <= a < b < |at| ==> at[a] < at[b]
  {
    if entries != [] {
      PositionsAscend(entries[..|entries| - 1], planID);
      PositionsHold(entries[..|entries| - 1], planID);
    }
  }

  lemma {:induction false} PositionsCover(entries: seq<Entry>, planID: string, k: nat)
    requires k < |entries| && entries[k].planID == planID
    ensures k in Positions(entries, planID)
  {
    if k < |entries| - 1 {
      PositionsCover(entries[..|entries| - 1], planID, k);
    }
  }

  // The fallback to string order is out of reach: every version that was
  // loaded has a canonical form.
  lemma FallbackUnreachable(entries: seq<Entry>, planID: string)
    requires forall k :: 0 <= k < |entries| ==> EntryOk(entries[k])
    ensures Canonical(Versions(entries, planID))
  {
    var versions, at := Versions(entries, planID), Positions(entries, planID);
    PositionsHold(entries, planID);
    forall a | 0 <= a < |versions|
      ensures HasCanon(versions[a])
    {
      EntryVersion(entries[at[a]]);
    }
  }

  lemma NotAboveAt(entries: seq<Entry>, planID: string, a: nat, j: nat)
    requires Newest(Ranks(Versions(entries, planID)), a)
    requires |Positions(entries, planID)| == |Versions(entries, planID)|
    requires j < |entries| && entries[j].planID == planID
    ensures NotAbove(Rank(entries[j].version), Rank(Versions(entries, planID)[a]), j < Positions(entries, planID)[a])
  {
    var versions, at := Versions(entries, planID), Positions(entries, planID);
    PositionsHold(entries, planID);
    PositionsAscend(entries, planID);
    PositionsCover(entries, planID, j);
    var b :| 0 <= b < |at| && at[b] == j;
    assert versions[b] == entries[j].version;
    assert NotAbove(Ranks(versions)[b], Ranks(versions)[a], b < a);
  }

  // A pick among the versions of a plan is a pick among its entries.
  lemma PickIsLatest(entries: seq<Entry>, planID: string, a: nat)
    requires Newest(Ranks(Versions(entries, planID)), a)
    ensures NamesLatest(entries, planID, Versions(entries, planID)[a])
  {
    PositionsHold(entries, planID);
    var i := Positions(entries, planID)[a];
    assert entries[i].version == Versions(entries, planID)[a];
    forall j | 0 <= j < |entries| && entries[j].planID == planID
      ensures NotAbove(Rank(entries[j].version), Rank(entries[i].version), j < i)
    {
      NotAboveAt(entries, planID, a, j);
    }
    assert IsLatest(entries, planID, i);
  }

  method PickForPlan(entries: seq<Entry>, planID: string, versions: seq<string>) returns (r: string)
    requires versions == Versions(entries, planID) && versions != [] && Canonical(versions)
    ensures NamesLatest(entries, planID, r)
  {
    r := PickLatest(versions);
    ghost var a :| Newest(Ranks(versions), a) && r == versions[a];
    PickIsLatest(entries, planID, a);
  }

  // byPlan after the first n entries.
  ghost predicate Grouped(entries: seq<Entry>, n: nat, byPlan: map<string, seq<string>>, planID: string)
    requires n <= |entries|
  {
    && (planID in byPlan <==> Versions(entries[..n], planID) != [])
    && (planID in byPlan ==> byPlan[planID] == Versions(entries[..n], planID))
  }

  lemma VersionsSnoc(entries: seq<Entry>, n: nat, planID: string)
    requires n < |entries|
    ensures Versions(entries[..n + 1], planID) ==
            Versions(entries[..n], planID) + if entries[n].planID == planID then [entries[n].version] else []
  {
    assert entries[..n + 1][..n] == entries[..n];
  }

  method GroupVersions(entries: seq<Entry>) returns (byPlan: map<string, seq<string>>)
    ensures forall p :: Grouped(entries, |entries|, byPlan, p)
  {
    byPlan := map[];
    for n := 0 to |entries|
      invariant forall p :: Grouped(entries, n, byPlan, p)
    {
      var e := entries[n];
      var grown := byPlan[e.planID := (if e.planID in byPlan then byPlan[e.planID] else []) + [e.version]];
      ghost var m := n + 1;
      forall p
        ensures Grouped(entries, m, grown, p)
      {
        assert Grouped(entries, n, byPlan, p);
        VersionsSnoc(entries, n, p);
      }
      byPlan := grown;
    }
  }

  lemma NoFallback(entries: seq<Entry>, byKey: map<string, Entry>, byPlan: map<string, seq<string>>)
    requires IndexOk(entries, byKey) && forall p :: Grouped(entries, |entries|, byPlan, p)
    ensures forall i :: 0 <= i < |entries| ==> entries[i].planID in byPlan
    ensures forall p :: p in byPlan ==> byPlan[p] == Versions(entries, p) && byPlan[p] != [] && Canonical(byPlan[p])
  {
    assert entries[..|entries|] == entries;
    forall p | p in byPlan
      ensures byPlan[p] == Versions(entries, p) && byPlan[p] != [] && Canonical(byPlan[p])
    {
      assert Grouped(entries, |entries|, byPlan, p);
      FallbackUnreachable(entries, p);
    }
    forall i | 0 <= i < |entries|
      ensures entries[i].planID in byPlan
    {
      assert Grouped(entries, |entries|, byPlan, entries[i].planID);
      PositionsCover(entries, entries[i].planID, i);
      PositionsHold(entries, entries[i].planID);
    }
  }

  // The loop over byPlan, in any order.
  method PickEach(entries: seq<Entry>, byPlan: map<string, seq<string>>) returns (latest: map<string, string>)
    requires forall p :: p in byPlan ==> byPlan[p] == Versions(entries, p) && byPlan[p] != [] && Canonical(byPlan[p])
    ensures latest.Keys == byPlan.Keys
    ensures forall p :: p in latest ==> NamesLatest(entries, p, latest[p])
  {
    latest := map[];
    var todo := byPlan.Keys;
    while todo != {}
      invariant todo <= byPlan.Keys && latest.Keys == byPlan.Keys - todo
      invariant forall p :: p in latest ==> NamesLatest(entries, p, latest[p])
    {
      var planID :| planID in todo;
      var v := PickForPlan(entries, planID, byPlan[planID]);
      latest := latest[planID := v];
      todo := todo - {planID};
    }
  }

  class Catalog {
    var entries: seq<Entry>
    var byKey: map<string, Entry>
    var latest: map<string, string>

    ghost predicate Indexed()
      reads this
    {
      IndexOk(entries, byKey)
    }

    // The catalog as Load returns it.
    ghost predicate Ready()
      reads this
    {
      Indexed() && LatestOk(entries, latest)
    }

    constructor ()
      ensures entries == [] && latest == map[] && Indexed()
    {
      entries, byKey, latest := [], map[], map[];
    }

    // A source is added exactly when it is worth an entry whose plan version
    // is not loaded yet.
    method AddSource(src: Source) returns (err: Option<LoadError>)
      requires Indexed()
      modifies this`entries, this`byKey
      ensures Indexed()
      ensures match LoadOne(old(entries), Admit(src))
              case Err(e) => err == Some(e) && entries == old(entries) && byKey == old(byKey)
              case Ok(es) => err.None? && entries == es
    {
      var worth := Examine(src);
      if worth.Err? {
        return Some(worth.error);
      }
      if worth.value.None? {
        return None;
      }
      var e := worth.value.value;
      var k := Key(e.planID, e.version);
      AdmittedOk(src);
      EntryVersion(e);
      FoundIffLoaded(entries, byKey, e.planID, e.version);
      if k in byKey {
        return Some(Duplicate);
      }
      IndexGrows(entries, byKey, e);
      entries := entries + [e];
      byKey := byKey[k := e];
      return None;
    }

    method ComputeLatest()
      requires IndexOk(entries, byKey) && latest == map[]
      modifies this`latest
      ensures LatestOk(entries, latest)
    {
      var byPlan := GroupVersions(entries);
      NoFallback(entries, byKey, byPlan);
      latest := PickEach(entries, byPlan);
    }

    function Get(planID: string, version: string): Option<Entry>
      reads this
    {
      Lookup(byKey, Key(planID, version))
    }

    function GetBySegment(planID: string, segment: string): Option<Entry>
      reads this
    {
      if !HasPrefix(segment, "v") || segment[1..] == "" then None else Get(planID, segment[1..])
    }

    function Latest(planID: string): Option<Entry>
      reads this
    {
      if planID in latest then Get(planID, latest[planID]) else None
    }

    // The REST path token leads back to the entry it was made from.
    lemma SegmentFindsEntry(i: nat)
      requires Indexed() && i < |entries|
      ensures Get(entries[i].planID, entries[i].version) == Some(entries[i])
      ensures GetBySegment(entries[i].planID, VersionSegment(entries[i])) == Some(entries[i])
    {
      assert VersionSegment(entries[i])[1..] == entries[i].version;
      assert EntryOk(entries[i]);
    }

    // A found entry is the one asked for, exactly when the version text asked
    // with holds no NUL. (With one, a plan whose id holds a NUL can be found
    // under a shorter id; NulFindsAnotherPlan is an instance.)
    lemma GetFindsWhatWasAsked(planID: string, version: string)
      requires Indexed() && Get(planID, version).Some?
      ensures var e := Get(planID, version).value;
              e in entries && (e.planID == planID && e.version == version <==> '\0' !in version)
    {
      var e := Get(planID, version).value;
      assert EntryOk(e);
      EntryVersion(e);
      if '\0' !in version {
        KeySplits(planID, version, e.planID, e.version);
      }
    }

    lemma SegmentFindsWhatWasAsked(planID: string, segment: string)
      requires Indexed() && GetBySegment(planID, segment).Some?
      ensures var e := GetBySegment(planID, segment).value;
              e in entries && (e.planID == planID && VersionSegment(e) == segment <==> '\0' !in segment)
    {
      GetFindsWhatWasAsked(planID, segment[1..]);
      assert segment == "v" + segment[1..];
      var e := GetBySegment(planID, segment).value;
      assert VersionSegment(e)[1..] == e.version;
    }

    // By the texts of the versions: no loaded version of the plan stands above the
    // latest one in the standard's order, and one that stands beside it was
    // loaded later.
    lemma LatestIsHighest(planID: string, i: int, j: nat, x: SemVer.Version, y: SemVer.Version)
      requires Ready() && IsLatest(entries, planID, i) && j < |entries| && entries[j].planID == planID
      requires SemVer.IsText("v" + entries[i].version, x) && SemVer.IsText("v" + entries[j].version, y)
      ensures SemVer.Before(y, x) || (y == x && j >= i)
    {
      assert EntryOk(entries[i]) && EntryOk(entries[j]);
      RankReads(entries[i], x);
      RankReads(entries[j], y);
      assert NotAbove(Rank(entries[j].version), Rank(entries[i].version), j < i);
      SemVer.PrecedenceRule(y, x);
      SemVer.PrecedenceIsTotalOrder(y, x, y);
    }

    // Latest answers exactly for the loaded plans, with an entry of that plan
    // that no other version of it outranks.
    lemma LatestFindsNewest(planID: string)
      requires Ready()
      ensures Latest(planID).Some? <==> exists i :: 0 <= i < |entries| && entries[i].planID == planID
      ensures Latest(planID).Some? ==> exists i :: IsLatest(entries, planID, i) && Latest(planID) == Some(entries[i])
    {
      if planID in latest {
        assert NamesLatest(entries, planID, latest[planID]);
        var i :| IsLatest(entries, planID, i) && entries[i].version == latest[planID];
        SegmentFindsEntry(i);
      }
    }
  }

  lemma NulFindsAnotherPlan(c: Catalog, i: nat, p: string, q: string)
    requires c.Indexed() && i < |c.entries| && c.entries[i].planID == p + "\0" + q
    ensures c.Get(p, q + "\0" + c.entries[i].version) == Some(c.entries[i]) && c.entries[i].planID != p
  {
    c.SegmentFindsEntry(i);
    var v := c.entries[i].version;
    assert Key(p + "\0" + q, v) == Key(p, q + "\0" + v);
    assert |p + "\0" + q| > |p|;
  }

  // The entries the sources in order leave behind.
  ghost function LoadAll(sources: seq<Source>): Result<seq<Entry>, LoadError> {
    if sources == [] then Ok([])
    else
      var before := LoadAll(sources[..|sources| - 1]);
      if before.Err? then before else LoadOne(before.value, Admit(sources[|sources| - 1]))
  }

  ghost function LoadOne(entries: seq<Entry>, worth: Result<Option<Entry>, LoadError>): Result<seq<Entry>, LoadError> {
    if worth.Err? then Err(worth.error)
    else if worth.value.None? then Ok(entries)
    else if Loaded(entries, worth.value.value.planID, worth.value.value.version) then Err(Duplicate)
    else Ok(entries + [worth.value.value])
  }

  lemma {:induction false} LoadAllStops(sources: seq<Source>, n: nat)
    requires n <= |sources| && LoadAll(sources[..n]).Err?
    ensures LoadAll(sources) == LoadAll(sources[..n])
    decreases |sources|
  {
    if n < |sources| {
      var init := sources[..|sources| - 1];
      assert init[..n] == sources[..n];
      LoadAllStops(init, n);
    } else {
      assert sources[..n] == sources;
    }
  }

  lemma LoadAllSnoc(before: seq<Source>, src: Source)
    requires LoadAll(before).Ok?
    ensures LoadAll(before + [src]) == LoadOne(LoadAll(before).value, Admit(src))
  {
    assert (before + [src])[..|before|] == before;
  }

  // What c holds, or the error that stopped the load, is what the sources
  // leave behind.
  ghost predicate Reflects(sources: seq<Source>, entries: seq<Entry>, err: Option<LoadError>) {
    LoadAll(sources) == if err.None? then Ok(entries) else Err(err.value)
  }

  method LoadNext(c: Catalog, src: Source, ghost before: seq<Source>) returns (err: Option<LoadError>)
    requires c.Indexed() && Reflects(before, c.entries, None)
    modifies c`entries, c`byKey
    ensures c.Indexed() && Reflects(before + [src], c.entries, err)
  {
    LoadAllSnoc(before, src);
    err := c.AddSource(src);
  }

  lemma ReflectsAll(before: seq<Source>, sources: seq<Source>, i: nat, entries: seq<Entry>, err: Option<LoadError>)
    requires i <= |sources| && Reflects(before + sources[..i], entries, err) && (err.None? ==> i == |sources|)
    ensures Reflects(before + sources, entries, err)
  {
    assert (before + sources)[..|before| + i] == before + sources[..i];
    if err.Some? {
      LoadAllStops(before + sources, |before| + i);
    } else {
      assert sources[..i] == sources;
    }
  }

  method LoadBatch(c: Catalog, sources: seq<Source>, ghost before: seq<Source>) returns (err: Option<LoadError>)
    requires c.Indexed() && Reflects(before, c.entries, None)
    modifies c`entries, c`byKey
    ensures c.Indexed() && Reflects(before + sources, c.entries, err)
  {
    assert before + sources[..0] == before;
    err := None;
    for i := 0 to |sources|
      invariant c.Indexed() && err.None? && Reflects(before + sources[..i], c.entries, None)
    {
      assert before + sources[..i] + [sources[i]] == before + sources[..i + 1];
      err := LoadNext(c, sources[i], before + sources[..i]);
      if err.Some? {
        ReflectsAll(before, sources, i + 1, c.entries, err);
        return;
      }
    }
    ReflectsAll(before, sources, |sources|, c.entries, None);
  }

  ghost function Concat(batches: seq<Result<seq<Source>, ()>>): seq<Source>
    requires forall i :: 0 <= i < |batches| ==> batches[i].Ok?
  {
    if batches == [] then [] else Concat(batches[..|batches| - 1]) + batches[|batches| - 1].value
  }

  // Load: every loader in turn, then the latest versions. A catalog is
  // returned only when every loader answered and no source was an error, and
  // it then holds what the sources in that order leave behind.
  method Load(batches: seq<Result<seq<Source>, ()>>) returns (c: Catalog, err: Option<LoadError>)
    ensures fresh(c)
    ensures err.None? ==>
              && (forall i :: 0 <= i < |batches| ==> batches[i].Ok?)
              && LoadAll(Concat(batches)) == Ok(c.entries)
              && c.Ready()
    ensures err.Some? ==>
              exists n :: 0 <= n < |batches| && (forall i :: 0 <= i < n ==> batches[i].Ok?) &&
                if batches[n].Err? then err == Some(LoaderFailed)
                else LoadAll(Concat(batches[..n + 1])) == Err(err.value)
  {
    c := new Catalog();
    for n := 0 to |batches|
      invariant fresh(c) && c.Indexed() && c.latest == map[]
      invariant forall i :: 0 <= i < n ==> batches[i].Ok?
      invariant LoadAll(Concat(batches[..n])) == Ok(c.entries)
    {
      if batches[n].Err? {
        return c, Some(LoaderFailed);
      }
      assert batches[..n + 1][..n] == batches[..n];
      err := LoadBatch(c, batches[n].value, Concat(batches[..n]));
      if err.Some? {
        return;
      }
    }
    assert batches[..|batches|] == batches;
    c.ComputeLatest();
    return c, None;
  }

  // Load order is not observable through the index, and through `latest` only
  // between versions of equal precedence.
  lemma OrderBarelyMatters(a: Catalog, b: Catalog, planID: string, version: string)
    requires a.Ready() && b.Ready()
    requires forall e :: e in a.entries <==> e in b.entries
    ensures a.Get(planID, version) == b.Get(planID, version)
    ensures a.Latest(planID).Some? <==> b.Latest(planID).Some?
    ensures a.Latest(planID).Some? ==>
              Rank(a.Latest(planID).value.version) == Rank(b.Latest(planID).value.version)
  {
    IndexFollowsEntries(a, b, planID, version);
    IndexFollowsEntries(b, a, planID, version);
    if b.Latest(planID).Some? {
      LatestIn(b, a, planID);
    }
    if a.Latest(planID).Some? {
      LatestIn(a, b, planID);
      var x, y := a.Latest(planID).value.version, b.Latest(planID).value.version;
      SemVer.PrecedenceIsTotalOrder(Rank(x), Rank(y), Rank(x));
    }
  }

  lemma IndexFollowsEntries(a: Catalog, b: Catalog, planID: string, version: string)
    requires a.Indexed() && b.Indexed()
    requires forall e :: e in a.entries ==> e in b.entries
    ensures a.Get(planID, version).Some? ==> b.Get(planID, version) == a.Get(planID, version)
  {
    if a.Get(planID, version).Some? {
      var e := a.Get(planID, version).value;
      assert e in a.entries;
      var i :| 0 <= i < |b.entries| && b.entries[i] == e;
      assert Lookup(b.byKey, KeyOf(b.entries[i])) == Some(e);
    }
  }

  lemma LatestAt(c: Catalog, planID: string) returns (i: nat)
    requires c.Ready() && c.Latest(planID).Some?
    ensures IsLatest(c.entries, planID, i) && c.Latest(planID) == Some(c.entries[i])
  {
    c.LatestFindsNewest(planID);
    i :| IsLatest(c.entries, planID, i) && c.Latest(planID) == Some(c.entries[i]);
  }

  lemma NoneAbove(entries: seq<Entry>, planID: string, i: int, e: Entry)
    requires IsLatest(entries, planID, i) && e in entries && e.planID == planID
    ensures SemVer.Compare(Rank(e.version), Rank(entries[i].version)) <= 0
  {
    var j :| 0 <= j < |entries| && entries[j] == e;
    assert NotAbove(Rank(entries[j].version), Rank(entries[i].version), j < i);
  }

  lemma LatestIn(a: Catalog, b: Catalog, planID: string)
    requires a.Ready() && b.Ready()
    requires forall e :: e in a.entries ==> e in b.entries
    requires a.Latest(planID).Some?
    ensures b.Latest(planID).Some?
    ensures var x, y := a.Latest(planID).value.version, b.Latest(planID).value.version;
            SemVer.Compare(Rank(x), Rank(y)) <= 0
  {
    var i := LatestAt(a, planID);
    assert a.entries[i] in b.entries;
    assert b.Latest(planID).Some? by {
      b.LatestFindsNewest(planID);
    }
    var j := LatestAt(b, planID);
    NoneAbove(b.entries, planID, j, a.entries[i]);
  }
}
