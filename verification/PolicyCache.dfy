// The two-level policy cache of internal/plans/policy.go: a cache of compiled
// plan policies whose loads call into a cache of shared modules. Both levels
// run the protocol of Singleflight; this module interleaves any number of
// PolicyCache.get calls over them and proves that get fails closed.
module PolicyCache {
  import opened Outcomes
  import opened Singleflight
  import opened SingleflightRuns
  import Strings

  // A prepared query or a parsed module; all that matters is which one it is.
  datatype Query = Query(id: nat)

  // compiledShared and compiledPolicy
  datatype Shared = Shared(loaded: bool, inbound: Option<Query>, outbound: Option<Query>, libs: map<string, Query>)

  datatype Compiled = Compiled(loaded: bool, sharedInbound: Option<Query>, sharedOutbound: Option<Query>,
                                  inbound: Option<Query>, outbound: Option<Query>)

  type SharedState = State<string, Shared, (), nat>
  type PlanState = State<string, Compiled, (), nat>

  predicate HasContent(sh: Shared) {
    sh.inbound.Some? || sh.outbound.Some? || sh.libs != map[]
  }

  function NoShared(loaded: bool): Shared {
    Shared(loaded, None, None, map[])
  }

  function NoPolicy(): Compiled {
    Compiled(false, None, None, None, None)
  }

  const SHARED_KEY := "shared"

  // policyCacheKey and splitPolicyKey
  function Key(planID: string, version: string): string {
    planID + "\0" + version
  }

  function SplitKey(key: string): (string, string) {
    match Strings.Cut(key, '\0') case None => (key, "") case Some(parts) => parts
  }

  // Splitting undoes joining exactly for plan ids without a NUL; what an id
  // with one is split into is another plan.
  lemma SplitUndoesJoin(planID: string, version: string)
    ensures SplitKey(Key(planID, version)) == (planID, version) <==> '\0' !in planID
  {
    assert Key(planID, version) == planID + ['\0'] + version;
    if '\0' !in planID {
      Strings.CutAtFirst(planID, '\0', version);
    } else {
      Strings.CutParts(Key(planID, version), '\0');
      assert Key(planID, version)[|planID|] == '\0';
    }
  }

  // ------------------------------------------------------------ the system

  // What the loader delivers for a plan version, before it is compiled.
  datatype Fetched = Fetched(id: nat)

  // Where the load that a leading get runs for the plan cache stands: about to
  // call the loader, inside its own getShared, or about to compile with the
  // modules that handed over, `stale` if they were cached ones.
  datatype LoadStage = Idle | Sharing(fetched: Fetched) | Compiling(fetched: Fetched, modules: Shared, stale: bool)

  // Where one get call stands. `stale` records whether getShared fell back to
  // cached modules.
  datatype Get =
    | AtShared(planID: string, version: string)
    | AtPlan(planID: string, version: string, sh: Shared, stale: bool, load: LoadStage)
    | Done(planID: string, version: string, sh: Shared, stale: bool, result: Result<Compiled, ()>)

  // One compilation: of which plan and version, from what, and into what.
  datatype Compilation = Compilation(
    of: (string, string), fetched: Fetched, modules: Shared, stale: bool, compiled: Compiled)

  // The last fields are history: what each cache's loads have delivered, what
  // the loader has delivered for each plan and version, and every compilation.
  datatype Sys = Sys(
    shared: Option<SharedState>,
    plan: PlanState,
    gets: map<nat, Get>,
    sharedLoads: set<(string, Shared)>,
    planLoads: set<(string, Compiled)>,
    fetches: set<((string, string), Fetched)>,
    compilations: set<Compilation>)

  // Get g is call g of the plan cache, call 2g of the shared cache, and call
  // 2g + 1 of the shared cache for the getShared inside its plan load.
  datatype Step =
    | Begin(get: nat, planID: string, version: string)
    | SharedAct(shared: Label<string, Shared, (), nat>)
    | SharedReturn(get: nat)
    | PlanAct(plan: Label<string, Compiled, (), nat>)
    | Fetch(get: nat, fetched: Result<Fetched, ()>)
    | InnerReturn(get: nat)
    | Compile(get: nat, compiled: Result<Compiled, ()>)
    | Finish(get: nat)
    | Pass(delta: nat)

  // What the shared cache handed to call c, or the constant without a source.
  ghost function Handed(s: Sys, c: nat): (Shared, Option<()>) {
    match s.shared
    case None => (NoShared(true), None)
    case Some(st) =>
      if c in st.calls && st.calls[c].Returned? then (st.calls[c].val, st.calls[c].err) else (NoShared(false), Some(()))
  }

  // getShared refuses a stale value without content.
  ghost predicate SharedAccepted(handed: (Shared, Option<()>)) {
    handed.1.None? || (handed.0.loaded && HasContent(handed.0))
  }

  // get accepts any stale value that was loaded, with modules or without.
  ghost predicate PlanAccepted(val: Compiled, err: Option<()>) {
    err.None? || val.loaded
  }

  function WithShared(cp: Compiled, sh: Shared): Compiled {
    cp.(sharedInbound := sh.inbound, sharedOutbound := sh.outbound, loaded := true)
  }

  ghost predicate SharedBack(s: Sys, c: nat) {
    s.shared.Some? ==> c in s.shared.value.calls && s.shared.value.calls[c].Returned?
  }

  ghost predicate InLoad(s: Sys, g: nat) {
    g in s.gets && s.gets[g].AtPlan? && g in s.plan.calls && s.plan.calls[g].Loading?
  }

  // The plan and version that get g's load is for, as it reads them off the key.
  ghost function LoadsFor(s: Sys, g: nat): (string, string)
    requires g in s.plan.calls
  {
    SplitKey(s.plan.calls[g].key)
  }

  ghost predicate Guard(s: Sys, step: Step) {
    match step
    case Begin(g, _, _) => g !in s.gets
    case SharedAct(l) =>
      s.shared.Some? && !l.action.Invoke? && !l.action.Tick? && (l.action.LoadOk? ==> l.action.val.loaded)
    case SharedReturn(g) => g in s.gets && s.gets[g].AtShared? && SharedBack(s, 2 * g)
    case PlanAct(l) => !l.action.Invoke? && !l.action.Tick? && !l.action.LoadOk? && !l.action.LoadErr?
    case Fetch(g, _) => InLoad(s, g) && s.gets[g].load.Idle?
    case InnerReturn(g) => InLoad(s, g) && s.gets[g].load.Sharing? && SharedBack(s, 2 * g + 1)
    case Compile(g, r) => InLoad(s, g) && s.gets[g].load.Compiling? && (r.Ok? ==> r.value.loaded)
    case Finish(g) => g in s.gets && s.gets[g].AtPlan? && g in s.plan.calls && s.plan.calls[g].Returned?
    case Pass(_) => true
  }

  // The step a composite step takes in the shared cache.
  ghost function SharedMove(s: Sys, step: Step): Option<Label<string, Shared, (), nat>> {
    if s.shared.None? then None
    else match step
      case Begin(g, _, _) => Some(Label(2 * g, Invoke(SHARED_KEY)))
      case SharedAct(l) => Some(l)
      case Fetch(g, r) => if r.Ok? then Some(Label(2 * g + 1, Invoke(SHARED_KEY))) else None
      case Pass(d) => Some(Label(0, Tick(d)))
      case SharedReturn(_) => None
      case PlanAct(_) => None
      case InnerReturn(_) => None
      case Compile(_, _) => None
      case Finish(_) => None
  }

  // The step it takes in the plan cache.
  ghost function PlanMove(s: Sys, step: Step): Option<Label<string, Compiled, (), nat>>
    requires Guard(s, step)
  {
    match step
    case SharedReturn(g) =>
      if SharedAccepted(Handed(s, 2 * g))
      then Some(Label(g, Invoke(Key(s.gets[g].planID, s.gets[g].version)))) else None
    case PlanAct(l) => Some(l)
    case Fetch(g, r) => if r.Ok? then None else Some(Label(g, LoadErr(())))
    case InnerReturn(g) => if SharedAccepted(Handed(s, 2 * g + 1)) then None else Some(Label(g, LoadErr(())))
    case Compile(g, r) => Some(Label(g, if r.Ok? then LoadOk(r.value) else LoadErr(())))
    case Pass(d) => Some(Label(0, Tick(d)))
    case Begin(_, _, _) => None
    case SharedAct(_) => None
    case Finish(_) => None
  }

  // Where the step leaves the get that takes it.
  ghost function NextGets(s: Sys, step: Step): map<nat, Get>
    requires Guard(s, step)
  {
    match step
    case Begin(g, p, v) => s.gets[g := AtShared(p, v)]
    case SharedReturn(g) =>
      var handed := Handed(s, 2 * g);
      var get := s.gets[g];
      s.gets[g := if SharedAccepted(handed) then AtPlan(get.planID, get.version, handed.0, handed.1.Some?, Idle)
                  else Done(get.planID, get.version, NoShared(false), false, Err(()))]
    case Fetch(g, r) => if r.Ok? then s.gets[g := s.gets[g].(load := Sharing(r.value))] else s.gets
    case InnerReturn(g) =>
      var handed := Handed(s, 2 * g + 1);
      s.gets[g := s.gets[g].(load := if SharedAccepted(handed)
                                     then Compiling(s.gets[g].load.fetched, handed.0, handed.1.Some?) else Idle)]
    case Compile(g, _) => s.gets[g := s.gets[g].(load := Idle)]
    case Finish(g) =>
      var get, pc := s.gets[g], s.plan.calls[g];
      s.gets[g := Done(get.planID, get.version, get.sh, get.stale,
                       if PlanAccepted(pc.val, pc.err) then Ok(WithShared(pc.val, get.sh)) else Err(()))]
    case SharedAct(_) => s.gets
    case PlanAct(_) => s.gets
    case Pass(_) => s.gets
  }

  ghost predicate CanStep(s: Sys, step: Step) {
    && Guard(s, step)
    && (SharedMove(s, step).Some? ==> Enabled(s.shared.value, SharedMove(s, step).value))
    && (PlanMove(s, step).Some? ==> Enabled(s.plan, PlanMove(s, step).value))
  }

  // What a cache's load has delivered once the label has been applied.
  ghost function LoadsAfter<V>(st: State<string, V, (), nat>, l: Option<Label<string, V, (), nat>>,
                               loads: set<(string, V)>): set<(string, V)> {
    if l.Some? && l.value.action.LoadOk? && l.value.call in st.calls
    then loads + {(st.calls[l.value.call].key, l.value.action.val)} else loads
  }

  ghost function AfterMove<V>(st: State<string, V, (), nat>, l: Option<Label<string, V, (), nat>>)
    : State<string, V, (), nat>
    requires l.Some? ==> Enabled(st, l.value)
  {
    if l.Some? then Apply(st, l.value) else st
  }

  ghost function CompilationBy(s: Sys, g: nat, c: Compiled): Compilation
    requires InLoad(s, g) && s.gets[g].load.Compiling?
  {
    var load := s.gets[g].load;
    Compilation(LoadsFor(s, g), load.fetched, load.modules, load.stale, c)
  }

  ghost function Next(s: Sys, step: Step): Sys
    requires CanStep(s, step)
  {
    Sys(if s.shared.Some? then Some(AfterMove(s.shared.value, SharedMove(s, step))) else None,
        AfterMove(s.plan, PlanMove(s, step)),
        NextGets(s, step),
        if s.shared.Some? then LoadsAfter(s.shared.value, SharedMove(s, step), s.sharedLoads) else s.sharedLoads,
        LoadsAfter(s.plan, PlanMove(s, step), s.planLoads),
        if step.Fetch? && step.fetched.Ok? then s.fetches + {(LoadsFor(s, step.get), step.fetched.value)}
        else s.fetches,
        if step.Compile? && step.compiled.Ok? then s.compilations + {CompilationBy(s, step.get, step.compiled.value)}
        else s.compilations)
  }

  // NewPolicyCache: 0 means the default of five minutes, and New turns a
  // negative TTL, which disables caching, into 0.
  function CacheTtl(ttl: int): nat {
    if ttl == 0 then 300_000_000_000 else if ttl < 0 then 0 else ttl
  }

  ghost predicate Starts(s: Sys, ttl: int) {
    && Initial(s.plan) && s.plan.zero == NoPolicy() && s.plan.ttl == CacheTtl(ttl)
    && (s.shared.Some? ==> Initial(s.shared.value) && s.shared.value.zero == NoShared(false) &&
                           s.shared.value.ttl == CacheTtl(ttl))
    && s.gets == map[] && s.sharedLoads == {} && s.planLoads == {} && s.fetches == {} && s.compilations == {}
  }

  // ------------------------------------------------------------ provenance

  // A call's outcome is a value some load delivered for its key, or the zero
  // value with an error.
  ghost predicate Sourced<V>(loads: set<(string, V)>, zero: V, key: string, val: V, err: Option<()>) {
    (key, val) in loads || (err.Some? && val == zero)
  }

  ghost predicate CallSourced<V>(loads: set<(string, V)>, zero: V, pc: Pc<string, V, (), nat>) {
    match pc
    case Loaded(k, _, v) => (k, v) in loads
    case Stored(k, _, v) => (k, v) in loads
    case Published(k, _, v, err) => Sourced(loads, zero, k, v, err)
    case Released(k, _, v, err) => Sourced(loads, zero, k, v, err)
    case Returned(k, v, err) => Sourced(loads, zero, k, v, err)
    case Entered(_) => true
    case Waiting(_, _) => true
    case Loading(_, _, _) => true
    case Failed(_, _, _, _) => true
  }

  ghost predicate EntriesSourced<V>(s: State<string, V, (), nat>, loads: set<(string, V)>) {
    forall k :: k in s.entries ==> (k, s.entries[k].val) in loads
  }

  ghost predicate CallsSourced<V>(s: State<string, V, (), nat>, loads: set<(string, V)>) {
    forall c :: c in s.calls ==> CallSourced(loads, s.zero, s.calls[c])
  }

  ghost predicate FlightsSourced<V>(s: State<string, V, (), nat>, loads: set<(string, V)>) {
    forall f :: f in s.flights && s.flights[f].done ==>
      Sourced(loads, s.zero, s.flights[f].key, s.flights[f].val, s.flights[f].err)
  }

  ghost predicate AllSourced<V>(s: State<string, V, (), nat>, loads: set<(string, V)>) {
    EntriesSourced(s, loads) && CallsSourced(s, loads) && FlightsSourced(s, loads)
  }

  lemma MoreLoads<V>(s: State<string, V, (), nat>, loads: set<(string, V)>, more: set<(string, V)>)
    requires AllSourced(s, loads) && loads <= more
    ensures AllSourced(s, more)
  {
    forall c | c in s.calls
      ensures CallSourced(more, s.zero, s.calls[c])
    {
      assert CallSourced(loads, s.zero, s.calls[c]);
    }
  }

  lemma ActingCallSourced<V>(s: State<string, V, (), nat>, l: Label<string, V, (), nat>, loads: set<(string, V)>)
    requires LeadersOk(s) && Enabled(s, l) && AllSourced(s, loads) && !l.action.Tick?
    requires l.action.LoadOk? ==> (s.calls[l.call].key, l.action.val) in loads
    requires WaitersOk(s)
    ensures CallSourced(loads, s.zero, Apply(s, l).calls[l.call])
  {
    if l.call in s.calls {
      assert CallSourced(loads, s.zero, s.calls[l.call]);
      if s.calls[l.call].Leads() {
        assert LeaderOk(s, l.call, s.calls[l.call]);
      }
    }
  }

  lemma StepCallsSourced<V>(s: State<string, V, (), nat>, l: Label<string, V, (), nat>, loads: set<(string, V)>)
    requires Inv(s) && Enabled(s, l) && AllSourced(s, loads)
    requires l.action.LoadOk? ==> (s.calls[l.call].key, l.action.val) in loads
    ensures CallsSourced(Apply(s, l), loads)
  {
    var t := Apply(s, l);
    OneCallMoves(s, l);
    ClockFrame(s, l);
    forall c | c in t.calls
      ensures CallSourced(loads, t.zero, t.calls[c])
    {
      if c == l.call && !l.action.Tick? {
        ActingCallSourced(s, l, loads);
      } else {
        assert CallSourced(loads, s.zero, s.calls[c]);
      }
    }
  }

  lemma StepFlightsSourced<V>(s: State<string, V, (), nat>, l: Label<string, V, (), nat>, loads: set<(string, V)>)
    requires Inv(s) && Enabled(s, l) && AllSourced(s, loads)
    ensures FlightsSourced(Apply(s, l), loads)
  {
    var t := Apply(s, l);
    ClockFrame(s, l);
    forall f | f in t.flights && t.flights[f].done
      ensures Sourced(loads, t.zero, t.flights[f].key, t.flights[f].val, t.flights[f].err)
    {
      if f in s.flights && s.flights[f].done {
        DoneFlightFrozen(s, l, f);
      } else {
        DoneByRelease(s, l, f);
        assert CallSourced(loads, s.zero, s.calls[l.call]);
      }
    }
  }

  lemma StepEntriesSourced<V>(s: State<string, V, (), nat>, l: Label<string, V, (), nat>, loads: set<(string, V)>)
    requires Enabled(s, l) && EntriesSourced(s, loads) && CallsSourced(s, loads)
    ensures EntriesSourced(Apply(s, l), loads)
  {
    if l.action.Store? {
      assert CallSourced(loads, s.zero, s.calls[l.call]);
    }
  }

  lemma ApplyKeepsSourced<V>(s: State<string, V, (), nat>, l: Label<string, V, (), nat>, loads: set<(string, V)>)
    requires Inv(s) && Enabled(s, l) && AllSourced(s, loads)
    ensures AllSourced(Apply(s, l), LoadsAfter(s, Some(l), loads))
  {
    var more := LoadsAfter(s, Some(l), loads);
    MoreLoads(s, loads, more);
    StepEntriesSourced(s, l, more);
    StepCallsSourced(s, l, more);
    StepFlightsSourced(s, l, more);
  }

  // ------------------------------------------------------------ invariant

  // The compilation was of what the loader delivered for that plan and version,
  // with modules it may go on with.
  ghost predicate ProperlyMade(s: Sys, made: Compilation) {
    made in s.compilations && (made.of, made.fetched) in s.fetches && SharedOk(s, made.modules, made.stale)
  }

  ghost predicate CompiledTo(s: Sys, of: (string, string), c: Compiled) {
    exists made :: ProperlyMade(s, made) && made.of == of && made.compiled == c
  }

  // What the load of get g has in hand.
  ghost predicate StageOk(s: Sys, g: nat, load: LoadStage)
    requires g in s.plan.calls
  {
    match load
    case Idle => true
    case Sharing(b) => (LoadsFor(s, g), b) in s.fetches
    case Compiling(b, sh, stale) =>
      (LoadsFor(s, g), b) in s.fetches && SharedOk(s, sh, stale) && SharedBack(s, 2 * g + 1) &&
      Handed(s, 2 * g + 1).0 == sh && (Handed(s, 2 * g + 1).1.Some? <==> stale)
  }

  ghost predicate CachesOk(s: Sys) {
    && Inv(s.plan) && s.plan.zero == NoPolicy() && AllSourced(s.plan, s.planLoads)
    && (forall load :: load in s.planLoads ==> load.1.loaded && CompiledTo(s, SplitKey(load.0), load.1))
    && (s.shared.Some? ==>
          Inv(s.shared.value) && s.shared.value.zero == NoShared(false) && AllSourced(s.shared.value, s.sharedLoads))
    && (forall load :: load in s.sharedLoads ==> load.1.loaded)
  }

  // The modules taken from the shared level: delivered by the shared source, and
  // not the empty ones if the load at hand had failed.
  ghost predicate SharedOk(s: Sys, sh: Shared, stale: bool) {
    if s.shared.None? then sh == NoShared(true) && !stale
    else (SHARED_KEY, sh) in s.sharedLoads && (stale ==> sh != NoShared(true))
  }

  ghost predicate InShared(s: Sys, c: nat) {
    s.shared.Some? && c in s.shared.value.calls
  }

  ghost predicate GetOk(s: Sys, g: nat, get: Get) {
    match get
    case AtShared(_, _) => g !in s.plan.calls && !InShared(s, 2 * g + 1) && (s.shared.Some? ==> InShared(s, 2 * g))
    case AtPlan(p, v, sh, stale, load) =>
      && g in s.plan.calls && s.plan.calls[g].key == Key(p, v) && SharedOk(s, sh, stale)
      && (load != Idle ==> s.plan.calls[g].Loading?) && StageOk(s, g, load)
      && (load == Idle && (s.plan.calls[g].Entered? || s.plan.calls[g].Loading?) ==> !InShared(s, 2 * g + 1))
      && (load.Sharing? && s.shared.Some? ==> InShared(s, 2 * g + 1))
    case Done(p, v, sh, stale, result) =>
      && (g in s.plan.calls ==> s.plan.calls[g].Returned?)
      && (result.Ok? ==>
            SharedOk(s, sh, stale) && exists c :: (Key(p, v), c) in s.planLoads && result.value == WithShared(c, sh))
  }

  ghost predicate GetsOk(s: Sys) {
    && (forall g :: g in s.gets ==> GetOk(s, g, s.gets[g]))
    && (forall g :: g in s.plan.calls ==> g in s.gets)
    && (s.shared.Some? ==>
          forall c :: c in s.shared.value.calls ==> c / 2 in s.gets && s.shared.value.calls[c].key == SHARED_KEY)
  }

  ghost predicate SysInv(s: Sys) {
    CachesOk(s) && GetsOk(s)
  }

  lemma StartsOk(s: Sys, ttl: int)
    requires Starts(s, ttl)
    ensures SysInv(s)
  {
  }

  lemma NextKeepsPlan(s: Sys, step: Step)
    requires CachesOk(s) && CanStep(s, step)
    ensures var t := Next(s, step);
            Inv(t.plan) && t.plan.zero == NoPolicy() && AllSourced(t.plan, t.planLoads)
  {
    if PlanMove(s, step).Some? {
      ApplyKeepsInv(s.plan, PlanMove(s, step).value);
      ApplyKeepsSourced(s.plan, PlanMove(s, step).value, s.planLoads);
      ClockFrame(s.plan, PlanMove(s, step).value);
    }
  }

  lemma NextKeepsShared(s: Sys, step: Step)
    requires CachesOk(s) && CanStep(s, step) && s.shared.Some?
    ensures var t := Next(s, step);
            Inv(t.shared.value) && t.shared.value.zero == NoShared(false) && AllSourced(t.shared.value, t.sharedLoads)
  {
    if SharedMove(s, step).Some? {
      ApplyKeepsInv(s.shared.value, SharedMove(s, step).value);
      ApplyKeepsSourced(s.shared.value, SharedMove(s, step).value, s.sharedLoads);
      ClockFrame(s.shared.value, SharedMove(s, step).value);
    }
  }

  // Only a compiled bundle is ever delivered to the plan cache.
  lemma PlanLoadsCompiled(s: Sys, step: Step, load: (string, Compiled))
    requires GetsOk(s) && CanStep(s, step) && load in Next(s, step).planLoads && load !in s.planLoads
    ensures load.1.loaded && CompiledTo(Next(s, step), SplitKey(load.0), load.1)
  {
    var g := step.get;
    assert GetOk(s, g, s.gets[g]);
    assert ProperlyMade(Next(s, step), CompilationBy(s, g, load.1));
  }

  lemma SharedLoadsLoaded(s: Sys, step: Step, load: (string, Shared))
    requires CanStep(s, step) && load in Next(s, step).sharedLoads && load !in s.sharedLoads
    ensures load.1.loaded
  {
  }

  // History only grows.
  lemma MadeStays(s: Sys, step: Step, of: (string, string), c: Compiled)
    requires CanStep(s, step) && CompiledTo(s, of, c)
    ensures CompiledTo(Next(s, step), of, c)
  {
    var made :| ProperlyMade(s, made) && made.of == of && made.compiled == c;
    SharedOkKept(s, step, made.modules, made.stale);
    assert ProperlyMade(Next(s, step), made);
  }

  lemma NextKeepsCaches(s: Sys, step: Step)
    requires CachesOk(s) && GetsOk(s) && CanStep(s, step)
    ensures CachesOk(Next(s, step))
  {
    var t := Next(s, step);
    NextKeepsPlan(s, step);
    if s.shared.Some? {
      NextKeepsShared(s, step);
    }
    forall load | load in t.planLoads
      ensures load.1.loaded && CompiledTo(t, SplitKey(load.0), load.1)
    {
      if load in s.planLoads {
        MadeStays(s, step, SplitKey(load.0), load.1);
      } else {
        PlanLoadsCompiled(s, step, load);
      }
    }
    forall load | load in t.sharedLoads
      ensures load.1.loaded
    {
      if load !in s.sharedLoads {
        SharedLoadsLoaded(s, step, load);
      }
    }
  }

  // A move keeps every call, its key, and once returned its outcome; only the
  // acting call changes.
  lemma MoveKeepsCalls<V>(st: State<string, V, (), nat>, l: Option<Label<string, V, (), nat>>, c: nat)
    requires l.Some? ==> Enabled(st, l.value)
    requires c in st.calls
    ensures c in AfterMove(st, l).calls && AfterMove(st, l).calls[c].key == st.calls[c].key
    ensures st.calls[c].Returned? || l.None? || l.value.action.Tick? || l.value.call != c ==>
              AfterMove(st, l).calls[c] == st.calls[c]
  {
    if l.Some? {
      CallsKept(st, l.value, c);
    }
  }

  lemma MoveAddsCalls<V>(st: State<string, V, (), nat>, l: Option<Label<string, V, (), nat>>, c: nat)
    requires l.Some? ==> Enabled(st, l.value)
    ensures c in AfterMove(st, l).calls && c !in st.calls ==>
              && l.Some? && l.value.action.Invoke? && l.value.call == c
              && AfterMove(st, l).calls[c] == Entered(l.value.action.key)
  {
  }

  // What a shared call hands over, if it is accepted, was loaded.
  lemma HandedOk(s: Sys, c: nat)
    requires SysInv(s) && SharedBack(s, c) && SharedAccepted(Handed(s, c))
    ensures SharedOk(s, Handed(s, c).0, Handed(s, c).1.Some?)
  {
    if s.shared.Some? {
      assert CallSourced(s.sharedLoads, NoShared(false), s.shared.value.calls[c]);
    }
  }

  // The calls that belong to get g are left alone by the steps of others.
  lemma OthersShared(s: Sys, step: Step, g: nat)
    requires CanStep(s, step)
    requires step.Begin? || step.Fetch? ==> step.get != g
    ensures InShared(Next(s, step), 2 * g + 1) <==> InShared(s, 2 * g + 1)
    ensures InShared(s, 2 * g) ==> InShared(Next(s, step), 2 * g)
  {
    if s.shared.Some? {
      if 2 * g in s.shared.value.calls {
        MoveKeepsCalls(s.shared.value, SharedMove(s, step), 2 * g);
      }
      if 2 * g + 1 in s.shared.value.calls {
        MoveKeepsCalls(s.shared.value, SharedMove(s, step), 2 * g + 1);
      } else {
        MoveAddsCalls(s.shared.value, SharedMove(s, step), 2 * g + 1);
      }
    }
  }

  lemma OthersPlan(s: Sys, step: Step, g: nat)
    requires CanStep(s, step)
    requires step.SharedReturn? || step.Fetch? || step.InnerReturn? || step.Compile? ==> step.get != g
    ensures g in Next(s, step).plan.calls <==> g in s.plan.calls
    ensures g in s.plan.calls ==>
              var before, after := s.plan.calls[g], Next(s, step).plan.calls[g];
              && after.key == before.key
              && (before.Returned? || !step.PlanAct? ==> after == before)
  {
    if g in s.plan.calls {
      MoveKeepsCalls(s.plan, PlanMove(s, step), g);
    } else {
      MoveAddsCalls(s.plan, PlanMove(s, step), g);
    }
  }

  lemma SharedOkKept(s: Sys, step: Step, sh: Shared, stale: bool)
    requires CanStep(s, step) && SharedOk(s, sh, stale)
    ensures SharedOk(Next(s, step), sh, stale)
  {
  }

  // What a load has in hand stays valid while others step: its own shared call
  // has returned for good.
  lemma StageKept(s: Sys, step: Step, g: nat, load: LoadStage)
    requires CanStep(s, step) && g in s.plan.calls && StageOk(s, g, load)
    requires g in Next(s, step).plan.calls && Next(s, step).plan.calls[g].key == s.plan.calls[g].key
    ensures StageOk(Next(s, step), g, load)
  {
    if load.Compiling? {
      SharedOkKept(s, step, load.modules, load.stale);
      if s.shared.Some? {
        MoveKeepsCalls(s.shared.value, SharedMove(s, step), 2 * g + 1);
      }
    }
  }

  lemma OtherGetKept(s: Sys, step: Step, g: nat)
    requires GetsOk(s) && CanStep(s, step) && g in s.gets
    requires g in NextGets(s, step) && NextGets(s, step)[g] == s.gets[g]
    requires step.Begin? || step.SharedReturn? || step.Fetch? || step.InnerReturn? || step.Compile? || step.Finish? ==>
               step.get != g
    ensures GetOk(Next(s, step), g, s.gets[g])
  {
    var get := s.gets[g];
    assert GetOk(s, g, get);
    OthersShared(s, step, g);
    OthersPlan(s, step, g);
    if !get.AtShared? && (get.AtPlan? || get.result.Ok?) {
      SharedOkKept(s, step, get.sh, get.stale);
    }
    if get.AtPlan? {
      StageKept(s, step, g, get.load);
    }
    if step.PlanAct? && g in s.plan.calls {
      PlanActKeepsStage(s, step, g);
    }
  }

  // A get's own plan steps before its load and after it leave the stage valid.
  lemma ActKeepsStage<V>(st: State<string, V, (), nat>, l: Label<string, V, (), nat>)
    requires Enabled(st, l) && l.call in st.calls
    requires !l.action.Tick? && !l.action.Invoke? && !l.action.LoadOk? && !l.action.LoadErr?
    ensures l.call in Apply(st, l).calls && !Apply(st, l).calls[l.call].Entered?
    ensures Apply(st, l).calls[l.call].Loading? ==> st.calls[l.call].Entered?
    ensures !st.calls[l.call].Loading?
  {
  }

  lemma PlanActKeepsStage(s: Sys, step: Step, g: nat)
    requires CanStep(s, step) && step.PlanAct? && g in s.plan.calls
    ensures g in Next(s, step).plan.calls
    ensures Next(s, step).plan.calls[g].Entered? ==> s.plan.calls[g].Entered?
    ensures Next(s, step).plan.calls[g].Loading? ==> s.plan.calls[g].Entered? || s.plan.calls[g].Loading?
    ensures s.plan.calls[g].Loading? ==> Next(s, step).plan.calls[g].Loading?
  {
    if step.plan.call == g {
      ActKeepsStage(s.plan, step.plan);
    } else {
      CallsKept(s.plan, step.plan, g);
    }
  }

  lemma BeginShared(s: Sys, step: Step)
    requires GetsOk(s) && CanStep(s, step) && step.Begin? && s.shared.Some?
    ensures !InShared(Next(s, step), 2 * step.get + 1) && InShared(Next(s, step), 2 * step.get)
  {
    var c := 2 * step.get + 1;
    assert c / 2 == step.get;
    assert c !in s.shared.value.calls;
    OneCallMoves(s.shared.value, SharedMove(s, step).value);
  }

  lemma BeginOk(s: Sys, step: Step)
    requires GetsOk(s) && CanStep(s, step) && step.Begin?
    ensures GetOk(Next(s, step), step.get, AtShared(step.planID, step.version))
  {
    if s.shared.Some? {
      BeginShared(s, step);
    }
    assert Next(s, step).plan == s.plan;
  }

  lemma SharedReturnOk(s: Sys, step: Step)
    requires SysInv(s) && CanStep(s, step) && step.SharedReturn?
    ensures GetOk(Next(s, step), step.get, Next(s, step).gets[step.get])
  {
    var g := step.get;
    assert GetOk(s, g, s.gets[g]);
    if SharedAccepted(Handed(s, 2 * g)) {
      HandedOk(s, 2 * g);
    }
  }

  lemma FetchedMoves(s: Sys, step: Step)
    requires CanStep(s, step) && step.Fetch? && step.fetched.Ok?
    ensures Next(s, step).plan == s.plan && Next(s, step).planLoads == s.planLoads
    ensures s.shared.Some? ==> InShared(Next(s, step), 2 * step.get + 1)
    ensures Next(s, step).gets[step.get] == s.gets[step.get].(load := Sharing(step.fetched.value))
  {
    if s.shared.Some? {
      OneCallMoves(s.shared.value, SharedMove(s, step).value);
    }
  }

  lemma FetchedOk(s: Sys, step: Step)
    requires GetsOk(s) && CanStep(s, step) && step.Fetch? && step.fetched.Ok?
    ensures GetOk(Next(s, step), step.get, Next(s, step).gets[step.get])
  {
    var g := step.get;
    assert GetOk(s, g, s.gets[g]);
    SharedOkKept(s, step, s.gets[g].sh, s.gets[g].stale);
    FetchedMoves(s, step);
  }

  lemma FetchFailedOk(s: Sys, step: Step)
    requires GetsOk(s) && CanStep(s, step) && step.Fetch? && step.fetched.Err?
    ensures GetOk(Next(s, step), step.get, Next(s, step).gets[step.get])
  {
    var g := step.get;
    assert GetOk(s, g, s.gets[g]);
    SharedOkKept(s, step, s.gets[g].sh, s.gets[g].stale);
    OneCallMoves(s.plan, PlanMove(s, step).value);
  }

  lemma FetchOk(s: Sys, step: Step)
    requires GetsOk(s) && CanStep(s, step) && step.Fetch?
    ensures GetOk(Next(s, step), step.get, Next(s, step).gets[step.get])
  {
    if step.fetched.Ok? {
      FetchedOk(s, step);
    } else {
      FetchFailedOk(s, step);
    }
  }

  // Going on to compile leaves the caches alone.
  lemma InnerAcceptedMoves(s: Sys, step: Step)
    requires CanStep(s, step) && step.InnerReturn? && SharedAccepted(Handed(s, 2 * step.get + 1))
    ensures Next(s, step).plan == s.plan && Next(s, step).shared == s.shared
    ensures Next(s, step).sharedLoads == s.sharedLoads && Next(s, step).fetches == s.fetches
    ensures Next(s, step).gets[step.get] ==
              s.gets[step.get].(load := Compiling(s.gets[step.get].load.fetched, Handed(s, 2 * step.get + 1).0,
                                                  Handed(s, 2 * step.get + 1).1.Some?))
  {
  }

  lemma InnerAcceptedStage(s: Sys, step: Step)
    requires CanStep(s, step) && step.InnerReturn? && SharedAccepted(Handed(s, 2 * step.get + 1))
    requires SharedOk(s, Handed(s, 2 * step.get + 1).0, Handed(s, 2 * step.get + 1).1.Some?)
    requires (LoadsFor(s, step.get), s.gets[step.get].load.fetched) in s.fetches
    ensures StageOk(Next(s, step), step.get, Next(s, step).gets[step.get].load)
  {
    InnerAcceptedMoves(s, step);
    assert Handed(Next(s, step), 2 * step.get + 1) == Handed(s, 2 * step.get + 1);
  }

  lemma InnerAcceptedOk(s: Sys, step: Step)
    requires CanStep(s, step) && step.InnerReturn? && SharedAccepted(Handed(s, 2 * step.get + 1))
    requires SharedOk(s, Handed(s, 2 * step.get + 1).0, Handed(s, 2 * step.get + 1).1.Some?)
    requires GetOk(s, step.get, s.gets[step.get])
    ensures GetOk(Next(s, step), step.get, Next(s, step).gets[step.get])
  {
    InnerAcceptedStage(s, step);
    InnerAcceptedMoves(s, step);
    SharedOkKept(s, step, s.gets[step.get].sh, s.gets[step.get].stale);
  }

  lemma InnerRefusedOk(s: Sys, step: Step)
    requires CanStep(s, step) && step.InnerReturn? && !SharedAccepted(Handed(s, 2 * step.get + 1))
    requires GetOk(s, step.get, s.gets[step.get])
    ensures GetOk(Next(s, step), step.get, Next(s, step).gets[step.get])
  {
    var g := step.get;
    SharedOkKept(s, step, s.gets[g].sh, s.gets[g].stale);
    OneCallMoves(s.plan, PlanMove(s, step).value);
  }

  lemma InnerReturnOk(s: Sys, step: Step)
    requires SysInv(s) && CanStep(s, step) && step.InnerReturn?
    ensures GetOk(Next(s, step), step.get, Next(s, step).gets[step.get])
  {
    assert GetOk(s, step.get, s.gets[step.get]);
    if SharedAccepted(Handed(s, 2 * step.get + 1)) {
      HandedOk(s, 2 * step.get + 1);
      InnerAcceptedOk(s, step);
    } else {
      InnerRefusedOk(s, step);
    }
  }

  lemma CompileOk(s: Sys, step: Step)
    requires GetsOk(s) && CanStep(s, step) && step.Compile?
    ensures GetOk(Next(s, step), step.get, Next(s, step).gets[step.get])
  {
    var g := step.get;
    assert GetOk(s, g, s.gets[g]);
    SharedOkKept(s, step, s.gets[g].sh, s.gets[g].stale);
    OneCallMoves(s.plan, PlanMove(s, step).value);
  }

  lemma FinishOk(s: Sys, step: Step)
    requires SysInv(s) && CanStep(s, step) && step.Finish?
    ensures GetOk(Next(s, step), step.get, Next(s, step).gets[step.get])
  {
    var g := step.get;
    assert GetOk(s, g, s.gets[g]);
    assert CallSourced(s.planLoads, NoPolicy(), s.plan.calls[g]);
  }

  lemma NextKeepsGet(s: Sys, step: Step, g: nat)
    requires SysInv(s) && CanStep(s, step) && g in Next(s, step).gets
    ensures GetOk(Next(s, step), g, Next(s, step).gets[g])
  {
    if step.Begin? && step.get == g {
      BeginOk(s, step);
    } else if step.SharedReturn? && step.get == g {
      SharedReturnOk(s, step);
    } else if step.Fetch? && step.get == g {
      FetchOk(s, step);
    } else if step.InnerReturn? && step.get == g {
      InnerReturnOk(s, step);
    } else if step.Compile? && step.get == g {
      CompileOk(s, step);
    } else if step.Finish? && step.get == g {
      FinishOk(s, step);
    } else {
      OtherGetKept(s, step, g);
    }
  }

  lemma PlanCallsOwned(s: Sys, step: Step, g: nat)
    requires GetsOk(s) && CanStep(s, step) && g in Next(s, step).plan.calls
    ensures g in Next(s, step).gets
  {
    MoveAddsCalls(s.plan, PlanMove(s, step), g);
  }

  lemma SharedCallsOwned(s: Sys, step: Step, c: nat)
    requires GetsOk(s) && CanStep(s, step) && InShared(Next(s, step), c)
    ensures c / 2 in Next(s, step).gets && Next(s, step).shared.value.calls[c].key == SHARED_KEY
  {
    if c in s.shared.value.calls {
      MoveKeepsCalls(s.shared.value, SharedMove(s, step), c);
    } else {
      MoveAddsCalls(s.shared.value, SharedMove(s, step), c);
    }
  }

  lemma NextKeepsInv(s: Sys, step: Step)
    requires SysInv(s) && CanStep(s, step)
    ensures SysInv(Next(s, step))
  {
    var t := Next(s, step);
    NextKeepsCaches(s, step);
    forall g | g in t.gets
      ensures GetOk(t, g, t.gets[g])
    {
      NextKeepsGet(s, step, g);
    }
    forall g | g in t.plan.calls
      ensures g in t.gets
    {
      PlanCallsOwned(s, step, g);
    }
    forall c | t.shared.Some? && c in t.shared.value.calls
      ensures c / 2 in t.gets && t.shared.value.calls[c].key == SHARED_KEY
    {
      SharedCallsOwned(s, step, c);
    }
  }

  // ------------------------------------------------------------ whole runs

  datatype Run = Run(states: seq<Sys>, steps: seq<Step>)

  ghost predicate TakesStep(run: Run, i: int)
    requires 0 <= i < |run.steps| && |run.states| == |run.steps| + 1
  {
    CanStep(run.states[i], run.steps[i]) && run.states[i + 1] == Next(run.states[i], run.steps[i])
  }

  ghost predicate ValidRun(run: Run, ttl: int) {
    && |run.states| == |run.steps| + 1
    && Starts(run.states[0], ttl)
    && forall i :: 0 <= i < |run.steps| ==> TakesStep(run, i)
  }

  lemma {:induction false} ReachableOk(run: Run, ttl: int, n: nat)
    requires ValidRun(run, ttl) && n < |run.states|
    ensures SysInv(run.states[n])
  {
    if n == 0 {
      StartsOk(run.states[0], ttl);
    } else {
      ReachableOk(run, ttl, n - 1);
      assert TakesStep(run, n - 1);
      NextKeepsInv(run.states[n - 1], run.steps[n - 1]);
    }
  }

  // Fail closed, over every run: a get that succeeded returns the policies of a
  // compilation for its own key - for exactly its plan and version when the plan
  // id holds no NUL - of what the loader delivered for them, joined with shared
  // policies. Both the modules that compilation was given and the shared
  // policies were delivered by the shared source, if there is one, and are not
  // the empty ones if the shared load at hand had failed.
  lemma FailsClosed(run: Run, ttl: int, n: nat, g: nat) returns (made: Compilation)
    requires ValidRun(run, ttl) && n < |run.states| && g in run.states[n].gets
    requires run.states[n].gets[g].Done? && run.states[n].gets[g].result.Ok?
    ensures var s := run.states[n];
            var get := s.gets[g];
            var cp := get.result.value;
            && made in s.compilations && (made.of, made.fetched) in s.fetches
            && made.of == SplitKey(Key(get.planID, get.version))
            && ('\0' !in get.planID ==> made.of == (get.planID, get.version))
            && cp.inbound == made.compiled.inbound && cp.outbound == made.compiled.outbound
            && cp.sharedInbound == get.sh.inbound && cp.sharedOutbound == get.sh.outbound
            && SharedOk(s, made.modules, made.stale) && SharedOk(s, get.sh, get.stale)
  {
    ReachableOk(run, ttl, n);
    var s := run.states[n];
    var get := s.gets[g];
    assert GetOk(s, g, get);
    var c :| (Key(get.planID, get.version), c) in s.planLoads && get.result.value == WithShared(c, get.sh);
    assert CompiledTo(s, SplitKey(Key(get.planID, get.version)), c);
    made :| ProperlyMade(s, made) && made.of == SplitKey(Key(get.planID, get.version)) && made.compiled == c;
    SplitUndoesJoin(get.planID, get.version);
  }

  // A shared call's outcome with which getShared goes on: no error, or a value
  // that the source delivered and that is not the empty one.
  ghost predicate Usable(s: Sys, val: Shared, err: Option<()>) {
    err.None? || ((SHARED_KEY, val) in s.sharedLoads && val != NoShared(true))
  }

  lemma UsableIsAccepted(s: Sys, c: nat)
    requires SysInv(s) && s.shared.Some? && SharedBack(s, c)
    ensures var pc := s.shared.value.calls[c];
            Handed(s, c) == (pc.val, pc.err) && (SharedAccepted((pc.val, pc.err)) <==> Usable(s, pc.val, pc.err))
  {
    var pc := s.shared.value.calls[c];
    assert CallSourced(s.sharedLoads, NoShared(false), pc);
    assert pc.key == SHARED_KEY;
  }

  lemma AcceptedInRun(run: Run, ttl: int, n: nat, c: nat)
    requires ValidRun(run, ttl) && n < |run.states| && run.states[n].shared.Some? && SharedBack(run.states[n], c)
    ensures var s := run.states[n];
            var pc := s.shared.value.calls[c];
            Handed(s, c) == (pc.val, pc.err) && (SharedAccepted((pc.val, pc.err)) <==> Usable(s, pc.val, pc.err))
  {
    ReachableOk(run, ttl, n);
    UsableIsAccepted(run.states[n], c);
  }

  // Where get g's load stands, if it runs one.
  ghost function StageOf(s: Sys, g: nat): Option<LoadStage> {
    if InLoad(s, g) then Some(s.gets[g].load) else None
  }

  ghost predicate LoadFailed(s: Sys, g: nat) {
    g in s.plan.calls && s.plan.calls[g].Failed?
  }

  // Inside a plan load, over every run: a load whose loader fails fails, and
  // one whose loader delivers asks the shared cache.
  lemma LoadNeedsLoader(run: Run, ttl: int, n: nat, g: nat, r: Result<Fetched, ()>)
    requires ValidRun(run, ttl) && n < |run.steps| && run.steps[n] == Fetch(g, r)
    ensures if r.Ok? then StageOf(run.states[n + 1], g) == Some(Sharing(r.value)) else LoadFailed(run.states[n + 1], g)
  {
    assert TakesStep(run, n);
  }

  lemma InnerReturnDecides(s: Sys, g: nat)
    requires CanStep(s, InnerReturn(g))
    ensures exists b :: StageOf(s, g) == Some(Sharing(b))
    ensures var t, handed := Next(s, InnerReturn(g)), Handed(s, 2 * g + 1);
            if SharedAccepted(handed) then
              exists b :: StageOf(s, g) == Some(Sharing(b)) &&
                          StageOf(t, g) == Some(Compiling(b, handed.0, handed.1.Some?))
            else LoadFailed(t, g)
  {
    assert StageOf(s, g) == Some(Sharing(s.gets[g].load.fetched));
  }

  // A load whose own getShared comes back goes on to compile, with what that
  // handed over, if it can be used, and otherwise fails.
  lemma LoadNeedsShared(run: Run, ttl: int, n: nat, g: nat)
    requires ValidRun(run, ttl) && n < |run.steps| && run.steps[n] == InnerReturn(g)
    requires run.states[n].shared.Some?
    ensures InShared(run.states[n], 2 * g + 1) && run.states[n].shared.value.calls[2 * g + 1].Returned?
    ensures var s, after := run.states[n], run.states[n + 1];
            var pc := s.shared.value.calls[2 * g + 1];
            if Usable(s, pc.val, pc.err) then
              exists b :: StageOf(s, g) == Some(Sharing(b)) &&
                          StageOf(after, g) == Some(Compiling(b, pc.val, pc.err.Some?))
            else LoadFailed(after, g)
  {
    var s := run.states[n];
    assert TakesStep(run, n);
    InnerReturnDecides(s, g);
    AcceptedInRun(run, ttl, n, 2 * g + 1);
  }

  // So whenever a load compiles, its own getShared has come back with something
  // that can be used, and that is what the compilation is given.
  lemma CompilesWithShared(run: Run, ttl: int, n: nat, g: nat, r: Result<Compiled, ()>)
    requires ValidRun(run, ttl) && n < |run.steps| && run.steps[n] == Compile(g, r)
    requires run.states[n].shared.Some?
    ensures InShared(run.states[n], 2 * g + 1) && run.states[n].shared.value.calls[2 * g + 1].Returned?
    ensures var s := run.states[n];
            var pc := s.shared.value.calls[2 * g + 1];
            && Usable(s, pc.val, pc.err) && (SHARED_KEY, pc.val) in s.sharedLoads
            && exists b :: StageOf(s, g) == Some(Compiling(b, pc.val, pc.err.Some?))
  {
    ReachableOk(run, ttl, n);
    assert TakesStep(run, n);
    var s := run.states[n];
    assert GetOk(s, g, s.gets[g]);
    var load := s.gets[g].load;
    assert StageOf(s, g) == Some(Compiling(load.fetched, load.modules, load.stale));
  }

  // The two levels treat a failed load differently. The shared level goes on
  // with an earlier load only if that had content; the plan level goes on with
  // any earlier load of the key.
  lemma SharedFallsBack(s: Sys, g: nat)
    requires SysInv(s) && CanStep(s, SharedReturn(g)) && s.shared.Some?
    ensures var pc, after := s.shared.value.calls[2 * g], Next(s, SharedReturn(g)).gets[g];
            && (after.AtPlan? <==> Usable(s, pc.val, pc.err))
            && (after.AtPlan? ==> after.sh == pc.val && after.stale == pc.err.Some?)
            && (!after.AtPlan? ==> after.Done? && after.result.Err?)
  {
    UsableIsAccepted(s, 2 * g);
  }

  lemma PlanFallsBack(s: Sys, g: nat)
    requires SysInv(s) && CanStep(s, Finish(g))
    ensures var pc, after := s.plan.calls[g], Next(s, Finish(g)).gets[g];
            && after.Done?
            && (after.result.Ok? <==> pc.err.None? || (Key(after.planID, after.version), pc.val) in s.planLoads)
            && (after.result.Ok? ==> after.result.value == WithShared(pc.val, s.gets[g].sh))
  {
    assert GetOk(s, g, s.gets[g]);
    assert CallSourced(s.planLoads, NoPolicy(), s.plan.calls[g]);
  }

  // ------------------------------------------------------------ availability

  // Key k holds an entry, and a good one.
  ghost predicate Holds<V>(s: State<string, V, (), nat>, k: string, good: V -> bool) {
    k in s.entries && good(s.entries[k].val)
  }

  // Whatever call c can still be handed for key k is good.
  ghost predicate Secured<V>(s: State<string, V, (), nat>, k: string, good: V -> bool, c: nat) {
    c in s.calls ==>
      && s.calls[c].key == k
      && (s.calls[c].Waiting? && s.calls[c].f in s.flights && s.flights[s.calls[c].f].done ==>
            good(s.flights[s.calls[c].f].val))
      && (s.calls[c].Returned? ==> good(s.calls[c].val))
  }

  // The call's own step: it joins a flight that is in the table, or is handed
  // what its key or its flight holds.
  lemma OwnStepSecured<V>(s: State<string, V, (), nat>, l: Label<string, V, (), nat>, k: string, good: V -> bool)
    requires Inv(s) && Enabled(s, l) && !l.action.Tick? && l.call in s.calls
    requires Holds(s, k, good) && Secured(s, k, good, l.call)
    ensures Secured(Apply(s, l), k, good, l.call)
  {
    if s.calls[l.call].Leads() {
      assert LeaderOk(s, l.call, s.calls[l.call]);
    }
    if s.calls[l.call].Entered? && k in s.inflight && s.inflight[k] in s.flights && s.flights[s.inflight[k]].done {
      TableFlightExplains(s, k);
    }
  }

  // A flight becomes done by its leader's release, with what the key holds.
  lemma FlightSecured<V>(s: State<string, V, (), nat>, l: Label<string, V, (), nat>, k: string, good: V -> bool, f: nat)
    requires Inv(s) && Enabled(s, l) && Holds(s, k, good)
    requires f in s.flights && s.flights[f].key == k
    requires s.flights[f].done ==> good(s.flights[f].val)
    ensures f in Apply(s, l).flights && (Apply(s, l).flights[f].done ==> good(Apply(s, l).flights[f].val))
  {
    if s.flights[f].done {
      DoneFlightFrozen(s, l, f);
    } else if l.call in s.calls && s.calls[l.call].Leads() {
      assert LeaderOk(s, l.call, s.calls[l.call]);
    }
  }

  lemma StepSecured<V>(s: State<string, V, (), nat>, l: Label<string, V, (), nat>, k: string, good: V -> bool, c: nat)
    requires Inv(s) && Enabled(s, l) && Holds(s, k, good) && Secured(s, k, good, c)
    requires l.action.Invoke? && l.call == c ==> l.action.key == k
    ensures Secured(Apply(s, l), k, good, c)
  {
    if c in s.calls {
      if l.call == c && !l.action.Tick? {
        OwnStepSecured(s, l, k, good);
      } else {
        CallsKept(s, l, c);
        if s.calls[c].Waiting? {
          FlightSecured(s, l, k, good, s.calls[c].f);
        }
      }
    }
  }

  lemma EntriesStay<V>(s: State<string, V, (), nat>, l: Label<string, V, (), nat>, k: string)
    requires Enabled(s, l) && k in s.entries
    ensures k in Apply(s, l).entries
  {
  }

  ghost predicate PlanGood(cp: Compiled) {
    cp.loaded
  }

  ghost predicate SharedGood(sh: Shared) {
    sh.loaded && HasContent(sh)
  }

  // In every state from i to n the shared cache holds modules.
  ghost predicate ModulesStand(run: Run, i: nat, n: nat) {
    forall j :: i <= j <= n && j < |run.states| ==>
      run.states[j].shared.Some? && Holds(run.states[j].shared.value, SHARED_KEY, SharedGood)
  }

  lemma PlanEntryGood(s: Sys, k: string)
    requires CachesOk(s) && k in s.plan.entries
    ensures Holds(s.plan, k, PlanGood)
  {
    assert (k, s.plan.entries[k].val) in s.planLoads;
  }

  lemma PlanSecuredStep(s: Sys, step: Step, g: nat, k: string)
    requires SysInv(s) && CanStep(s, step) && k in s.plan.entries && Secured(s.plan, k, PlanGood, g)
    requires g in Next(s, step).plan.calls ==> Next(s, step).plan.calls[g].key == k
    ensures k in Next(s, step).plan.entries && Secured(Next(s, step).plan, k, PlanGood, g)
  {
    PlanEntryGood(s, k);
    if PlanMove(s, step).Some? {
      var l := PlanMove(s, step).value;
      EntriesStay(s.plan, l, k);
      StepSecured(s.plan, l, k, PlanGood, g);
    }
  }

  lemma KeyBefore(s: Sys, step: Step, g: nat, k: string)
    requires CanStep(s, step)
    requires g in Next(s, step).plan.calls ==> Next(s, step).plan.calls[g].key == k
    ensures g in s.plan.calls ==> s.plan.calls[g].key == k
  {
    if g in s.plan.calls {
      MoveKeepsCalls(s.plan, PlanMove(s, step), g);
    }
  }

  // Once a key has a plan entry, a call for it that comes later is secured.
  lemma {:induction false} PlanSecured(run: Run, ttl: int, i: nat, n: nat, g: nat, k: string)
    requires ValidRun(run, ttl) && i <= n < |run.states|
    requires k in run.states[i].plan.entries && g !in run.states[i].plan.calls
    requires g in run.states[n].plan.calls ==> run.states[n].plan.calls[g].key == k
    ensures k in run.states[n].plan.entries && Secured(run.states[n].plan, k, PlanGood, g)
  {
    if i < n {
      assert TakesStep(run, n - 1);
      ReachableOk(run, ttl, n - 1);
      KeyBefore(run.states[n - 1], run.steps[n - 1], g, k);
      PlanSecured(run, ttl, i, n - 1, g, k);
      PlanSecuredStep(run.states[n - 1], run.steps[n - 1], g, k);
    }
  }

  lemma ReachableShared(run: Run, ttl: int, n: nat)
    requires ValidRun(run, ttl) && n < |run.states| && run.states[n].shared.Some?
    ensures Inv(run.states[n].shared.value)
  {
    ReachableOk(run, ttl, n);
  }

  lemma SharedSecuredStep(s: Sys, step: Step, c: nat)
    requires CanStep(s, step) && s.shared.Some? && Inv(s.shared.value)
    requires Holds(s.shared.value, SHARED_KEY, SharedGood) && Secured(s.shared.value, SHARED_KEY, SharedGood, c)
    ensures Next(s, step).shared.Some? && Secured(Next(s, step).shared.value, SHARED_KEY, SharedGood, c)
  {
    if SharedMove(s, step).Some? {
      StepSecured(s.shared.value, SharedMove(s, step).value, SHARED_KEY, SharedGood, c);
    }
  }

  // Once the shared cache holds modules, and as long as it does, a call that
  // comes later is secured.
  lemma {:induction false} SharedSecured(run: Run, ttl: int, i: nat, n: nat, c: nat)
    requires ValidRun(run, ttl) && i <= n < |run.states| && ModulesStand(run, i, n)
    requires !InShared(run.states[i], c)
    ensures run.states[n].shared.Some? && Secured(run.states[n].shared.value, SHARED_KEY, SharedGood, c)
  {
    assert run.states[n].shared.Some?;
    if i < n {
      assert TakesStep(run, n - 1);
      ReachableShared(run, ttl, n - 1);
      SharedSecured(run, ttl, i, n - 1, c);
      SharedSecuredStep(run.states[n - 1], run.steps[n - 1], c);
    }
  }

  lemma SecuredFinishes(s: Sys, g: nat)
    requires CanStep(s, Finish(g)) && Secured(s.plan, s.plan.calls[g].key, PlanGood, g)
    ensures Next(s, Finish(g)).gets[g].Done? && Next(s, Finish(g)).gets[g].result.Ok?
  {
  }

  lemma PlanCallKey(s: Sys, g: nat)
    requires GetsOk(s) && CanStep(s, Finish(g))
    ensures s.plan.calls[g].key == Key(s.gets[g].planID, s.gets[g].version)
  {
    assert GetOk(s, g, s.gets[g]);
  }

  // A get whose key was loaded before it came gets past the plan level, whatever
  // later loads do, with modules or without.
  lemma PlanStaysAvailable(run: Run, ttl: int, i: nat, n: nat, g: nat)
    requires ValidRun(run, ttl) && i <= n < |run.states|
    requires g in run.states[n].gets && g !in run.states[i].plan.calls
    requires Key(run.states[n].gets[g].planID, run.states[n].gets[g].version) in run.states[i].plan.entries
    requires CanStep(run.states[n], Finish(g))
    ensures Next(run.states[n], Finish(g)).gets[g].Done? && Next(run.states[n], Finish(g)).gets[g].result.Ok?
  {
    ReachableOk(run, ttl, n);
    PlanCallKey(run.states[n], g);
    PlanSecured(run, ttl, i, n, g, run.states[n].plan.calls[g].key);
    SecuredFinishes(run.states[n], g);
  }

  // A get that came while the shared cache held modules, and finds it so
  // throughout, gets past the shared level, whatever later loads do.
  lemma SharedStaysAvailable(run: Run, ttl: int, i: nat, n: nat, g: nat)
    requires ValidRun(run, ttl) && i <= n < |run.states| && ModulesStand(run, i, n)
    requires !InShared(run.states[i], 2 * g) && CanStep(run.states[n], SharedReturn(g))
    ensures Next(run.states[n], SharedReturn(g)).gets[g].AtPlan?
  {
    SharedSecured(run, ttl, i, n, 2 * g);
  }

  // How a get becomes done.
  lemma DoneBy(s: Sys, step: Step, g: nat)
    requires CanStep(s, step) && g in Next(s, step).gets && Next(s, step).gets[g].Done?
    requires !(g in s.gets && s.gets[g].Done?)
    ensures g in s.gets && s.gets[g].planID == Next(s, step).gets[g].planID
    ensures s.gets[g].version == Next(s, step).gets[g].version
    ensures step == SharedReturn(g) || step == Finish(g)
  {
  }

  lemma NotBegun(s: Sys, g: nat)
    requires GetsOk(s) && g !in s.gets
    ensures g !in s.plan.calls && !InShared(s, 2 * g)
  {
    assert 2 * g / 2 == g;
  }

  lemma DoneStays(s: Sys, step: Step, g: nat)
    requires CanStep(s, step) && g in s.gets && s.gets[g].Done?
    ensures g in Next(s, step).gets && Next(s, step).gets[g] == s.gets[g]
  {
  }

  // Availability over whole runs: once the key has been loaded, and as long as
  // the shared cache, if there is one, holds modules, every get that begins
  // later succeeds, whatever later loads do.
  lemma {:induction false} LaterGetsSucceed(run: Run, ttl: int, i: nat, n: nat, g: nat)
    requires ValidRun(run, ttl) && i <= n < |run.states| && g !in run.states[i].gets
    requires g in run.states[n].gets && run.states[n].gets[g].Done?
    requires Key(run.states[n].gets[g].planID, run.states[n].gets[g].version) in run.states[i].plan.entries
    requires run.states[n].shared.None? || ModulesStand(run, i, n)
    ensures run.states[n].gets[g].result.Ok?
  {
    assert i < n;
    var s, step := run.states[n - 1], run.steps[n - 1];
    assert TakesStep(run, n - 1);
    ReachableOk(run, ttl, i);
    NotBegun(run.states[i], g);
    if g in s.gets && s.gets[g].Done? {
      DoneStays(s, step, g);
      LaterGetsSucceed(run, ttl, i, n - 1, g);
    } else {
      DoneBy(s, step, g);
      if step == Finish(g) {
        PlanStaysAvailable(run, ttl, i, n - 1, g);
      } else if s.shared.Some? {
        SharedStaysAvailable(run, ttl, i, n - 1, g);
      }
    }
  }
}
