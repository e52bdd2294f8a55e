// Each level of the policy cache on its own: a run of the two-level system, seen
// from one cache, is a run of the protocol with pauses, so what SingleflightRuns
// proves of one cache holds of both levels.
module PolicyCacheTraces {
  import opened Outcomes
  import opened PolicyCache
  import opened Singleflight
  import opened SingleflightRuns

  // A run seen from one cache: its states, and the protocol step each step took
  // there, if it took one.
  datatype View<V> = View(states: seq<State<string, V, (), nat>>, moves: seq<Option<Label<string, V, (), nat>>>)

  ghost predicate MovesAt<V>(view: View<V>, i: int)
    requires 0 <= i < |view.moves| && |view.states| == |view.moves| + 1
  {
    && (view.moves[i].Some? ==> Enabled(view.states[i], view.moves[i].value))
    && view.states[i + 1] == AfterMove(view.states[i], view.moves[i])
  }

  ghost predicate Pauses<V>(view: View<V>) {
    && |view.states| == |view.moves| + 1
    && Initial(view.states[0])
    && forall i :: 0 <= i < |view.moves| ==> MovesAt(view, i)
  }

  // The first n steps of the view without the pauses.
  ghost function TraceOf<V>(view: View<V>, n: nat): Trace<string, V, (), nat>
    requires |view.states| == |view.moves| + 1 && n < |view.states|
  {
    if n == 0 then Trace([view.states[0]], [])
    else
      var tr := TraceOf(view, n - 1);
      match view.moves[n - 1]
      case None => tr
      case Some(l) => Trace(tr.states + [view.states[n]], tr.labels + [l])
  }

  // How many of the first n steps were not pauses.
  ghost function Moved<V>(view: View<V>, n: nat): nat
    requires n <= |view.moves|
  {
    if n == 0 then 0 else Moved(view, n - 1) + if view.moves[n - 1].Some? then 1 else 0
  }

  lemma TraceGrows<V>(tr: Trace<string, V, (), nat>, t: State<string, V, (), nat>, l: Label<string, V, (), nat>)
    requires ValidTrace(tr)
    requires Enabled(tr.states[|tr.states| - 1], l) && t == Apply(tr.states[|tr.states| - 1], l)
    ensures ValidTrace(Trace(tr.states + [t], tr.labels + [l]))
  {
    var more := Trace(tr.states + [t], tr.labels + [l]);
    forall i | 0 <= i < |more.labels|
      ensures StepAt(more, i)
    {
      if i < |tr.labels| {
        assert StepAt(tr, i);
      }
    }
  }

  // Without its pauses the view is a run of the protocol.
  lemma {:induction false} ViewIsTrace<V>(view: View<V>, n: nat)
    requires Pauses(view) && n < |view.states|
    ensures ValidTrace(TraceOf(view, n))
    ensures |TraceOf(view, n).states| == Moved(view, n) + 1
    ensures TraceOf(view, n).states[Moved(view, n)] == view.states[n]
  {
    if n > 0 {
      ViewIsTrace(view, n - 1);
      assert MovesAt(view, n - 1);
      if view.moves[n - 1].Some? {
        TraceGrows(TraceOf(view, n - 1), view.states[n], view.moves[n - 1].value);
      }
    }
  }

  lemma {:induction false} EarlierInTrace<V>(view: View<V>, i: nat, n: nat)
    requires Pauses(view) && i <= n < |view.states|
    ensures TraceOf(view, i).states <= TraceOf(view, n).states && TraceOf(view, i).labels <= TraceOf(view, n).labels
    ensures Moved(view, i) <= Moved(view, n)
  {
    if i < n {
      EarlierInTrace(view, i, n - 1);
    }
  }

  // Every state of the trace is where some step of the view arrived.
  lemma {:induction false} ArrivedAt<V>(view: View<V>, n: nat, m: nat) returns (i: nat)
    requires Pauses(view) && n < |view.states| && m <= Moved(view, n)
    ensures i <= n && Moved(view, i) == m && (m > 0 ==> i > 0 && Moved(view, i - 1) == m - 1)
  {
    if m == 0 {
      i := 0;
    } else if m <= Moved(view, n - 1) {
      i := ArrivedAt(view, n - 1, m);
    } else {
      i := n;
    }
  }

  lemma StateAt<V>(view: View<V>, i: nat, n: nat)
    requires Pauses(view) && i <= n < |view.states|
    ensures Moved(view, i) < |TraceOf(view, n).states| && TraceOf(view, n).states[Moved(view, i)] == view.states[i]
  {
    ViewIsTrace(view, i);
    EarlierInTrace(view, i, n);
  }

  // ------------------------------------------------- what holds of a view

  // State i of the view lies inside call c.
  ghost predicate Inside<V>(view: View<V>, c: nat, i: int) {
    && 0 <= i < |view.states|
    && c in view.states[i].calls
    && (view.states[i].calls[c].Returned? ==>
          i > 0 && c in view.states[i - 1].calls && !view.states[i - 1].calls[c].Returned?)
  }

  lemma InsideView<V>(view: View<V>, n: nat, c: nat, m: nat) returns (i: nat)
    requires Pauses(view) && n < |view.states| && m <= Moved(view, n)
    requires Within(TraceOf(view, n), c, m)
    ensures i <= n && Inside(view, c, i)
    ensures m < |TraceOf(view, n).states| && view.states[i] == TraceOf(view, n).states[m]
  {
    i := ArrivedAt(view, n, m);
    StateAt(view, i, n);
    if m > 0 {
      StateAt(view, i - 1, n);
    }
  }

  // A call returns what its key held at some instant inside it.
  lemma ViewReturnsHeld<V>(view: View<V>, n: nat, c: nat)
    requires Pauses(view) && n < |view.states|
    requires c in view.states[n].calls && view.states[n].calls[c].Returned?
    ensures var pc := view.states[n].calls[c];
            exists i :: i <= n && Inside(view, c, i) && Explains(view.states[i], pc.key, pc.val, pc.err)
  {
    var tr, last := TraceOf(view, n), Moved(view, n);
    ViewIsTrace(view, n);
    GetReturnsHeldValue(tr, last, c);
    var pc := view.states[n].calls[c];
    var m :| m <= last && Within(tr, c, m) && Explains(tr.states[m], pc.key, pc.val, pc.err);
    var i := InsideView(view, n, c, m);
  }

  // The clock readings at which key k was stored in the first n steps.
  ghost function ViewStores<V>(view: View<V>, k: string, n: nat): seq<int>
    requires |view.states| == |view.moves| + 1 && n < |view.states|
  {
    if n == 0 then []
    else
      ViewStores(view, k, n - 1) +
      if view.moves[n - 1].Some? && StoresKey(view.states[n - 1], view.moves[n - 1].value, k)
      then [view.states[n - 1].now] else []
  }

  lemma {:induction false} StoresOfPrefix<V>(tr: Trace<string, V, (), nat>, more: Trace<string, V, (), nat>,
                                             k: string, m: nat)
    requires |tr.states| == |tr.labels| + 1 && |more.states| == |more.labels| + 1 && m < |tr.states|
    requires tr.states <= more.states && tr.labels <= more.labels
    ensures StoreTimes(more, k, m) == StoreTimes(tr, k, m)
  {
    if m > 0 {
      StoresOfPrefix(tr, more, k, m - 1);
    }
  }

  // What step n of the view adds to the trace's stores.
  lemma {:induction false} StoresOneMore<V>(view: View<V>, k: string, n: nat)
    requires Pauses(view) && n < |view.moves|
    requires Moved(view, n) < |TraceOf(view, n).states| == |TraceOf(view, n).labels| + 1
    requires Moved(view, n + 1) < |TraceOf(view, n + 1).states| == |TraceOf(view, n + 1).labels| + 1
    ensures StoreTimes(TraceOf(view, n + 1), k, Moved(view, n + 1)) ==
            StoreTimes(TraceOf(view, n), k, Moved(view, n)) +
            if view.moves[n].Some? && StoresKey(view.states[n], view.moves[n].value, k)
            then [view.states[n].now] else []
  {
    EarlierInTrace(view, n, n + 1);
    StoresOfPrefix(TraceOf(view, n), TraceOf(view, n + 1), k, Moved(view, n));
    if view.moves[n].Some? {
      ViewIsTrace(view, n);
      assert TraceOf(view, n + 1).labels[Moved(view, n)] == view.moves[n].value;
    }
  }

  lemma {:induction false} StoresAlike<V>(view: View<V>, k: string, n: nat)
    requires Pauses(view) && n < |view.states|
    ensures Moved(view, n) < |TraceOf(view, n).states| == |TraceOf(view, n).labels| + 1
    ensures StoreTimes(TraceOf(view, n), k, Moved(view, n)) == ViewStores(view, k, n)
  {
    ViewIsTrace(view, n);
    if n > 0 {
      StoresAlike(view, k, n - 1);
      StoresOneMore(view, k, n - 1);
    }
  }

  // n stores of one key span at least n - 1 TTLs.
  lemma ViewLoadRate<V>(view: View<V>, k: string, n: nat)
    requires Pauses(view) && n < |view.states| && view.states[0].ttl > 0
    ensures var times := ViewStores(view, k, n);
            times != [] ==> times[|times| - 1] - times[0] >= (|times| - 1) * view.states[0].ttl
  {
    ViewIsTrace(view, n);
    StateAt(view, 0, n);
    StoresAlike(view, k, n);
    LoadRate(TraceOf(view, n), k, Moved(view, n));
  }

  // Step i is a hit: a consult after which the call has returned.
  ghost predicate HitAt<V>(view: View<V>, i: nat)
    requires |view.states| == |view.moves| + 1 && i < |view.moves|
  {
    view.moves[i].Some? && view.moves[i].value.action.Consult? &&
    view.moves[i].value.call in view.states[i + 1].calls && view.states[i + 1].calls[view.moves[i].value.call].Returned?
  }

  // A hit needs a positive TTL and returns a value stored less than a TTL ago.
  lemma ViewHitsAreYoung<V>(view: View<V>, i: nat)
    requires Pauses(view) && i < |view.moves| && HitAt(view, i)
    ensures view.states[0].ttl > 0
    ensures var pc := view.states[i + 1].calls[view.moves[i].value.call];
            var times := ViewStores(view, pc.key, i);
            times != [] && view.states[i].now - times[|times| - 1] < view.states[0].ttl && pc.err.None?
  {
    var tr, m := TraceOf(view, i + 1), Moved(view, i);
    var k := view.states[i + 1].calls[view.moves[i].value.call].key;
    ViewIsTrace(view, i + 1);
    ViewIsTrace(view, i);
    StateAt(view, 0, i + 1);
    StateAt(view, i, i + 1);
    StateAt(view, i + 1, i + 1);
    assert tr.labels[m] == view.moves[i].value;
    HitsAreYoung(tr, m);
    StoresAlike(view, k, i);
    EarlierInTrace(view, i, i + 1);
    StoresOfPrefix(TraceOf(view, i), tr, k, m);
  }

  // ------------------------------------------------- the two levels

  ghost function PlanView(run: Run): View<Compiled> {
    View(seq(|run.states|, i requires 0 <= i < |run.states| => run.states[i].plan),
         seq(|run.steps|, i requires 0 <= i < |run.steps| =>
           if i < |run.states| && CanStep(run.states[i], run.steps[i])
           then PlanMove(run.states[i], run.steps[i]) else None))
  }

  ghost function SharedView(run: Run): View<Shared>
    requires forall i :: 0 <= i < |run.states| ==> run.states[i].shared.Some?
  {
    View(seq(|run.states|, i requires 0 <= i < |run.states| => run.states[i].shared.value),
         seq(|run.steps|, i requires 0 <= i < |run.steps| =>
           if i < |run.states| then SharedMove(run.states[i], run.steps[i]) else None))
  }

  lemma PlanViewPauses(run: Run, ttl: int)
    requires ValidRun(run, ttl)
    ensures Pauses(PlanView(run)) && PlanView(run).states[0].ttl == CacheTtl(ttl)
  {
    var view := PlanView(run);
    forall i | 0 <= i < |view.moves|
      ensures MovesAt(view, i)
    {
      assert TakesStep(run, i);
    }
  }

  lemma {:induction false} SharedThroughout(run: Run, ttl: int, n: nat)
    requires ValidRun(run, ttl) && n < |run.states|
    ensures run.states[n].shared.Some? <==> run.states[0].shared.Some?
  {
    if n > 0 {
      assert TakesStep(run, n - 1);
      SharedThroughout(run, ttl, n - 1);
    }
  }

  lemma SharedViewPauses(run: Run, ttl: int)
    requires ValidRun(run, ttl) && run.states[0].shared.Some?
    ensures forall i :: 0 <= i < |run.states| ==> run.states[i].shared.Some?
    ensures Pauses(SharedView(run)) && SharedView(run).states[0].ttl == CacheTtl(ttl)
  {
    forall i | 0 <= i < |run.states|
      ensures run.states[i].shared.Some?
    {
      SharedThroughout(run, ttl, i);
    }
    var view := SharedView(run);
    forall i | 0 <= i < |view.moves|
      ensures MovesAt(view, i)
    {
      assert TakesStep(run, i);
    }
  }

  // In nanoseconds.
  const FIVE_MINUTES := 5 * 60 * 1_000_000_000

  // Both levels of every run: with a TTL, n loads of one key that were stored
  // span at least n - 1 TTLs.
  lemma PolicyLoadRates(run: Run, ttl: int, k: string, n: nat)
    requires ValidRun(run, ttl) && n < |run.states| && ttl >= 0
    ensures Pauses(PlanView(run))
    ensures var times := ViewStores(PlanView(run), k, n);
            var apart := if ttl == 0 then FIVE_MINUTES else ttl;
            times != [] ==> times[|times| - 1] - times[0] >= (|times| - 1) * apart
    ensures run.states[0].shared.Some? ==>
              && (forall i :: 0 <= i < |run.states| ==> run.states[i].shared.Some?)
              && Pauses(SharedView(run))
              && var times := ViewStores(SharedView(run), k, n);
                 var apart := if ttl == 0 then FIVE_MINUTES else ttl;
                 times != [] ==> times[|times| - 1] - times[0] >= (|times| - 1) * apart
  {
    PlanViewPauses(run, ttl);
    ViewLoadRate(PlanView(run), k, n);
    if run.states[0].shared.Some? {
      SharedViewPauses(run, ttl);
      ViewLoadRate(SharedView(run), k, n);
    }
  }

  // A negative TTL disables caching: neither level ever hits.
  lemma NegativeTtlNeverHits(run: Run, ttl: int, i: nat)
    requires ValidRun(run, ttl) && i < |run.steps| && ttl < 0
    ensures Pauses(PlanView(run)) && !HitAt(PlanView(run), i)
    ensures run.states[0].shared.Some? ==>
              && (forall j :: 0 <= j < |run.states| ==> run.states[j].shared.Some?)
              && Pauses(SharedView(run)) && !HitAt(SharedView(run), i)
  {
    PlanViewPauses(run, ttl);
    if HitAt(PlanView(run), i) {
      ViewHitsAreYoung(PlanView(run), i);
    }
    if run.states[0].shared.Some? {
      SharedViewPauses(run, ttl);
      if HitAt(SharedView(run), i) {
        ViewHitsAreYoung(SharedView(run), i);
      }
    }
  }

  // What the plan cache hands to a get was held by its key at some instant
  // inside the get's own call; and so for the shared level.
  lemma PlanHandsHeld(run: Run, ttl: int, n: nat, g: nat)
    requires ValidRun(run, ttl) && n < |run.states|
    requires g in run.states[n].plan.calls && run.states[n].plan.calls[g].Returned?
    ensures var pc := run.states[n].plan.calls[g];
            exists i :: i <= n && Inside(PlanView(run), g, i) &&
                        Explains(run.states[i].plan, pc.key, pc.val, pc.err)
  {
    PlanViewPauses(run, ttl);
    ViewReturnsHeld(PlanView(run), n, g);
    var pc := run.states[n].plan.calls[g];
    var i :| i <= n && Inside(PlanView(run), g, i) && Explains(PlanView(run).states[i], pc.key, pc.val, pc.err);
    assert PlanView(run).states[i] == run.states[i].plan;
  }

  lemma SharedHandsHeld(run: Run, ttl: int, n: nat, c: nat)
    requires ValidRun(run, ttl) && n < |run.states| && InShared(run.states[n], c)
    requires run.states[n].shared.value.calls[c].Returned?
    ensures forall i :: 0 <= i < |run.states| ==> run.states[i].shared.Some?
    ensures var pc := run.states[n].shared.value.calls[c];
            exists i :: i <= n && Inside(SharedView(run), c, i) &&
                        Explains(run.states[i].shared.value, pc.key, pc.val, pc.err)
  {
    SharedThroughout(run, ttl, n);
    SharedViewPauses(run, ttl);
    ViewReturnsHeld(SharedView(run), n, c);
    var pc := run.states[n].shared.value.calls[c];
    var i :| i <= n && Inside(SharedView(run), c, i) && Explains(SharedView(run).states[i], pc.key, pc.val, pc.err);
    assert SharedView(run).states[i] == run.states[i].shared.value;
  }
}
