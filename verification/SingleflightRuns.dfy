// Whole runs of the singleflight protocol: what a Get returns, how long it can
// take, and how often a key is loaded.
module SingleflightRuns {
  import opened Outcomes
  import opened Singleflight

  datatype Trace<K, V, E, F> = Trace(states: seq<State<K, V, E, F>>, labels: seq<Label<K, V, E, F>>)

  ghost predicate ValidTrace<K, V, E, F>(tr: Trace<K, V, E, F>) {
    && |tr.states| == |tr.labels| + 1
    && Initial(tr.states[0])
    && forall i :: 0 <= i < |tr.labels| ==> StepAt(tr, i)
  }

  ghost predicate StepAt<K, V, E, F>(tr: Trace<K, V, E, F>, i: int)
    requires 0 <= i < |tr.labels| && |tr.states| == |tr.labels| + 1
  {
    Enabled(tr.states[i], tr.labels[i]) && tr.states[i + 1] == Apply(tr.states[i], tr.labels[i])
  }

  // Every reachable state is good.
  lemma {:induction false} ReachableInv<K, V, E, F>(tr: Trace<K, V, E, F>, n: nat)
    requires ValidTrace(tr) && n < |tr.states|
    ensures Inv(tr.states[n])
  {
    if n == 0 {
      InitialInv(tr.states[0]);
    } else {
      ReachableInv(tr, n - 1);
      assert StepAt(tr, n - 1);
      ApplyKeepsInv(tr.states[n - 1], tr.labels[n - 1]);
    }
  }

  // At most one call per key is between its miss and its delete, so at most one
  // load per key is running; the flight it will delete is the one it created;
  // and the stale snapshot it holds is the entry. EntryFrozen is about the time
  // until it stores.
  lemma SingleLoadPerKey<K, V, E, F>(tr: Trace<K, V, E, F>, n: nat, c: nat)
    requires ValidTrace(tr) && n < |tr.states|
    requires c in tr.states[n].calls && tr.states[n].calls[c].Leads()
    ensures var s := tr.states[n];
            var pc := s.calls[c];
            && (forall d :: d in s.calls && s.calls[d].Leads() && s.calls[d].key == pc.key ==> d == c)
            && pc.key in s.inflight && s.inflight[pc.key] == pc.f
            && pc.f in s.flights && s.flights[pc.f].owner == c
            && (pc.Loading? || pc.Failed? ==> pc.stale == Lookup(s.entries, pc.key))
  {
    ReachableInv(tr, n);
    var s := tr.states[n];
    assert LeaderOk(s, c, s.calls[c]);
    forall d | d in s.calls && s.calls[d].Leads() && s.calls[d].key == s.calls[c].key
      ensures d == c
    {
      OneLeaderPerKey(s, c, d);
    }
  }

  // ------------------------------------------------- what a Get returns

  // State i lies inside call c: at or after its invocation, and no later than
  // the state its return step produces.
  ghost predicate Within<K, V, E, F>(tr: Trace<K, V, E, F>, c: nat, i: int) {
    && 0 <= i < |tr.states|
    && c in tr.states[i].calls
    && (tr.states[i].calls[c].Returned? ==>
          i > 0 && c in tr.states[i - 1].calls && !tr.states[i - 1].calls[c].Returned?)
  }

  // A call keeps its key, and once returned never changes.
  lemma CallPersists<K, V, E, F>(tr: Trace<K, V, E, F>, i: nat, c: nat)
    requires ValidTrace(tr) && i < |tr.labels| && c in tr.states[i].calls
    ensures c in tr.states[i + 1].calls && tr.states[i + 1].calls[c].key == tr.states[i].calls[c].key
    ensures tr.states[i].calls[c].Returned? ==> tr.states[i + 1].calls[c] == tr.states[i].calls[c]
    ensures tr.states[i + 1].calls[c] != tr.states[i].calls[c] ==> tr.labels[i].call == c
  {
    assert StepAt(tr, i);
    CallsKept(tr.states[i], tr.labels[i], c);
  }

  // A flight, once done, never changes again.
  lemma DoneFlightFrozen<K, V, E, F>(s: State<K, V, E, F>, l: Label<K, V, E, F>, f: F)
    requires Inv(s) && Enabled(s, l) && f in s.flights && s.flights[f].done
    ensures f in Apply(s, l).flights && Apply(s, l).flights[f] == s.flights[f]
  {
    if l.call in s.calls && s.calls[l.call].Leads() {
      assert LeaderOk(s, l.call, s.calls[l.call]);
    }
  }

  // A flight becomes done by its leader's release, while it is in the table.
  lemma DoneByRelease<K, V, E, F>(r: State<K, V, E, F>, l: Label<K, V, E, F>, f: F)
    requires LeadersOk(r) && Enabled(r, l) && f in Apply(r, l).flights && Apply(r, l).flights[f].done
    requires !(f in r.flights && r.flights[f].done)
    ensures l.action.Release? && l.call in r.calls && r.calls[l.call].f == f
    ensures f in r.flights && LeaderOk(r, l.call, r.calls[l.call])
    ensures var t := Apply(r, l);
            && t.flights[f] == r.flights[f].(done := true)
            && t.flights[f].key in t.inflight && t.inflight[t.flights[f].key] == f
  {
    if l.call in r.calls && r.calls[l.call].Leads() {
      assert LeaderOk(r, l.call, r.calls[l.call]);
    }
  }

  // A call that joins takes a flight from the table, and it stays there.
  lemma JoinedFromTable<K, V, E, F>(r: State<K, V, E, F>, l: Label<K, V, E, F>, c: nat)
    requires Enabled(r, l) && c in Apply(r, l).calls && Apply(r, l).calls[c].Waiting?
    requires !(c in r.calls && r.calls[c] == Apply(r, l).calls[c])
    ensures var t := Apply(r, l); t.calls[c].key in t.inflight && t.inflight[t.calls[c].key] == t.calls[c].f
  {
    OneCallMoves(r, l);
  }

  // A done flight that has left the table was done one step earlier, with the
  // same contents and the same waiter.
  lemma DoneEarlier<K, V, E, F>(r: State<K, V, E, F>, l: Label<K, V, E, F>, c: nat)
    requires Inv(r) && Enabled(r, l)
    requires var t := Apply(r, l);
             && c in t.calls && t.calls[c].Waiting? && t.calls[c].f in t.flights && t.flights[t.calls[c].f].done
             && t.flights[t.calls[c].f].key == t.calls[c].key
             && !(t.calls[c].key in t.inflight && t.inflight[t.calls[c].key] == t.calls[c].f)
    ensures var t := Apply(r, l);
            && c in r.calls && r.calls[c] == t.calls[c]
            && t.calls[c].f in r.flights && r.flights[t.calls[c].f] == t.flights[t.calls[c].f]
  {
    var f := Apply(r, l).calls[c].f;
    if !(c in r.calls && r.calls[c] == Apply(r, l).calls[c]) {
      JoinedFromTable(r, l, c);
    }
    if f in r.flights && r.flights[f].done {
      DoneFlightFrozen(r, l, f);
    } else {
      DoneByRelease(r, l, f);
    }
  }

  // A call that has consulted never enters again, and one that is unsettled was
  // unsettled before its last step or has just consulted.
  lemma UnsettledBefore<K, V, E, F>(r: State<K, V, E, F>, l: Label<K, V, E, F>, c: nat)
    requires Enabled(r, l) && c in r.calls && !r.calls[c].Entered?
    ensures c in Apply(r, l).calls && !Apply(r, l).calls[c].Entered?
    ensures Apply(r, l).calls[c].Unsettled() ==> r.calls[c].Unsettled()
  {
    OneCallMoves(r, l);
  }

  // No step between a leader's miss and its store writes its key's entry.
  lemma UnsettledStep<K, V, E, F>(r: State<K, V, E, F>, l: Label<K, V, E, F>, c: nat)
    requires Inv(r) && Enabled(r, l) && c in r.calls && r.calls[c].Unsettled()
    requires c in Apply(r, l).calls && Apply(r, l).calls[c].Unsettled()
    ensures Lookup(Apply(r, l).entries, r.calls[c].key) == Lookup(r.entries, r.calls[c].key)
  {
    if l.call in r.calls && r.calls[l.call].Leads() && r.calls[l.call].key == r.calls[c].key {
      OneLeaderPerKey(r, l.call, c);
    } else {
      EntryFrame(r, l, r.calls[c].key);
    }
  }

  lemma {:induction false} StaysPastEntry<K, V, E, F>(tr: Trace<K, V, E, F>, i: nat, j: nat, c: nat)
    requires ValidTrace(tr) && i <= j < |tr.states|
    requires c in tr.states[i].calls && !tr.states[i].calls[c].Entered?
    ensures c in tr.states[j].calls && !tr.states[j].calls[c].Entered?
    ensures tr.states[j].calls[c].key == tr.states[i].calls[c].key
  {
    if i < j {
      StaysPastEntry(tr, i, j - 1, c);
      assert StepAt(tr, j - 1);
      UnsettledBefore(tr.states[j - 1], tr.labels[j - 1], c);
      CallPersists(tr, j - 1, c);
    }
  }

  lemma FrozenStep<K, V, E, F>(tr: Trace<K, V, E, F>, j: nat, c: nat)
    requires ValidTrace(tr) && j < |tr.labels| && c in tr.states[j].calls && !tr.states[j].calls[c].Entered?
    requires c in tr.states[j + 1].calls && tr.states[j + 1].calls[c].Unsettled()
    ensures tr.states[j].calls[c].Unsettled()
    ensures Lookup(tr.states[j + 1].entries, tr.states[j].calls[c].key) ==
            Lookup(tr.states[j].entries, tr.states[j].calls[c].key)
  {
    assert StepAt(tr, j);
    UnsettledBefore(tr.states[j], tr.labels[j], c);
    ReachableInv(tr, j);
    UnsettledStep(tr.states[j], tr.labels[j], c);
  }

  lemma {:induction false} FrozenBetween<K, V, E, F>(tr: Trace<K, V, E, F>, i: nat, j: nat, c: nat, k: K)
    requires ValidTrace(tr) && i <= j < |tr.states|
    requires c in tr.states[i].calls && tr.states[i].calls[c].Unsettled() && tr.states[i].calls[c].key == k
    requires c in tr.states[j].calls && tr.states[j].calls[c].Unsettled()
    ensures tr.states[j].calls[c].key == k
    ensures Lookup(tr.states[j].entries, k) == Lookup(tr.states[i].entries, k)
  {
    StaysPastEntry(tr, i, j, c);
    if i < j {
      StaysPastEntry(tr, i, j - 1, c);
      FrozenStep(tr, j - 1, c);
      FrozenBetween(tr, i, j - 1, c, k);
    }
  }

  // From its miss until its own store - while it loads, and between the load's
  // return and the store - the entry of a leader's key is frozen at the stale
  // snapshot the leader took.
  lemma EntryFrozen<K, V, E, F>(tr: Trace<K, V, E, F>, i: nat, j: nat, c: nat)
    requires ValidTrace(tr) && i <= j < |tr.states|
    requires c in tr.states[i].calls && tr.states[i].calls[c].Unsettled()
    requires c in tr.states[j].calls && tr.states[j].calls[c].Unsettled()
    ensures var k := tr.states[i].calls[c].key;
            && tr.states[j].calls[c].key == k
            && Lookup(tr.states[j].entries, k) == Lookup(tr.states[i].entries, k)
            && (tr.states[i].calls[c].Loading? ==> Lookup(tr.states[j].entries, k) == tr.states[i].calls[c].stale)
  {
    FrozenBetween(tr, i, j, c, tr.states[i].calls[c].key);
    if tr.states[i].calls[c].Loading? {
      SingleLoadPerKey(tr, i, c);
    }
  }

  // While its flight is in the table, a done flight delivers what the key holds.
  lemma TableFlightExplains<K, V, E, F>(s: State<K, V, E, F>, k: K)
    requires Inv(s) && k in s.inflight && s.inflight[k] in s.flights && s.flights[s.inflight[k]].done
    ensures Explains(s, k, s.flights[s.inflight[k]].val, s.flights[s.inflight[k]].err)
  {
    var d := s.flights[s.inflight[k]].owner;
    assert LeaderOk(s, d, s.calls[d]);
  }

  // A call waiting on a flight that is done has lived through an instant at
  // which its key held what the flight delivers, even if it joined after
  // wg.Done or the entry has been replaced since.
  lemma {:induction false} WaiterHeld<K, V, E, F>(tr: Trace<K, V, E, F>, n: nat, c: nat)
    requires ValidTrace(tr) && n < |tr.states|
    requires c in tr.states[n].calls && tr.states[n].calls[c].Waiting?
    requires tr.states[n].calls[c].f in tr.states[n].flights && tr.states[n].flights[tr.states[n].calls[c].f].done
    ensures var pc := tr.states[n].calls[c];
            var flight := tr.states[n].flights[pc.f];
            exists i :: i <= n && Within(tr, c, i) && Explains(tr.states[i], pc.key, flight.val, flight.err)
  {
    var s := tr.states[n];
    var pc := s.calls[c];
    ReachableInv(tr, n);
    if pc.key in s.inflight && s.inflight[pc.key] == pc.f {
      TableFlightExplains(s, pc.key);
      assert Within(tr, c, n);
    } else {
      ReachableInv(tr, n - 1);
      assert StepAt(tr, n - 1);
      assert s.flights[pc.f].key == pc.key;
      DoneEarlier(tr.states[n - 1], tr.labels[n - 1], c);
      WaiterHeld(tr, n - 1, c);
    }
  }

  // The three steps by which a call returns.
  lemma ReturnsBy<K, V, E, F>(r: State<K, V, E, F>, l: Label<K, V, E, F>, c: nat)
    requires Enabled(r, l) && c in Apply(r, l).calls && Apply(r, l).calls[c].Returned?
    requires c in r.calls ==> !r.calls[c].Returned?
    ensures l.call == c && (l.action.Consult? || l.action.Wake? || l.action.Delete?)
  {
    OneCallMoves(r, l);
  }

  // A hit, or a leader's last step, returns what the key holds.
  lemma OwnReturn<K, V, E, F>(r: State<K, V, E, F>, l: Label<K, V, E, F>)
    requires LeadersOk(r) && Enabled(r, l) && (l.action.Consult? || l.action.Delete?)
    requires Apply(r, l).calls[l.call].Returned?
    ensures var pc := Apply(r, l).calls[l.call];
            l.call in r.calls && r.calls[l.call].key == pc.key && !r.calls[l.call].Waiting? &&
            Explains(r, pc.key, pc.val, pc.err)
  {
    if l.action.Delete? {
      assert LeaderOk(r, l.call, r.calls[l.call]);
    }
  }

  // The step by which a call returns: a waiter takes what its done flight
  // holds, anyone else what the key holds at that instant.
  lemma ReturnStep<K, V, E, F>(r: State<K, V, E, F>, l: Label<K, V, E, F>, c: nat)
    requires LeadersOk(r) && Enabled(r, l) && c in Apply(r, l).calls && Apply(r, l).calls[c].Returned?
    requires c in r.calls ==> !r.calls[c].Returned?
    ensures c in r.calls && r.calls[c].key == Apply(r, l).calls[c].key
    ensures var pc := Apply(r, l).calls[c];
            if r.calls[c].Waiting? then
              r.calls[c].f in r.flights && r.flights[r.calls[c].f].done &&
              r.flights[r.calls[c].f].val == pc.val && r.flights[r.calls[c].f].err == pc.err
            else Explains(r, pc.key, pc.val, pc.err)
  {
    ReturnsBy(r, l, c);
    if !l.action.Wake? {
      OwnReturn(r, l);
    }
  }

  // The linearization theorem. Every Get - hit, leader or waiter - returns the
  // value its key held at some instant inside the call; the only exception is
  // the zero value with an error, at an instant at which there was no entry.
  lemma {:induction false} GetReturnsHeldValue<K, V, E, F>(tr: Trace<K, V, E, F>, n: nat, c: nat)
    requires ValidTrace(tr) && n < |tr.states|
    requires c in tr.states[n].calls && tr.states[n].calls[c].Returned?
    ensures var pc := tr.states[n].calls[c];
            exists i :: i <= n && Within(tr, c, i) && Explains(tr.states[i], pc.key, pc.val, pc.err)
  {
    assert n > 0;
    assert StepAt(tr, n - 1);
    ReachableInv(tr, n - 1);
    var r, l := tr.states[n - 1], tr.labels[n - 1];
    if c in r.calls && r.calls[c].Returned? {
      CallPersists(tr, n - 1, c);
      GetReturnsHeldValue(tr, n - 1, c);
    } else {
      ReturnStep(r, l, c);
      assert Within(tr, c, n - 1);
      if r.calls[c].Waiting? {
        WaiterHeld(tr, n - 1, c);
      }
    }
  }

  // ------------------------------------------------- progress

  function Rank<K, V, E, F>(pc: Pc<K, V, E, F>): nat {
    match pc
    case Entered(_) => 8
    case Loading(_, _, _) => 6
    case Loaded(_, _, _) => 5
    case Failed(_, _, _, _) => 4
    case Stored(_, _, _) => 4
    case Published(_, _, _, _) => 3
    case Released(_, _, _, _) => 2
    case Waiting(_, _) => 1
    case Returned(_, _, _) => 0
  }

  ghost predicate Blocked<K, V, E, F>(s: State<K, V, E, F>, c: nat) {
    c in s.calls && s.calls[c].Waiting? && s.calls[c].f in s.flights && !s.flights[s.calls[c].f].done
  }

  // The call whose steps bring c closer to its return: c itself, or the leader
  // it waits for. A leader never waits, so the chain ends there.
  ghost function Helper<K, V, E, F>(s: State<K, V, E, F>, c: nat): nat {
    if Blocked(s, c) then s.flights[s.calls[c].f].owner else c
  }

  // How many steps of its helpers c still needs at most.
  ghost function Remaining<K, V, E, F>(s: State<K, V, E, F>, c: nat): nat
    requires c in s.calls
  {
    Rank(s.calls[c]) +
    if Blocked(s, c) && Helper(s, c) in s.calls then Rank(s.calls[Helper(s, c)]) else 0
  }

  lemma BlockedHasLeader<K, V, E, F>(s: State<K, V, E, F>, c: nat)
    requires Inv(s) && Blocked(s, c)
    ensures var h := Helper(s, c);
            h in s.calls && s.calls[h].Leads() && !s.calls[h].Released? && s.calls[h].f == s.calls[c].f &&
            LeaderOk(s, h, s.calls[h])
  {
    var f := s.calls[c].f;
    assert s.inflight[s.flights[f].key] == f;
    assert LeaderOk(s, s.flights[f].owner, s.calls[s.flights[f].owner]);
  }

  // No deadlock: the helper of an unfinished call always has a step to take.
  lemma HelperCanStep<K, V, E, F>(s: State<K, V, E, F>, c: nat, v: V, spare: F)
    requires Inv(s) && c in s.calls && !s.calls[c].Returned? && spare !in s.flights
    ensures exists a: Action<K, V, E, F> :: !a.Tick? && !a.Invoke? && Enabled(s, Label(Helper(s, c), a))
  {
    if Blocked(s, c) {
      BlockedHasLeader(s, c);
    } else if s.calls[c].Leads() {
      assert LeaderOk(s, c, s.calls[c]);
    }
    var h := Helper(s, c);
    var a: Action<K, V, E, F> := match s.calls[h]
      case Entered(_) => Consult(spare)
      case Loading(_, _, _) => LoadOk(v)
      case Loaded(_, _, _) => Store
      case Failed(_, _, _, _) => Publish
      case Stored(_, _, _) => Publish
      case Published(_, _, _, _) => Release
      case Released(_, _, _, _) => Delete
      case _ => Wake;
    assert Enabled(s, Label(h, a));
  }

  ghost predicate ActsFor<K, V, E, F>(s: State<K, V, E, F>, l: Label<K, V, E, F>, c: nat) {
    c in s.calls && !s.calls[c].Returned? && !l.action.Tick? && l.call == Helper(s, c)
  }

  // Joining costs one rank more than the leader has left.
  lemma ConsultApproaches<K, V, E, F>(s: State<K, V, E, F>, l: Label<K, V, E, F>)
    requires Inv(s) && Enabled(s, l) && l.action.Consult?
    ensures l.call in Apply(s, l).calls && Remaining(Apply(s, l), l.call) < 8
  {
    var t := Apply(s, l);
    if Blocked(t, l.call) {
      ApplyKeepsInv(s, l);
      BlockedHasLeader(t, l.call);
    }
  }

  lemma BlockedCannotStep<K, V, E, F>(s: State<K, V, E, F>, l: Label<K, V, E, F>)
    requires Enabled(s, l) && !l.action.Tick?
    ensures !Blocked(s, l.call)
  {
  }

  // Every other step of a call lowers its rank and leaves it waiting for nobody.
  lemma RankFalls<K, V, E, F>(s: State<K, V, E, F>, l: Label<K, V, E, F>)
    requires Enabled(s, l) && !l.action.Tick? && !l.action.Consult? && l.call in s.calls
    ensures l.call in Apply(s, l).calls && !Apply(s, l).calls[l.call].Waiting?
    ensures Rank(Apply(s, l).calls[l.call]) < Rank(s.calls[l.call])
  {
  }

  // A call's own step.
  lemma OwnStepApproaches<K, V, E, F>(s: State<K, V, E, F>, l: Label<K, V, E, F>)
    requires Inv(s) && Enabled(s, l) && !l.action.Tick? && l.call in s.calls
    ensures l.call in Apply(s, l).calls && !Blocked(s, l.call)
    ensures Remaining(Apply(s, l), l.call) < Remaining(s, l.call)
  {
    BlockedCannotStep(s, l);
    if l.action.Consult? {
      ConsultApproaches(s, l);
    } else {
      RankFalls(s, l);
    }
  }

  // A leader's step, seen from a call that waits for it.
  lemma LeaderStepApproaches<K, V, E, F>(s: State<K, V, E, F>, l: Label<K, V, E, F>, c: nat)
    requires Inv(s) && Enabled(s, l) && !l.action.Tick? && Blocked(s, c) && l.call == Helper(s, c)
    ensures c in Apply(s, l).calls
    ensures Remaining(Apply(s, l), c) < Remaining(s, c)
  {
    BlockedHasLeader(s, c);
  }

  // The flight c waits for is not touched by a step of neither c nor its leader.
  lemma WaitedFlightKept<K, V, E, F>(s: State<K, V, E, F>, l: Label<K, V, E, F>, c: nat)
    requires Inv(s) && Enabled(s, l) && c in s.calls && s.calls[c].Waiting?
    requires l.action.Tick? || (l.call != c && l.call != Helper(s, c))
    ensures s.calls[c].f in s.flights && s.calls[c].f in Apply(s, l).flights
    ensures Apply(s, l).flights[s.calls[c].f] == s.flights[s.calls[c].f]
  {
    var f := s.calls[c].f;
    if s.flights[f].done {
      DoneFlightFrozen(s, l, f);
    } else {
      BlockedHasLeader(s, c);
      if l.call in s.calls && s.calls[l.call].Leads() && s.calls[l.call].f == f {
        if l.action.Tick? {
          assert Apply(s, l).flights == s.flights;
        } else {
          OneLeaderPerKey(s, l.call, Helper(s, c));
        }
      } else {
        FlightFrame(s, l, f);
      }
    }
  }

  // A step of neither c nor its leader does not touch what c waits for.
  lemma OtherStepKeeps<K, V, E, F>(s: State<K, V, E, F>, l: Label<K, V, E, F>, c: nat)
    requires Inv(s) && Enabled(s, l) && c in s.calls
    requires l.action.Tick? || (l.call != c && l.call != Helper(s, c))
    ensures c in Apply(s, l).calls && Apply(s, l).calls[c] == s.calls[c]
    ensures Helper(Apply(s, l), c) == Helper(s, c)
    ensures Remaining(Apply(s, l), c) == Remaining(s, c)
  {
    CallsKept(s, l, c);
    if s.calls[c].Waiting? {
      WaitedFlightKept(s, l, c);
      if Blocked(s, c) {
        BlockedHasLeader(s, c);
        CallsKept(s, l, Helper(s, c));
      }
    }
  }

  // Nobody's step sets c back, and every step of its helper brings it closer.
  lemma StepApproaches<K, V, E, F>(s: State<K, V, E, F>, l: Label<K, V, E, F>, c: nat)
    requires Inv(s) && Enabled(s, l) && c in s.calls
    ensures c in Apply(s, l).calls
    ensures Remaining(Apply(s, l), c) + (if ActsFor(s, l, c) then 1 else 0) <= Remaining(s, c)
  {
    if l.action.Tick? {
      OtherStepKeeps(s, l, c);
    } else if l.call == c {
      OwnStepApproaches(s, l);
    } else if Blocked(s, c) && l.call == Helper(s, c) {
      LeaderStepApproaches(s, l, c);
    } else {
      OtherStepKeeps(s, l, c);
    }
  }

  // The number of steps c's helpers take between states i and j.
  ghost function HelperSteps<K, V, E, F>(tr: Trace<K, V, E, F>, i: nat, j: nat, c: nat): nat
    requires |tr.states| == |tr.labels| + 1 && i <= j < |tr.states|
  {
    if i == j then 0
    else HelperSteps(tr, i, j - 1, c) + if ActsFor(tr.states[j - 1], tr.labels[j - 1], c) then 1 else 0
  }

  lemma RemainingBound<K, V, E, F>(s: State<K, V, E, F>, c: nat)
    requires Inv(s) && c in s.calls
    ensures Remaining(s, c) <= 8
    ensures Remaining(s, c) == 0 ==> s.calls[c].Returned?
  {
    if Blocked(s, c) {
      BlockedHasLeader(s, c);
    }
  }

  lemma {:induction false} RunApproaches<K, V, E, F>(tr: Trace<K, V, E, F>, i: nat, j: nat, c: nat)
    requires ValidTrace(tr) && i <= j < |tr.states| && c in tr.states[i].calls
    ensures c in tr.states[j].calls
    ensures Remaining(tr.states[j], c) + HelperSteps(tr, i, j, c) <= Remaining(tr.states[i], c)
  {
    if i < j {
      RunApproaches(tr, i, j - 1, c);
      ReachableInv(tr, j - 1);
      assert StepAt(tr, j - 1);
      StepApproaches(tr.states[j - 1], tr.labels[j - 1], c);
    }
  }

  // Bounded completion: whatever the other calls do, a Get has returned once
  // its helpers have taken eight steps.
  lemma GetCompletes<K, V, E, F>(tr: Trace<K, V, E, F>, i: nat, j: nat, c: nat)
    requires ValidTrace(tr) && i <= j < |tr.states| && c in tr.states[i].calls
    ensures c in tr.states[j].calls
    ensures Remaining(tr.states[j], c) + HelperSteps(tr, i, j, c) <= Remaining(tr.states[i], c)
    ensures HelperSteps(tr, i, j, c) <= 8
    ensures HelperSteps(tr, i, j, c) == 8 ==> tr.states[j].calls[c].Returned?
  {
    RunApproaches(tr, i, j, c);
    ReachableInv(tr, i);
    RemainingBound(tr.states[i], c);
    ReachableInv(tr, j);
    RemainingBound(tr.states[j], c);
  }

  // ------------------------------------------------- load rate

  lemma {:induction false} TtlConstant<K, V, E, F>(tr: Trace<K, V, E, F>, n: nat)
    requires ValidTrace(tr) && n < |tr.states|
    ensures tr.states[n].ttl == tr.states[0].ttl && tr.states[n].zero == tr.states[0].zero
    ensures tr.states[n].now >= tr.states[0].now
  {
    if n > 0 {
      assert StepAt(tr, n - 1);
      TtlConstant(tr, n - 1);
      ClockFrame(tr.states[n - 1], tr.labels[n - 1]);
    }
  }

  ghost predicate StoresKey<K, V, E, F>(s: State<K, V, E, F>, l: Label<K, V, E, F>, k: K) {
    l.action.Store? && l.call in s.calls && s.calls[l.call].key == k
  }

  // The clock readings at which key k was stored, oldest first.
  ghost function StoreTimes<K, V, E, F>(tr: Trace<K, V, E, F>, k: K, n: nat): seq<int>
    requires |tr.states| == |tr.labels| + 1 && n < |tr.states|
  {
    if n == 0 then []
    else
      StoreTimes(tr, k, n - 1) +
      if StoresKey(tr.states[n - 1], tr.labels[n - 1], k) then [tr.states[n - 1].now] else []
  }

  // One step: the entry of k changes only when k is stored, and a store finds
  // the previous entry expired.
  lemma StoreStep<K, V, E, F>(s: State<K, V, E, F>, l: Label<K, V, E, F>, k: K)
    requires Inv(s) && Enabled(s, l) && s.ttl > 0
    ensures StoresKey(s, l, k) ==>
              && k in Apply(s, l).entries && Apply(s, l).entries[k].until == s.now + s.ttl
              && (k in s.entries ==> s.now >= s.entries[k].until)
    ensures !StoresKey(s, l, k) ==> Lookup(Apply(s, l).entries, k) == Lookup(s.entries, k)
  {
    if StoresKey(s, l, k) {
      assert LeaderOk(s, l.call, s.calls[l.call]);
    }
  }

  // Successive successful loads of one key are stored at least a TTL apart,
  // and the entry always carries the last store time plus the TTL.
  lemma {:induction false} StoresAreSpaced<K, V, E, F>(tr: Trace<K, V, E, F>, k: K, n: nat)
    requires ValidTrace(tr) && n < |tr.states| && tr.states[0].ttl > 0
    ensures var times := StoreTimes(tr, k, n);
            && (k in tr.states[n].entries <==> times != [])
            && (times != [] ==> tr.states[n].entries[k].until == times[|times| - 1] + tr.states[0].ttl)
            && forall i :: 0 <= i < |times| - 1 ==> times[i] + tr.states[0].ttl <= times[i + 1]
  {
    if n > 0 {
      assert StepAt(tr, n - 1);
      StoresAreSpaced(tr, k, n - 1);
      ReachableInv(tr, n - 1);
      TtlConstant(tr, n - 1);
      StoreStep(tr.states[n - 1], tr.labels[n - 1], k);
      assert Lookup(tr.states[n].entries, k).Some? <==> k in tr.states[n].entries;
    }
  }

  lemma {:induction false} SpacedSpan(times: seq<int>, ttl: int)
    requires times != [] && forall i :: 0 <= i < |times| - 1 ==> times[i] + ttl <= times[i + 1]
    ensures times[|times| - 1] - times[0] >= (|times| - 1) * ttl
  {
    if |times| > 1 {
      var init := times[..|times| - 1];
      SpacedSpan(init, ttl);
      assert times[|times| - 2] + ttl <= times[|times| - 2 + 1];
      assert (|times| - 1) * ttl == (|times| - 2) * ttl + ttl;
    }
  }

  // n successful loads of one key span at least (n - 1) TTLs.
  lemma LoadRate<K, V, E, F>(tr: Trace<K, V, E, F>, k: K, n: nat)
    requires ValidTrace(tr) && n < |tr.states| && tr.states[0].ttl > 0
    ensures var times := StoreTimes(tr, k, n);
            times != [] ==> times[|times| - 1] - times[0] >= (|times| - 1) * tr.states[0].ttl
  {
    StoresAreSpaced(tr, k, n);
    if StoreTimes(tr, k, n) != [] {
      SpacedSpan(StoreTimes(tr, k, n), tr.states[0].ttl);
    }
  }

  // A hit returns a value stored less than a TTL ago; with TTL 0 nothing hits.
  lemma HitsAreYoung<K, V, E, F>(tr: Trace<K, V, E, F>, n: nat)
    requires ValidTrace(tr) && n < |tr.labels| && tr.labels[n].action.Consult?
    requires tr.labels[n].call in tr.states[n + 1].calls && tr.states[n + 1].calls[tr.labels[n].call].Returned?
    ensures var pc := tr.states[n + 1].calls[tr.labels[n].call];
            var times := StoreTimes(tr, pc.key, n);
            && tr.states[0].ttl > 0
            && times != [] && tr.states[n].now - times[|times| - 1] < tr.states[0].ttl
            && pc.key in tr.states[n].entries && tr.states[n].entries[pc.key].val == pc.val && pc.err.None?
  {
    assert StepAt(tr, n);
    TtlConstant(tr, n);
    StoresAreSpaced(tr, tr.states[n].calls[tr.labels[n].call].key, n);
  }

  // And every call that comes less than a TTL after its key's last store hits:
  // the first locked section answers at once exactly then.
  lemma HitsExactly<K, V, E, F>(tr: Trace<K, V, E, F>, n: nat)
    requires ValidTrace(tr) && n < |tr.labels| && tr.labels[n].action.Consult?
    ensures tr.labels[n].call in tr.states[n].calls && tr.labels[n].call in tr.states[n + 1].calls
    ensures var c := tr.labels[n].call;
            var times := StoreTimes(tr, tr.states[n].calls[c].key, n);
            tr.states[n + 1].calls[c].Returned? <==>
              tr.states[0].ttl > 0 && times != [] && tr.states[n].now - times[|times| - 1] < tr.states[0].ttl
  {
    assert StepAt(tr, n);
    var k := tr.states[n].calls[tr.labels[n].call].key;
    ReachableInv(tr, n);
    TtlConstant(tr, n);
    if tr.states[0].ttl > 0 {
      StoresAreSpaced(tr, k, n);
    }
  }

  // Stale on error, for every TTL: a failed load delivers the entry the key
  // still holds, expired or not, together with the error.
  lemma StaleOnError<K, V, E, F>(tr: Trace<K, V, E, F>, n: nat)
    requires ValidTrace(tr) && n < |tr.labels| && tr.labels[n].action.Publish?
    requires tr.labels[n].call in tr.states[n].calls && tr.states[n].calls[tr.labels[n].call].Failed?
    ensures var r, t, c := tr.states[n], tr.states[n + 1], tr.labels[n].call;
            && c in t.calls && t.calls[c].Published?
            && t.calls[c].key == r.calls[c].key && t.calls[c].err == Some(r.calls[c].error)
            && t.calls[c].val == (if r.calls[c].key in r.entries then r.entries[r.calls[c].key].val else r.zero)
  {
    assert StepAt(tr, n);
    ReachableInv(tr, n);
    var c := tr.labels[n].call;
    assert LeaderOk(tr.states[n], c, tr.states[n].calls[c]);
  }
}
