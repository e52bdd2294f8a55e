// The protocol of internal/ttlcache/cache.go as a transition system: any number
// of concurrent Get calls, each a program counter, interleaved at the points
// where the source takes its mutex or touches a flight without it.
module Singleflight {
  import opened Outcomes

  // One cached value. `until` is meaningless when the TTL is 0.
  datatype Entry<V> = Entry(val: V, until: int, have: bool)

  // One flight. `done` is the WaitGroup counter at zero; `key` and `owner` are
  // history: the key it was created for and the call that created it.
  datatype FlightState<K, V, E> = FlightState(key: K, owner: nat, val: V, err: Option<E>, done: bool)

  // Where one Get call stands, with the local variables it still needs.
  datatype Pc<K, V, E, F> =
    | Entered(key: K)
    | Waiting(key: K, f: F)
    | Loading(key: K, f: F, stale: Option<Entry<V>>)
    | Loaded(key: K, f: F, val: V)
    | Failed(key: K, f: F, stale: Option<Entry<V>>, error: E)
    | Stored(key: K, f: F, val: V)
    | Published(key: K, f: F, val: V, err: Option<E>)
    | Released(key: K, f: F, val: V, err: Option<E>)
    | Returned(key: K, val: V, err: Option<E>)
  {
    // The call created the flight `f` and has not deleted it yet.
    predicate Leads() {
      Loading? || Loaded? || Failed? || Stored? || Published? || Released?
    }

    // The load of this leader has not been stored and its outcome not published.
    predicate Unsettled() {
      Loading? || Loaded? || Failed?
    }
  }

  datatype State<K, V, E, F> = State(
    ttl: int,
    zero: V,
    now: int,
    entries: map<K, Entry<V>>,
    inflight: map<K, F>,
    flights: map<F, FlightState<K, V, E>>,
    calls: map<nat, Pc<K, V, E, F>>)

  datatype Action<K, V, E, F> =
    | Invoke(key: K)       // a goroutine calls Get(key)
    | Consult(flight: F)   // the first locked section: hit, join, or lead with the new `flight`
    | LoadOk(val: V)       // load returned a value
    | LoadErr(error: E)    // load returned an error
    | Store                // the second locked section writes the entry
    | Publish              // f.val and f.err are written, without the lock
    | Release              // wg.Done
    | Delete               // the third locked section deletes the flight
    | Wake                 // a waiter's wg.Wait returns
    | Tick(delta: nat)     // time passes

  datatype Label<K, V, E, F> = Label(call: nat, action: Action<K, V, E, F>)

  function Fresh<V>(ttl: int, now: int, e: Entry<V>): bool {
    e.have && ttl > 0 && now < e.until
  }

  // What a leader whose load failed returns and publishes.
  function Fallback<V>(stale: Option<Entry<V>>, zero: V): V {
    if stale.Some? && stale.value.have then stale.value.val else zero
  }

  ghost predicate Enabled<K, V, E, F>(s: State<K, V, E, F>, l: Label<K, V, E, F>) {
    match l.action
    case Tick(_) => true
    case Invoke(_) => l.call !in s.calls
    case Consult(f) => l.call in s.calls && s.calls[l.call].Entered? && f !in s.flights
    case LoadOk(_) => l.call in s.calls && s.calls[l.call].Loading?
    case LoadErr(_) => l.call in s.calls && s.calls[l.call].Loading?
    case Store => l.call in s.calls && s.calls[l.call].Loaded?
    case Publish =>
      l.call in s.calls && (s.calls[l.call].Stored? || s.calls[l.call].Failed?) && s.calls[l.call].f in s.flights
    case Release => l.call in s.calls && s.calls[l.call].Published? && s.calls[l.call].f in s.flights
    case Delete => l.call in s.calls && s.calls[l.call].Released?
    case Wake =>
      l.call in s.calls && s.calls[l.call].Waiting? && s.calls[l.call].f in s.flights &&
      s.flights[s.calls[l.call].f].done
  }

  ghost function Apply<K, V, E, F>(s: State<K, V, E, F>, l: Label<K, V, E, F>): State<K, V, E, F>
    requires Enabled(s, l)
  {
    match l.action
    case Tick(d) => s.(now := s.now + d)
    case Invoke(k) => s.(calls := s.calls[l.call := Entered(k)])
    case Consult(f) =>
      var k := s.calls[l.call].key;
      if k in s.entries && Fresh(s.ttl, s.now, s.entries[k]) then
        s.(calls := s.calls[l.call := Returned(k, s.entries[k].val, None)])
      else if k in s.inflight then
        s.(calls := s.calls[l.call := Waiting(k, s.inflight[k])])
      else
        s.(inflight := s.inflight[k := f],
           flights := s.flights[f := FlightState(k, l.call, s.zero, None, false)],
           calls := s.calls[l.call := Loading(k, f, Lookup(s.entries, k))])
    case LoadOk(v) =>
      var pc := s.calls[l.call];
      s.(calls := s.calls[l.call := Loaded(pc.key, pc.f, v)])
    case LoadErr(e) =>
      var pc := s.calls[l.call];
      s.(calls := s.calls[l.call := Failed(pc.key, pc.f, pc.stale, e)])
    case Store =>
      var pc := s.calls[l.call];
      s.(entries := s.entries[pc.key := Entry(pc.val, if s.ttl > 0 then s.now + s.ttl else 0, true)],
         calls := s.calls[l.call := Stored(pc.key, pc.f, pc.val)])
    case Publish =>
      var pc := s.calls[l.call];
      var val := if pc.Stored? then pc.val else Fallback(pc.stale, s.zero);
      var err := if pc.Stored? then None else Some(pc.error);
      s.(flights := s.flights[pc.f := s.flights[pc.f].(val := val, err := err)],
         calls := s.calls[l.call := Published(pc.key, pc.f, val, err)])
    case Release =>
      var pc := s.calls[l.call];
      s.(flights := s.flights[pc.f := s.flights[pc.f].(done := true)],
         calls := s.calls[l.call := Released(pc.key, pc.f, pc.val, pc.err)])
    case Delete =>
      var pc := s.calls[l.call];
      s.(inflight := s.inflight - {pc.key},
         calls := s.calls[l.call := Returned(pc.key, pc.val, pc.err)])
    case Wake =>
      var pc := s.calls[l.call];
      s.(calls := s.calls[l.call := Returned(pc.key, s.flights[pc.f].val, s.flights[pc.f].err)])
  }

  ghost predicate Initial<K, V, E, F>(s: State<K, V, E, F>) {
    s.ttl >= 0 && s.entries == map[] && s.inflight == map[] && s.flights == map[] && s.calls == map[]
  }

  // ---------------------------------------------------------------- invariant

  // `val` is what key `k` holds right now, or the zero value that goes with an
  // error when `k` holds nothing.
  ghost predicate Explains<K, V, E, F>(s: State<K, V, E, F>, k: K, val: V, err: Option<E>) {
    if k in s.entries then s.entries[k].val == val else val == s.zero && err.Some?
  }

  ghost predicate LeaderOk<K, V, E, F>(s: State<K, V, E, F>, c: nat, pc: Pc<K, V, E, F>)
    requires pc.Leads()
  {
    && pc.key in s.inflight && s.inflight[pc.key] == pc.f
    && pc.f in s.flights && s.flights[pc.f].owner == c && s.flights[pc.f].key == pc.key
    && (s.flights[pc.f].done <==> pc.Released?)
    // the entry is still what the leader saw, and it has expired
    && (pc.Loading? || pc.Failed? ==> pc.stale == Lookup(s.entries, pc.key))
    && (pc.Unsettled() && s.ttl > 0 && pc.key in s.entries ==> s.now >= s.entries[pc.key].until)
    // once settled, the entry is what the flight delivers
    && (pc.Stored? ==> pc.key in s.entries && s.entries[pc.key].val == pc.val)
    && (pc.Published? || pc.Released? ==>
          s.flights[pc.f].val == pc.val && s.flights[pc.f].err == pc.err &&
          Explains(s, pc.key, pc.val, pc.err))
  }

  ghost predicate LeadersOk<K, V, E, F>(s: State<K, V, E, F>) {
    forall c :: c in s.calls && s.calls[c].Leads() ==> LeaderOk(s, c, s.calls[c])
  }

  // The flight of key k is flown by the call that created it.
  ghost predicate Flown<K, V, E, F>(s: State<K, V, E, F>, k: K)
    requires k in s.inflight
  {
    s.inflight[k] in s.flights &&
    var c := s.flights[s.inflight[k]].owner;
    c in s.calls && s.calls[c].Leads() && s.calls[c].f == s.inflight[k] && s.calls[c].key == k
  }

  ghost predicate InflightOk<K, V, E, F>(s: State<K, V, E, F>) {
    forall k :: k in s.inflight ==> Flown(s, k)
  }

  // A flight somebody may still be waiting for is in the table.
  ghost predicate FlightsOk<K, V, E, F>(s: State<K, V, E, F>) {
    forall f :: f in s.flights && !s.flights[f].done ==>
      s.flights[f].key in s.inflight && s.inflight[s.flights[f].key] == f
  }

  ghost predicate WaitersOk<K, V, E, F>(s: State<K, V, E, F>) {
    forall c :: c in s.calls && s.calls[c].Waiting? ==>
      s.calls[c].f in s.flights && s.flights[s.calls[c].f].key == s.calls[c].key
  }

  ghost predicate Inv<K, V, E, F>(s: State<K, V, E, F>) {
    && s.ttl >= 0
    && (forall k :: k in s.entries ==> s.entries[k].have)
    && LeadersOk(s) && InflightOk(s) && FlightsOk(s) && WaitersOk(s)
  }

  lemma InitialInv<K, V, E, F>(s: State<K, V, E, F>)
    requires Initial(s)
    ensures Inv(s)
  {
  }

  // Two calls never lead for the same key or with the same flight.
  lemma OneLeaderPerKey<K, V, E, F>(s: State<K, V, E, F>, c: nat, d: nat)
    requires LeadersOk(s)
    requires c in s.calls && s.calls[c].Leads() && d in s.calls && s.calls[d].Leads()
    requires s.calls[c].key == s.calls[d].key || s.calls[c].f == s.calls[d].f
    ensures c == d
  {
    assert LeaderOk(s, c, s.calls[c]) && LeaderOk(s, d, s.calls[d]);
  }

  // Every step but a tick updates the one call that takes it.
  lemma OneCallMoves<K, V, E, F>(s: State<K, V, E, F>, l: Label<K, V, E, F>)
    requires Enabled(s, l)
    ensures l.action.Tick? ==> Apply(s, l).calls == s.calls
    ensures !l.action.Tick? ==>
              l.call in Apply(s, l).calls && Apply(s, l).calls == s.calls[l.call := Apply(s, l).calls[l.call]]
  {
    match l.action {
      case Consult(_) =>
      case Publish =>
      case _ =>
    }
  }

  lemma ActorKeepsKey<K, V, E, F>(s: State<K, V, E, F>, l: Label<K, V, E, F>)
    requires Enabled(s, l) && !l.action.Tick? && l.call in s.calls
    ensures l.call in Apply(s, l).calls && Apply(s, l).calls[l.call].key == s.calls[l.call].key
    ensures !s.calls[l.call].Returned?
  {
  }

  // A call keeps its key, and does not change but by its own steps, which end
  // with its return.
  lemma CallsKept<K, V, E, F>(s: State<K, V, E, F>, l: Label<K, V, E, F>, c: nat)
    requires Enabled(s, l) && c in s.calls
    ensures c in Apply(s, l).calls && Apply(s, l).calls[c].key == s.calls[c].key
    ensures s.calls[c].Returned? || l.action.Tick? || l.call != c ==> Apply(s, l).calls[c] == s.calls[c]
  {
    OneCallMoves(s, l);
    if !l.action.Tick? && l.call == c {
      ActorKeepsKey(s, l);
    }
  }

  // A store writes the entry of its own key, and nothing else writes entries.
  lemma EntryFrame<K, V, E, F>(s: State<K, V, E, F>, l: Label<K, V, E, F>, k: K)
    requires Enabled(s, l) && (l.call in s.calls && s.calls[l.call].Leads() ==> s.calls[l.call].key != k)
    ensures Lookup(Apply(s, l).entries, k) == Lookup(s.entries, k)
  {
  }

  // A flight in the table stays there until its leader deletes it.
  lemma TableFrame<K, V, E, F>(s: State<K, V, E, F>, l: Label<K, V, E, F>, k: K)
    requires Enabled(s, l) && k in s.inflight
    requires l.call in s.calls && s.calls[l.call].Leads() ==> s.calls[l.call].key != k
    ensures k in Apply(s, l).inflight && Apply(s, l).inflight[k] == s.inflight[k]
  {
  }

  // A flight is written by its leader only.
  lemma FlightFrame<K, V, E, F>(s: State<K, V, E, F>, l: Label<K, V, E, F>, f: F)
    requires Enabled(s, l) && f in s.flights
    requires l.call in s.calls && s.calls[l.call].Leads() ==> s.calls[l.call].f != f
    ensures f in Apply(s, l).flights && Apply(s, l).flights[f] == s.flights[f]
  {
  }

  lemma ClockFrame<K, V, E, F>(s: State<K, V, E, F>, l: Label<K, V, E, F>)
    requires Enabled(s, l)
    ensures Apply(s, l).ttl == s.ttl && Apply(s, l).zero == s.zero && Apply(s, l).now >= s.now
  {
  }

  lemma OtherLeaderKept<K, V, E, F>(s: State<K, V, E, F>, l: Label<K, V, E, F>, c: nat)
    requires Enabled(s, l)
    requires c in s.calls && s.calls[c].Leads() && LeaderOk(s, c, s.calls[c]) && c != l.call
    requires l.call in s.calls && s.calls[l.call].Leads() ==>
               s.calls[l.call].key != s.calls[c].key && s.calls[l.call].f != s.calls[c].f
    ensures c in Apply(s, l).calls && Apply(s, l).calls[c] == s.calls[c]
    ensures LeaderOk(Apply(s, l), c, s.calls[c])
  {
    var t := Apply(s, l);
    var k := s.calls[c].key;
    OneCallMoves(s, l);
    EntryFrame(s, l, k);
    TableFrame(s, l, k);
    FlightFrame(s, l, s.calls[c].f);
    ClockFrame(s, l);
    assert k in t.entries <==> k in s.entries;
    assert k in s.entries ==> t.entries[k] == s.entries[k];
  }

  lemma LeadStarts<K, V, E, F>(s: State<K, V, E, F>, l: Label<K, V, E, F>)
    requires Enabled(s, l) && l.action.Consult? && s.ttl >= 0 && forall k :: k in s.entries ==> s.entries[k].have
    ensures Apply(s, l).calls[l.call].Leads() ==> LeaderOk(Apply(s, l), l.call, Apply(s, l).calls[l.call])
  {
  }

  lemma LeadLoads<K, V, E, F>(s: State<K, V, E, F>, l: Label<K, V, E, F>)
    requires Enabled(s, l) && (l.action.LoadOk? || l.action.LoadErr?) && LeaderOk(s, l.call, s.calls[l.call])
    ensures LeaderOk(Apply(s, l), l.call, Apply(s, l).calls[l.call])
  {
  }

  lemma LeadSettles<K, V, E, F>(s: State<K, V, E, F>, l: Label<K, V, E, F>)
    requires Enabled(s, l) && (l.action.Store? || l.action.Publish?) && LeaderOk(s, l.call, s.calls[l.call])
    requires forall k :: k in s.entries ==> s.entries[k].have
    ensures LeaderOk(Apply(s, l), l.call, Apply(s, l).calls[l.call])
  {
  }

  lemma LeadReleases<K, V, E, F>(s: State<K, V, E, F>, l: Label<K, V, E, F>)
    requires Enabled(s, l) && l.action.Release? && LeaderOk(s, l.call, s.calls[l.call])
    ensures LeaderOk(Apply(s, l), l.call, Apply(s, l).calls[l.call])
  {
  }

  lemma ActingLeaderKept<K, V, E, F>(s: State<K, V, E, F>, l: Label<K, V, E, F>)
    requires Enabled(s, l) && !l.action.Tick? && s.ttl >= 0
    requires forall k :: k in s.entries ==> s.entries[k].have
    requires l.call in s.calls && s.calls[l.call].Leads() ==> LeaderOk(s, l.call, s.calls[l.call])
    ensures Apply(s, l).calls[l.call].Leads() ==> LeaderOk(Apply(s, l), l.call, Apply(s, l).calls[l.call])
  {
    match l.action {
      case Consult(_) => LeadStarts(s, l);
      case LoadOk(_) => LeadLoads(s, l);
      case LoadErr(_) => LeadLoads(s, l);
      case Store => LeadSettles(s, l);
      case Publish => LeadSettles(s, l);
      case Release => LeadReleases(s, l);
      case _ =>
    }
  }

  lemma ApplyKeepsLeaders<K, V, E, F>(s: State<K, V, E, F>, l: Label<K, V, E, F>)
    requires Inv(s) && Enabled(s, l)
    ensures LeadersOk(Apply(s, l))
  {
    var t := Apply(s, l);
    forall c | c in t.calls && t.calls[c].Leads()
      ensures LeaderOk(t, c, t.calls[c])
    {
      if l.action.Tick? {
        assert LeaderOk(s, c, s.calls[c]);
      } else if c == l.call {
        ActingLeaderKept(s, l);
      } else {
        if l.call in s.calls && s.calls[l.call].Leads() &&
           (s.calls[l.call].key == s.calls[c].key || s.calls[l.call].f == s.calls[c].f) {
          OneLeaderPerKey(s, l.call, c);
        }
        OtherLeaderKept(s, l, c);
      }
    }
  }

  // The table gains the flight of a call that starts to lead and loses the one
  // its leader deletes.
  lemma TableMoves<K, V, E, F>(s: State<K, V, E, F>, l: Label<K, V, E, F>, k: K)
    requires Enabled(s, l) && k in Apply(s, l).inflight
    ensures k in s.inflight ==>
              Apply(s, l).inflight[k] == s.inflight[k] &&
              !(l.action.Delete? && s.calls[l.call].key == k)
    ensures k !in s.inflight ==> l.action.Consult? && Flown(Apply(s, l), k)
  {
  }

  lemma FlownKept<K, V, E, F>(s: State<K, V, E, F>, l: Label<K, V, E, F>, k: K)
    requires Enabled(s, l) && k in s.inflight && Flown(s, k)
    requires k in Apply(s, l).inflight && Apply(s, l).inflight[k] == s.inflight[k]
    requires !(l.action.Delete? && s.calls[l.call].key == k)
    ensures Flown(Apply(s, l), k)
  {
  }

  lemma ApplyKeepsInflight<K, V, E, F>(s: State<K, V, E, F>, l: Label<K, V, E, F>)
    requires InflightOk(s) && Enabled(s, l)
    ensures InflightOk(Apply(s, l))
  {
    var t := Apply(s, l);
    forall k | k in t.inflight
      ensures Flown(t, k)
    {
      TableMoves(s, l, k);
      if k in s.inflight {
        assert Flown(s, k);
        FlownKept(s, l, k);
      }
    }
  }

  lemma ApplyKeepsFlights<K, V, E, F>(s: State<K, V, E, F>, l: Label<K, V, E, F>)
    requires LeadersOk(s) && FlightsOk(s) && Enabled(s, l)
    ensures FlightsOk(Apply(s, l))
  {
    if l.call in s.calls && s.calls[l.call].Leads() {
      assert LeaderOk(s, l.call, s.calls[l.call]);
    }
  }

  lemma ApplyKeepsWaiters<K, V, E, F>(s: State<K, V, E, F>, l: Label<K, V, E, F>)
    requires LeadersOk(s) && InflightOk(s) && WaitersOk(s) && Enabled(s, l)
    ensures WaitersOk(Apply(s, l))
  {
    var t := Apply(s, l);
    forall c | c in t.calls && t.calls[c].Waiting?
      ensures t.calls[c].f in t.flights && t.flights[t.calls[c].f].key == t.calls[c].key
    {
      OneCallMoves(s, l);
      if c == l.call && l.action.Consult? {
        JoinWaits(s, l);
      } else {
        assert c in s.calls && s.calls[c] == t.calls[c];
        FlightKeyKept(s, l, s.calls[c].f);
      }
    }
  }

  lemma JoinWaits<K, V, E, F>(s: State<K, V, E, F>, l: Label<K, V, E, F>)
    requires LeadersOk(s) && InflightOk(s) && Enabled(s, l)
    requires l.action.Consult? && Apply(s, l).calls[l.call].Waiting?
    ensures var t := Apply(s, l);
            t.calls[l.call].f in t.flights && t.flights[t.calls[l.call].f].key == t.calls[l.call].key
  {
    var k := s.calls[l.call].key;
    assert Flown(s, k);
    var d := s.flights[s.inflight[k]].owner;
    assert LeaderOk(s, d, s.calls[d]);
  }

  lemma FlightKeyKept<K, V, E, F>(s: State<K, V, E, F>, l: Label<K, V, E, F>, f: F)
    requires Enabled(s, l) && f in s.flights
    ensures f in Apply(s, l).flights && Apply(s, l).flights[f].key == s.flights[f].key
  {
  }

  lemma ApplyKeepsInv<K, V, E, F>(s: State<K, V, E, F>, l: Label<K, V, E, F>)
    requires Inv(s) && Enabled(s, l)
    ensures Inv(Apply(s, l))
  {
    ApplyKeepsLeaders(s, l);
    ApplyKeepsInflight(s, l);
    ApplyKeepsFlights(s, l);
    ApplyKeepsWaiters(s, l);
    ClockFrame(s, l);
  }
}
