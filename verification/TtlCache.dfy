// internal/ttlcache/cache.go in its own form: the Cache object with its two
// maps, the flight objects that leaders and waiters share, and one method per
// section of Get. Each method is a step of the protocol in Singleflight, which
// is where the properties of whole runs are proved.
module TtlCache {
  import opened Outcomes
  import opened Singleflight

  class Flight<K, V, E> {
    var val: V
    var err: Option<E>
    var done: bool
    ghost const key: K
    ghost const owner: nat

    constructor (zero: V, ghost key: K, ghost owner: nat)
      ensures val == zero && err == None && !done && this.key == key && this.owner == owner
    {
      val, err, done := zero, None, false;
      this.key, this.owner := key, owner;
    }

    ghost function Abstract(): FlightState<K, V, E>
      reads this
    {
      FlightState(key, owner, val, err, done)
    }
  }

  // The three ways out of Get's first locked section.
  datatype Consulted<K, V, E> =
    | Hit(val: V)
    | Join(f: Flight<K, V, E>)
    | Lead(f: Flight<K, V, E>, stale: Option<Entry<V>>)

  type CacheState<K, V, E> = State<K, V, E, Flight<K, V, E>>

  class Cache<K(==), V, E> {
    const ttl: int
    const zero: V
    var entries: map<K, Entry<V>>
    var inflight: map<K, Flight<K, V, E>>
    ghost var now: int
    ghost var flights: set<Flight<K, V, E>>
    ghost var calls: map<nat, Pc<K, V, E, Flight<K, V, E>>>

    ghost function Abstract(): CacheState<K, V, E>
      reads this, flights
    {
      State(ttl, zero, now, entries, inflight, map f | f in flights :: f.Abstract(), calls)
    }

    constructor (ttl: int, zero: V, ghost start: int)
      ensures Initial(Abstract()) && fresh(flights)
      ensures this.ttl == (if ttl < 0 then 0 else ttl) && this.zero == zero && now == start
    {
      this.ttl := if ttl < 0 then 0 else ttl;
      this.zero := zero;
      entries, inflight := map[], map[];
      now, flights, calls := start, {}, map[];
    }

    // A goroutine calls Get(key).
    ghost method Enter(c: nat, key: K)
      requires c !in calls
      modifies this`calls
      ensures Abstract() == Apply(old(Abstract()), Label(c, Invoke(key)))
      ensures calls == old(calls)[c := Entered(key)]
    {
      calls := calls[c := Entered(key)];
    }

    // The end of the first locked section for a call that misses and leads.
    method StartFlight(ghost c: nat, key: K) returns (f: Flight<K, V, E>)
      requires c in calls && calls[c] == Entered(key)
      requires !(key in entries && Fresh(ttl, now, entries[key])) && key !in inflight
      modifies this`inflight, this`flights, this`calls
      ensures fresh(f) && flights == old(flights) + {f} && inflight == old(inflight)[key := f]
      ensures calls == old(calls)[c := Loading(key, f, Lookup(entries, key))]
      ensures Abstract() == Apply(old(Abstract()), Label(c, Action.Consult(f)))
    {
      f := new Flight(zero, key, c);
      inflight := inflight[key := f];
      flights := flights + {f};
      calls := calls[c := Loading(key, f, Lookup(entries, key))];
    }

    // Get's first locked section, with the clock at t: one protocol step, for
    // the flight this call creates if it leads, for any unused one otherwise.
    method Consult(ghost c: nat, key: K, t: int) returns (r: Consulted<K, V, E>)
      requires c in calls && calls[c] == Entered(key) && t >= now
      modifies this`now, this`inflight, this`flights, this`calls
      ensures r.Lead? ==> fresh(r.f) && flights == old(flights) + {r.f}
      ensures !r.Lead? ==> flights == old(flights)
      ensures forall f :: f !in old(flights) && (r.Lead? ==> f == r.f) ==>
                Abstract() == Apply(old(Abstract()).(now := t), Label(c, Action.Consult(f)))
      ensures r.Hit? <==> key in entries && Fresh(ttl, t, entries[key])
      ensures r.Join? <==> !r.Hit? && key in old(inflight)
      ensures inflight == if r.Lead? then old(inflight)[key := r.f] else old(inflight)
      ensures calls == old(calls)[c := match r
                case Hit(v) => Returned(key, v, None)
                case Join(f) => Waiting(key, f)
                case Lead(f, stale) => Loading(key, f, stale)]
      ensures r.Hit? ==> r.val == entries[key].val
      ensures r.Lead? ==> r.stale == Lookup(entries, key)
    {
      now := t;
      if key in entries && Fresh(ttl, t, entries[key]) {
        r := Hit(entries[key].val);
        calls := calls[c := Returned(key, entries[key].val, None)];
      } else if key in inflight {
        r := Join(inflight[key]);
        calls := calls[c := Waiting(key, inflight[key])];
      } else {
        assert Abstract() == old(Abstract()).(now := t);
        var f := StartFlight(c, key);
        r := Lead(f, Lookup(entries, key));
      }
    }

    // The unlocked call of load comes back.
    ghost method LoadReturns(c: nat, r: Result<V, E>)
      requires c in calls && calls[c].Loading?
      modifies this`calls
      ensures Abstract() == Apply(old(Abstract()), Label(c, if r.Ok? then LoadOk(r.value) else LoadErr(r.error)))
      ensures var pc := old(calls[c]);
              calls == old(calls)[c := if r.Ok? then Loaded(pc.key, pc.f, r.value)
                                       else Failed(pc.key, pc.f, pc.stale, r.error)]
    {
      var pc := calls[c];
      calls := calls[c := if r.Ok? then Loaded(pc.key, pc.f, r.value) else Failed(pc.key, pc.f, pc.stale, r.error)];
    }

    // The second locked section, with the clock at t.
    method StoreEntry(ghost c: nat, key: K, val: V, t: int)
      requires c in calls && calls[c].Loaded? && calls[c].key == key && calls[c].val == val && t >= now
      modifies this`now, this`entries, this`calls
      ensures Abstract() == Apply(old(Abstract()).(now := t), Label(c, Store))
      ensures now == t && entries == old(entries)[key := Entry(val, if ttl > 0 then t + ttl else 0, true)]
      ensures calls == old(calls)[c := Stored(key, old(calls[c]).f, val)]
    {
      now := t;
      var e := Entry(val, 0, true);
      if ttl > 0 {
        e := e.(until := t + ttl);
      }
      entries := entries[key := e];
      calls := calls[c := Stored(key, calls[c].f, val)];
    }

    // The leader writes f.val and f.err.
    method PublishTo(ghost c: nat, f: Flight<K, V, E>, val: V, err: Option<E>)
      requires c in calls && f in flights && (calls[c].Stored? || calls[c].Failed?) && calls[c].f == f
      requires calls[c].Stored? ==> val == calls[c].val && err == None
      requires calls[c].Failed? ==> val == Fallback(calls[c].stale, zero) && err == Some(calls[c].error)
      modifies this`calls, f`val, f`err
      ensures Abstract() == Apply(old(Abstract()), Label(c, Publish))
      ensures calls == old(calls)[c := Published(old(calls[c]).key, f, val, err)]
    {
      f.val := val;
      f.err := err;
      calls := calls[c := Published(calls[c].key, f, val, err)];
    }

    // f.wg.Done, the first statement of the deferred function.
    method ReleaseWaiters(ghost c: nat, f: Flight<K, V, E>)
      requires c in calls && f in flights && calls[c].Published? && calls[c].f == f
      modifies this`calls, f`done
      ensures Abstract() == Apply(old(Abstract()), Label(c, Release))
      ensures calls == old(calls)[c := Released(old(calls[c]).key, f, old(calls[c]).val, old(calls[c]).err)]
    {
      f.done := true;
      calls := calls[c := Released(calls[c].key, f, calls[c].val, calls[c].err)];
    }

    // The third locked section.
    method DeleteFlight(ghost c: nat, key: K)
      requires c in calls && calls[c].Released? && calls[c].key == key
      modifies this`inflight, this`calls
      ensures Abstract() == Apply(old(Abstract()), Label(c, Delete))
      ensures inflight == old(inflight) - {key}
      ensures calls == old(calls)[c := Returned(key, old(calls[c]).val, old(calls[c]).err)]
    {
      inflight := inflight - {key};
      calls := calls[c := Returned(key, calls[c].val, calls[c].err)];
    }

    // A waiter's wg.Wait has returned.
    method WakeUp(ghost c: nat, f: Flight<K, V, E>) returns (val: V, err: Option<E>)
      requires c in calls && f in flights && calls[c].Waiting? && calls[c].f == f && f.done
      modifies this`calls
      ensures Abstract() == Apply(old(Abstract()), Label(c, Wake))
      ensures calls[c] == Returned(old(calls[c].key), val, err)
    {
      val, err := f.val, f.err;
      calls := calls[c := Returned(calls[c].key, val, err)];
    }

    // Get's deferred function.
    method Finish(ghost c: nat, key: K, f: Flight<K, V, E>)
      requires c in calls && f in flights && calls[c].Published? && calls[c].f == f && calls[c].key == key
      modifies this`inflight, this`calls, f`done
      ensures inflight == old(inflight) - {key}
      ensures calls == old(calls)[c := Returned(key, old(calls[c]).val, old(calls[c]).err)]
    {
      ReleaseWaiters(c, f);
      DeleteFlight(c, key);
    }

    // What a leader does once load has returned.
    method Settle(ghost c: nat, key: K, f: Flight<K, V, E>, stale: Option<Entry<V>>, loaded: Result<V, E>, t: int)
      returns (val: V, err: Option<E>)
      requires c in calls && f in flights && calls[c] == Loading(key, f, stale) && t >= now
      modifies this`now, this`entries, this`inflight, this`calls, f`val, f`err, f`done
      ensures inflight == old(inflight) - {key} && calls == old(calls)[c := Returned(key, val, err)]
      ensures match loaded
              case Ok(v) =>
                val == v && err == None &&
                entries == old(entries)[key := Entry(v, if ttl > 0 then t + ttl else 0, true)]
              case Err(e) =>
                val == Fallback(stale, zero) && err == Some(e) && entries == old(entries)
    {
      LoadReturns(c, loaded);
      match loaded {
        case Ok(v) =>
          StoreEntry(c, key, v, t);
          val, err := v, None;
        case Err(e) =>
          val, err := Fallback(stale, zero), Some(e);
      }
      PublishTo(c, f, val, err);
      Finish(c, key, f);
    }

    // One Get run without interference, from its first locked section to its
    // deferred clean-up; t0 and t1 are its two clock readings.
    method Get(ghost c: nat, key: K, load: K -> Result<V, E>, t0: int, t1: int) returns (val: V, err: Option<E>)
      requires c !in calls && key !in inflight && now <= t0 <= t1
      modifies this`now, this`entries, this`inflight, this`flights, this`calls
      ensures inflight == old(inflight) && calls == old(calls)[c := Returned(key, val, err)]
      ensures if key in old(entries) && Fresh(ttl, t0, old(entries)[key]) then
                val == old(entries)[key].val && err == None && entries == old(entries)
              else match load(key)
                case Ok(v) =>
                  val == v && err == None &&
                  entries == old(entries)[key := Entry(v, if ttl > 0 then t1 + ttl else 0, true)]
                case Err(e) =>
                  val == Fallback(Lookup(old(entries), key), zero) && err == Some(e) && entries == old(entries)
    {
      Enter(c, key);
      var r := Consult(c, key, t0);
      match r {
        case Hit(v) =>
          val, err := v, None;
        case Join(f) =>
          assert false;
        case Lead(f, stale) =>
          val, err := Settle(c, key, f, stale, load(key), t1);
          assert inflight == old(inflight);
      }
    }
  }
}
