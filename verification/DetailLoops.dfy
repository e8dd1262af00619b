/** What one more iteration of an expiry or invalidation loop adds, whatever order the loop visits its map in. */
module DetailLoops {
  import opened Prelude
  import opened NodeStatusTypes
  import opened DetailSpec

  /** The entries of an expiry pass that has still to visit `names`. */
  ghost function Unswept(start: map<string, Snapshot>, names: set<string>, now: Time): map<string, Snapshot> {
    map n | n in start && (n in names || now < start[n].expiresAt) :: start[n]
  }

  /** The deadlines of the entries the pass has visited and kept. */
  ghost function Kept(start: map<string, Snapshot>, names: set<string>, now: Time): map<string, Time> {
    map n | n in start && n !in names && now < start[n].expiresAt :: start[n].expiresAt
  }

  lemma Sweep(start: map<string, Snapshot>, names: set<string>, name: string, now: Time)
    requires name in names && names <= start.Keys
    ensures var s := start[name];
            if now >= s.expiresAt then
              && Unswept(start, names - {name}, now) == Unswept(start, names, now) - {name}
              && Earliest(Kept(start, names - {name}, now)) == Earliest(Kept(start, names, now))
            else
              && Unswept(start, names - {name}, now) == Unswept(start, names, now)
              && Earliest(Kept(start, names - {name}, now)) == Sooner(s.expiresAt, Earliest(Kept(start, names, now)))
  {
    var s := start[name];
    if now >= s.expiresAt {
      assert Kept(start, names - {name}, now) == Kept(start, names, now);
    } else {
      assert Kept(start, names - {name}, now) == Kept(start, names, now)[name := s.expiresAt];
      EarliestMore(Kept(start, names, now), name, s.expiresAt);
    }
  }

  /** `next` is the least of the times, or None when there is none. */
  ghost predicate IsEarliest(times: map<string, Time>, next: Option<Time>) {
    if next.None? then times == map[]
    else (exists n :: n in times && times[n] == next.value) && forall n | n in times :: next.value <= times[n]
  }

  ghost function Earliest(times: map<string, Time>): (next: Option<Time>)
    ensures IsEarliest(times, next)
  {
    if times == map[] then None
    else
      var n :| n in times;
      var rest := times - {n};
      var next := Earliest(rest);
      EarliestWith(rest, n, times[n], next);
      assert times == rest[n := times[n]];
      Sooner(times[n], next)
  }

  function Sooner(t: Time, next: Option<Time>): Option<Time> {
    if next.None? || t < next.value then Some(t) else next
  }

  lemma EarliestWith(times: map<string, Time>, name: string, t: Time, next: Option<Time>)
    requires IsEarliest(times, next) && name !in times
    ensures IsEarliest(times[name := t], Sooner(t, next))
  {
    var with := times[name := t];
    assert with[name] == t;
    if next.Some? {
      var n :| n in times && times[n] == next.value;
      assert with[n] == times[n];
    }
  }

  lemma EarliestMore(times: map<string, Time>, name: string, t: Time)
    requires name !in times
    ensures Earliest(times[name := t]) == Sooner(t, Earliest(times))
  {
    EarliestWith(times, name, t, Earliest(times));
    var a, b := Earliest(times[name := t]), Sooner(t, Earliest(times));
    assert a.Some? && b.Some? && a.value <= b.value <= a.value;
  }

  lemma RemovingShrinks<V>(m: map<string, V>, name: string)
    requires name in m
    ensures |m - {name}| == |m| - 1
  {
  }

  // ----- One more request visited by an expiry or invalidation loop -----

  predicate Lapsing(r: Request, now: Time) {
    r.wakeAt <= now && (r.state.Pending? || r.state.Complete?)
  }

  /** The record of a visited request. */
  function VisitedRecord(r: Request, timeout: Time, now: Time): Request {
    if Lapsing(r, now) then Lapse(r, timeout) else r
  }

  /** One iteration of the expiry loop. */
  function VisitOne(o: Manager, id: string, now: Time): Manager
    requires id in o.heap
  {
    var r := o.heap[id];
    o.(heap := if Lapsing(r, now) then o.heap[id := Lapse(r, o.timeout)] else o.heap,
       requests := if now < VisitedRecord(r, o.timeout, now).wakeAt then o.requests else o.requests - {id},
       active := if Lapsing(r, now) then Deactivate(o.active, r.node, id) else o.active)
  }

  ghost predicate AnyDue(m: Manager, now: Time, done: set<string>)
    requires WellFormed(m)
  {
    exists id :: id in done && Due(m, id, now)
  }

  lemma ExpireMore(m: Manager, now: Time, done: set<string>, id: string)
    requires WellFormed(m) && id in m.requests && id !in done
    ensures var o := ExpireOver(m, now, done);
            id in m.heap && id in o.heap && o.heap[id] == m.heap[id] && ExpireOver(m, now, done + {id}) == VisitOne(o, id, now)
  {
    var o, r := ExpireOver(m, now, done), ExpireOver(m, now, done + {id});
    var v := VisitOne(o, id, now);
    assert r.heap == v.heap;
    assert r.requests == v.requests;
    assert r.active == v.active;
  }

  lemma AnyDueMore(m: Manager, now: Time, done: set<string>, id: string)
    requires WellFormed(m) && id in m.requests
    ensures AnyDue(m, now, done + {id}) <==> AnyDue(m, now, done) || m.heap[id].wakeAt <= now
  {
  }

  lemma ExpireNone(m: Manager, now: Time)
    requires WellFormed(m)
    ensures ExpireOver(m, now, {}) == m && Earliest(Wakes(m, now, {})) == None && !AnyDue(m, now, {})
  {
  }

  lemma WakesAll(m: Manager, now: Time)
    requires WellFormed(m)
    ensures var e := ExpireOver(m, now, m.requests);
            Wakes(m, now, m.requests) == map id | id in e.requests :: e.heap[id].wakeAt
  {
  }

  /** The wake-up times of the requests an expiry pass visited and kept. */
  ghost function Wakes(m: Manager, now: Time, done: set<string>): map<string, Time>
    requires WellFormed(m)
  {
    map id | id in done && id in m.requests && now < Visited(m, now, done, id).wakeAt :: Visited(m, now, done, id).wakeAt
  }

  lemma WakesMore(m: Manager, now: Time, done: set<string>, id: string)
    requires WellFormed(m) && id in m.requests && id !in done
    ensures var t := VisitedRecord(m.heap[id], m.timeout, now).wakeAt;
            Earliest(Wakes(m, now, done + {id})) ==
            if now < t then Sooner(t, Earliest(Wakes(m, now, done))) else Earliest(Wakes(m, now, done))
  {
    var t := VisitedRecord(m.heap[id], m.timeout, now).wakeAt;
    assert forall x | x in done && x in m.requests :: Visited(m, now, done + {id}, x) == Visited(m, now, done, x);
    if now < t {
      assert Wakes(m, now, done + {id}) == Wakes(m, now, done)[id := t];
      EarliestMore(Wakes(m, now, done), id, t);
    } else {
      assert Wakes(m, now, done + {id}) == Wakes(m, now, done);
    }
  }

  lemma InvalidateFrame(m: Manager, ids: set<string>, tick: string -> Time)
    requires WellFormed(m)
    ensures var i := InvalidateAll(m, ids, tick);
            i == m.(heap := i.heap, active := i.active, cache := i.cache, updates := m.updates + |Invalidated(m, ids)|)
            && i.heap.Keys == m.heap.Keys && i.active.Keys <= m.active.Keys
  {
  }

  lemma InvalidatedMore(m: Manager, done: set<string>, id: string, tick: string -> Time)
    requires WellFormed(m) && id in m.heap && id !in done
    ensures Invalidated(InvalidateAll(m, done, tick), {id}) == Invalidated(m, {id})
    ensures Invalidated(m, done + {id}) == Invalidated(m, done) + Invalidated(m, {id}) && Invalidated(m, done) !! Invalidated(m, {id})
    ensures |Invalidated(m, done + {id})| == |Invalidated(m, done)| + |Invalidated(m, {id})|
  {
  }

  lemma InvalidateMoreHeap(m: Manager, done: set<string>, id: string, tick: string -> Time)
    requires WellFormed(m) && id in m.heap && id !in done
    ensures var l, r := InvalidateAll(m, done + {id}, tick), InvalidateAll(InvalidateAll(m, done, tick), {id}, tick);
            l.heap == r.heap
  {
  }

  lemma InvalidateMoreActive(m: Manager, done: set<string>, id: string, tick: string -> Time)
    requires WellFormed(m) && id in m.heap && id !in done
    ensures InvalidateAll(m, done + {id}, tick).active == InvalidateAll(InvalidateAll(m, done, tick), {id}, tick).active
  {
  }

  lemma InvalidateMoreCache(m: Manager, done: set<string>, id: string, tick: string -> Time)
    requires WellFormed(m) && id in m.heap && id !in done
    ensures InvalidateAll(m, done + {id}, tick).cache == InvalidateAll(InvalidateAll(m, done, tick), {id}, tick).cache
  {
    var l, r := InvalidateAll(m, done + {id}, tick), InvalidateAll(InvalidateAll(m, done, tick), {id}, tick);
    forall n | n in m.cache.entries ensures n in l.cache.entries <==> n in r.cache.entries {
      EvictMore(m, done, id, n, tick);
    }
    assert l.cache.entries == r.cache.entries;
  }

  lemma InvalidateMore(m: Manager, done: set<string>, id: string, tick: string -> Time)
    requires WellFormed(m) && id in m.heap && id !in done
    ensures InvalidateAll(m, done + {id}, tick) == InvalidateOnce(InvalidateAll(m, done, tick), id, tick(id))
  {
    InvalidateSingle(InvalidateAll(m, done, tick), id, tick);
    hide InvalidateAll, InvalidateOnce;
    var o := InvalidateAll(m, done, tick);
    InvalidateFrame(m, done, tick);
    InvalidateFrame(m, done + {id}, tick);
    InvalidateFrame(o, {id}, tick);
    InvalidatedMore(m, done, id, tick);
    InvalidateMoreHeap(m, done, id, tick);
    InvalidateMoreActive(m, done, id, tick);
    InvalidateMoreCache(m, done, id, tick);
  }

  lemma EvictMore(m: Manager, done: set<string>, id: string, n: string, tick: string -> Time)
    requires WellFormed(m) && id in m.heap && id !in done && n in m.cache.entries
    ensures var o := InvalidateAll(m, done, tick);
            Evicted(m, Invalidated(m, done + {id}), n, m.cache.entries[n], tick)
            <==> Evicted(m, Invalidated(m, done), n, m.cache.entries[n], tick)
                 || Evicted(o, Invalidated(o, {id}), n, m.cache.entries[n], tick)
  {
  }

  lemma InvalidateNone(m: Manager, tick: string -> Time)
    requires WellFormed(m)
    ensures InvalidateAll(m, {}, tick) == m
  {
  }

  lemma InvalidateSingle(m: Manager, id: string, tick: string -> Time)
    requires WellFormed(m) && id in m.heap
    ensures InvalidateAll(m, {id}, tick) == InvalidateOnce(m, id, tick(id))
  {
    var i, r, now := InvalidateAll(m, {id}, tick), m.heap[id], tick(id);
    if r.state.Unavailable? {
      assert Invalidated(m, {id}) == {};
      assert i.heap == m.heap && i.active == m.active && i.cache.entries == m.cache.entries;
    } else {
      assert Invalidated(m, {id}) == {id};
      assert i.heap == m.heap[id := Revoke(r, now + m.timeout)];
      assert i.active == Deactivate(m.active, r.node, id);
      SingleEvicts(m, id, tick);
    }
  }

  lemma SingleEvicts(m: Manager, id: string, tick: string -> Time)
    requires WellFormed(m) && id in m.heap && !m.heap[id].state.Unavailable?
    ensures InvalidateAll(m, {id}, tick).cache == m.cache.AfterEvict(m.heap[id].node, id, tick(id))
  {
  }

  /** A publication examines the same state a viewer's unforced request prepares. */
  lemma ExaminedIsPrepared(m: Manager, node: string, uid: string, now: Time, tick: string -> Time, seen: Time)
    requires WellFormed(m)
    ensures var c := Prepared(m, node, false, uid, now, tick, seen);
            Examined(m, node, uid, now, tick, seen) ==
            if c.cache.Live(node, seen) && c.cache.entries[node].requestId in c.requests && c.heap[c.cache.entries[node].requestId].uid != uid
            then Invalidate(c, c.cache.entries[node].requestId, seen) else c
  {
  }
}
