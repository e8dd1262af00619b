/** The invariant that ties the three stores of the detail manager together, and what every section keeps. */
module DetailInvariant {
  import opened Prelude
  import opened NodeStatusTypes
  import opened DetailSpec
  import opened DetailLoops

  /** A retained request is pending exactly when it is the active one of its node. */
  ghost predicate PendingIsActive(m: Manager)
    requires WellFormed(m)
  {
    && (forall n | n in m.active :: m.active[n] in m.requests && m.heap[m.active[n]].node == n)
    && (forall id | id in m.requests ::
          m.heap[id].state.Pending? <==> m.heap[id].node in m.active && m.active[m.heap[id].node] == id)
    && (forall id | id in m.requests && m.heap[id].state.Pending? ::
          m.heap[id].wakeAt == m.heap[id].deadline && m.heap[id].ctx.Running?)
    && (forall id | id in m.heap :: !m.heap[id].state.Retryable? && (m.heap[id].poll ==> m.heap[id].state.Pending?))
  }

  /** A cached snapshot belongs to a retained complete request of its node that lapses with it. */
  ghost predicate Backed(m: Manager, s: Snapshot)
    requires WellFormed(m)
  {
    && s.requestId in m.requests
    && m.heap[s.requestId].node == s.node
    && m.heap[s.requestId].state.Complete?
    && m.heap[s.requestId].wakeAt == s.expiresAt
  }

  ghost predicate CacheIsBacked(m: Manager)
    requires WellFormed(m)
  {
    forall n | n in m.cache.entries ::
      && m.cache.entries[n].node == n
      && m.cache.entries[n].expiresAt == m.cache.entries[n].receivedAt + m.cache.ttl
      && (m.clock < m.cache.entries[n].expiresAt ==> Backed(m, m.cache.entries[n]))
  }

  /** One worker per dispatching request, none otherwise; while open, a retry wish on an active request has a worker to serve it. */
  ghost predicate DispatchIsOwned(m: Manager)
    requires WellFormed(m)
  {
    && (forall id :: m.workers[id] == if id in m.heap && m.heap[id].dispatching then 1 else 0)
    && (Available(m) ==> forall n | n in m.active :: m.heap[m.active[n]].retry ==> m.heap[m.active[n]].dispatching)
  }

  /** A settled request with no worker has had its context cancelled. */
  ghost predicate ContextsAreSettled(m: Manager) {
    forall id | id in m.heap :: !m.heap[id].state.Pending? && !m.heap[id].dispatching ==> !m.heap[id].ctx.Running?
  }

  ghost predicate Inv(m: Manager) {
    && WellFormed(m)
    && PendingIsActive(m)
    && CacheIsBacked(m)
    && DispatchIsOwned(m)
    && ContextsAreSettled(m)
    && (m.closed ==> m.requests == {} && m.cache.entries == map[])
  }

  /** A manager that has just been made, over a cache it has just emptied. */
  function New(timeout: Time, ttl: Time, now: Time): Manager {
    Manager(timeout, false, false, map[], {}, map[], Cache(ttl, map[]), 0, multiset{}, now)
  }

  lemma NewIsValid(timeout: Time, ttl: Time, now: Time)
    requires timeout > 0 && ttl > 0
    ensures Inv(New(timeout, ttl, now))
  {
  }

  function Rank(s: State): nat {
    match s
    case Pending => 0
    case Complete => 1
    case Expired => 2
    case Unavailable => 3
    case Retryable => 4
  }

  /** Fixed identity and deadline, and a life that only moves forward. */
  ghost predicate Ages(a: Request, b: Request) {
    a.node == b.node && a.uid == b.uid && a.deadline == b.deadline && Rank(a.state) <= Rank(b.state)
  }

  ghost predicate StillPending(m: Manager, id: string) {
    id in m.requests && id in m.heap && m.heap[id].state.Pending?
  }

  /** Records age, none is retained again after it was dropped, and leaving Pending always wakes waiters. */
  ghost predicate RequestsEvolve(a: Manager, b: Manager) {
    && (forall id | id in a.heap :: id in b.heap && Ages(a.heap[id], b.heap[id]))
    && (forall id | id in a.heap && id in b.requests :: id in a.requests)
    && (forall id | StillPending(a, id) && !StillPending(b, id) :: a.updates < b.updates)
  }

  /** An entry is either untouched or received since: nothing but a store sets an expiry. */
  ghost predicate CacheEvolves(a: Manager, b: Manager) {
    forall n | n in b.cache.entries ::
      (n in a.cache.entries && a.cache.entries[n] == b.cache.entries[n]) || a.clock <= b.cache.entries[n].receivedAt
  }

  /** What holds between any two moments of a run. */
  ghost predicate Evolves(a: Manager, b: Manager) {
    && a.timeout == b.timeout && a.cache.ttl == b.cache.ttl
    && a.clock <= b.clock && a.updates <= b.updates
    && (a.cancelled ==> b.cancelled) && (a.closed ==> b.closed && b.workers <= a.workers)
    && RequestsEvolve(a, b)
    && CacheEvolves(a, b)
  }

  /** The valid states that `a` may evolve into. */
  ghost function Futures(a: Manager): iset<Manager> {
    iset b | Inv(b) && Evolves(a, b)
  }

  lemma FutureIsValid(a: Manager, m: Manager)
    requires m in Futures(a)
    ensures Inv(m) && Evolves(a, m)
  {
  }

  lemma Step(a: Manager, m: Manager, r: Manager)
    requires m in Futures(a) && Inv(r) && Evolves(m, r)
    ensures r in Futures(a)
  {
  }

  // ----- The building blocks -----

  lemma ExpireKeepsPending(m: Manager, now: Time)
    requires Inv(m)
    ensures PendingIsActive(Expire(m, now))
  {
    hide CacheIsBacked, DispatchIsOwned, ContextsAreSettled;
    var e := Expire(m, now);
    forall n | n in e.active ensures e.active[n] in e.requests && e.heap[e.active[n]].node == n {
      var id := m.active[n];
      assert id in m.requests && !Lapses(m, id, now);
    }
    forall id | id in e.requests
      ensures e.heap[id].state.Pending? <==> e.heap[id].node in e.active && e.active[e.heap[id].node] == id
    {
      assert e.heap[id] == Visited(m, now, m.requests, id);
    }
  }

  lemma ExpireKeepsCache(m: Manager, now: Time)
    requires Inv(m) && m.clock <= now
    ensures CacheIsBacked(Expire(m, now))
  {
  }

  lemma ExpireKeepsDispatch(m: Manager, now: Time)
    requires Inv(m)
    ensures DispatchIsOwned(Expire(m, now)) && ContextsAreSettled(Expire(m, now))
  {
    var e := Expire(m, now);
    forall id | id in m.heap ensures e.heap[id].dispatching == m.heap[id].dispatching && e.heap[id].retry == m.heap[id].retry {
      assert e.heap[id] == Visited(m, now, m.requests, id);
    }
  }

  lemma ExpireEvolves(m: Manager, now: Time)
    requires Inv(m) && m.clock <= now
    ensures Evolves(m, Expire(m, now))
  {
    hide PendingIsActive, CacheIsBacked, DispatchIsOwned, ContextsAreSettled;
    var e := Expire(m, now);
    forall id | id in m.heap ensures Ages(m.heap[id], e.heap[id]) {
      assert e.heap[id] == Visited(m, now, m.requests, id);
    }
    forall id | StillPending(m, id) && !StillPending(e, id) ensures m.updates < e.updates {
      assert Due(m, id, now);
    }
  }

  lemma ExpireKeeps(a: Manager, m: Manager, now: Time)
    requires WellFormed(m) && m in Futures(a) && m.clock <= now
    ensures var e := Expire(m, now);
            e in Futures(a) && e.clock == now && e.cancelled == m.cancelled && e.closed == m.closed && e.timeout == m.timeout
            && e.heap.Keys == m.heap.Keys
  {
    ExpireKeepsPending(m, now);
    ExpireKeepsCache(m, now);
    ExpireKeepsDispatch(m, now);
    ExpireEvolves(m, now);
    Step(a, m, Expire(m, now));
  }

  lemma InvalidateKeepsPending(m: Manager, ids: set<string>, tick: string -> Time)
    requires Inv(m)
    ensures PendingIsActive(InvalidateAll(m, ids, tick))
  {
    var i := InvalidateAll(m, ids, tick);
    var gone := Invalidated(m, ids);
    forall id | id in i.requests
      ensures i.heap[id].state.Pending? <==> i.heap[id].node in i.active && i.active[i.heap[id].node] == id
    {
      assert id in gone ==> i.heap[id].state.Unavailable?;
    }
  }

  lemma InvalidateKeepsCache(m: Manager, ids: set<string>, tick: string -> Time)
    requires Inv(m)
    ensures CacheIsBacked(InvalidateAll(m, ids, tick))
  {
  }

  lemma InvalidateKeepsDispatch(m: Manager, ids: set<string>, tick: string -> Time)
    requires Inv(m)
    ensures DispatchIsOwned(InvalidateAll(m, ids, tick)) && ContextsAreSettled(InvalidateAll(m, ids, tick))
  {
  }

  lemma InvalidateEvolves(m: Manager, ids: set<string>, tick: string -> Time)
    requires Inv(m)
    ensures RequestsEvolve(m, InvalidateAll(m, ids, tick))
  {
    var i := InvalidateAll(m, ids, tick);
    var gone := Invalidated(m, ids);
    forall id | id in m.heap ensures Ages(m.heap[id], i.heap[id]) {
      assert i.heap[id] == if id in gone then Revoke(m.heap[id], tick(id) + m.timeout) else m.heap[id];
    }
    forall id | StillPending(m, id) && !StillPending(i, id) ensures m.updates < i.updates {
      assert id in gone;
    }
  }

  lemma InvalidateAllKeeps(a: Manager, m: Manager, ids: set<string>, tick: string -> Time)
    requires WellFormed(m) && m in Futures(a)
    ensures var i := InvalidateAll(m, ids, tick);
            i in Futures(a) && i.clock == m.clock && Available(i) == Available(m) && i.heap.Keys == m.heap.Keys
  {
    InvalidateKeepsPending(m, ids, tick);
    InvalidateKeepsCache(m, ids, tick);
    InvalidateKeepsDispatch(m, ids, tick);
    InvalidateEvolves(m, ids, tick);
    Step(a, m, InvalidateAll(m, ids, tick));
  }

  /** Dropping cache entries and letting time pass is always safe. */
  lemma ShrinkingKeeps(a: Manager, m: Manager, cache: Cache, now: Time)
    requires WellFormed(m) && m in Futures(a) && cache.ttl == m.cache.ttl && m.clock <= now
    requires forall n | n in cache.entries :: n in m.cache.entries && m.cache.entries[n] == cache.entries[n]
    ensures m.(cache := cache, clock := now) in Futures(a)
  {
  }

  lemma InvalidateOneKeeps(a: Manager, m: Manager, id: string, now: Time)
    requires WellFormed(m) && m in Futures(a) && m.clock <= now && id in m.heap
    ensures var i := Invalidate(m, id, now);
            i in Futures(a) && i.clock == now && Available(i) == Available(m) && i.heap.Keys == m.heap.Keys
  {
    hide Futures, InvalidateAll, InvalidateOnce;
    var tick: string -> Time := _ => now;
    InvalidateSingle(m, id, tick);
    InvalidateAllKeeps(a, m, {id}, tick);
    ShrinkingKeeps(a, InvalidateAll(m, {id}, tick), InvalidateAll(m, {id}, tick).cache, now);
  }

  lemma ForgetKeeps(a: Manager, m: Manager, node: string, tick: string -> Time, last: Time)
    requires WellFormed(m) && m in Futures(a) && m.clock <= last
    ensures Forget(m, node, tick).(clock := last) in Futures(a)
  {
    hide Futures;
    var i := InvalidateAll(m, OfNode(m, node), tick);
    InvalidateAllKeeps(a, m, OfNode(m, node), tick);
    ShrinkingKeeps(a, i, i.cache.Delete(node), last);
  }

  lemma StartDispatchKeepsCache(m: Manager, id: string)
    requires Inv(m) && StillPending(m, id)
    ensures var d := StartDispatch(m, id); WellFormed(d) && CacheIsBacked(d) && CacheEvolves(m, d)
  {
  }

  lemma StartDispatchKeepsRequests(m: Manager, id: string)
    requires Inv(m) && StillPending(m, id) && !m.heap[id].dispatching
    ensures var d := StartDispatch(m, id);
            WellFormed(d) && PendingIsActive(d) && RequestsEvolve(m, d) && DispatchIsOwned(d) && ContextsAreSettled(d)
  {
    hide CacheIsBacked;
    var d := StartDispatch(m, id);
    assert forall x :: x != id ==> d.workers[x] == m.workers[x];
  }

  /** Taking dispatch ownership is sound exactly because no worker owns the request yet. */
  lemma StartDispatchKeeps(a: Manager, m: Manager, id: string)
    requires WellFormed(m) && m in Futures(a) && StillPending(m, id) && !m.heap[id].dispatching && Available(m)
    ensures StartDispatch(m, id) in Futures(a)
  {
    StartDispatchKeepsCache(m, id);
    StartDispatchKeepsRequests(m, id);
    hide PendingIsActive, CacheIsBacked, DispatchIsOwned, ContextsAreSettled, RequestsEvolve, CacheEvolves;
    Step(a, m, StartDispatch(m, id));
  }
}
