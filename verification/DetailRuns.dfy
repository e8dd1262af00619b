/** Every run of the detail manager: its events, what each keeps, and what holds along the whole run. */
module DetailRuns {
  import opened Prelude
  import opened NodeStatusTypes
  import opened DetailSpec
  import opened DetailInvariant

  /** One section executed by some thread, with the clock readings and answers it got. */
  datatype Event =
    | Ask(node: string, force: bool, uid: Resolved, newId: string, now: Time, tick: string -> Time, seen: Time, last: Time)
    | Look(node: string, id: string, uid: Resolved, now: Time, seen: Time, last: Time)
    | Reply(node: string, id: string, status: Option<NodeStatus>, uid: Resolved, addr: nat, now: Time, last: Time)
    | Fail(node: string, id: string, message: string, uid: Resolved, now: Time, last: Time)
    | Poll(node: string, uid: Resolved, now: Time, last: Time)
    | NodeGone(node: string, gone: string, tick: string -> Time)
    | Publish(node: string, status: Option<NodeStatus>, revision: nat, identity: Option<Digest>, base: Option<StatusPtr>,
              uid: Resolved, newId: string, addr: nat, now: Time, tick: string -> Time, seen: Time, last: Time)
    | ReadBase(node: string, revision: nat, uid: Resolved, seen: Time, tick: string -> Time, last: Time)
    | Drop(node: string, tick: string -> Time, last: Time)
    | PullFails(id: string, message: string, now: Time)
    | Reconnect(node: string, now: Time)
    | WorkerEnds(id: string)
    | Wake(now: Time)
    | CacheSweep(now: Time)
    | LoseLeadership
    | CacheStops
    | Stop

  ghost predicate Between(lo: Time, tick: string -> Time, hi: Time) {
    lo <= hi && forall id: string :: lo <= tick(id) <= hi
  }

  /** Clocks do not run backwards, new request IDs are unused, and only a worker ends or reports a failed pull. */
  ghost predicate Enabled(m: Manager, e: Event) {
    WellFormed(m) && match e
    case Ask(_, _, _, newId, now, tick, seen, last) => newId !in m.heap && m.clock <= now && Between(now, tick, seen) && seen <= last
    case Look(_, _, _, now, seen, last) => m.clock <= now <= seen <= last
    case Reply(_, _, _, _, _, now, last) => m.clock <= now <= last
    case Fail(_, _, _, _, now, last) => m.clock <= now <= last
    case Poll(_, _, now, last) => m.clock <= now <= last
    case NodeGone(_, _, _) => true
    case Publish(_, _, _, _, _, _, newId, _, now, tick, seen, last) =>
      newId !in m.heap && m.clock <= now && Between(now, tick, seen) && seen <= last
    case ReadBase(_, _, _, seen, tick, last) => m.clock <= seen && Between(seen, tick, last)
    case Drop(_, tick, last) => Between(m.clock, tick, last)
    case PullFails(id, _, now) => id in m.workers && id in m.heap && m.clock <= now
    case Reconnect(_, now) => m.clock <= now
    case WorkerEnds(id) => id in m.workers && id in m.heap
    case Wake(now) => m.clock <= now
    case CacheSweep(now) => m.clock <= now
    case LoseLeadership => true
    case CacheStops => m.cancelled
    case Stop => m.cancelled && !m.closed
  }

  ghost function Next(m: Manager, e: Event): Manager
    requires Enabled(m, e)
  {
    match e
    case Ask(node, force, uid, newId, now, tick, seen, last) => Requested(m, node, force, uid, newId, now, tick, seen, last).0
    case Look(node, id, uid, now, seen, last) => ResultFor(m, node, id, uid, now, seen, last).0
    case Reply(node, id, status, uid, addr, now, last) => Completed(m, node, id, status, uid, addr, now, last).0
    case Fail(node, id, message, uid, now, last) => Failed(m, node, id, message, uid, now, last).0
    case Poll(node, uid, now, last) => PendingCommand(m, node, uid, now, last).0
    case NodeGone(node, gone, tick) => NodeInvalidated(m, node, gone, tick)
    case Publish(node, status, revision, identity, base, uid, newId, addr, now, tick, seen, last) =>
      Observed(m, node, status, revision, identity, base, uid, newId, addr, now, tick, seen, last).0
    case ReadBase(node, revision, uid, seen, tick, last) => LegacyBase(m, node, revision, uid, seen, tick, last).0
    case Drop(node, tick, last) => Forget(m, node, tick).(clock := last)
    case PullFails(id, message, now) => PullFailed(m, m.heap[id].node, id, message, now)
    case Reconnect(node, now) => Retry(m, node, now)
    case WorkerEnds(id) => FinishDispatch(m, id)
    case Wake(now) => Expire(m, now)
    case CacheSweep(now) => m.(cache := m.cache.Expire(now), clock := now)
    case LoseLeadership => Cancel(m)
    case CacheStops => m.(cache := m.cache.Clear())
    case Stop => Shutdown(m)
  }

  // ----- Each section -----

  lemma ReadingResultKeeps(a: Manager, m: Manager, id: string, now: Time)
    requires WellFormed(m) && m in Futures(a) && id in m.heap && m.clock <= now
    ensures AfterResult(m, id, now) in Futures(a)
  {
    ShrinkingKeeps(a, m, if m.heap[id].state.Complete? then m.cache.AfterGet(m.heap[id].node, now) else m.cache, now);
  }

  lemma OpeningKeepsCache(m: Manager, node: string, uid: string, newId: string, now: Time)
    requires Inv(m) && newId !in m.heap && m.clock <= now
    ensures var n := Opened(m, node, uid, newId, now); WellFormed(n) && CacheIsBacked(n) && CacheEvolves(m, n)
  {
  }

  lemma OpeningKeepsRequests(m: Manager, node: string, uid: string, newId: string, now: Time)
    requires Inv(m) && newId !in m.heap && node !in m.active
    ensures var n := Opened(m, node, uid, newId, now); WellFormed(n) && PendingIsActive(n) && RequestsEvolve(m, n)
  {
  }

  lemma OpeningKeepsDispatch(m: Manager, node: string, uid: string, newId: string, now: Time)
    requires Inv(m) && newId !in m.heap && node !in m.active
    ensures var n := Opened(m, node, uid, newId, now); WellFormed(n) && DispatchIsOwned(n) && ContextsAreSettled(n)
  {
  }

  /** Opening a request for a node with none active. */
  lemma OpeningKeeps(a: Manager, m: Manager, node: string, uid: string, newId: string, now: Time)
    requires WellFormed(m) && m in Futures(a) && Available(m) && newId !in m.heap && node !in m.active && m.clock <= now
    ensures Opened(m, node, uid, newId, now) in Futures(a)
  {
    OpeningKeepsCache(m, node, uid, newId, now);
    OpeningKeepsRequests(m, node, uid, newId, now);
    OpeningKeepsDispatch(m, node, uid, newId, now);
    hide PendingIsActive, CacheIsBacked, DispatchIsOwned, ContextsAreSettled, RequestsEvolve, CacheEvolves;
    Step(a, m, Opened(m, node, uid, newId, now));
  }

  lemma PreparingKeeps(a: Manager, m: Manager, node: string, force: bool, uid: string, now: Time, tick: string -> Time, seen: Time)
    requires WellFormed(m) && m in Futures(a) && m.clock <= now && Between(now, tick, seen)
    ensures var c := Prepared(m, node, force, uid, now, tick, seen);
            c in Futures(a) && c.clock <= seen && Available(c) == Available(m) && c.heap.Keys == m.heap.Keys
  {
    hide Futures, Expire, InvalidateAll;
    var e := Expire(m, now);
    ExpireKeeps(a, m, now);
    var i := InvalidateAll(e, Strangers(e, node, uid), tick);
    InvalidateAllKeeps(a, e, Strangers(e, node, uid), tick);
    ShrinkingKeeps(a, i, i.cache.AfterGet(node, seen), seen);
  }

  lemma AnsweringKeeps(a: Manager, c: Manager, node: string, force: bool, uid: string, newId: string, seen: Time, last: Time)
    requires WellFormed(c) && c in Futures(a) && Available(c) && newId !in c.heap && c.clock <= seen <= last
    ensures Answered(c, node, force, uid, newId, seen, last).0 in Futures(a)
  {
    hide Futures;
    if !force && Cached(c, node, uid, seen) {
      ReadingResultKeeps(a, c, c.cache.entries[node].requestId, last);
    } else if node in c.active {
      ReadingResultKeeps(a, c, c.active[node], last);
    } else {
      OpeningKeeps(a, c, node, uid, newId, last);
      StartDispatchKeeps(a, Opened(c, node, uid, newId, last), newId);
    }
  }

  lemma AskKeeps(a: Manager, m: Manager, node: string, force: bool, uid: Resolved, newId: string,
                 now: Time, tick: string -> Time, seen: Time, last: Time)
    requires WellFormed(m) && m in Futures(a)
    requires newId !in m.heap && m.clock <= now && Between(now, tick, seen) && seen <= last
    ensures Requested(m, node, force, uid, newId, now, tick, seen, last).0 in Futures(a)
  {
    hide Futures, Expire, Prepared, Answered;
    if Available(m) {
      if uid.None? || uid.value == "" {
        ExpireKeeps(a, m, now);
      } else {
        PreparingKeeps(a, m, node, force, uid.value, now, tick, seen);
        AnsweringKeeps(a, Prepared(m, node, force, uid.value, now, tick, seen), node, force, uid.value, newId, seen, last);
      }
    }
  }

  lemma LookKeeps(a: Manager, m: Manager, node: string, id: string, uid: Resolved, now: Time, seen: Time, last: Time)
    requires WellFormed(m) && m in Futures(a) && m.clock <= now <= seen <= last
    ensures ResultFor(m, node, id, uid, now, seen, last).0 in Futures(a)
  {
    hide Futures, Expire, Invalidate;
    if Available(m) {
      var e := Expire(m, now);
      ExpireKeeps(a, m, now);
      if id in e.requests && e.heap[id].node == node {
        if uid != Some(e.heap[id].uid) {
          InvalidateOneKeeps(a, e, id, seen);
          ReadingResultKeeps(a, Invalidate(e, id, seen), id, last);
        } else {
          ReadingResultKeeps(a, e, id, last);
        }
      }
    }
  }

  /** What a settled request may leave in the cache: nothing new, or its own snapshot. */
  ghost predicate Delivers(e: Manager, id: string, wakeAt: Time, state: State, cache: Cache, now: Time)
    requires id in e.heap
  {
    || cache == e.cache
    || exists s: Snapshot ::
        cache == e.cache.Put(s) && s.node == e.heap[id].node && s.requestId == id && s.receivedAt == now && s.expiresAt == wakeAt
        && wakeAt == now + e.cache.ttl && state.Complete?
  }

  lemma SettlingKeepsPending(e: Manager, id: string, state: State, message: Message, wakeAt: Time, cache: Cache, now: Time)
    requires Inv(e) && StillPending(e, id) && (state.Complete? || state.Unavailable?) && cache.ttl == e.cache.ttl
    ensures var r := Settled(e, id, state, message, wakeAt, cache, now); WellFormed(r) && PendingIsActive(r) && RequestsEvolve(e, r)
  {
    var r := Settled(e, id, state, message, wakeAt, cache, now);
    forall x | x in r.requests ensures r.heap[x].state.Pending? <==> r.heap[x].node in r.active && r.active[r.heap[x].node] == x {
      assert x != id ==> r.heap[x] == e.heap[x];
    }
  }

  lemma SettlingKeepsCache(e: Manager, id: string, state: State, message: Message, wakeAt: Time, cache: Cache, now: Time)
    requires Inv(e) && StillPending(e, id) && (state.Complete? || state.Unavailable?) && e.clock <= now
    requires Delivers(e, id, wakeAt, state, cache, now)
    ensures var r := Settled(e, id, state, message, wakeAt, cache, now); CacheIsBacked(r) && CacheEvolves(e, r)
  {
    var r := Settled(e, id, state, message, wakeAt, cache, now);
    forall n | n in r.cache.entries && r.clock < r.cache.entries[n].expiresAt ensures Backed(r, r.cache.entries[n]) {
      if n in e.cache.entries && r.cache.entries[n] == e.cache.entries[n] {
        assert Backed(e, e.cache.entries[n]);
      }
    }
  }

  lemma SettlingKeepsDispatch(e: Manager, id: string, state: State, message: Message, wakeAt: Time, cache: Cache, now: Time)
    requires Inv(e) && StillPending(e, id) && (state.Complete? || state.Unavailable?) && cache.ttl == e.cache.ttl
    ensures var r := Settled(e, id, state, message, wakeAt, cache, now); WellFormed(r) && DispatchIsOwned(r) && ContextsAreSettled(r)
  {
  }

  lemma SettlingKeeps(a: Manager, e: Manager, id: string, state: State, message: Message, wakeAt: Time, cache: Cache, now: Time)
    requires WellFormed(e) && e in Futures(a) && Available(e) && StillPending(e, id)
    requires (state.Complete? || state.Unavailable?) && e.clock <= now && Delivers(e, id, wakeAt, state, cache, now)
    ensures Settled(e, id, state, message, wakeAt, cache, now) in Futures(a)
  {
    SettlingKeepsPending(e, id, state, message, wakeAt, cache, now);
    SettlingKeepsCache(e, id, state, message, wakeAt, cache, now);
    SettlingKeepsDispatch(e, id, state, message, wakeAt, cache, now);
    hide PendingIsActive, CacheIsBacked, DispatchIsOwned, ContextsAreSettled, RequestsEvolve, CacheEvolves;
    Step(a, e, Settled(e, id, state, message, wakeAt, cache, now));
  }

  lemma ReplyKeeps(a: Manager, m: Manager, node: string, id: string, status: Option<NodeStatus>, uid: Resolved, addr: nat,
                   now: Time, last: Time)
    requires WellFormed(m) && m in Futures(a) && m.clock <= now <= last
    ensures Completed(m, node, id, status, uid, addr, now, last).0 in Futures(a)
  {
    hide Futures, Expire, Invalidate, Settled;
    var e := Expire(m, now);
    ExpireKeeps(a, m, now);
    if Available(m) && id in e.requests && e.heap[id].node == node {
      if uid != Some(e.heap[id].uid) {
        InvalidateOneKeeps(a, e, id, last);
      } else if Acceptable(node, status) && e.heap[id].state.Pending? && node != "" {
        var s := e.cache.Fresh(node, id, StatusPtr(addr, status.value), 0, None, last);
        SettlingKeeps(a, e, id, Complete, Nothing, s.expiresAt, e.cache.Put(s), last);
      }
    }
  }

  lemma FailKeeps(a: Manager, m: Manager, node: string, id: string, message: string, uid: Resolved, now: Time, last: Time)
    requires WellFormed(m) && m in Futures(a) && m.clock <= now <= last
    ensures Failed(m, node, id, message, uid, now, last).0 in Futures(a)
  {
    hide Futures, Expire, Invalidate, Settled;
    var e := Expire(m, now);
    ExpireKeeps(a, m, now);
    if Available(m) && id in e.requests && e.heap[id].node == node && message != "" {
      if uid != Some(e.heap[id].uid) {
        InvalidateOneKeeps(a, e, id, last);
      } else if e.heap[id].state.Pending? {
        SettlingKeeps(a, e, id, Unavailable, Reported(message), last + e.timeout, e.cache, last);
      }
    }
  }

  lemma PollKeeps(a: Manager, m: Manager, node: string, uid: Resolved, now: Time, last: Time)
    requires WellFormed(m) && m in Futures(a) && m.clock <= now <= last
    ensures PendingCommand(m, node, uid, now, last).0 in Futures(a)
  {
    hide Futures, Expire, Invalidate;
    var e := Expire(m, now);
    ExpireKeeps(a, m, now);
    if !m.cancelled && node in e.active && e.heap[e.active[node]].poll && uid != Some(e.heap[e.active[node]].uid) {
      InvalidateOneKeeps(a, e, e.active[node], last);
    }
  }

  lemma NodeGoneKeeps(a: Manager, m: Manager, node: string, uid: string, tick: string -> Time)
    requires WellFormed(m) && m in Futures(a)
    ensures NodeInvalidated(m, node, uid, tick) in Futures(a)
  {
    hide Futures, InvalidateAll;
    InvalidateAllKeeps(a, m, (set id | id in OfNode(m, node) && m.heap[id].uid == uid), tick);
  }

  lemma ExaminingKeeps(a: Manager, m: Manager, node: string, uid: string, now: Time, tick: string -> Time, seen: Time)
    requires WellFormed(m) && m in Futures(a) && m.clock <= now && Between(now, tick, seen)
    ensures var c := Examined(m, node, uid, now, tick, seen);
            c in Futures(a) && c.clock <= seen && Available(c) == Available(m) && c.heap.Keys == m.heap.Keys
  {
    hide Futures, Expire, Invalidate, InvalidateAll;
    var c := Prepared(m, node, false, uid, now, tick, seen);
    PreparingKeeps(a, m, node, false, uid, now, tick, seen);
    if c.cache.Live(node, seen) && c.cache.entries[node].requestId in c.requests
       && c.heap[c.cache.entries[node].requestId].uid != uid {
      InvalidateOneKeeps(a, c, c.cache.entries[node].requestId, seen);
    }
  }

  /** A snapshot received now for a complete record that is retained, or new and without a context. */
  ghost predicate Associable(d: Manager, id: string, r: Request, s: Snapshot) {
    && s.requestId == id && s.node == r.node && r.state.Complete?
    && d.clock <= s.receivedAt && s.expiresAt == s.receivedAt + d.cache.ttl
    && if id in d.heap then id in d.requests && r == d.heap[id]
       else r.ctx.NoContext? && !r.dispatching && !r.poll && !r.retry
  }

  lemma AssociatingKeepsRequests(d: Manager, id: string, r: Request, s: Snapshot)
    requires Inv(d) && Associable(d, id, r, s)
    ensures var m := Associated(d, id, r, s); WellFormed(m) && PendingIsActive(m) && RequestsEvolve(d, m)
  {
  }

  lemma AssociatingKeepsDispatch(d: Manager, id: string, r: Request, s: Snapshot)
    requires Inv(d) && Associable(d, id, r, s)
    ensures var m := Associated(d, id, r, s); WellFormed(m) && DispatchIsOwned(m)
  {
  }

  lemma AssociatingKeepsContexts(d: Manager, id: string, r: Request, s: Snapshot)
    requires Inv(d) && Associable(d, id, r, s)
    ensures var m := Associated(d, id, r, s); WellFormed(m) && ContextsAreSettled(m)
  {
  }

  lemma AssociatingKeepsCache(d: Manager, id: string, r: Request, s: Snapshot)
    requires Inv(d) && Available(d) && Associable(d, id, r, s)
    ensures var m := Associated(d, id, r, s); WellFormed(m) && CacheIsBacked(m) && CacheEvolves(d, m)
  {
  }

  lemma AssociatingKeeps(a: Manager, d: Manager, id: string, r: Request, s: Snapshot)
    requires WellFormed(d) && d in Futures(a) && Available(d) && Associable(d, id, r, s)
    ensures Associated(d, id, r, s) in Futures(a)
  {
    AssociatingKeepsRequests(d, id, r, s);
    AssociatingKeepsCache(d, id, r, s);
    AssociatingKeepsDispatch(d, id, r, s);
    AssociatingKeepsContexts(d, id, r, s);
    hide PendingIsActive, CacheIsBacked, DispatchIsOwned, ContextsAreSettled, RequestsEvolve, CacheEvolves;
    Step(a, d, Associated(d, id, r, s));
  }

  lemma StoringKeeps(a: Manager, d: Manager, node: string, status: NodeStatus, revision: nat, identity: Option<Digest>,
                     base: Option<StatusPtr>, uid: string, newId: string, addr: nat, seen: Time, last: Time)
    requires WellFormed(d) && d in Futures(a) && Available(d) && newId !in d.heap && d.clock <= seen <= last
    ensures Stored(d, node, status, revision, identity, base, uid, newId, addr, seen, last).0 in Futures(a)
  {
    if !d.cache.Stores(node, base, last) {
      ShrinkingKeeps(a, d, d.cache, last);
    } else {
      var reuse := Reusable(d, node, uid, seen);
      if reuse {
        assert Backed(d, d.cache.entries[node]);
      }
      hide Futures;
      var id := if reuse then d.cache.entries[node].requestId else newId;
      var s := d.cache.Fresh(node, id, StatusPtr(addr, status), revision, identity, last);
      AssociatingKeeps(a, d, id,
        if reuse then d.heap[id] else Request(node, uid, 0, Complete, Nothing, 0, false, NoContext, false, false), s);
    }
  }

  lemma PublishKeeps(a: Manager, m: Manager, node: string, status: Option<NodeStatus>, revision: nat, identity: Option<Digest>,
                     base: Option<StatusPtr>, uid: Resolved, newId: string, addr: nat,
                     now: Time, tick: string -> Time, seen: Time, last: Time)
    requires WellFormed(m) && m in Futures(a)
    requires newId !in m.heap && m.clock <= now && Between(now, tick, seen) && seen <= last
    ensures Observed(m, node, status, revision, identity, base, uid, newId, addr, now, tick, seen, last).0 in Futures(a)
  {
    hide Futures, Expire, Forget, Examined, Stored;
    ExpireKeeps(a, m, now);
    if Available(m) && status.Some? && status.value.nodeInfo.name == node && revision != 0 {
      if uid.None? || uid.value == "" {
        ForgetKeeps(a, Expire(m, now), node, tick, seen);
      } else {
        var d := Examined(m, node, uid.value, now, tick, seen);
        ExaminingKeeps(a, m, node, uid.value, now, tick, seen);
        StoringKeeps(a, d, node, status.value, revision, identity, base, uid.value, newId, addr, seen, last);
      }
    }
  }

  lemma ReadBaseKeeps(a: Manager, m: Manager, node: string, revision: nat, uid: Resolved, seen: Time, tick: string -> Time, last: Time)
    requires WellFormed(m) && m in Futures(a) && m.clock <= seen && Between(seen, tick, last)
    ensures LegacyBase(m, node, revision, uid, seen, tick, last).0 in Futures(a)
  {
    hide Futures, Forget;
    if Available(m) {
      ShrinkingKeeps(a, m, m.cache.AfterGet(node, seen), seen);
      ForgetKeeps(a, m.(cache := m.cache.AfterGet(node, seen), clock := seen), node, tick, last);
    }
  }

  /** A note on a pending request: a failed pull, or a retry wish with a worker to serve it. */
  function Noted(e: Manager, id: string, r: Request, updates: nat): Manager {
    e.(heap := e.heap[id := r], updates := updates)
  }

  lemma NotingKeepsCache(e: Manager, id: string, r: Request, updates: nat)
    requires Inv(e) && StillPending(e, id) && e.updates <= updates
    requires r == e.heap[id].(poll := r.poll, message := r.message, retry := r.retry)
    ensures var n := Noted(e, id, r, updates); WellFormed(n) && CacheIsBacked(n) && CacheEvolves(e, n)
  {
  }

  lemma NotingKeepsRequests(e: Manager, id: string, r: Request, updates: nat)
    requires Inv(e) && StillPending(e, id) && e.updates <= updates
    requires r == e.heap[id].(poll := r.poll, message := r.message, retry := r.retry) && (r.retry && Available(e) ==> r.dispatching)
    ensures var n := Noted(e, id, r, updates); WellFormed(n) && PendingIsActive(n) && RequestsEvolve(e, n)
  {
  }

  lemma NotingKeepsDispatch(e: Manager, id: string, r: Request, updates: nat)
    requires Inv(e) && StillPending(e, id)
    requires r == e.heap[id].(poll := r.poll, message := r.message, retry := r.retry) && (r.retry && Available(e) ==> r.dispatching)
    ensures var n := Noted(e, id, r, updates); WellFormed(n) && DispatchIsOwned(n) && ContextsAreSettled(n)
  {
  }

  lemma NotingKeeps(a: Manager, e: Manager, id: string, r: Request, updates: nat)
    requires WellFormed(e) && e in Futures(a) && StillPending(e, id) && e.updates <= updates
    requires r == e.heap[id].(poll := r.poll, message := r.message, retry := r.retry) && (r.retry && Available(e) ==> r.dispatching)
    ensures Noted(e, id, r, updates) in Futures(a)
  {
    NotingKeepsCache(e, id, r, updates);
    NotingKeepsRequests(e, id, r, updates);
    NotingKeepsDispatch(e, id, r, updates);
    hide PendingIsActive, CacheIsBacked, DispatchIsOwned, ContextsAreSettled, RequestsEvolve, CacheEvolves;
    Step(a, e, Noted(e, id, r, updates));
  }

  /** Active requests of a valid state are pending, and their retry wishes have a worker. */
  lemma ActiveIsPending(a: Manager, e: Manager, node: string)
    requires WellFormed(e) && e in Futures(a) && node in e.active
    ensures StillPending(e, e.active[node]) && e.heap[e.active[node]].node == node
    ensures Available(e) && e.heap[e.active[node]].retry ==> e.heap[e.active[node]].dispatching
  {
  }

  lemma PullFailsKeeps(a: Manager, m: Manager, node: string, id: string, message: string, now: Time)
    requires WellFormed(m) && m in Futures(a) && m.clock <= now
    ensures PullFailed(m, node, id, message, now) in Futures(a)
  {
    hide Futures, Expire;
    var e := Expire(m, now);
    ExpireKeeps(a, m, now);
    if node in e.active && e.active[node] == id && !m.cancelled {
      ActiveIsPending(a, e, node);
      NotingKeeps(a, e, id, e.heap[id].(poll := true, message := PullFailure(message)), e.updates + 1);
    }
  }

  lemma ReconnectKeeps(a: Manager, m: Manager, node: string, now: Time)
    requires WellFormed(m) && m in Futures(a) && m.clock <= now
    ensures Retry(m, node, now) in Futures(a)
  {
    hide Futures, Expire;
    var e := Expire(m, now);
    ExpireKeeps(a, m, now);
    if node in e.active && Available(m) {
      var id := e.active[node];
      ActiveIsPending(a, e, node);
      if e.heap[id].dispatching {
        NotingKeeps(a, e, id, e.heap[id].(retry := true), e.updates);
      } else {
        assert StartDispatch(e.(heap := e.heap[id := e.heap[id].(retry := true)]), id) == StartDispatch(e, id);
        StartDispatchKeeps(a, e, id);
      }
    }
  }

  /** The worker is gone and, unless the request is still pending, so is its context. */
  function Released(m: Manager, id: string): Manager
    requires id in m.heap
  {
    var r := m.heap[id].(dispatching := false);
    m.(heap := m.heap[id := if r.state.Pending? then r else r.(ctx := r.ctx.Cancel())], workers := m.workers - multiset{id})
  }

  ghost predicate WantsRetry(m: Manager, id: string)
    requires id in m.heap
  {
    m.heap[id].node in m.active && m.active[m.heap[id].node] == id && m.heap[id].retry && Available(m)
  }

  lemma ReleasingKeepsRequests(m: Manager, id: string)
    requires Inv(m) && id in m.heap && id in m.workers
    ensures WellFormed(Released(m, id)) && PendingIsActive(Released(m, id)) && RequestsEvolve(m, Released(m, id))
  {
  }

  lemma ReleasingKeepsCache(m: Manager, id: string)
    requires Inv(m) && id in m.heap && id in m.workers
    ensures CacheIsBacked(Released(m, id)) && CacheEvolves(m, Released(m, id))
  {
  }

  lemma ReleasingKeepsDispatch(m: Manager, id: string)
    requires Inv(m) && id in m.heap && id in m.workers && !WantsRetry(m, id)
    ensures WellFormed(Released(m, id)) && DispatchIsOwned(Released(m, id)) && ContextsAreSettled(Released(m, id))
  {
  }

  lemma ReleasingKeeps(a: Manager, m: Manager, id: string)
    requires WellFormed(m) && m in Futures(a) && id in m.heap && id in m.workers && !WantsRetry(m, id)
    ensures FinishDispatch(m, id) in Futures(a)
  {
    ReleasingKeepsRequests(m, id);
    ReleasingKeepsCache(m, id);
    ReleasingKeepsDispatch(m, id);
    hide PendingIsActive, CacheIsBacked, DispatchIsOwned, ContextsAreSettled, RequestsEvolve, CacheEvolves;
    assert Released(m, id).workers <= m.workers;
    Step(a, m, Released(m, id));
  }

  /** A retry that came during the dispatch is served at once by the same worker slot: ownership never doubles. */
  lemma RetryIsServed(m: Manager, id: string)
    requires Inv(m) && id in m.heap && id in m.workers && WantsRetry(m, id)
    ensures FinishDispatch(m, id) == m.(heap := m.heap[id := m.heap[id].(retry := false, poll := false)])
    ensures FinishDispatch(m, id).workers[id] == 1
  {
  }

  lemma WorkerEndsKeeps(a: Manager, m: Manager, id: string)
    requires WellFormed(m) && m in Futures(a) && id in m.heap && id in m.workers
    ensures FinishDispatch(m, id) in Futures(a)
  {
    if WantsRetry(m, id) {
      RetryIsServed(m, id);
      ActiveIsPending(a, m, m.heap[id].node);
      NotingKeeps(a, m, id, m.heap[id].(retry := false, poll := false), m.updates);
    } else {
      ReleasingKeeps(a, m, id);
    }
  }

  lemma CancelKeeps(a: Manager, m: Manager)
    requires WellFormed(m) && m in Futures(a)
    ensures Cancel(m) in Futures(a)
  {
    forall n | n in m.cache.entries && m.clock < m.cache.entries[n].expiresAt ensures Backed(Cancel(m), m.cache.entries[n]) {
      assert Backed(m, m.cache.entries[n]);
    }
    Step(a, m, Cancel(m));
  }

  lemma StopKeeps(a: Manager, m: Manager)
    requires WellFormed(m) && m in Futures(a) && !m.closed
    ensures Shutdown(m) in Futures(a)
  {
  }

  // ----- Whole runs -----

  lemma NextKeeps(a: Manager, m: Manager, e: Event)
    requires Enabled(m, e) && m in Futures(a)
    ensures Next(m, e) in Futures(a)
  {
    hide Futures, Requested, ResultFor, Completed, Failed, PendingCommand, NodeInvalidated, Observed, LegacyBase, Forget;
    hide PullFailed, Retry, FinishDispatch, Expire, Shutdown;
    match e
    case Ask(node, force, uid, newId, now, tick, seen, last) => AskKeeps(a, m, node, force, uid, newId, now, tick, seen, last);
    case Look(node, id, uid, now, seen, last) => LookKeeps(a, m, node, id, uid, now, seen, last);
    case Reply(node, id, status, uid, addr, now, last) => ReplyKeeps(a, m, node, id, status, uid, addr, now, last);
    case Fail(node, id, message, uid, now, last) => FailKeeps(a, m, node, id, message, uid, now, last);
    case Poll(node, uid, now, last) => PollKeeps(a, m, node, uid, now, last);
    case NodeGone(node, gone, tick) => NodeGoneKeeps(a, m, node, gone, tick);
    case Publish(node, status, revision, identity, base, uid, newId, addr, now, tick, seen, last) =>
      PublishKeeps(a, m, node, status, revision, identity, base, uid, newId, addr, now, tick, seen, last);
    case ReadBase(node, revision, uid, seen, tick, last) => ReadBaseKeeps(a, m, node, revision, uid, seen, tick, last);
    case Drop(node, tick, last) => ForgetKeeps(a, m, node, tick, last);
    case PullFails(id, message, now) => PullFailsKeeps(a, m, m.heap[id].node, id, message, now);
    case Reconnect(node, now) => ReconnectKeeps(a, m, node, now);
    case WorkerEnds(id) => WorkerEndsKeeps(a, m, id);
    case Wake(now) => ExpireKeeps(a, m, now);
    case CacheSweep(now) => ShrinkingKeeps(a, m, m.cache.Expire(now), now);
    case LoseLeadership => CancelKeeps(a, m);
    case CacheStops => ShrinkingKeeps(a, m, m.cache.Clear(), m.clock);
    case Stop => StopKeeps(a, m);
  }

  /** The states of a run: each event is enabled where it happens. */
  ghost predicate IsRun(states: seq<Manager>, events: seq<Event>) {
    && |states| == |events| + 1
    && (forall i | 0 <= i < |events| :: Enabled(states[i], events[i]) && states[i + 1] == Next(states[i], events[i]))
  }

  lemma Reflexive(m: Manager)
    requires Inv(m)
    ensures m in Futures(m)
  {
  }

  lemma {:induction false} RunStays(states: seq<Manager>, events: seq<Event>, i: nat, j: nat)
    requires IsRun(states, events) && Inv(states[0]) && i <= j < |states|
    ensures states[j] in Futures(states[i])
    decreases j
  {
    hide Futures, Next, Enabled, Inv;
    if i < j {
      RunStays(states, events, i, j - 1);
      NextKeeps(states[i], states[j - 1], events[j - 1]);
    } else {
      if j > 0 {
        RunStays(states, events, j - 1, j - 1);
        NextKeeps(states[j - 1], states[j - 1], events[j - 1]);
        FutureIsValid(states[j - 1], states[j]);
      }
      Reflexive(states[j]);
    }
  }

  /** Along every run the invariant holds everywhere, and any earlier state evolves into any later one. */
  lemma RunKeeps(states: seq<Manager>, events: seq<Event>, i: nat, j: nat)
    requires IsRun(states, events) && Inv(states[0]) && i <= j < |states|
    ensures Inv(states[j]) && Evolves(states[i], states[j])
  {
    hide Futures, Next, Enabled, Inv, Evolves;
    RunStays(states, events, i, j);
    FutureIsValid(states[i], states[j]);
  }
}
