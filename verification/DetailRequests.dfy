/** The detail cache and the request manager as objects, each method proved against its section in DetailSpec. */
module DetailRequests {
  import opened Prelude
  import opened NodeStatusTypes
  import opened DetailSpec
  import opened DetailLoops
  import DetailInvariant

  class NodeDetailCache {
    const ttl: Time
    var entries: map<string, Snapshot>

    ghost function View(): Cache
      reads this
    {
      Cache(ttl, entries)
    }

    constructor (ttl: Time)
      ensures View() == Cache(ttl, map[])
    {
      this.ttl := ttl;
      entries := map[];
    }

    /** `addr` is where the copy of the status lives; a base must still be the cached status, unexpired. */
    method Store(node: string, id: string, status: Option<NodeStatus>, revision: nat, identity: Option<Digest>,
                 expected: Option<StatusPtr>, addr: nat, now: Time) returns (r: Outcome<Snapshot, Refusal>)
      modifies this
      ensures status.None? ==> r.Err? && View() == old(View())
      ensures status.Some? ==> (r.Ok? <==> old(View()).Stores(node, expected, now))
      ensures r.Ok? ==> r.value == old(View()).Fresh(node, id, StatusPtr(addr, status.value), revision, identity, now)
                        && View() == old(View()).Put(r.value)
      ensures r.Err? ==> View() == old(View())
      ensures r.Err? && status.Some? ==> r.error == if node == "" then NoNodeName else BaseUnavailable
    {
      if node == "" {
        return Err(NoNodeName);
      }
      if status.None? {
        return Err(NoStatus);
      }
      if expected.Some? {
        if node !in entries || entries[node].status.addr != expected.value.addr || now >= entries[node].expiresAt {
          return Err(BaseUnavailable);
        }
      }
      var s := Snapshot(node, id, status.value.timestamp, now, now + ttl, StatusPtr(addr, status.value), revision, identity);
      entries := entries[node := s];
      r := Ok(s);
    }

    method Get(node: string, now: Time) returns (r: Option<Snapshot>)
      modifies this
      ensures View() == old(View()).AfterGet(node, now)
      ensures r == if old(View()).Live(node, now) then Some(old(entries)[node]) else None
    {
      if node !in entries {
        assert entries - {node} == entries;
        return None;
      }
      var s := entries[node];
      if now >= s.expiresAt {
        entries := entries - {node};
        return None;
      }
      r := Some(s);
    }

    method Delete(node: string)
      modifies this
      ensures View() == old(View()).Delete(node)
    {
      entries := entries - {node};
    }

    /** Reads the entry and drops it if it is lapsed or was stored under `id`. */
    method Evict(node: string, id: string, now: Time)
      modifies this
      ensures View() == old(View()).AfterEvict(node, id, now)
    {
      var s := Get(node, now);
      if s.Some? && s.value.requestId == id {
        Delete(node);
      }
    }

    method Clear()
      modifies this
      ensures View() == old(View()).Clear()
    {
      entries := map[];
    }

    /** Removes what is at or past its deadline, counts it, and reports the earliest remaining deadline. */
    method Expire(now: Time) returns (removed: nat, next: Option<Time>)
      modifies this
      ensures View() == old(View()).Expire(now)
      ensures removed == |old(entries)| - |entries|
      ensures next == Earliest(map n | n in entries :: entries[n].expiresAt)
    {
      removed := 0;
      next := None;
      var names := entries.Keys;
      ghost var start := entries;
      while names != {}
        invariant names <= start.Keys
        invariant entries == Unswept(start, names, now)
        invariant removed + |entries| == |start|
        invariant next == Earliest(Kept(start, names, now))
        decreases names
      {
        var name :| name in names;
        Sweep(start, names, name, now);
        names := names - {name};
        var s := entries[name];
        if now >= s.expiresAt {
          RemovingShrinks(entries, name);
          entries := entries - {name};
          removed := removed + 1;
        } else {
          next := Sooner(s.expiresAt, next);
        }
      }
      assert Kept(start, {}, now) == map n | n in entries :: entries[n].expiresAt;
    }
  }

  /** Every method is one critical section of the manager's mutex; clock readings and resolver answers are inputs. */
  class NodeDetailRequests {
    const timeout: Time
    const cache: NodeDetailCache
    var cancelled: bool
    var closed: bool
    var heap: map<string, Request>
    var requests: set<string>
    var active: map<string, string>
    var updates: nat
    var workers: multiset<string>
    var clock: Time

    ghost function View(): Manager
      reads this, cache
    {
      Manager(timeout, cancelled, closed, heap, requests, active, cache.View(), updates, workers, clock)
    }

    /** Construction takes ownership of the cache and empties it. */
    constructor (cache: NodeDetailCache, timeout: Time, now: Time)
      requires timeout > 0 && cache.ttl > 0
      modifies cache
      ensures this.cache == cache && WellFormed(View())
      ensures View() == Manager(timeout, false, false, map[], {}, map[], Cache(cache.ttl, map[]), 0, multiset{}, now)
    {
      this.timeout := timeout;
      this.cache := cache;
      cancelled, closed := false, false;
      heap, requests, active := map[], {}, map[];
      updates, workers, clock := 0, multiset{}, now;
      new;
      cache.Clear();
    }

    method Wake()
      modifies this`updates
      ensures View() == Notify(old(View()))
    {
      updates := updates + 1;
    }

    /** One iteration of the expiry loop. */
    method VisitLocked(id: string, now: Time)
      requires id in heap
      modifies this`heap, this`requests, this`active
      ensures var v := VisitOne(old(View()), id, now); heap == v.heap && requests == v.requests && active == v.active
      ensures id in heap && heap[id] == VisitedRecord(old(heap)[id], timeout, now)
    {
      var r := heap[id];
      if now >= r.wakeAt {
        if r.state.Pending? || r.state.Complete? {
          heap := heap[id := r.(ctx := r.ctx.Cancel(), state := Expired, message := HasExpired,
                                poll := false, wakeAt := r.wakeAt + timeout)];
          if r.node in active && active[r.node] == id {
            active := active - {r.node};
          }
        }
        if now >= heap[id].wakeAt {
          requests := requests - {id};
        }
      }
    }

    /** The expiry loop. Its result is the same for every order in which the requests are visited. */
    method ExpirePass(now: Time) returns (next: Option<Time>, changed: bool)
      requires WellFormed(View())
      modifies this`heap, this`requests, this`active
      ensures var m := old(View()); var e := ExpireOver(m, now, m.requests);
              && heap == e.heap && requests == e.requests && active == e.active
              && changed == AnyDue(m, now, m.requests) && next == Earliest(Wakes(m, now, m.requests))
    {
      next, changed := None, false;
      var rest := requests;
      ghost var m := View();
      ghost var done: set<string> := {};
      ExpireNone(m, now);
      hide ExpireOver, Wakes, VisitOne, VisitedRecord, Earliest, IsEarliest, Sooner, AnyDue;
      while rest != {}
        modifies this`heap, this`requests, this`active
        invariant done == m.requests - rest && rest <= m.requests
        invariant var o := ExpireOver(m, now, done); heap == o.heap && requests == o.requests && active == o.active
        invariant changed == AnyDue(m, now, done)
        invariant next == Earliest(Wakes(m, now, done))
        decreases rest
      {
        var id :| id in rest;
        ExpireMore(m, now, done, id);
        AnyDueMore(m, now, done, id);
        WakesMore(m, now, done, id);
        changed := changed || now >= heap[id].wakeAt;
        VisitLocked(id, now);
        var t := heap[id].wakeAt;
        if now < t {
          next := Sooner(t, next);
        }
        rest, done := rest - {id}, done + {id};
      }
      assert done == m.requests;
    }

    /** Expires what is due, wakes waiters if anything was, and returns the next wake-up time. */
    method ExpireLocked(now: Time) returns (next: Option<Time>)
      requires WellFormed(View())
      modifies this`heap, this`requests, this`active, this`updates, this`clock
      ensures View() == DetailSpec.Expire(old(View()), now)
      ensures next == Earliest(map id | id in requests :: heap[id].wakeAt)
    {
      ghost var m := View();
      WakesAll(m, now);
      var changed;
      next, changed := ExpirePass(now);
      hide ExpireOver, Wakes, Earliest, IsEarliest;
      clock := now;
      if changed {
        Wake();
      }
    }

    method InvalidateLocked(id: string, now: Time)
      requires WellFormed(View()) && id in heap
      modifies this, cache
      ensures View() == InvalidateOnce(old(View()), id, now)
    {
      var r := heap[id];
      if r.state.Unavailable? {
        return;
      }
      heap := heap[id := r.(ctx := r.ctx.Cancel(), state := Unavailable, message := NodeWasReplaced,
                            poll := false, wakeAt := now + timeout)];
      if r.node in active && active[r.node] == id {
        active := active - {r.node};
      }
      cache.Evict(r.node, id, now);
      Wake();
    }

    /** The invalidation loops: `tick(id)` is the clock reading taken while invalidating `id`. */
    method InvalidateEach(ids: set<string>, tick: string -> Time)
      requires WellFormed(View()) && ids <= heap.Keys
      modifies this, cache
      ensures View() == InvalidateAll(old(View()), ids, tick)
    {
      ghost var m := View();
      ghost var done: set<string> := {};
      var rest := ids;
      InvalidateNone(m, tick);
      hide InvalidateAll, InvalidateOnce;
      while rest != {}
        invariant done == ids - rest && rest <= ids
        invariant View() == InvalidateAll(m, done, tick)
        decreases rest
      {
        var id :| id in rest;
        InvalidateMore(m, done, id, tick);
        InvalidateFrame(m, done, tick);
        InvalidateLocked(id, tick(id));
        rest, done := rest - {id}, done + {id};
      }
      assert done == ids;
    }

    method ForgetLocked(node: string, tick: string -> Time)
      requires WellFormed(View())
      modifies this, cache
      ensures View() == DetailSpec.Forget(old(View()), node, tick)
    {
      InvalidateEach((set id | id in requests && heap[id].node == node), tick);
      cache.Delete(node);
    }

    method ResultLocked(id: string, now: Time) returns (r: Result)
      requires WellFormed(View()) && id in heap
      modifies this`clock, cache
      ensures View() == AfterResult(old(View()), id, now)
      ensures r == ResultOf(old(View()), id, now)
    {
      clock := now;
      var q := heap[id];
      r := Result(q.node, id, q.deadline, q.state, q.message, None);
      if q.state.Complete? {
        var s := cache.Get(q.node, now);
        if s.Some? && s.value.requestId == id {
          r := r.(details := s);
        } else {
          r := r.(state := Expired, error := DetailsGone);
        }
      }
    }

    method StartDispatchLocked(id: string)
      requires id in heap
      modifies this`heap, this`workers
      ensures View() == StartDispatch(old(View()), id)
    {
      heap := heap[id := heap[id].(dispatching := true, retry := false, poll := false)];
      workers := workers + multiset{id};
    }

    /** Expiry, invalidation of other identities and, unless forced, the cache read of a viewer's request. */
    method PrepareLocked(node: string, force: bool, uid: string, now: Time, tick: string -> Time, seen: Time)
      returns (cached: Option<Snapshot>)
      requires WellFormed(View())
      modifies this, cache
      ensures View() == Prepared(old(View()), node, force, uid, now, tick, seen)
      ensures cached == if !force && View().cache.Live(node, seen) then Some(View().cache.entries[node]) else None
    {
      var _ := ExpireLocked(now);
      hide DetailSpec.Expire, InvalidateAll;
      var others := set id | id in requests && heap[id].node == node && heap[id].uid != uid;
      assert others == Strangers(View(), node, uid);
      hide InvalidateAll;
      InvalidateEach(others, tick);
      cached := None;
      if !force {
        clock := seen;
        cached := cache.Get(node, seen);
      }
    }

    method OpenLocked(node: string, uid: string, newId: string, now: Time)
      modifies this`heap, this`requests, this`active, this`clock, this`updates
      ensures View() == Opened(old(View()), node, uid, newId, now)
    {
      heap := heap[newId := Request(node, uid, now + timeout, Pending, Nothing, now + timeout, false, Running, false, false)];
      requests := requests + {newId};
      active := active[node := newId];
      clock := now;
      Wake();
    }

    method AnswerLocked(node: string, force: bool, uid: string, newId: string, cached: Option<Snapshot>, seen: Time, last: Time)
      returns (r: Result)
      requires WellFormed(View())
      requires cached == if !force && View().cache.Live(node, seen) then Some(View().cache.entries[node]) else None
      modifies this, cache
      ensures (View(), r) == Answered(old(View()), node, force, uid, newId, seen, last)
    {
      if cached.Some? && cached.value.requestId in requests && heap[cached.value.requestId].uid == uid {
        r := ResultLocked(cached.value.requestId, last);
      } else if node in active {
        r := ResultLocked(active[node], last);
      } else {
        OpenLocked(node, uid, newId, last);
        StartDispatchLocked(newId);
        r := Result(node, newId, last + timeout, Pending, Nothing, None);
      }
    }

    method RequestDetail(node: string, force: bool, uid: Resolved, newId: string, now: Time, tick: string -> Time, seen: Time, last: Time)
      returns (r: Result)
      requires WellFormed(View()) && newId !in heap
      modifies this, cache
      ensures (View(), r) == Requested(old(View()), node, force, uid, newId, now, tick, seen, last)
    {
      hide DetailSpec.Expire, Prepared, Answered;
      if cancelled || closed {
        return Failure(node, "", Retryable, LeaderIsUnavailable);
      }
      if uid.None? || uid.value == "" {
        var _ := ExpireLocked(now);
        return Failure(node, "", Unavailable, IdentityUnavailable);
      }
      var cached := PrepareLocked(node, force, uid.value, now, tick, seen);
      r := AnswerLocked(node, force, uid.value, newId, cached, seen, last);
    }

    method ResultForId(node: string, id: string, uid: Resolved, now: Time, seen: Time, last: Time) returns (r: Result)
      requires WellFormed(View())
      modifies this, cache
      ensures (View(), r) == ResultFor(old(View()), node, id, uid, now, seen, last)
    {
      hide DetailSpec.Expire, AfterResult, ResultOf;
      if cancelled || closed {
        return Failure(node, id, Retryable, LeaderIsUnavailable);
      }
      var _ := ExpireLocked(now);
      if id !in requests || heap[id].node != node {
        return Failure(node, id, Retryable, NoLongerKnown);
      }
      if uid != Some(heap[id].uid) {
        InvalidateLocked(id, seen);
        clock := seen;
      }
      r := ResultLocked(id, last);
    }

    /** A result stripped of its payload together with the wake channel current at that moment. */
    method WatchMetadata(node: string, id: string, uid: Resolved, now: Time, seen: Time, last: Time)
      returns (r: ResultMetadata, channel: nat)
      requires WellFormed(View())
      modifies this, cache
      ensures var (m, full) := ResultFor(old(View()), node, id, uid, now, seen, last);
              View() == m && channel == m.updates && r == WithoutPayload(full)
    {
      hide DetailSpec.Expire, WellFormed;
      var full := ResultForId(node, id, uid, now, seen, last);
      r := ResultMetadata(full.node, full.requestId, full.deadline, full.state, full.error, None);
      if full.details.Some? {
        var s := full.details.value;
        r := r.(details := Some(SnapshotInfo(s.node, s.requestId, s.collectedAt, s.receivedAt, s.expiresAt)));
      }
      channel := updates;
    }

    method SettleLocked(id: string, state: State, message: Message, wakeAt: Time, now: Time)
      requires id in heap
      modifies this`heap, this`active, this`clock, this`updates
      ensures View() == Settled(old(View()), id, state, message, wakeAt, old(View()).cache, now)
    {
      var r := heap[id];
      var settled := r.(state := state, message := message, poll := false, wakeAt := wakeAt);
      if !r.dispatching {
        settled := settled.(ctx := r.ctx.Cancel());
      }
      assert settled == Settle(r, state, message, wakeAt);
      hide Settle;
      heap := heap[id := settled];
      active := active - {r.node};
      clock := now;
      Wake();
    }

    method Complete(node: string, id: string, status: Option<NodeStatus>, uid: Resolved, addr: nat, now: Time, last: Time)
      returns (out: Outcome<(), Refusal>)
      requires WellFormed(View())
      modifies this, cache
      ensures (View(), out) == Completed(old(View()), node, id, status, uid, addr, now, last)
    {
      hide DetailSpec.Expire;
      var _ := ExpireLocked(now);
      if cancelled || closed || id !in requests || heap[id].node != node {
        return Err(RequestUnavailable);
      }
      if uid != Some(heap[id].uid) {
        InvalidateLocked(id, last);
        clock := last;
        return Err(NodeReplaced);
      }
      if status.None? || status.value.nodeInfo.name != node || status.value.fetchError != "" {
        return Err(UnusableReply);
      }
      if heap[id].state.Complete? {
        return Ok(());
      }
      if !heap[id].state.Pending? {
        return Err(NotPending);
      }
      var s := cache.Store(node, id, status, 0, None, None, addr, last);
      if s.Err? {
        return Err(s.error);
      }
      SettleLocked(id, DetailSpec.Complete, Nothing, s.value.expiresAt, last);
      out := Ok(());
    }

    method CompleteFailure(node: string, id: string, message: string, uid: Resolved, now: Time, last: Time) returns (out: Outcome<(), Refusal>)
      requires WellFormed(View())
      modifies this, cache
      ensures (View(), out) == Failed(old(View()), node, id, message, uid, now, last)
    {
      hide DetailSpec.Expire;
      var _ := ExpireLocked(now);
      if cancelled || closed || id !in requests || heap[id].node != node || message == "" {
        return Err(RequestUnavailable);
      }
      if uid != Some(heap[id].uid) {
        InvalidateLocked(id, last);
        clock := last;
        return Err(NodeReplaced);
      }
      if heap[id].state.Complete? || heap[id].state.Unavailable? {
        return Ok(());
      }
      if !heap[id].state.Pending? {
        return Err(NotPending);
      }
      SettleLocked(id, Unavailable, Reported(message), last + timeout, last);
      out := Ok(());
    }

    method PendingFallback(node: string, uid: Resolved, now: Time, last: Time) returns (command: Option<(string, Time)>)
      requires WellFormed(View())
      modifies this, cache
      ensures (View(), command) == PendingCommand(old(View()), node, uid, now, last)
    {
      hide DetailSpec.Expire;
      var _ := ExpireLocked(now);
      if cancelled || node !in active || !heap[active[node]].poll {
        return None;
      }
      var id := active[node];
      if uid != Some(heap[id].uid) {
        InvalidateLocked(id, last);
        clock := last;
        return None;
      }
      command := Some((id, heap[id].deadline));
    }

    method InvalidateNode(node: string, uid: string, tick: string -> Time)
      requires WellFormed(View())
      modifies this, cache
      ensures View() == NodeInvalidated(old(View()), node, uid, tick)
    {
      hide InvalidateAll;
      var ids := set id | id in requests && heap[id].node == node && heap[id].uid == uid;
      assert ids == set id | id in OfNode(View(), node) && View().heap[id].uid == uid;
      InvalidateEach(ids, tick);
    }

    /** The fallback section of a dispatch worker whose pull failed or never ran. */
    method DispatchFallback(node: string, id: string, message: string, now: Time)
      requires WellFormed(View())
      modifies this
      ensures View() == PullFailed(old(View()), node, id, message, now)
    {
      hide DetailSpec.Expire;
      var _ := ExpireLocked(now);
      if node in active && active[node] == id && !cancelled {
        heap := heap[id := heap[id].(poll := true, message := PullFailure(message))];
        Wake();
      }
    }

    method RetryDispatch(node: string, now: Time)
      requires WellFormed(View())
      modifies this
      ensures View() == DetailSpec.Retry(old(View()), node, now)
    {
      hide DetailSpec.Expire;
      var _ := ExpireLocked(now);
      if node in active && !cancelled && !closed {
        var id := active[node];
        heap := heap[id := heap[id].(retry := true)];
        if !heap[id].dispatching {
          StartDispatchLocked(id);
        }
      }
    }

    /** The last section of a dispatch worker. */
    method DispatchDone(id: string)
      requires id in heap && id in workers
      modifies this`heap, this`workers
      ensures View() == FinishDispatch(old(View()), id)
    {
      workers := workers - multiset{id};
      var r := heap[id].(dispatching := false);
      if !r.state.Pending? {
        r := r.(ctx := r.ctx.Cancel());
      }
      heap := heap[id := r];
      if r.node in active && active[r.node] == id && r.retry && !cancelled && !closed {
        StartDispatchLocked(id);
      }
    }

    /** Expiry, invalidation of other identities and the cache read of a legacy publication; finds the association to reuse. */
    method ExamineLocked(node: string, uid: string, now: Time, tick: string -> Time, seen: Time) returns (reuse: Option<string>)
      requires WellFormed(View())
      modifies this, cache
      ensures View() == Examined(old(View()), node, uid, now, tick, seen)
      ensures reuse == if Reusable(View(), node, uid, seen) then Some(View().cache.entries[node].requestId) else None
    {
      ExaminedIsPrepared(View(), node, uid, now, tick, seen);
      hide Prepared, Examined;
      reuse := None;
      var s := PrepareLocked(node, false, uid, now, tick, seen);
      if s.Some? && s.value.requestId in requests {
        var r := heap[s.value.requestId];
        if r.uid == uid && r.state.Complete? {
          reuse := Some(s.value.requestId);
        } else if r.uid != uid {
          InvalidateLocked(s.value.requestId, seen);
          clock := seen;
        }
      }
    }

    /** Stores under the reused association, else under a new complete record. */
    method StoreLegacyLocked(node: string, status: NodeStatus, revision: nat, identity: Option<Digest>, base: Option<StatusPtr>,
                             uid: string, reuse: Option<string>, newId: string, addr: nat, seen: Time, last: Time)
      returns (out: Outcome<(), Refusal>)
      requires WellFormed(View())
      requires reuse == if Reusable(View(), node, uid, seen) then Some(View().cache.entries[node].requestId) else None
      modifies this, cache
      ensures (View(), out) == Stored(old(View()), node, status, revision, identity, base, uid, newId, addr, seen, last)
    {
      var id := newId;
      var r := Request(node, uid, 0, DetailSpec.Complete, Nothing, 0, false, NoContext, false, false);
      if reuse.Some? {
        id := reuse.value;
        r := heap[id];
      }
      clock := last;
      var s := cache.Store(node, id, Some(status), revision, identity, base, addr, last);
      if s.Err? {
        return Err(s.error);
      }
      heap := heap[id := r.(wakeAt := s.value.expiresAt)];
      requests := requests + {id};
      Wake();
      out := Ok(());
    }

    method ObserveLegacy(node: string, status: Option<NodeStatus>, revision: nat, identity: Option<Digest>, base: Option<StatusPtr>,
                         uid: Resolved, newId: string, addr: nat, now: Time, tick: string -> Time, seen: Time, last: Time)
      returns (out: Outcome<(), Refusal>)
      requires WellFormed(View()) && newId !in heap
      modifies this, cache
      ensures (View(), out) == Observed(old(View()), node, status, revision, identity, base, uid, newId, addr, now, tick, seen, last)
    {
      hide DetailSpec.Expire, DetailSpec.Forget, Examined, Stored;
      if cancelled || closed {
        var _ := ExpireLocked(now);
        return Err(LeaderUnavailable);
      }
      if status.None? || status.value.nodeInfo.name != node || revision == 0 {
        var _ := ExpireLocked(now);
        return Err(BadPublication);
      }
      if uid.None? || uid.value == "" {
        var _ := ExpireLocked(now);
        ForgetLocked(node, tick);
        clock := seen;
        return Err(NoIdentity);
      }
      var reuse := ExamineLocked(node, uid.value, now, tick, seen);
      out := StoreLegacyLocked(node, status.value, revision, identity, base, uid.value, reuse, newId, addr, seen, last);
    }

    method ReadLegacyBase(node: string, revision: nat, uid: Resolved, seen: Time, tick: string -> Time, last: Time)
      returns (base: Option<(StatusPtr, Option<Digest>)>)
      requires WellFormed(View())
      modifies this, cache
      ensures (View(), base) == LegacyBase(old(View()), node, revision, uid, seen, tick, last)
    {
      hide DetailSpec.Forget;
      if cancelled || closed {
        return None;
      }
      clock := seen;
      var s := cache.Get(node, seen);
      if s.None? || s.value.legacyRevision == 0 || s.value.legacyRevision != revision {
        return None;
      }
      if s.value.requestId !in requests || uid != Some(heap[s.value.requestId].uid) {
        ForgetLocked(node, tick);
        clock := last;
        return None;
      }
      base := Some((s.value.status, s.value.peerIdentity));
    }

    /** The end of the run loop, after leadership was lost. */
    method CloseLocked()
      requires WellFormed(View())
      modifies this, cache
      ensures View() == Shutdown(old(View()))
    {
      closed := true;
      heap := map id | id in heap :: if id in requests then heap[id].(ctx := heap[id].ctx.Cancel()) else heap[id];
      requests := {};
      active := map[];
      cache.Clear();
      Wake();
    }
  }

  /** Makes a manager over the cache, unless the timeout is not positive; what it makes is a valid start of any run. */
  method NewNodeDetailRequests(cache: NodeDetailCache, timeout: Time, now: Time) returns (m: Option<NodeDetailRequests>)
    requires cache.ttl > 0
    modifies cache
    ensures m.Some? <==> timeout > 0
    ensures m.Some? ==> fresh(m.value) && m.value.cache == cache && DetailInvariant.Inv(m.value.View())
    ensures m.None? ==> unchanged(cache)
  {
    if timeout <= 0 {
      return None;
    }
    DetailInvariant.NewIsValid(timeout, cache.ttl, now);
    var manager := new NodeDetailRequests(cache, timeout, now);
    return Some(manager);
  }
}
